/** The wire format of EPaxos messages. Dependency sets travel as counted lists in
    ascending order. */
module EpaxosCodec {
  import opened Wrappers
  import opened Codec
  import RaftTypes
  import opened EpaxosModel

  // ---- sets as ascending lists ----

  lemma {:induction false} HasLeast(s: Deps)
    requires s != {}
    ensures exists m :: IsLeast(s, m)
    decreases |s|
  {
    var x :| x in s;
    if s == {x} {
      assert IsLeast(s, x);
    } else {
      var rest := s - {x};
      assert s == rest + {x} && rest != {};
      HasLeast(rest);
      var m :| IsLeast(rest, m);
      assert IsLeast(s, if InstanceLess(x, m) then x else m);
    }
  }

  predicate IsLeast(s: Deps, m: Instance) {
    m in s && forall x {:trigger x in s} :: x in s && x != m ==> InstanceLess(m, x)
  }

  function Ascending(s: Deps): (q: seq<Instance>)
    ensures |q| == |s| && forall i :: i in q <==> i in s
    ensures forall j, k :: 0 <= j < k < |q| ==> InstanceLess(q[j], q[k])
    decreases |s|
  {
    if s == {} then []
    else
      HasLeast(s);
      var m :| IsLeast(s, m);
      var rest := Ascending(s - {m});
      assert forall k :: 0 <= k < |rest| ==> rest[k] in s - {m};
      [m] + rest
  }

  // ---- what is written ----

  function InstanceTokens(i: Instance): seq<Token> {
    NumTokens([i.replica, i.slot])
  }

  function InstancesTokens(q: seq<Instance>): seq<Token> {
    if q == [] then [] else InstanceTokens(q[0]) + InstancesTokens(q[1..])
  }

  function DepsTokens(s: Deps): seq<Token> {
    [Num(|s|)] + InstancesTokens(Ascending(s))
  }

  function MessageTokens(m: Message): seq<Token> {
    match m
    case PreAccept(i, ballot, command, seqNo, deps) =>
      [Tag(0)] + (InstanceTokens(i) + ([Num(ballot)] + ([Blob(command)] + ([Num(seqNo)] + DepsTokens(deps)))))
    case PreAcceptReply(i, ballot, seqNo, deps) =>
      [Tag(1)] + (InstanceTokens(i) + ([Num(ballot)] + ([Num(seqNo)] + DepsTokens(deps))))
    case Accept(i, ballot, command, seqNo, deps) =>
      [Tag(2)] + (InstanceTokens(i) + ([Num(ballot)] + ([Blob(command)] + ([Num(seqNo)] + DepsTokens(deps)))))
    case AcceptReply(i, ballot) => [Tag(3)] + (InstanceTokens(i) + ([Num(ballot)] + []))
    case Commit(i, command, seqNo, deps) =>
      [Tag(4)] + (InstanceTokens(i) + ([Blob(command)] + ([Num(seqNo)] + DepsTokens(deps))))
  }

  function EncodeMessage(m: Message): Bytes {
    Flat(MessageTokens(m))
  }

  // ---- what is read ----

  function ReadInstance(input: Bytes): Reading<Instance> {
    match ReadNums(input, 2)
    case Err(e) => Err(e)
    case Ok((x, left)) => Ok((Instance(x[0], x[1]), left))
  }

  function ReadInstances(input: Bytes, n: nat): Reading<Deps>
    decreases n
  {
    if n == 0 then Ok(({}, input))
    else
      match ReadInstance(input)
      case Err(e) => Err(e)
      case Ok((x, rest)) =>
        match ReadInstances(rest, n - 1)
        case Err(e) => Err(e)
        case Ok((s, left)) => Ok(({x} + s, left))
  }

  function ReadDeps(input: Bytes): Reading<Deps> {
    match ReadU64(input)
    case Err(e) => Err(e)
    case Ok((n, rest)) => ReadInstances(rest, n)
  }

  /** Sequence number and dependencies, the end of most messages. */
  function ReadAttributes(input: Bytes): Reading<(nat, Deps)> {
    match ReadU64(input)
    case Err(e) => Err(e)
    case Ok((seqNo, rest)) =>
      match ReadDeps(rest)
      case Err(e) => Err(e)
      case Ok((deps, left)) => Ok(((seqNo, deps), left))
  }

  /** A command, then its attributes. */
  function ReadCommand(input: Bytes): Reading<(Bytes, (nat, Deps))> {
    match ReadBytes(input)
    case Err(e) => Err(e)
    case Ok((command, rest)) =>
      match ReadAttributes(rest)
      case Err(e) => Err(e)
      case Ok((a, left)) => Ok(((command, a), left))
  }

  function ReadBody(tag: RaftTypes.Byte, i: Instance, input: Bytes): Reading<Message> {
    if tag == 0 || tag == 2 then
      (match ReadU64(input)
       case Err(e) => Err(e)
       case Ok((ballot, rest)) =>
         match ReadCommand(rest)
         case Err(e) => Err(e)
         case Ok((c, left)) =>
           Ok((if tag == 0 then PreAccept(i, ballot, c.0, c.1.0, c.1.1)
               else Accept(i, ballot, c.0, c.1.0, c.1.1), left)))
    else if tag == 1 then
      (match ReadU64(input)
       case Err(e) => Err(e)
       case Ok((ballot, rest)) =>
         match ReadAttributes(rest)
         case Err(e) => Err(e)
         case Ok((a, left)) => Ok((PreAcceptReply(i, ballot, a.0, a.1), left)))
    else if tag == 3 then
      (match ReadU64(input)
       case Err(e) => Err(e)
       case Ok((ballot, left)) => Ok((AcceptReply(i, ballot), left)))
    else
      (match ReadCommand(input)
       case Err(e) => Err(e)
       case Ok((c, left)) => Ok((Commit(i, c.0, c.1.0, c.1.1), left)))
  }

  function DecodeMessage(buf: Bytes): Result<Message, DecodeError> {
    match ReadU8(buf)
    case Err(e) => Err(e)
    case Ok((tag, r1)) =>
      if tag > 4 then Err(BadTag)
      else
        match ReadInstance(r1)
        case Err(e) => Err(e)
        case Ok((i, r2)) =>
          match ReadBody(tag, i, r2)
          case Err(e) => Err(e)
          case Ok((m, _)) => Ok(m)
  }

  // ---- reading what was written ----

  ghost predicate InstanceFits(i: Instance) {
    AllU64([i.replica, i.slot])
  }

  ghost predicate DepsFit(s: Deps) {
    U64(|s|) && forall i {:trigger i in s} :: i in s ==> InstanceFits(i)
  }

  ghost predicate MessageFits(m: Message) {
    && InstanceFits(m.instance)
    && (m.PreAccept? || m.PreAcceptReply? || m.Accept? || m.AcceptReply? ==> U64(m.ballot))
    && (m.PreAccept? || m.Accept? || m.Commit? ==> U64(|m.command|))
    && (!m.AcceptReply? ==> U64(m.seqNo) && DepsFit(m.deps))
  }

  lemma InstanceStep(input: Bytes, i: Instance, ts: seq<Token>, whole: bool, post: Bytes)
    requires Feeds(input, InstanceTokens(i) + ts, whole, post) && InstanceFits(i)
    ensures Reads(ReadInstance(input), i, ts, whole, post)
  {
    NumsStep(input, [i.replica, i.slot], ts, whole, post);
  }

  lemma {:induction false} InstancesStep(input: Bytes, q: seq<Instance>, ts: seq<Token>, whole: bool, post: Bytes)
    requires Feeds(input, InstancesTokens(q) + ts, whole, post)
    requires forall k {:trigger q[k]} :: 0 <= k < |q| ==> InstanceFits(q[k])
    ensures Reads(ReadInstances(input, |q|), (set i | i in q), ts, whole, post)
    decreases |q|
  {
    if q == [] {
      assert InstancesTokens(q) + ts == ts;
      assert (set i | i in q) == {};
    } else {
      var more := InstancesTokens(q[1..]) + ts;
      assert InstancesTokens(q) + ts == InstanceTokens(q[0]) + more;
      InstanceStep(input, q[0], more, whole, post);
      var r := ReadInstance(input);
      if r.Ok? {
        InstancesStep(r.value.1, q[1..], ts, whole, post);
        assert (set i | i in q) == {q[0]} + (set i | i in q[1..]);
      }
    }
  }

  lemma DepsStep(input: Bytes, s: Deps, whole: bool, post: Bytes)
    requires Feeds(input, DepsTokens(s), whole, post) && DepsFit(s)
    ensures Reads(ReadDeps(input), s, [], whole, post)
  {
    var q := Ascending(s);
    assert InstancesTokens(q) == InstancesTokens(q) + [];
    NumStep(input, |s|, InstancesTokens(q), whole, post);
    var r := ReadU64(input);
    if r.Ok? {
      forall k | 0 <= k < |q| ensures InstanceFits(q[k]) { assert q[k] in s; }
      InstancesStep(r.value.1, q, [], whole, post);
      assert (set i | i in q) == s;
    }
  }

  lemma AttributesStep(input: Bytes, seqNo: nat, deps: Deps, whole: bool, post: Bytes)
    requires Feeds(input, [Num(seqNo)] + DepsTokens(deps), whole, post) && U64(seqNo) && DepsFit(deps)
    ensures Reads(ReadAttributes(input), (seqNo, deps), [], whole, post)
  {
    NumStep(input, seqNo, DepsTokens(deps), whole, post);
    var r := ReadU64(input);
    if r.Ok? { DepsStep(r.value.1, deps, whole, post); }
  }

  lemma CommandStep(input: Bytes, command: Bytes, seqNo: nat, deps: Deps, whole: bool, post: Bytes)
    requires Feeds(input, [Blob(command)] + ([Num(seqNo)] + DepsTokens(deps)), whole, post)
    requires U64(|command|) && U64(seqNo) && DepsFit(deps)
    ensures Reads(ReadCommand(input), (command, (seqNo, deps)), [], whole, post)
  {
    BlobStep(input, command, [Num(seqNo)] + DepsTokens(deps), whole, post);
    var r := ReadBytes(input);
    if r.Ok? { AttributesStep(r.value.1, seqNo, deps, whole, post); }
  }

  function Tagged(m: Message): RaftTypes.Byte {
    match m
    case PreAccept(_, _, _, _, _) => 0
    case PreAcceptReply(_, _, _, _) => 1
    case Accept(_, _, _, _, _) => 2
    case AcceptReply(_, _) => 3
    case Commit(_, _, _, _) => 4
  }

  /** What follows the instance. */
  function RestTokens(m: Message): seq<Token> {
    match m
    case PreAccept(_, ballot, command, seqNo, deps) =>
      [Num(ballot)] + ([Blob(command)] + ([Num(seqNo)] + DepsTokens(deps)))
    case PreAcceptReply(_, ballot, seqNo, deps) => [Num(ballot)] + ([Num(seqNo)] + DepsTokens(deps))
    case Accept(_, ballot, command, seqNo, deps) =>
      [Num(ballot)] + ([Blob(command)] + ([Num(seqNo)] + DepsTokens(deps)))
    case AcceptReply(_, ballot) => [Num(ballot)] + []
    case Commit(_, command, seqNo, deps) => [Blob(command)] + ([Num(seqNo)] + DepsTokens(deps))
  }

  lemma BodyStep(input: Bytes, m: Message, whole: bool, post: Bytes)
    requires MessageFits(m) && Feeds(input, RestTokens(m), whole, post)
    ensures Reads(ReadBody(Tagged(m), m.instance, input), m, [], whole, post)
  {
    match m
    case Commit(_, command, seqNo, deps) => CommandStep(input, command, seqNo, deps, whole, post);
    case AcceptReply(_, ballot) => NumStep(input, ballot, [], whole, post);
    case PreAcceptReply(_, ballot, seqNo, deps) => ReplyStep(input, ballot, seqNo, deps, whole, post);
    case PreAccept(_, ballot, command, seqNo, deps) => BallotStep(input, ballot, command, seqNo, deps, whole, post);
    case Accept(_, ballot, command, seqNo, deps) => BallotStep(input, ballot, command, seqNo, deps, whole, post);
  }

  lemma ReplyStep(input: Bytes, ballot: nat, seqNo: nat, deps: Deps, whole: bool, post: Bytes)
    requires Feeds(input, [Num(ballot)] + ([Num(seqNo)] + DepsTokens(deps)), whole, post)
    requires U64(ballot) && U64(seqNo) && DepsFit(deps)
    ensures Reads(ReadU64(input), ballot, [Num(seqNo)] + DepsTokens(deps), whole, post)
    ensures ReadU64(input).Ok? ==> Reads(ReadAttributes(ReadU64(input).value.1), (seqNo, deps), [], whole, post)
  {
    NumStep(input, ballot, [Num(seqNo)] + DepsTokens(deps), whole, post);
    var r := ReadU64(input);
    if r.Ok? { AttributesStep(r.value.1, seqNo, deps, whole, post); }
  }

  lemma BallotStep(input: Bytes, ballot: nat, command: Bytes, seqNo: nat, deps: Deps, whole: bool, post: Bytes)
    requires Feeds(input, [Num(ballot)] + ([Blob(command)] + ([Num(seqNo)] + DepsTokens(deps))), whole, post)
    requires U64(ballot) && U64(|command|) && U64(seqNo) && DepsFit(deps)
    ensures Reads(ReadU64(input), ballot, [Blob(command)] + ([Num(seqNo)] + DepsTokens(deps)), whole, post)
    ensures ReadU64(input).Ok? ==> Reads(ReadCommand(ReadU64(input).value.1), (command, (seqNo, deps)), [], whole, post)
  {
    NumStep(input, ballot, [Blob(command)] + ([Num(seqNo)] + DepsTokens(deps)), whole, post);
    var r := ReadU64(input);
    if r.Ok? { CommandStep(r.value.1, command, seqNo, deps, whole, post); }
  }

  lemma MessageStep(input: Bytes, m: Message, whole: bool, post: Bytes)
    requires MessageFits(m) && Feeds(input, MessageTokens(m), whole, post)
    ensures if whole then DecodeMessage(input) == Ok(m) else DecodeMessage(input).Err?
  {
    TagStep(input, Tagged(m), InstanceTokens(m.instance) + RestTokens(m), whole, post);
    var r := ReadU8(input);
    if r.Ok? {
      InstanceStep(r.value.1, m.instance, RestTokens(m), whole, post);
      var s := ReadInstance(r.value.1);
      if s.Ok? { BodyStep(s.value.1, m, whole, post); }
    }
  }

  /** Decoding an encoded message gives it back, whatever follows it. */
  lemma MessageRoundTrip(m: Message, post: Bytes)
    requires MessageFits(m)
    ensures DecodeMessage(EncodeMessage(m) + post) == Ok(m)
  {
    MessageStep(EncodeMessage(m) + post, m, true, post);
  }

  /** Every strict prefix of an encoded message is rejected. */
  lemma MessageTruncated(m: Message, k: nat)
    requires MessageFits(m) && k < |EncodeMessage(m)|
    ensures DecodeMessage(EncodeMessage(m)[..k]).Err?
  {
    MessageStep(EncodeMessage(m)[..k], m, false, []);
  }

  function Kind(m: Message): RaftTypes.Byte {
    match m
    case PreAccept(_, _, _, _, _) => 0
    case PreAcceptReply(_, _, _, _) => 1
    case Accept(_, _, _, _, _) => 2
    case AcceptReply(_, _) => 3
    case Commit(_, _, _, _) => 4
  }

  /** The first byte tells the kind, the next eight are the replica that leads the instance. */
  lemma MessageStarts(m: Message)
    requires MessageFits(m)
    ensures |EncodeMessage(m)| >= 9 && EncodeMessage(m)[0] == Kind(m)
    ensures Weighted(EncodeMessage(m)[1..9]) == m.instance.replica
  {
    var ts, i := MessageTokens(m), m.instance;
    assert InstanceTokens(i)[0] == Num(i.replica) && [i.replica, i.slot][0] == i.replica;
    assert |ts| >= 2 && ts[0] == Tag(Kind(m)) && ts[1] == Num(i.replica);
    FlatStarts(ts, Kind(m), i.replica);
  }
}
