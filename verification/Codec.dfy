/** The wire format of Raft messages and log entries: what the encoder writes, what the
    decoder reads, and why decoding undoes encoding and rejects every truncated frame. */
module Codec {
  import opened Wrappers
  import opened RaftTypes

  // ---- numbers ----

  ghost function Pow256(k: nat): nat {
    if k == 0 then 1 else 256 * Pow256(k - 1)
  }

  /** The low `k` bytes of `n`, most significant first. */
  function BigEndian(n: nat, k: nat): (r: Bytes)
    ensures |r| == k
  {
    if k == 0 then [] else BigEndian(n / 256, k - 1) + [n % 256]
  }

  function FromBigEndian(bs: Bytes): nat {
    if bs == [] then 0 else FromBigEndian(bs[..|bs| - 1]) * 256 + bs[|bs| - 1]
  }

  lemma {:induction false} BigEndianBack(n: nat, k: nat)
    requires n < Pow256(k)
    ensures FromBigEndian(BigEndian(n, k)) == n
    decreases k
  {
    if k > 0 {
      BigEndianBack(n / 256, k - 1);
      assert BigEndian(n, k)[..k - 1] == BigEndian(n / 256, k - 1);
    }
  }

  /** Each byte times its power of 256, the first the most significant. */
  ghost function Weighted(bs: Bytes): nat {
    if bs == [] then 0 else bs[0] * Pow256(|bs| - 1) + Weighted(bs[1..])
  }

  lemma {:induction false} WeightedLast(bs: Bytes, b: Byte)
    ensures Weighted(bs + [b]) == Weighted(bs) * 256 + b
  {
    var all := bs + [b];
    if bs == [] {
      assert all[1..] == [];
    } else {
      WeightedLast(bs[1..], b);
      assert all[1..] == bs[1..] + [b];
      WeightShift(bs[0], Pow256(|bs| - 1), Weighted(bs[1..]), b);
    }
  }

  lemma WeightShift(x: nat, p: nat, w: nat, b: nat)
    ensures x * (256 * p) + (w * 256 + b) == (x * p + w) * 256 + b
  {
  }

  /** The bytes of a number add up to it. */
  lemma {:induction false} BigEndianWeighs(n: nat, k: nat)
    requires n < Pow256(k)
    ensures Weighted(BigEndian(n, k)) == n
    decreases k
  {
    if k > 0 {
      BigEndianWeighs(n / 256, k - 1);
      WeightedLast(BigEndian(n / 256, k - 1), n % 256);
    }
  }

  const U64_LIMIT: nat := 0x1_0000_0000_0000_0000

  predicate U64(n: nat) {
    n < U64_LIMIT
  }

  lemma U64Back(n: nat)
    requires U64(n)
    ensures FromBigEndian(BigEndian(n, 8)) == n
  {
    assert Pow256(8) == U64_LIMIT;
    BigEndianBack(n, 8);
  }

  // ---- tokens: what both sides agree to write and read ----

  /** A byte, a 64-bit number, or bytes preceded by their length. */
  datatype Token = Tag(b: Byte) | Num(n: nat) | Blob(bs: Bytes)

  function TokenBytes(t: Token): Bytes {
    match t
    case Tag(b) => [b]
    case Num(n) => BigEndian(n, 8)
    case Blob(bs) => BigEndian(|bs|, 8) + bs
  }

  function Flat(ts: seq<Token>): Bytes {
    if ts == [] then [] else TokenBytes(ts[0]) + Flat(ts[1..])
  }

  // ---- what is written ----

  function NumTokens(ns: seq<nat>): (r: seq<Token>)
    ensures |r| == |ns| && forall k :: 0 <= k < |ns| ==> r[k] == Num(ns[k])
  {
    seq(|ns|, k requires 0 <= k < |ns| => Num(ns[k]))
  }

  function IdTokens(ids: seq<ReplicaId>): seq<Token> {
    [Num(|ids|)] + NumTokens(ids)
  }

  function ConfTokens(c: ConfState): seq<Token> {
    match c
    case Simple(v) => [Tag(0)] + IdTokens(v)
    case Joint(o, n) => [Tag(1)] + (IdTokens(o) + IdTokens(n))
  }

  function PayloadTokens(p: EntryPayload): seq<Token> {
    match p
    case Command(c) => [Tag(0), Blob(c)]
    case Noop => [Tag(1)]
    case Config(c) => [Tag(2)] + ConfTokens(c)
  }

  function EntryTokens(e: Entry): seq<Token> {
    [Num(e.term), Num(e.index)] + PayloadTokens(e.payload)
  }

  function EntriesTokens(es: seq<Entry>): seq<Token> {
    if es == [] then [] else EntryTokens(es[0]) + EntriesTokens(es[1..])
  }

  function BoolByte(b: bool): Byte {
    if b then 1 else 0
  }

  function MessageTokens(m: Message): seq<Token> {
    match m
    case RequestVote(term, candidate, lli, llt) => [Tag(0), Num(term), Num(candidate), Num(lli), Num(llt)]
    case RequestVoteResp(term, granted) => [Tag(1), Num(term), Tag(BoolByte(granted))]
    case AppendEntries(term, leader, prev, prevTerm, entries, commit, readSeq) =>
      [Tag(2), Num(term), Num(leader), Num(prev), Num(prevTerm), Num(|entries|)]
      + (EntriesTokens(entries) + [Num(commit), Num(readSeq)])
    case AppendEntriesResp(term, success, matched, conflict, readSeq) =>
      [Tag(3), Num(term), Tag(BoolByte(success)), Num(matched), Num(conflict), Num(readSeq)]
    case InstallSnapshot(term, leader, index, indexTerm, conf, data, readSeq) =>
      [Tag(4), Num(term), Num(leader), Num(index), Num(indexTerm)] + (ConfTokens(conf) + [Blob(data), Num(readSeq)])
  }

  function EncodeMessage(m: Message): Bytes {
    Flat(MessageTokens(m))
  }

  function EncodeEntry(e: Entry): Bytes {
    Flat(EntryTokens(e))
  }

  // ---- what is read ----

  datatype DecodeError = Eof | BadTag

  /** A value and what is left of the input. */
  type Reading<T> = Result<(T, Bytes), DecodeError>

  function ReadU8(input: Bytes): Reading<Byte> {
    if input == [] then Err(Eof) else Ok((input[0], input[1..]))
  }

  function ReadU64(input: Bytes): Reading<nat> {
    if |input| < 8 then Err(Eof) else Ok((FromBigEndian(input[..8]), input[8..]))
  }

  function ReadBytes(input: Bytes): Reading<Bytes> {
    match ReadU64(input)
    case Err(e) => Err(e)
    case Ok((n, rest)) => if |rest| < n then Err(Eof) else Ok((rest[..n], rest[n..]))
  }

  function ReadNums(input: Bytes, n: nat): (r: Reading<seq<nat>>)
    ensures r.Ok? ==> |r.value.0| == n
    decreases n
  {
    if n == 0 then Ok(([], input))
    else
      match ReadU64(input)
      case Err(e) => Err(e)
      case Ok((x, rest)) =>
        match ReadNums(rest, n - 1)
        case Err(e) => Err(e)
        case Ok((xs, left)) => Ok(([x] + xs, left))
  }

  function ReadIds(input: Bytes): Reading<seq<ReplicaId>> {
    match ReadU64(input)
    case Err(e) => Err(e)
    case Ok((n, rest)) => ReadNums(rest, n)
  }

  function ReadConf(input: Bytes): Reading<ConfState> {
    match ReadU8(input)
    case Err(e) => Err(e)
    case Ok((tag, rest)) =>
      if tag == 0 then
        (match ReadIds(rest)
         case Err(e) => Err(e)
         case Ok((v, left)) => Ok((Simple(v), left)))
      else if tag == 1 then
        (match ReadIds(rest)
         case Err(e) => Err(e)
         case Ok((o, mid)) =>
           match ReadIds(mid)
           case Err(e) => Err(e)
           case Ok((n, left)) => Ok((Joint(o, n), left)))
      else Err(BadTag)
  }

  function ReadPayload(input: Bytes): Reading<EntryPayload> {
    match ReadU8(input)
    case Err(e) => Err(e)
    case Ok((tag, rest)) =>
      if tag == 0 then
        (match ReadBytes(rest) case Err(e) => Err(e) case Ok((c, left)) => Ok((Command(c), left)))
      else if tag == 1 then Ok((Noop, rest))
      else if tag == 2 then
        (match ReadConf(rest) case Err(e) => Err(e) case Ok((c, left)) => Ok((Config(c), left)))
      else Err(BadTag)
  }

  function ReadEntry(input: Bytes): Reading<Entry> {
    match ReadU64(input)
    case Err(e) => Err(e)
    case Ok((term, r1)) =>
      match ReadU64(r1)
      case Err(e) => Err(e)
      case Ok((index, r2)) =>
        match ReadPayload(r2)
        case Err(e) => Err(e)
        case Ok((payload, left)) => Ok((Entry(term, index, payload), left))
  }

  function ReadEntries(input: Bytes, n: nat): Reading<seq<Entry>>
    decreases n
  {
    if n == 0 then Ok(([], input))
    else
      match ReadEntry(input)
      case Err(e) => Err(e)
      case Ok((x, rest)) =>
        match ReadEntries(rest, n - 1)
        case Err(e) => Err(e)
        case Ok((xs, left)) => Ok(([x] + xs, left))
  }

  /** The fields after a message's tag. */
  function ReadBody(tag: Byte, input: Bytes): Reading<Message> {
    if tag == 0 then
      (match ReadNums(input, 4)
       case Err(e) => Err(e)
       case Ok((x, left)) => Ok((RequestVote(x[0], x[1], x[2], x[3]), left)))
    else if tag == 1 then
      (match ReadU64(input)
       case Err(e) => Err(e)
       case Ok((term, rest)) =>
         match ReadU8(rest)
         case Err(e) => Err(e)
         case Ok((granted, left)) => Ok((RequestVoteResp(term, granted != 0), left)))
    else if tag == 2 then ReadAppendEntries(input)
    else if tag == 3 then
      (match ReadU64(input)
       case Err(e) => Err(e)
       case Ok((term, r1)) =>
         match ReadU8(r1)
         case Err(e) => Err(e)
         case Ok((success, r2)) =>
           match ReadNums(r2, 3)
           case Err(e) => Err(e)
           case Ok((x, left)) => Ok((AppendEntriesResp(term, success != 0, x[0], x[1], x[2]), left)))
    else if tag == 4 then ReadInstallSnapshot(input)
    else Err(BadTag)
  }

  function ReadAppendEntries(input: Bytes): Reading<Message> {
    match ReadNums(input, 5)
    case Err(e) => Err(e)
    case Ok((x, r1)) =>
      match ReadEntries(r1, x[4])
      case Err(e) => Err(e)
      case Ok((entries, r2)) =>
        match ReadNums(r2, 2)
        case Err(e) => Err(e)
        case Ok((y, left)) => Ok((AppendEntries(x[0], x[1], x[2], x[3], entries, y[0], y[1]), left))
  }

  function ReadInstallSnapshot(input: Bytes): Reading<Message> {
    match ReadNums(input, 4)
    case Err(e) => Err(e)
    case Ok((x, r1)) =>
      match ReadConf(r1)
      case Err(e) => Err(e)
      case Ok((conf, r2)) =>
        match ReadBytes(r2)
        case Err(e) => Err(e)
        case Ok((data, r3)) =>
          match ReadU64(r3)
          case Err(e) => Err(e)
          case Ok((readSeq, left)) => Ok((InstallSnapshot(x[0], x[1], x[2], x[3], conf, data, readSeq), left))
  }

  /** Bytes after the message are left alone. */
  function DecodeMessage(buf: Bytes): Result<Message, DecodeError> {
    match ReadU8(buf)
    case Err(e) => Err(e)
    case Ok((tag, rest)) =>
      match ReadBody(tag, rest)
      case Err(e) => Err(e)
      case Ok((m, _)) => Ok(m)
  }

  function DecodeEntry(buf: Bytes): Result<Entry, DecodeError> {
    match ReadEntry(buf)
    case Err(e) => Err(e)
    case Ok((x, _)) => Ok(x)
  }

  // ---- reading what was written ----

  /** The input holds exactly these tokens and then `post`; or (not `whole`) it stops short of their end. */
  ghost predicate Feeds(input: Bytes, ts: seq<Token>, whole: bool, post: Bytes) {
    if whole then input == Flat(ts) + post else |input| < |Flat(ts)| && input == Flat(ts)[..|input|]
  }

  /** `r` reads `x` and leaves the rest of the tokens; on a whole input it does not fail. */
  ghost predicate Reads<T(!new)>(r: Reading<T>, x: T, ts: seq<Token>, whole: bool, post: Bytes) {
    (whole ==> r.Ok?) && (r.Ok? ==> r.value.0 == x && Feeds(r.value.1, ts, whole, post))
  }

  lemma FeedsOne(input: Bytes, t: Token, ts: seq<Token>, whole: bool, post: Bytes)
    requires Feeds(input, [t] + ts, whole, post)
    ensures var k := |TokenBytes(t)|;
            && (whole ==> k <= |input|)
            && (k <= |input| ==> input[..k] == TokenBytes(t) && Feeds(input[k..], ts, whole, post))
            && (k > |input| ==> input == TokenBytes(t)[..|input|])
  {
    assert ([t] + ts)[1..] == ts;
    var all, k := TokenBytes(t) + Flat(ts), |TokenBytes(t)|;
    if whole {
      assert input == TokenBytes(t) + (Flat(ts) + post);
    } else if k <= |input| {
      assert all[..|input|] == TokenBytes(t) + Flat(ts)[..|input| - k];
    }
  }

  lemma TagStep(input: Bytes, b: Byte, ts: seq<Token>, whole: bool, post: Bytes)
    requires Feeds(input, [Tag(b)] + ts, whole, post)
    ensures Reads(ReadU8(input), b, ts, whole, post)
  {
    FeedsOne(input, Tag(b), ts, whole, post);
    if input != [] { assert input[..1][0] == b; }
  }

  lemma NumStep(input: Bytes, n: nat, ts: seq<Token>, whole: bool, post: Bytes)
    requires Feeds(input, [Num(n)] + ts, whole, post) && U64(n)
    ensures Reads(ReadU64(input), n, ts, whole, post)
  {
    FeedsOne(input, Num(n), ts, whole, post);
    U64Back(n);
  }

  lemma BlobStep(input: Bytes, bs: Bytes, ts: seq<Token>, whole: bool, post: Bytes)
    requires Feeds(input, [Blob(bs)] + ts, whole, post) && U64(|bs|)
    ensures Reads(ReadBytes(input), bs, ts, whole, post)
  {
    FeedsOne(input, Blob(bs), ts, whole, post);
    U64Back(|bs|);
    var t := TokenBytes(Blob(bs));
    if |t| <= |input| {
      assert input[..8] == t[..8] == BigEndian(|bs|, 8);
      assert input[8..][..|bs|] == input[..|t|][8..] == bs && input[8..][|bs|..] == input[|t|..];
    } else if 8 <= |input| {
      assert input[..8] == t[..8] == BigEndian(|bs|, 8);
    }
  }

  ghost predicate AllU64(ns: seq<nat>) {
    forall k {:trigger ns[k]} :: 0 <= k < |ns| ==> U64(ns[k])
  }

  lemma {:induction false} NumsStep(input: Bytes, ns: seq<nat>, ts: seq<Token>, whole: bool, post: Bytes)
    requires Feeds(input, NumTokens(ns) + ts, whole, post) && AllU64(ns)
    ensures Reads(ReadNums(input, |ns|), ns, ts, whole, post)
    decreases |ns|
  {
    if ns == [] {
      assert NumTokens(ns) + ts == ts;
    } else {
      var more := NumTokens(ns[1..]) + ts;
      assert NumTokens(ns) + ts == [Num(ns[0])] + more;
      NumStep(input, ns[0], more, whole, post);
      var r := ReadU64(input);
      if r.Ok? {
        NumsStep(r.value.1, ns[1..], ts, whole, post);
        assert [ns[0]] + ns[1..] == ns;
      }
    }
  }

  lemma IdsStep(input: Bytes, ids: seq<ReplicaId>, ts: seq<Token>, whole: bool, post: Bytes)
    requires Feeds(input, IdTokens(ids) + ts, whole, post) && AllU64(ids) && U64(|ids|)
    ensures Reads(ReadIds(input), ids, ts, whole, post)
  {
    assert IdTokens(ids) + ts == [Num(|ids|)] + (NumTokens(ids) + ts);
    NumStep(input, |ids|, NumTokens(ids) + ts, whole, post);
    var r := ReadU64(input);
    if r.Ok? { NumsStep(r.value.1, ids, ts, whole, post); }
  }

  // ---- what fits the format ----

  ghost predicate ConfFits(c: ConfState) {
    match c
    case Simple(v) => AllU64(v) && U64(|v|)
    case Joint(o, n) => AllU64(o) && U64(|o|) && AllU64(n) && U64(|n|)
  }

  ghost predicate PayloadFits(p: EntryPayload) {
    match p
    case Command(c) => U64(|c|)
    case Noop => true
    case Config(c) => ConfFits(c)
  }

  ghost predicate EntryFits(e: Entry) {
    U64(e.term) && U64(e.index) && PayloadFits(e.payload)
  }

  ghost predicate EntriesFit(es: seq<Entry>) {
    forall k {:trigger es[k]} :: 0 <= k < |es| ==> EntryFits(es[k])
  }

  ghost predicate MessageFits(m: Message) {
    match m
    case RequestVote(a, b, c, d) => AllU64([a, b, c, d])
    case RequestVoteResp(a, _) => U64(a)
    case AppendEntries(a, b, c, d, entries, e, f) =>
      AllU64([a, b, c, d, |entries|]) && EntriesFit(entries) && AllU64([e, f])
    case AppendEntriesResp(a, _, b, c, d) => U64(a) && AllU64([b, c, d])
    case InstallSnapshot(a, b, c, d, conf, data, e) => AllU64([a, b, c, d]) && ConfFits(conf) && U64(|data|) && U64(e)
  }

  lemma ConfStep(input: Bytes, c: ConfState, ts: seq<Token>, whole: bool, post: Bytes)
    requires Feeds(input, ConfTokens(c) + ts, whole, post) && ConfFits(c)
    ensures Reads(ReadConf(input), c, ts, whole, post)
  {
    var tag: Byte := if c.Simple? then 0 else 1;
    var more := if c.Simple? then IdTokens(c.voters) + ts else IdTokens(c.outgoing) + (IdTokens(c.incoming) + ts);
    assert ConfTokens(c) + ts == [Tag(tag)] + more;
    TagStep(input, tag, more, whole, post);
    var r := ReadU8(input);
    if r.Ok? {
      if c.Simple? {
        IdsStep(r.value.1, c.voters, ts, whole, post);
      } else {
        IdsStep(r.value.1, c.outgoing, IdTokens(c.incoming) + ts, whole, post);
        var s := ReadIds(r.value.1);
        if s.Ok? { IdsStep(s.value.1, c.incoming, ts, whole, post); }
      }
    }
  }

  lemma PayloadStep(input: Bytes, p: EntryPayload, ts: seq<Token>, whole: bool, post: Bytes)
    requires Feeds(input, PayloadTokens(p) + ts, whole, post) && PayloadFits(p)
    ensures Reads(ReadPayload(input), p, ts, whole, post)
  {
    var tag: Byte := if p.Command? then 0 else if p.Noop? then 1 else 2;
    var more := if p.Command? then [Blob(p.command)] + ts else if p.Noop? then ts else ConfTokens(p.conf) + ts;
    assert PayloadTokens(p) + ts == [Tag(tag)] + more;
    TagStep(input, tag, more, whole, post);
    var r := ReadU8(input);
    if r.Ok? {
      match p
      case Command(c) => BlobStep(r.value.1, c, ts, whole, post);
      case Noop =>
      case Config(c) => ConfStep(r.value.1, c, ts, whole, post);
    }
  }

  lemma EntryStep(input: Bytes, e: Entry, ts: seq<Token>, whole: bool, post: Bytes)
    requires Feeds(input, EntryTokens(e) + ts, whole, post) && EntryFits(e)
    ensures Reads(ReadEntry(input), e, ts, whole, post)
  {
    var rest := PayloadTokens(e.payload) + ts;
    assert EntryTokens(e) + ts == [Num(e.term)] + ([Num(e.index)] + rest);
    NumStep(input, e.term, [Num(e.index)] + rest, whole, post);
    var r := ReadU64(input);
    if r.Ok? {
      NumStep(r.value.1, e.index, rest, whole, post);
      var s := ReadU64(r.value.1);
      if s.Ok? { PayloadStep(s.value.1, e.payload, ts, whole, post); }
    }
  }

  lemma {:induction false} EntriesStep(input: Bytes, es: seq<Entry>, ts: seq<Token>, whole: bool, post: Bytes)
    requires Feeds(input, EntriesTokens(es) + ts, whole, post) && EntriesFit(es)
    ensures Reads(ReadEntries(input, |es|), es, ts, whole, post)
    decreases |es|
  {
    if es == [] {
      assert EntriesTokens(es) + ts == ts;
    } else {
      var more := EntriesTokens(es[1..]) + ts;
      assert EntriesTokens(es) + ts == EntryTokens(es[0]) + more;
      EntryStep(input, es[0], more, whole, post);
      var r := ReadEntry(input);
      if r.Ok? {
        assert forall k :: 0 <= k < |es| - 1 ==> es[1..][k] == es[k + 1];
        EntriesStep(r.value.1, es[1..], ts, whole, post);
        assert [es[0]] + es[1..] == es;
      }
    }
  }

  // ---- messages ----

  function MessageTag(m: Message): Byte {
    match m
    case RequestVote(_, _, _, _) => 0
    case RequestVoteResp(_, _) => 1
    case AppendEntries(_, _, _, _, _, _, _) => 2
    case AppendEntriesResp(_, _, _, _, _) => 3
    case InstallSnapshot(_, _, _, _, _, _, _) => 4
  }

  lemma AppendEntriesStep(input: Bytes, m: Message, whole: bool, post: Bytes)
    requires m.AppendEntries? && MessageFits(m) && Feeds(input, MessageTokens(m)[1..], whole, post)
    ensures Reads(ReadAppendEntries(input), m, [], whole, post)
  {
    var x, y := [m.term, m.leader, m.prevLogIndex, m.prevLogTerm, |m.entries|], [m.leaderCommit, m.readSeq];
    var tail := NumTokens(y) + [];
    assert MessageTokens(m)[1..] == NumTokens(x) + (EntriesTokens(m.entries) + tail);
    NumsStep(input, x, EntriesTokens(m.entries) + tail, whole, post);
    var r := ReadNums(input, 5);
    if r.Ok? {
      EntriesStep(r.value.1, m.entries, tail, whole, post);
      var s := ReadEntries(r.value.1, |m.entries|);
      if s.Ok? { NumsStep(s.value.1, y, [], whole, post); }
    }
  }

  lemma InstallSnapshotStep(input: Bytes, m: Message, whole: bool, post: Bytes)
    requires m.InstallSnapshot? && MessageFits(m) && Feeds(input, MessageTokens(m)[1..], whole, post)
    ensures Reads(ReadInstallSnapshot(input), m, [], whole, post)
  {
    var x := [m.term, m.leader, m.lastIncludedIndex, m.lastIncludedTerm];
    var tail := [Blob(m.data)] + ([Num(m.readSeq)] + []);
    assert MessageTokens(m)[1..] == NumTokens(x) + (ConfTokens(m.lastIncludedConfig) + tail);
    NumsStep(input, x, ConfTokens(m.lastIncludedConfig) + tail, whole, post);
    var r := ReadNums(input, 4);
    if r.Ok? {
      ConfStep(r.value.1, m.lastIncludedConfig, tail, whole, post);
      var s := ReadConf(r.value.1);
      if s.Ok? {
        BlobStep(s.value.1, m.data, [Num(m.readSeq)] + [], whole, post);
        var t := ReadBytes(s.value.1);
        if t.Ok? { NumStep(t.value.1, m.readSeq, [], whole, post); }
      }
    }
  }

  lemma SmallStep(input: Bytes, m: Message, whole: bool, post: Bytes)
    requires (m.RequestVote? || m.RequestVoteResp? || m.AppendEntriesResp?) && MessageFits(m)
    requires Feeds(input, MessageTokens(m)[1..], whole, post)
    ensures Reads(ReadBody(MessageTag(m), input), m, [], whole, post)
  {
    match m
    case RequestVote(a, b, c, d) =>
      assert MessageTokens(m)[1..] == NumTokens([a, b, c, d]) + [];
      NumsStep(input, [a, b, c, d], [], whole, post);
    case RequestVoteResp(a, g) =>
      assert MessageTokens(m)[1..] == [Num(a)] + ([Tag(BoolByte(g))] + []);
      NumStep(input, a, [Tag(BoolByte(g))] + [], whole, post);
      var r := ReadU64(input);
      if r.Ok? { TagStep(r.value.1, BoolByte(g), [], whole, post); }
    case AppendEntriesResp(a, g, b, c, d) =>
      var tail := NumTokens([b, c, d]) + [];
      assert MessageTokens(m)[1..] == [Num(a)] + ([Tag(BoolByte(g))] + tail);
      NumStep(input, a, [Tag(BoolByte(g))] + tail, whole, post);
      var r := ReadU64(input);
      if r.Ok? {
        TagStep(r.value.1, BoolByte(g), tail, whole, post);
        var s := ReadU8(r.value.1);
        if s.Ok? { NumsStep(s.value.1, [b, c, d], [], whole, post); }
      }
  }

  lemma BodyStep(input: Bytes, m: Message, whole: bool, post: Bytes)
    requires MessageFits(m) && Feeds(input, MessageTokens(m)[1..], whole, post)
    ensures Reads(ReadBody(MessageTag(m), input), m, [], whole, post)
  {
    if m.AppendEntries? {
      AppendEntriesStep(input, m, whole, post);
      assert ReadBody(MessageTag(m), input) == ReadAppendEntries(input);
    } else if m.InstallSnapshot? {
      InstallSnapshotStep(input, m, whole, post);
      assert ReadBody(MessageTag(m), input) == ReadInstallSnapshot(input);
    } else {
      SmallStep(input, m, whole, post);
    }
  }

  lemma MessageStep(input: Bytes, m: Message, whole: bool, post: Bytes)
    requires MessageFits(m) && Feeds(input, MessageTokens(m), whole, post)
    ensures if whole then DecodeMessage(input) == Ok(m) else DecodeMessage(input).Err?
  {
    assert MessageTokens(m) == [Tag(MessageTag(m))] + MessageTokens(m)[1..];
    TagStep(input, MessageTag(m), MessageTokens(m)[1..], whole, post);
    var r := ReadU8(input);
    if r.Ok? { BodyStep(r.value.1, m, whole, post); }
  }

  /** Decoding an encoded message gives it back, whatever follows it. */
  lemma MessageRoundTrip(m: Message, post: Bytes)
    requires MessageFits(m)
    ensures DecodeMessage(EncodeMessage(m) + post) == Ok(m)
  {
    MessageStep(EncodeMessage(m) + post, m, true, post);
  }

  /** Every strict prefix of an encoded message is rejected. */
  lemma MessageTruncated(m: Message, k: nat)
    requires MessageFits(m) && k < |EncodeMessage(m)|
    ensures DecodeMessage(EncodeMessage(m)[..k]).Err?
  {
    MessageStep(EncodeMessage(m)[..k], m, false, []);
  }

  lemma EntryRoundTrip(e: Entry, post: Bytes)
    requires EntryFits(e)
    ensures DecodeEntry(EncodeEntry(e) + post) == Ok(e)
  {
    assert EntryTokens(e) + [] == EntryTokens(e);
    EntryStep(EncodeEntry(e) + post, e, [], true, post);
  }

  lemma EntryTruncated(e: Entry, k: nat)
    requires EntryFits(e) && k < |EncodeEntry(e)|
    ensures DecodeEntry(EncodeEntry(e)[..k]).Err?
  {
    assert EntryTokens(e) + [] == EntryTokens(e);
    EntryStep(EncodeEntry(e)[..k], e, [], false, []);
  }

  // ---- where a frame's parts are ----

  function Kind(m: Message): Byte {
    match m
    case RequestVote(_, _, _, _) => 0
    case RequestVoteResp(_, _) => 1
    case AppendEntries(_, _, _, _, _, _, _) => 2
    case AppendEntriesResp(_, _, _, _, _) => 3
    case InstallSnapshot(_, _, _, _, _, _, _) => 4
  }

  /** The first byte tells the kind, the next eight are the term. */
  lemma MessageStarts(m: Message)
    requires MessageFits(m)
    ensures |EncodeMessage(m)| >= 9 && EncodeMessage(m)[0] == Kind(m)
    ensures Weighted(EncodeMessage(m)[1..9]) == m.term
  {
    var ts := MessageTokens(m);
    assert |ts| >= 2 && ts[0] == Tag(Kind(m)) && ts[1] == Num(m.term);
    match m {
      case RequestVote(a, b, c, d) => assert [a, b, c, d][0] == a;
      case AppendEntries(a, b, c, d, entries, _, _) => assert [a, b, c, d, |entries|][0] == a;
      case InstallSnapshot(a, b, c, d, _, _, _) => assert [a, b, c, d][0] == a;
      case _ =>
    }
    FlatStarts(ts, Kind(m), m.term);
  }

  lemma FlatStarts(ts: seq<Token>, b: Byte, n: nat)
    requires |ts| >= 2 && ts[0] == Tag(b) && ts[1] == Num(n) && U64(n)
    ensures |Flat(ts)| >= 9 && Flat(ts)[0] == b && Flat(ts)[1..9] == BigEndian(n, 8)
    ensures Weighted(BigEndian(n, 8)) == n
  {
    assert Flat(ts) == [b] + (BigEndian(n, 8) + Flat(ts[1..][1..]));
    assert Pow256(8) == U64_LIMIT;
    BigEndianWeighs(n, 8);
  }
}
