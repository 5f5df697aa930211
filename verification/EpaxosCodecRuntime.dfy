/** The EPaxos codec as the source runs it, on the same buffer and cursor as Raft's. */
module EpaxosCodecRuntime {
  import opened Wrappers
  import opened CodecRuntime
  import Codec
  import opened EpaxosModel
  import opened EpaxosCodec

  // ---- writing ----

  method PutInstance(w: Writer, i: Instance)
    requires InstanceFits(i)
    modifies w
    ensures w.out == old(w.out) + Codec.Flat(InstanceTokens(i))
  {
    w.PutNums([i.replica, i.slot]);
  }

  lemma InstancesFlat(q: seq<Instance>, k: nat)
    requires k < |q|
    ensures Codec.Flat(InstancesTokens(q[k..]))
         == Codec.Flat(InstanceTokens(q[k])) + Codec.Flat(InstancesTokens(q[k + 1..]))
  {
    assert q[k..][1..] == q[k + 1..];
    FlatAppend(InstanceTokens(q[k]), InstancesTokens(q[k + 1..]));
  }

  /** The set is written in ascending order. */
  method PutDeps(w: Writer, s: Deps)
    requires DepsFit(s)
    modifies w
    ensures w.out == old(w.out) + Codec.Flat(DepsTokens(s))
  {
    w.PutU64(|s|);
    ghost var mid := w.out;
    var q := Ascending(s);
    for k := 0 to |q|
      invariant w.out + Codec.Flat(InstancesTokens(q[k..])) == mid + Codec.Flat(InstancesTokens(q))
    {
      InstancesFlat(q, k);
      assert q[k] in s;
      ghost var before := w.out;
      PutInstance(w, q[k]);
      Regroup(before, Codec.Flat(InstanceTokens(q[k])), Codec.Flat(InstancesTokens(q[k + 1..])));
    }
    Then(old(w.out), [Codec.Num(|s|)], mid, InstancesTokens(q), w.out);
  }

  method PutAttributes(w: Writer, seqNo: nat, deps: Deps)
    requires Codec.U64(seqNo) && DepsFit(deps)
    modifies w
    ensures w.out == old(w.out) + Codec.Flat([Codec.Num(seqNo)] + DepsTokens(deps))
  {
    w.PutU64(seqNo);
    ghost var mid := w.out;
    PutDeps(w, deps);
    Then(old(w.out), [Codec.Num(seqNo)], mid, DepsTokens(deps), w.out);
  }

  method PutCommand(w: Writer, command: Bytes, seqNo: nat, deps: Deps)
    requires Codec.U64(|command|) && Codec.U64(seqNo) && DepsFit(deps)
    modifies w
    ensures w.out == old(w.out) + Codec.Flat([Codec.Blob(command)] + ([Codec.Num(seqNo)] + DepsTokens(deps)))
  {
    w.PutBytes(command);
    ghost var mid := w.out;
    PutAttributes(w, seqNo, deps);
    Then(old(w.out), [Codec.Blob(command)], mid, [Codec.Num(seqNo)] + DepsTokens(deps), w.out);
  }

  /** What follows the instance. */
  method PutRest(w: Writer, m: Message)
    requires MessageFits(m)
    modifies w
    ensures w.out == old(w.out) + Codec.Flat(RestTokens(m))
  {
    if m.Commit? {
      PutCommand(w, m.command, m.seqNo, m.deps);
    } else {
      w.PutU64(m.ballot);
      ghost var mid := w.out;
      if m.PreAcceptReply? {
        PutAttributes(w, m.seqNo, m.deps);
        Then(old(w.out), [Codec.Num(m.ballot)], mid, [Codec.Num(m.seqNo)] + DepsTokens(m.deps), w.out);
      } else if !m.AcceptReply? {
        PutCommand(w, m.command, m.seqNo, m.deps);
        Then(old(w.out), [Codec.Num(m.ballot)], mid,
             [Codec.Blob(m.command)] + ([Codec.Num(m.seqNo)] + DepsTokens(m.deps)), w.out);
      } else {
        assert RestTokens(m) == [Codec.Num(m.ballot)];
      }
    }
  }

  method Encode(m: Message) returns (r: Bytes)
    requires MessageFits(m)
    ensures r == EncodeMessage(m)
  {
    var w := new Writer();
    w.PutU8(Tagged(m));
    ghost var tag := w.out;
    PutInstance(w, m.instance);
    ghost var mid := w.out;
    PutRest(w, m);
    Then(tag, InstanceTokens(m.instance), mid, RestTokens(m), w.out);
    Then([], [Codec.Tag(Tagged(m))], tag, InstanceTokens(m.instance) + RestTokens(m), w.out);
    r := w.out;
  }

  // ---- reading ----

  method ReadOne(c: Cursor) returns (r: Result<Instance, Codec.DecodeError>)
    requires c.Valid()
    modifies c
    ensures c.Valid() && Yields(ReadInstance(old(c.Rest())), r, c.Rest())
  {
    var x := c.Nums(2);
    r := match x case Err(e) => Err(e) case Ok(n) => Ok(Instance(n[0], n[1]));
  }

  /** Instances already read, and those still to come. */
  ghost function With(s: Deps, reading: Codec.Reading<Deps>): Codec.Reading<Deps> {
    match reading
    case Ok((t, left)) => Ok((s + t, left))
    case Err(e) => Err(e)
  }

  lemma WithNothing(reading: Codec.Reading<Deps>)
    ensures With({}, reading) == reading
  {
    if reading.Ok? { assert {} + reading.value.0 == reading.value.0; }
  }

  lemma WithOne(s: Deps, x: Instance, reading: Codec.Reading<Deps>)
    ensures With(s, With({x}, reading)) == With(s + {x}, reading)
  {
    if reading.Ok? { assert s + ({x} + reading.value.0) == s + {x} + reading.value.0; }
  }

  method ReadSet(c: Cursor) returns (r: Result<Deps, Codec.DecodeError>)
    requires c.Valid()
    modifies c
    ensures c.Valid() && Yields(ReadDeps(old(c.Rest())), r, c.Rest())
  {
    var n := c.U64();
    if n.Err? {
      return Err(n.error);
    }
    var s: Deps := {};
    ghost var start := c.Rest();
    WithNothing(ReadInstances(start, n.value));
    for k := 0 to n.value
      invariant c.Valid() && ReadInstances(start, n.value) == With(s, ReadInstances(c.Rest(), n.value - k))
    {
      var x := ReadOne(c);
      if x.Err? {
        return Err(x.error);
      }
      WithOne(s, x.value, ReadInstances(c.Rest(), n.value - k - 1));
      s := s + {x.value};
    }
    assert s + {} == s;
    r := Ok(s);
  }

  method ReadPair(c: Cursor) returns (r: Result<(nat, Deps), Codec.DecodeError>)
    requires c.Valid()
    modifies c
    ensures c.Valid() && Yields(ReadAttributes(old(c.Rest())), r, c.Rest())
  {
    var seqNo := c.U64();
    if seqNo.Err? {
      return Err(seqNo.error);
    }
    var deps := ReadSet(c);
    r := match deps case Err(e) => Err(e) case Ok(d) => Ok((seqNo.value, d));
  }

  method ReadTriple(c: Cursor) returns (r: Result<(Bytes, (nat, Deps)), Codec.DecodeError>)
    requires c.Valid()
    modifies c
    ensures c.Valid() && Yields(ReadCommand(old(c.Rest())), r, c.Rest())
  {
    var command := c.BytesField();
    if command.Err? {
      return Err(command.error);
    }
    var a := ReadPair(c);
    r := match a case Err(e) => Err(e) case Ok(p) => Ok((command.value, p));
  }

  method ReadRest(c: Cursor, tag: nat, i: Instance) returns (r: Result<Message, Codec.DecodeError>)
    requires c.Valid() && tag <= 4
    modifies c
    ensures c.Valid() && Yields(ReadBody(tag, i, old(c.Rest())), r, c.Rest())
  {
    if tag == 4 {
      var t := ReadTriple(c);
      r := match t case Err(e) => Err(e) case Ok(p) => Ok(Commit(i, p.0, p.1.0, p.1.1));
    } else {
      var ballot := c.U64();
      if ballot.Err? {
        return Err(ballot.error);
      }
      if tag == 3 {
        r := Ok(AcceptReply(i, ballot.value));
      } else if tag == 1 {
        var a := ReadPair(c);
        r := match a case Err(e) => Err(e) case Ok(p) => Ok(PreAcceptReply(i, ballot.value, p.0, p.1));
      } else {
        var t := ReadTriple(c);
        if t.Err? {
          return Err(t.error);
        }
        var p := t.value;
        r := Ok(if tag == 0 then PreAccept(i, ballot.value, p.0, p.1.0, p.1.1)
                else Accept(i, ballot.value, p.0, p.1.0, p.1.1));
      }
    }
  }

  /** Exactly what was encoded, if the buffer starts with an encoding; an error, if the
      buffer is a strict prefix of one. */
  method Decode(buf: Bytes) returns (r: Result<Message, Codec.DecodeError>)
    ensures r == DecodeMessage(buf)
    ensures forall m, post :: MessageFits(m) && buf == EncodeMessage(m) + post ==> r == Ok(m)
    ensures forall m :: MessageFits(m) && buf < EncodeMessage(m) ==> r.Err?
  {
    var c := new Cursor(buf);
    DecodeUndoes(buf);
    var tag := c.U8();
    if tag.Err? {
      return Err(tag.error);
    }
    if tag.value > 4 {
      return Err(Codec.BadTag);
    }
    var i := ReadOne(c);
    if i.Err? {
      return Err(i.error);
    }
    r := ReadRest(c, tag.value, i.value);
  }

  lemma DecodeUndoes(buf: Bytes)
    ensures forall m, post :: MessageFits(m) && buf == EncodeMessage(m) + post ==> DecodeMessage(buf) == Ok(m)
    ensures forall m :: MessageFits(m) && buf < EncodeMessage(m) ==> DecodeMessage(buf).Err?
  {
    forall m, post | MessageFits(m) && buf == EncodeMessage(m) + post
      ensures DecodeMessage(buf) == Ok(m)
    {
      MessageRoundTrip(m, post);
    }
    forall m | MessageFits(m) && buf < EncodeMessage(m)
      ensures DecodeMessage(buf).Err?
    {
      MessageTruncated(m, |buf|);
      assert EncodeMessage(m)[..|buf|] == buf;
    }
  }
}
