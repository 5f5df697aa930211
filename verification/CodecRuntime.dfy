/** The codec as the source runs it: a growing output buffer, and a cursor that moves
    through the input with loops over counted lists. Each method is tied to what
    `Codec` says is written or read. */
module CodecRuntime {
  import opened Wrappers
  import opened RaftTypes
  import opened Codec

  // ---- writing ----

  lemma {:induction false} FlatAppend(a: seq<Token>, b: seq<Token>)
    ensures Flat(a + b) == Flat(a) + Flat(b)
    decreases |a|
  {
    if a == [] {
      assert a + b == b;
    } else {
      assert (a + b)[1..] == a[1..] + b;
      FlatAppend(a[1..], b);
    }
  }

  lemma FlatOne(t: Token)
    ensures Flat([t]) == TokenBytes(t)
  {
    assert [t][1..] == [];
  }

  lemma Regroup(a: Bytes, b: Bytes, c: Bytes)
    ensures a + (b + c) == (a + b) + c
  {
  }

  lemma EntriesFlat(es: seq<Entry>, k: nat)
    requires k < |es|
    ensures Flat(EntriesTokens(es[k..])) == Flat(EntryTokens(es[k])) + Flat(EntriesTokens(es[k + 1..]))
  {
    assert es[k..][1..] == es[k + 1..];
    FlatAppend(EntryTokens(es[k]), EntriesTokens(es[k + 1..]));
  }

  lemma Then(before: Bytes, a: seq<Token>, mid: Bytes, b: seq<Token>, after: Bytes)
    requires mid == before + Flat(a) && after == mid + Flat(b)
    ensures after == before + Flat(a + b)
  {
    FlatAppend(a, b);
    Regroup(before, Flat(a), Flat(b));
  }

  // The tokens after a message's tag, in the pieces they are written in.

  lemma RequestVoteRespPieces(m: Message)
    requires m.RequestVoteResp?
    ensures MessageTokens(m)[1..] == [Num(m.term)] + [Tag(BoolByte(m.granted))]
  {
  }

  lemma AppendEntriesPieces(m: Message)
    requires m.AppendEntries?
    ensures MessageTokens(m)[1..]
         == NumTokens([m.term, m.leader, m.prevLogIndex, m.prevLogTerm, |m.entries|]) + EntriesTokens(m.entries)
            + NumTokens([m.leaderCommit, m.readSeq])
  {
  }

  lemma AppendEntriesRespPieces(m: Message)
    requires m.AppendEntriesResp?
    ensures MessageTokens(m)[1..]
         == [Num(m.term)] + [Tag(BoolByte(m.success))] + NumTokens([m.matchIndex, m.conflictIndex, m.readSeq])
  {
  }

  lemma InstallSnapshotPieces(m: Message)
    requires m.InstallSnapshot?
    ensures MessageTokens(m)[1..]
         == NumTokens([m.term, m.leader, m.lastIncludedIndex, m.lastIncludedTerm]) + ConfTokens(m.lastIncludedConfig)
            + [Blob(m.data)] + [Num(m.readSeq)]
  {
  }

  class Writer {
    var out: Bytes

    constructor ()
      ensures out == []
    {
      out := [];
    }

    method PutU8(b: Byte)
      modifies this
      ensures out == old(out) + Flat([Tag(b)])
    {
      FlatOne(Tag(b));
      out := out + [b];
    }

    method PutU64(n: nat)
      requires U64(n)
      modifies this
      ensures out == old(out) + Flat([Num(n)])
    {
      FlatOne(Num(n));
      out := out + BigEndian(n, 8);
    }

    method PutBytes(bs: Bytes)
      requires U64(|bs|)
      modifies this
      ensures out == old(out) + Flat([Blob(bs)])
    {
      FlatOne(Blob(bs));
      out := out + BigEndian(|bs|, 8);
      out := out + bs;
    }

    method PutNums(ns: seq<nat>)
      requires AllU64(ns)
      modifies this
      ensures out == old(out) + Flat(NumTokens(ns))
    {
      for k := 0 to |ns|
        invariant out == old(out) + Flat(NumTokens(ns[..k]))
      {
        PutU64(ns[k]);
        assert NumTokens(ns[..k + 1]) == NumTokens(ns[..k]) + [Num(ns[k])];
        FlatAppend(NumTokens(ns[..k]), [Num(ns[k])]);
      }
      assert ns[..|ns|] == ns;
    }

    method PutIds(ids: seq<ReplicaId>)
      requires AllU64(ids) && U64(|ids|)
      modifies this
      ensures out == old(out) + Flat(IdTokens(ids))
    {
      PutU64(|ids|);
      ghost var mid := out;
      PutNums(ids);
      Then(old(out), [Num(|ids|)], mid, NumTokens(ids), out);
    }

    method PutConf(c: ConfState)
      requires ConfFits(c)
      modifies this
      ensures out == old(out) + Flat(ConfTokens(c))
    {
      match c
      case Simple(v) =>
        PutU8(0);
        ghost var mid := out;
        PutIds(v);
        Then(old(out), [Tag(0)], mid, IdTokens(v), out);
      case Joint(o, n) =>
        PutU8(1);
        ghost var mid := out;
        PutIds(o);
        Then(old(out), [Tag(1)], mid, IdTokens(o), out);
        mid := out;
        PutIds(n);
        Then(old(out), [Tag(1)] + IdTokens(o), mid, IdTokens(n), out);
        assert ConfTokens(c) == [Tag(1)] + IdTokens(o) + IdTokens(n);
    }

    method PutEntry(e: Entry)
      requires EntryFits(e)
      modifies this
      ensures out == old(out) + Flat(EntryTokens(e))
    {
      PutNums([e.term, e.index]);
      ghost var mid := out;
      PutPayload(e.payload);
      Then(old(out), NumTokens([e.term, e.index]), mid, PayloadTokens(e.payload), out);
      assert [Num(e.term), Num(e.index)] == NumTokens([e.term, e.index]);
    }

    method PutPayload(p: EntryPayload)
      requires PayloadFits(p)
      modifies this
      ensures out == old(out) + Flat(PayloadTokens(p))
    {
      match p
      case Command(c) =>
        PutU8(0);
        ghost var mid := out;
        PutBytes(c);
        Then(old(out), [Tag(0)], mid, [Blob(c)], out);
        assert [Tag(0), Blob(c)] == [Tag(0)] + [Blob(c)];
      case Noop => PutU8(1);
      case Config(c) =>
        PutU8(2);
        ghost var mid := out;
        PutConf(c);
        Then(old(out), [Tag(2)], mid, ConfTokens(c), out);
    }

    method PutEntries(es: seq<Entry>)
      requires EntriesFit(es)
      modifies this
      ensures out == old(out) + Flat(EntriesTokens(es))
    {
      for k := 0 to |es|
        invariant out + Flat(EntriesTokens(es[k..])) == old(out) + Flat(EntriesTokens(es))
      {
        EntriesFlat(es, k);
        ghost var before := out;
        PutEntry(es[k]);
        Regroup(before, Flat(EntryTokens(es[k])), Flat(EntriesTokens(es[k + 1..])));
      }
    }

    method PutMessage(m: Message)
      requires MessageFits(m)
      modifies this
      ensures out == old(out) + EncodeMessage(m)
    {
      PutU8(MessageTag(m));
      ghost var mid := out;
      PutBody(m);
      Then(old(out), [Tag(MessageTag(m))], mid, MessageTokens(m)[1..], out);
      assert MessageTokens(m) == [Tag(MessageTag(m))] + MessageTokens(m)[1..];
    }

    method PutBody(m: Message)
      requires MessageFits(m)
      modifies this
      ensures out == old(out) + Flat(MessageTokens(m)[1..])
    {
      match m
      case RequestVote(a, b, c, d) =>
        PutNums([a, b, c, d]);
        assert MessageTokens(m)[1..] == NumTokens([a, b, c, d]);
      case RequestVoteResp(_, _) => PutRequestVoteResp(m);
      case AppendEntries(_, _, _, _, _, _, _) => PutAppendEntries(m);
      case AppendEntriesResp(_, _, _, _, _) => PutAppendEntriesResp(m);
      case InstallSnapshot(_, _, _, _, _, _, _) => PutInstallSnapshot(m);
    }

    method PutRequestVoteResp(m: Message)
      requires m.RequestVoteResp? && MessageFits(m)
      modifies this
      ensures out == old(out) + Flat(MessageTokens(m)[1..])
    {
      PutU64(m.term);
      ghost var mid := out;
      PutU8(BoolByte(m.granted));
      Then(old(out), [Num(m.term)], mid, [Tag(BoolByte(m.granted))], out);
      RequestVoteRespPieces(m);
    }

    method PutAppendEntries(m: Message)
      requires m.AppendEntries? && MessageFits(m)
      modifies this
      ensures out == old(out) + Flat(MessageTokens(m)[1..])
    {
      var x, y := [m.term, m.leader, m.prevLogIndex, m.prevLogTerm, |m.entries|], [m.leaderCommit, m.readSeq];
      PutNums(x);
      ghost var mid := out;
      PutEntries(m.entries);
      Then(old(out), NumTokens(x), mid, EntriesTokens(m.entries), out);
      mid := out;
      PutNums(y);
      Then(old(out), NumTokens(x) + EntriesTokens(m.entries), mid, NumTokens(y), out);
      AppendEntriesPieces(m);
    }

    method PutAppendEntriesResp(m: Message)
      requires m.AppendEntriesResp? && MessageFits(m)
      modifies this
      ensures out == old(out) + Flat(MessageTokens(m)[1..])
    {
      var x := [m.matchIndex, m.conflictIndex, m.readSeq];
      PutU64(m.term);
      ghost var mid := out;
      PutU8(BoolByte(m.success));
      Then(old(out), [Num(m.term)], mid, [Tag(BoolByte(m.success))], out);
      mid := out;
      PutNums(x);
      Then(old(out), [Num(m.term)] + [Tag(BoolByte(m.success))], mid, NumTokens(x), out);
      AppendEntriesRespPieces(m);
    }

    method PutInstallSnapshot(m: Message)
      requires m.InstallSnapshot? && MessageFits(m)
      modifies this
      ensures out == old(out) + Flat(MessageTokens(m)[1..])
    {
      var x := [m.term, m.leader, m.lastIncludedIndex, m.lastIncludedTerm];
      ghost var head := NumTokens(x) + ConfTokens(m.lastIncludedConfig);
      PutNums(x);
      ghost var mid := out;
      PutConf(m.lastIncludedConfig);
      Then(old(out), NumTokens(x), mid, ConfTokens(m.lastIncludedConfig), out);
      mid := out;
      PutBytes(m.data);
      Then(old(out), head, mid, [Blob(m.data)], out);
      mid := out;
      PutU64(m.readSeq);
      Then(old(out), head + [Blob(m.data)], mid, [Num(m.readSeq)], out);
      InstallSnapshotPieces(m);
    }
  }

  /** Encode a message into a fresh buffer. */
  method Encode(m: Message) returns (r: Bytes)
    requires MessageFits(m)
    ensures r == EncodeMessage(m)
  {
    var w := new Writer();
    w.PutMessage(m);
    r := w.out;
  }

  method EncodeLogEntry(e: Entry) returns (r: Bytes)
    requires EntryFits(e)
    ensures r == EncodeEntry(e)
  {
    var w := new Writer();
    w.PutEntry(e);
    r := w.out;
  }

  // ---- reading ----

  /** A read at the cursor gives what the reading says and leaves what it leaves. */
  ghost predicate Yields<T>(reading: Reading<T>, r: Result<T, DecodeError>, rest: Bytes) {
    match reading
    case Ok((x, left)) => r == Ok(x) && rest == left
    case Err(e) => r == Err(e)
  }

  /** Values already read, before those still to come. */
  function After<T>(xs: seq<T>, reading: Reading<seq<T>>): Reading<seq<T>> {
    match reading
    case Ok((ys, left)) => Ok((xs + ys, left))
    case Err(e) => Err(e)
  }

  lemma AfterNothing<T>(reading: Reading<seq<T>>)
    ensures After([], reading) == reading
  {
    if reading.Ok? { assert [] + reading.value.0 == reading.value.0; }
  }

  lemma AfterOne<T>(xs: seq<T>, x: T, reading: Reading<seq<T>>)
    ensures After(xs, After([x], reading)) == After(xs + [x], reading)
  {
    if reading.Ok? { assert xs + ([x] + reading.value.0) == xs + [x] + reading.value.0; }
  }

  class Cursor {
    const buf: Bytes
    var pos: nat

    ghost predicate Valid()
      reads this
    {
      pos <= |buf|
    }

    /** What has not been read. */
    ghost function Rest(): Bytes
      requires Valid()
      reads this
    {
      buf[pos..]
    }

    constructor (buf: Bytes)
      ensures Valid() && Rest() == buf
    {
      this.buf, this.pos := buf, 0;
    }

    method U8() returns (r: Result<Byte, DecodeError>)
      requires Valid()
      modifies this
      ensures Valid() && Yields(ReadU8(old(Rest())), r, Rest())
    {
      if pos >= |buf| {
        return Err(Eof);
      }
      r := Ok(buf[pos]);
      pos := pos + 1;
    }

    method U64() returns (r: Result<nat, DecodeError>)
      requires Valid()
      modifies this
      ensures Valid() && Yields(ReadU64(old(Rest())), r, Rest())
    {
      var end := pos + 8;
      if end > |buf| {
        return Err(Eof);
      }
      assert buf[pos..end] == buf[pos..][..8] && buf[end..] == buf[pos..][8..];
      r := Ok(FromBigEndian(buf[pos..end]));
      pos := end;
    }

    method BytesField() returns (r: Result<Bytes, DecodeError>)
      requires Valid()
      modifies this
      ensures Valid() && Yields(ReadBytes(old(Rest())), r, Rest())
    {
      var n := U64();
      if n.Err? {
        return Err(n.error);
      }
      var end := pos + n.value;
      if end > |buf| {
        return Err(Eof);
      }
      assert buf[pos..end] == buf[pos..][..n.value] && buf[end..] == buf[pos..][n.value..];
      r := Ok(buf[pos..end]);
      pos := end;
    }

    method Nums(n: nat) returns (r: Result<seq<nat>, DecodeError>)
      requires Valid()
      modifies this
      ensures Valid() && Yields(ReadNums(old(Rest()), n), r, Rest())
    {
      var v := [];
      AfterNothing(ReadNums(Rest(), n));
      for k := 0 to n
        invariant Valid() && ReadNums(old(Rest()), n) == After(v, ReadNums(Rest(), n - k))
      {
        var x := U64();
        if x.Err? {
          return Err(x.error);
        }
        AfterOne(v, x.value, ReadNums(Rest(), n - k - 1));
        v := v + [x.value];
      }
      assert v + [] == v;
      r := Ok(v);
    }

    method Ids() returns (r: Result<seq<ReplicaId>, DecodeError>)
      requires Valid()
      modifies this
      ensures Valid() && Yields(ReadIds(old(Rest())), r, Rest())
    {
      var n := U64();
      if n.Err? {
        return Err(n.error);
      }
      r := Nums(n.value);
    }

    method Conf() returns (r: Result<ConfState, DecodeError>)
      requires Valid()
      modifies this
      ensures Valid() && Yields(ReadConf(old(Rest())), r, Rest())
    {
      var tag := U8();
      if tag.Err? {
        return Err(tag.error);
      }
      if tag.value > 1 {
        return Err(BadTag);
      }
      var v := Ids();
      if v.Err? {
        return Err(v.error);
      }
      if tag.value == 0 {
        return Ok(Simple(v.value));
      }
      var w := Ids();
      if w.Err? {
        return Err(w.error);
      }
      r := Ok(Joint(v.value, w.value));
    }

    method Payload() returns (r: Result<EntryPayload, DecodeError>)
      requires Valid()
      modifies this
      ensures Valid() && Yields(ReadPayload(old(Rest())), r, Rest())
    {
      var tag := U8();
      if tag.Err? {
        return Err(tag.error);
      }
      if tag.value == 0 {
        var c := BytesField();
        r := if c.Err? then Err(c.error) else Ok(Command(c.value));
      } else if tag.value == 1 {
        r := Ok(Noop);
      } else if tag.value == 2 {
        var c := Conf();
        r := if c.Err? then Err(c.error) else Ok(Config(c.value));
      } else {
        r := Err(BadTag);
      }
    }

    method EntryField() returns (r: Result<Entry, DecodeError>)
      requires Valid()
      modifies this
      ensures Valid() && Yields(ReadEntry(old(Rest())), r, Rest())
    {
      var term := U64();
      if term.Err? {
        return Err(term.error);
      }
      var index := U64();
      if index.Err? {
        return Err(index.error);
      }
      var payload := Payload();
      if payload.Err? {
        return Err(payload.error);
      }
      r := Ok(Entry(term.value, index.value, payload.value));
    }

    method Entries(n: nat) returns (r: Result<seq<Entry>, DecodeError>)
      requires Valid()
      modifies this
      ensures Valid() && Yields(ReadEntries(old(Rest()), n), r, Rest())
    {
      var v := [];
      AfterNothing(ReadEntries(Rest(), n));
      for k := 0 to n
        invariant Valid() && ReadEntries(old(Rest()), n) == After(v, ReadEntries(Rest(), n - k))
      {
        var e := EntryField();
        if e.Err? {
          return Err(e.error);
        }
        AfterOne(v, e.value, ReadEntries(Rest(), n - k - 1));
        v := v + [e.value];
      }
      assert v + [] == v;
      r := Ok(v);
    }
  }

  // ---- whole messages ----

  method DecodeVote(c: Cursor) returns (r: Result<Message, DecodeError>)
    requires c.Valid()
    modifies c
    ensures c.Valid() && Yields(ReadBody(0, old(c.Rest())), r, c.Rest())
  {
    var x := c.Nums(4);
    r := match x case Err(e) => Err(e) case Ok(n) => Ok(RequestVote(n[0], n[1], n[2], n[3]));
  }

  method DecodeVoteResp(c: Cursor) returns (r: Result<Message, DecodeError>)
    requires c.Valid()
    modifies c
    ensures c.Valid() && Yields(ReadBody(1, old(c.Rest())), r, c.Rest())
  {
    var term := c.U64();
    if term.Err? {
      return Err(term.error);
    }
    var granted := c.U8();
    if granted.Err? {
      return Err(granted.error);
    }
    r := Ok(RequestVoteResp(term.value, granted.value != 0));
  }

  method DecodeAppend(c: Cursor) returns (r: Result<Message, DecodeError>)
    requires c.Valid()
    modifies c
    ensures c.Valid() && Yields(ReadAppendEntries(old(c.Rest())), r, c.Rest())
  {
    var x := c.Nums(5);
    if x.Err? {
      return Err(x.error);
    }
    var entries := c.Entries(x.value[4]);
    if entries.Err? {
      return Err(entries.error);
    }
    var y := c.Nums(2);
    if y.Err? {
      return Err(y.error);
    }
    r := Ok(AppendEntries(x.value[0], x.value[1], x.value[2], x.value[3], entries.value, y.value[0], y.value[1]));
  }

  method DecodeAppendResp(c: Cursor) returns (r: Result<Message, DecodeError>)
    requires c.Valid()
    modifies c
    ensures c.Valid() && Yields(ReadBody(3, old(c.Rest())), r, c.Rest())
  {
    var term := c.U64();
    if term.Err? {
      return Err(term.error);
    }
    var success := c.U8();
    if success.Err? {
      return Err(success.error);
    }
    var x := c.Nums(3);
    if x.Err? {
      return Err(x.error);
    }
    r := Ok(AppendEntriesResp(term.value, success.value != 0, x.value[0], x.value[1], x.value[2]));
  }

  method DecodeSnapshot(c: Cursor) returns (r: Result<Message, DecodeError>)
    requires c.Valid()
    modifies c
    ensures c.Valid() && Yields(ReadInstallSnapshot(old(c.Rest())), r, c.Rest())
  {
    var x := c.Nums(4);
    if x.Err? {
      return Err(x.error);
    }
    var conf := c.Conf();
    if conf.Err? {
      return Err(conf.error);
    }
    var data := c.BytesField();
    if data.Err? {
      return Err(data.error);
    }
    var readSeq := c.U64();
    if readSeq.Err? {
      return Err(readSeq.error);
    }
    r := Ok(InstallSnapshot(x.value[0], x.value[1], x.value[2], x.value[3], conf.value, data.value, readSeq.value));
  }

  /** Decode a message: exactly what was encoded, if the buffer starts with an encoding;
      an error, if the buffer is a strict prefix of one. */
  method Decode(buf: Bytes) returns (r: Result<Message, DecodeError>)
    ensures r == DecodeMessage(buf)
    ensures forall m, post :: MessageFits(m) && buf == EncodeMessage(m) + post ==> r == Ok(m)
    ensures forall m :: MessageFits(m) && buf < EncodeMessage(m) ==> r.Err?
  {
    var c := new Cursor(buf);
    var tag := c.U8();
    if tag.Err? {
      r := Err(tag.error);
    } else if tag.value == 0 {
      r := DecodeVote(c);
    } else if tag.value == 1 {
      r := DecodeVoteResp(c);
    } else if tag.value == 2 {
      r := DecodeAppend(c);
    } else if tag.value == 3 {
      r := DecodeAppendResp(c);
    } else if tag.value == 4 {
      r := DecodeSnapshot(c);
    } else {
      r := Err(BadTag);
    }
    DecodeUndoes(buf);
  }

  lemma DecodeUndoes(buf: Bytes)
    ensures forall m, post :: MessageFits(m) && buf == EncodeMessage(m) + post ==> DecodeMessage(buf) == Ok(m)
    ensures forall m :: MessageFits(m) && buf < EncodeMessage(m) ==> DecodeMessage(buf).Err?
  {
    forall m, post | MessageFits(m) && buf == EncodeMessage(m) + post
      ensures DecodeMessage(buf) == Ok(m)
    {
      MessageRoundTrip(m, post);
    }
    forall m | MessageFits(m) && buf < EncodeMessage(m)
      ensures DecodeMessage(buf).Err?
    {
      MessageTruncated(m, |buf|);
      assert EncodeMessage(m)[..|buf|] == buf;
    }
  }

  method DecodeLogEntry(buf: Bytes) returns (r: Result<Entry, DecodeError>)
    ensures r == DecodeEntry(buf)
  {
    var c := new Cursor(buf);
    r := c.EntryField();
  }
}
