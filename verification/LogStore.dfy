/** The log store behind a Raft replica: the live entries after the snapshot
    base, the snapshot itself and the durable hard state. `Store` is the value a
    store holds; the class `MemLogStore` is the in-memory implementation. */
module LogStore {
  import opened Wrappers
  import opened RaftTypes

  datatype Store = Store(
    log: seq<Entry>,
    baseIndex: Index,
    baseTerm: Term,
    snapshotData: Bytes,
    hardState: HardState,
    hasSnapshot: bool)

  const EmptyStore := Store([], 0, 0, [], HardState(0, None, 0), false)

  /** Live entries carry consecutive indices starting just after the base. */
  ghost predicate Contiguous(s: Store) {
    forall k :: 0 <= k < |s.log| ==> s.log[k].index == s.baseIndex + 1 + k
  }

  function LastIndex(s: Store): Index {
    if s.log == [] then s.baseIndex else s.log[|s.log| - 1].index
  }

  function LastTerm(s: Store): Term {
    if s.log == [] then s.baseTerm else s.log[|s.log| - 1].term
  }

  /** Offset of `idx` within the live log. */
  function Slot(s: Store, idx: Index): (r: Option<nat>)
    ensures r.Some? ==> r.value < |s.log|
  {
    if idx <= s.baseIndex then None
    else if idx - s.baseIndex - 1 < |s.log| then Some(idx - s.baseIndex - 1)
    else None
  }

  function EntryTerm(s: Store, idx: Index): Option<Term> {
    match Slot(s, idx)
    case None => None
    case Some(off) => Some(s.log[off].term)
  }

  function EntryAt(s: Store, idx: Index): Option<Entry> {
    match Slot(s, idx)
    case None => None
    case Some(off) => Some(s.log[off])
  }

  /** The entries of `log` whose index lies in [lo, hi] and past `base`, in order. */
  function Between(log: seq<Entry>, lo: Index, hi: Index, base: Index): seq<Entry> {
    if log == [] then []
    else
      var e := log[0];
      (if lo <= e.index <= hi && e.index > base then [e] else []) + Between(log[1..], lo, hi, base)
  }

  function Entries(s: Store, lo: Index, hi: Index): seq<Entry> {
    Between(s.log, lo, hi, s.baseIndex)
  }

  /** The entries of `log` whose index is past `idx`, in order. */
  function After(log: seq<Entry>, idx: Index): seq<Entry> {
    if log == [] then []
    else (if log[0].index > idx then [log[0]] else []) + After(log[1..], idx)
  }

  function Append(s: Store, entries: seq<Entry>): Store {
    s.(log := s.log + entries)
  }

  function TruncateSuffix(s: Store, from: Index): Store {
    if from <= s.baseIndex then s.(log := [])
    else if from - s.baseIndex - 1 < |s.log| then s.(log := s.log[..from - s.baseIndex - 1])
    else s
  }

  function SaveHardState(s: Store, hs: HardState): Store {
    s.(hardState := hs)
  }

  function SaveSnapshot(s: Store, meta: SnapshotMeta): Store {
    s.(log := After(s.log, meta.lastIncludedIndex),
       baseIndex := meta.lastIncludedIndex,
       baseTerm := meta.lastIncludedTerm,
       snapshotData := meta.data,
       hasSnapshot := true)
  }

  function LoadSnapshot(s: Store): Option<SnapshotMeta> {
    if s.hasSnapshot then Some(SnapshotMeta(s.baseIndex, s.baseTerm, s.snapshotData)) else None
  }

  /** Reading from `lo` to the end of a contiguous log yields exactly its tail. */
  lemma {:induction false} BetweenIsTail(log: seq<Entry>, first: Index, lo: Index, hi: Index, base: Index)
    requires forall k :: 0 <= k < |log| ==> log[k].index == first + k
    requires base < first && first <= lo <= first + |log| && hi >= first + |log| - 1
    ensures Between(log, lo, hi, base) == log[lo - first..]
  {
    if log != [] {
      if lo == first {
        BetweenIsAll(log[1..], lo, hi, base);
      } else {
        BetweenIsTail(log[1..], first + 1, lo, hi, base);
      }
    }
  }

  lemma {:induction false} BetweenIsAll(log: seq<Entry>, lo: Index, hi: Index, base: Index)
    requires forall k :: 0 <= k < |log| ==> lo <= log[k].index <= hi && log[k].index > base
    ensures Between(log, lo, hi, base) == log
  {
    if log != [] {
      BetweenIsAll(log[1..], lo, hi, base);
    }
  }

  lemma EntriesToEnd(s: Store, lo: Index)
    requires Contiguous(s) && s.baseIndex < lo <= LastIndex(s) + 1
    ensures Entries(s, lo, LastIndex(s)) == s.log[lo - s.baseIndex - 1..]
  {
    BetweenIsTail(s.log, s.baseIndex + 1, lo, LastIndex(s), s.baseIndex);
  }

  lemma {:induction false} AfterIsTail(log: seq<Entry>, first: Index, idx: Index)
    requires forall k :: 0 <= k < |log| ==> log[k].index == first + k
    requires first <= idx + 1 <= first + |log|
    ensures After(log, idx) == log[idx + 1 - first..]
  {
    if log != [] {
      if first <= idx {
        AfterIsTail(log[1..], first + 1, idx);
      } else {
        AfterIsAll(log, idx);
      }
    }
  }

  lemma {:induction false} AfterIsAll(log: seq<Entry>, idx: Index)
    requires forall k :: 0 <= k < |log| ==> log[k].index > idx
    ensures After(log, idx) == log
  {
    if log != [] {
      AfterIsAll(log[1..], idx);
    }
  }
}
