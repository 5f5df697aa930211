/** The in-memory log store as the source keeps it: a vector of live entries, the
    snapshot base and the hard state, updated in place. */
module RaftStore {
  import opened Wrappers
  import opened RaftTypes
  import opened LogStore

  class MemLogStore {
    var log: seq<Entry>
    var baseIndex: Index
    var baseTerm: Term
    var snapshotData: Bytes
    var hardState: HardState
    var hasSnapshot: bool

    function Contents(): Store
      reads this
    {
      Store(log, baseIndex, baseTerm, snapshotData, hardState, hasSnapshot)
    }

    constructor ()
      ensures Contents() == EmptyStore
    {
      log, baseIndex, baseTerm, snapshotData, hardState, hasSnapshot := [], 0, 0, [], HardState(0, None, 0), false;
    }

    method AppendAll(entries: seq<Entry>)
      modifies this
      ensures Contents() == Append(old(Contents()), entries)
    {
      log := log + entries;
    }

    /** Live entries with index in [lo, hi], past the base. */
    method Range(lo: Index, hi: Index) returns (r: seq<Entry>)
      ensures r == Entries(Contents(), lo, hi)
    {
      r := [];
      for k := 0 to |log|
        invariant r + Between(log[k..], lo, hi, baseIndex) == Entries(Contents(), lo, hi)
      {
        assert log[k..][1..] == log[k + 1..];
        if lo <= log[k].index <= hi && log[k].index > baseIndex {
          r := r + [log[k]];
        }
      }
    }

    method Truncate(from: Index)
      modifies this
      ensures Contents() == TruncateSuffix(old(Contents()), from)
    {
      if from <= baseIndex {
        log := [];
        return;
      }
      var keep := from - baseIndex - 1;
      if keep < |log| {
        log := log[..keep];
      }
    }

    method SetHardState(hs: HardState)
      modifies this
      ensures Contents() == SaveHardState(old(Contents()), hs)
    {
      hardState := hs;
    }

    /** Keep the snapshot and only the entries after it. */
    method SetSnapshot(meta: SnapshotMeta)
      modifies this
      ensures Contents() == SaveSnapshot(old(Contents()), meta)
    {
      var kept := [];
      for k := 0 to |log|
        invariant unchanged(this)
        invariant kept + After(log[k..], meta.lastIncludedIndex) == After(log, meta.lastIncludedIndex)
      {
        assert log[k..][1..] == log[k + 1..];
        if log[k].index > meta.lastIncludedIndex {
          kept := kept + [log[k]];
        }
      }
      log := kept;
      baseIndex, baseTerm, snapshotData, hasSnapshot := meta.lastIncludedIndex, meta.lastIncludedTerm, meta.data, true;
    }
  }
}
