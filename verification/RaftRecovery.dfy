/** Crash recovery with log compaction: whatever a replica has been through (short of
    installing a snapshot), its store alone rebuilds its term, vote, log, commit index
    and state machine. */
module RaftRecovery {
  import opened Wrappers
  import opened RaftTypes
  import opened Membership
  import opened ConfigChain
  import opened LogStore
  import opened RaftModel
  import opened RaftHistory
  import opened RaftInvariant
  import opened RaftHandlers

  // ---- what the store means ----

  /** Restoring a snapshot gives back the state it was taken of, whatever was there before. */
  ghost predicate Reversible<S(!new)>(m: StateMachine<S>) {
    forall s, t {:trigger m.restore(t, m.snapshot(s))} :: m.restore(t, m.snapshot(s)) == s
  }

  /** The store keeps `full`, compacted up to its base. */
  ghost predicate Stored<S>(m: StateMachine<S>, store: Store, full: Log) {
    && Indexed(full) && store.baseIndex <= |full| && store.log == full[store.baseIndex..]
    && store.baseTerm == TermBefore(full, store.baseIndex)
    && (if store.hasSnapshot then store.snapshotData == m.snapshot(Replay(m, full[..store.baseIndex]))
        else store.baseIndex == 0)
  }

  /** `n` holds `full`, has saved its hard state, and its state machine reflects the applied entries. */
  ghost predicate Live<S>(m: StateMachine<S>, n: Node<S>, full: Log) {
    && Stored(m, n.store, full)
    && n.store.hardState == HardState(n.term, n.votedFor, n.commitIndex)
    && n.store.baseIndex <= n.lastApplied <= n.commitIndex <= |full|
    && n.sm == Replay(m, full[..n.lastApplied])
  }

  /** Between steps everything committed is applied and nothing is due for compaction. */
  ghost predicate Settled<S>(m: StateMachine<S>, n: Node<S>, full: Log) {
    && Live(m, n, full) && n.lastApplied == n.commitIndex
    && (n.snapshotThreshold > 0 ==> n.lastApplied - n.store.baseIndex < n.snapshotThreshold)
  }

  lemma StoredLog<S>(m: StateMachine<S>, store: Store, full: Log)
    requires Stored(m, store, full)
    ensures Contiguous(store) && LastIndex(store) == |full|
  {
  }

  lemma StoredEntry<S>(m: StateMachine<S>, n: Node<S>, full: Log, k: nat)
    requires Stored(m, n.store, full)
    ensures TermAt(n, k) == if k == 0 then Some(0) else if n.store.baseIndex <= k <= |full| then Some(full[k - 1].term)
            else None
    ensures NodeEntryAt(n, k) == if n.store.baseIndex < k <= |full| then Some(full[k - 1]) else None
  {
    assert full[n.store.baseIndex..] == n.store.log;
  }

  // ---- applying and compacting ----

  lemma ReplayOne<S>(m: StateMachine<S>, full: Log, k: nat)
    requires k < |full|
    ensures Replay(m, full[..k + 1]) == ApplyEntry(m, Replay(m, full[..k]), full[k])
  {
    assert full[..k + 1][..k] == full[..k];
  }

  lemma ApplyOneLive<S>(m: StateMachine<S>, n: Node<S>, full: Log)
    requires Live(m, n, full) && n.lastApplied < n.commitIndex
    ensures var r := ApplyOne(m, n);
            && r == n.(lastApplied := n.lastApplied + 1, sm := r.sm, outbox := r.outbox)
            && r.sm == Replay(m, full[..n.lastApplied + 1])
  {
    StoredEntry(m, n.(lastApplied := n.lastApplied + 1), full, n.lastApplied + 1);
    ReplayOne(m, full, n.lastApplied);
  }

  lemma {:induction false} ApplyLoopLive<S>(m: StateMachine<S>, n: Node<S>, full: Log)
    requires Live(m, n, full)
    ensures var r := ApplyLoop(m, n);
            && r == n.(lastApplied := n.commitIndex, sm := r.sm, outbox := r.outbox)
            && r.sm == Replay(m, full[..n.commitIndex])
    decreases n.commitIndex - n.lastApplied
  {
    if n.lastApplied < n.commitIndex {
      ApplyOneLive(m, n, full);
      ApplyLoopLive(m, ApplyOne(m, n), full);
    }
  }

  /** Folding the first `k` entries into a snapshot keeps the same log. */
  lemma SnapshotStored<S>(m: StateMachine<S>, store: Store, full: Log, k: Index)
    requires Stored(m, store, full) && store.baseIndex < k <= |full|
    ensures Stored(m, SaveSnapshot(store, SnapshotMeta(k, full[k - 1].term, m.snapshot(Replay(m, full[..k])))), full)
  {
    AfterIsTail(store.log, store.baseIndex + 1, k);
    assert full[store.baseIndex..][k - store.baseIndex..] == full[k..];
  }

  lemma CompactLive<S>(m: StateMachine<S>, n: Node<S>, full: Log)
    requires Live(m, n, full)
    ensures var r := Compact(m, n);
            && Live(m, r, full) && r == n.(store := r.store, config := r.config, baseConfig := r.baseConfig)
            && r.store.baseIndex == n.lastApplied
  {
    if n.lastApplied > n.store.baseIndex {
      StoredEntry(m, n, full, n.lastApplied);
      SnapshotStored(m, n.store, full, n.lastApplied);
    }
  }

  lemma ServeKeeps<S>(m: StateMachine<S>, n: Node<S>)
    ensures var r := ServeReads(m, n); r == n.(ready := r.ready, pending := r.pending)
  {
  }

  lemma ApplyCommittedSettles<S>(m: StateMachine<S>, n: Node<S>, full: Log)
    requires Live(m, n, full)
    ensures Settled(m, ApplyCommitted(m, n), full)
    ensures var r := ApplyCommitted(m, n);
            r.role == n.role && r.term == n.term && r.commitIndex == n.commitIndex
                && r.snapshotThreshold == n.snapshotThreshold
  {
    ApplyLoopLive(m, n, full);
    var n1 := ApplyLoop(m, n);
    ServeKeeps(m, n1);
    CompactLive(m, ServeReads(m, n1), full);
  }

  // ---- appending and committing ----

  /** Only these fields matter here. */
  ghost predicate SameCore<S>(n: Node<S>, r: Node<S>) {
    && r.store == n.store && r.term == n.term && r.votedFor == n.votedFor && r.commitIndex == n.commitIndex
    && r.lastApplied == n.lastApplied && r.sm == n.sm && r.snapshotThreshold == n.snapshotThreshold
  }

  lemma SameCoreSettled<S>(m: StateMachine<S>, n: Node<S>, r: Node<S>, full: Log)
    requires Settled(m, n, full) && SameCore(n, r)
    ensures Settled(m, r, full)
  {
  }

  lemma StoredAppend<S>(m: StateMachine<S>, store: Store, full: Log, e: Entry)
    requires Stored(m, store, full) && e.index == |full| + 1
    ensures Stored(m, Append(store, [e]), full + [e])
  {
    assert (full + [e])[store.baseIndex..] == full[store.baseIndex..] + [e];
    assert (full + [e])[..store.baseIndex] == full[..store.baseIndex];
  }

  lemma LiveAppend<S>(m: StateMachine<S>, n: Node<S>, full: Log, e: Entry)
    requires Live(m, n, full) && e.index == |full| + 1
    ensures Live(m, n.(store := Append(n.store, [e])), full + [e])
  {
    StoredAppend(m, n.store, full, e);
    assert (full + [e])[..n.lastApplied] == full[..n.lastApplied];
  }

  lemma LiveCut<S>(m: StateMachine<S>, n: Node<S>, full: Log, e: Entry)
    requires Live(m, n, full) && n.commitIndex < e.index <= |full|
    ensures Live(m, n.(store := Append(TruncateSuffix(n.store, e.index), [e])), full[..e.index - 1] + [e])
  {
    var cut := full[..e.index - 1];
    assert cut[n.store.baseIndex..] == full[n.store.baseIndex..][..e.index - 1 - n.store.baseIndex];
    assert cut[..n.store.baseIndex] == full[..n.store.baseIndex] && cut[..n.lastApplied] == full[..n.lastApplied];
    LiveAppend(m, n.(store := TruncateSuffix(n.store, e.index)), cut, e);
  }

  lemma AppendSettled<S>(m: StateMachine<S>, n: Node<S>, r: Node<S>, full: Log, e: Entry)
    requires Settled(m, n, full) && e.index == |full| + 1
    requires SameCore(n.(store := Append(n.store, [e])), r)
    ensures Settled(m, r, full + [e])
  {
    LiveAppend(m, n, full, e);
  }

  lemma AppendLocalSettled<S>(m: StateMachine<S>, n: Node<S>, full: Log, payload: EntryPayload)
    requires Settled(m, n, full)
    ensures Settled(m, AppendLocal(n, payload), full + [Entry(n.term, |full| + 1, payload)])
    ensures AppendLocal(n, payload).role == n.role
  {
    StoredLog(m, n.store, full);
    AppendSettled(m, n, AppendLocal(n, payload), full, Entry(n.term, |full| + 1, payload));
  }

  lemma AdvanceSettled<S>(m: StateMachine<S>, n: Node<S>, full: Log) returns (more: Log)
    requires Settled(m, n, full)
    ensures Settled(m, MaybeAdvanceCommit(m, n), more) && full <= more
  {
    more := full;
    if n.role == Leader {
      StoredLog(m, n.store, full);
      var k := HighestCommittable(n, LastIndex(n.store));
      if k != n.commitIndex {
        var n1 := PersistHardState(n.(commitIndex := k));
        ApplyCommittedSettles(m, n1, full);
        more := FinalizeSettled(m, ApplyCommitted(m, n1), full);
      }
    }
  }

  lemma FinalizeSettled<S>(m: StateMachine<S>, n: Node<S>, full: Log) returns (more: Log)
    requires Settled(m, n, full)
    ensures Settled(m, FinalizeJointIfCommitted(n), more) && full <= more
  {
    more := full;
    if n.config.Joint? && FinalizeJointIfCommitted(n) != n {
      var payload := Config(Simple(n.config.incoming));
      AppendLocalSettled(m, n, full, payload);
      more := full + [Entry(n.term, |full| + 1, payload)];
    }
  }

  // ---- following a leader ----

  lemma FollowerSettled<S>(m: StateMachine<S>, n: Node<S>, full: Log, term: Term, leader: Option<ReplicaId>)
    requires Settled(m, n, full)
    ensures Settled(m, BecomeFollower(n, term, leader), full)
  {
  }

  /** Entries that follow on one another and leave what is committed alone. */
  ghost predicate Fits<S>(n: Node<S>, entries: seq<Entry>, next: Index) {
    && (forall k {:trigger entries[k]} :: 0 <= k < |entries| ==> entries[k].index == next + k)
    && (forall k {:trigger entries[k]} :: 0 <= k < |entries| ==>
          (n.store.baseIndex < entries[k].index <= n.commitIndex ==>
             TermAt(n, entries[k].index) == Some(entries[k].term)))
  }

  /** Replacing everything from the entry's index on. */
  lemma TruncateSettled<S>(m: StateMachine<S>, n: Node<S>, full: Log, e: Entry)
    requires Settled(m, n, full) && n.commitIndex < e.index <= |full|
    ensures Settled(m, n.(store := Append(TruncateSuffix(n.store, e.index), [e])), full[..e.index - 1] + [e])
  {
    LiveCut(m, n, full, e);
  }

  lemma SpliceOneSettled<S>(m: StateMachine<S>, n: Node<S>, full: Log, e: Entry) returns (more: Log)
    requires Settled(m, n, full) && 1 <= e.index <= |full| + 1
    requires n.store.baseIndex < e.index <= n.commitIndex ==> TermAt(n, e.index) == Some(e.term)
    ensures Settled(m, SpliceOne(n, e), more) && e.index <= |more|
            && SpliceOne(n, e) == n.(store := SpliceOne(n, e).store)
    ensures SpliceOne(n, e).store.baseIndex == n.store.baseIndex
    ensures forall k {:trigger TermAt(SpliceOne(n, e), k)} :: 0 <= k <= n.commitIndex ==>
              TermAt(SpliceOne(n, e), k) == TermAt(n, k)
  {
    more := full;
    StoredEntry(m, n, full, e.index);
    if e.index > n.store.baseIndex {
      if e.index > |full| {
        more := full + [e];
        AppendSettled(m, n, SpliceOne(n, e), full, e);
      } else if full[e.index - 1].term != e.term {
        more := full[..e.index - 1] + [e];
        TruncateSettled(m, n, full, e);
      }
    }
    forall k | 0 <= k <= n.commitIndex ensures TermAt(SpliceOne(n, e), k) == TermAt(n, k) {
      StoredEntry(m, n, full, k);
      StoredEntry(m, SpliceOne(n, e), more, k);
    }
  }

  lemma {:induction false} SpliceSettled<S>(m: StateMachine<S>, n: Node<S>, full: Log, entries: seq<Entry>, next: Index)
    returns (more: Log)
    requires Settled(m, n, full) && 1 <= next <= |full| + 1 && Fits(n, entries, next)
    ensures Settled(m, Splice(n, entries), more)
    decreases |entries|
  {
    more := full;
    if entries != [] {
      var n1 := SpliceOne(n, entries[0]);
      var mid := SpliceOneSettled(m, n, full, entries[0]);
      assert forall k :: 0 <= k < |entries| - 1 ==> entries[1..][k] == entries[k + 1];
      more := SpliceSettled(m, n1, mid, entries[1..], next + 1);
    }
  }

  lemma FollowCommitSettled<S>(m: StateMachine<S>, n: Node<S>, full: Log, leaderCommit: Index)
    requires Settled(m, n, full)
    ensures Settled(m, FollowCommit(m, n, leaderCommit), full)
  {
    StoredLog(m, n.store, full);
    if leaderCommit > n.commitIndex {
      ApplyCommittedSettles(m, PersistHardState(n.(commitIndex := Min(leaderCommit, LastIndex(n.store)))), full);
    }
  }

  /** An `AppendEntries` that is taken carries a run of entries after the one it names,
      and does not contradict what the replica has committed. */
  ghost predicate Legal<S>(n: Node<S>, msg: Message) {
    && !msg.InstallSnapshot?
    && (msg.AppendEntries? && msg.term >= n.term && TermAt(n, msg.prevLogIndex) == Some(msg.prevLogTerm) ==>
          Fits(n, msg.entries, msg.prevLogIndex + 1))
  }

  lemma AppendEntriesSettled<S>(m: StateMachine<S>, n: Node<S>, full: Log, msg: Message) returns (more: Log)
    requires Settled(m, n, full) && msg.AppendEntries? && Legal(n, msg)
    ensures Settled(m, HandleAppendEntries(m, n, msg).0, more)
  {
    more := full;
    if msg.term >= n.term {
      var n1 := BecomeFollower(n, msg.term, Some(msg.leader));
      FollowerSettled(m, n, full, msg.term, Some(msg.leader));
      if TermAt(n1, msg.prevLogIndex) == Some(msg.prevLogTerm) {
        more := MatchedSettled(m, n, full, msg);
        AppendAccepted(m, n, msg);
      }
    }
  }

  lemma MatchedSettled<S>(m: StateMachine<S>, n: Node<S>, full: Log, msg: Message) returns (more: Log)
    requires Settled(m, n, full) && msg.AppendEntries? && Legal(n, msg) && msg.term >= n.term
    requires TermAt(BecomeFollower(n, msg.term, Some(msg.leader)), msg.prevLogIndex) == Some(msg.prevLogTerm)
    ensures Settled(m, Accept(m, BecomeFollower(n, msg.term, Some(msg.leader)), msg).0, more)
  {
    var n1 := BecomeFollower(n, msg.term, Some(msg.leader));
    FollowerSettled(m, n, full, msg.term, Some(msg.leader));
    StoredEntry(m, n, full, msg.prevLogIndex);
    StoredEntry(m, n1, full, msg.prevLogIndex);
    FollowerFits(m, n, n1, full, msg.entries, msg.prevLogIndex + 1);
    more := AcceptSettled(m, n1, full, msg);
  }

  lemma AppendAccepted<S>(m: StateMachine<S>, n: Node<S>, msg: Message)
    requires msg.AppendEntries? && msg.term >= n.term
    requires TermAt(BecomeFollower(n, msg.term, Some(msg.leader)), msg.prevLogIndex) == Some(msg.prevLogTerm)
    ensures HandleAppendEntries(m, n, msg) == Accept(m, BecomeFollower(n, msg.term, Some(msg.leader)), msg)
  {
  }

  lemma AcceptSettled<S>(m: StateMachine<S>, n: Node<S>, full: Log, msg: Message) returns (more: Log)
    requires Settled(m, n, full) && msg.AppendEntries? && msg.prevLogIndex <= |full|
             && Fits(n, msg.entries, msg.prevLogIndex + 1)
    ensures Settled(m, Accept(m, n, msg).0, more)
  {
    more := SpliceSettled(m, n, full, msg.entries, msg.prevLogIndex + 1);
    var n1 := RecomputeConfig(Splice(n, msg.entries));
    SameCoreSettled(m, Splice(n, msg.entries), n1, more);
    FollowCommitSettled(m, n1, more, msg.leaderCommit);
  }

  lemma FollowerFits<S>(m: StateMachine<S>, n: Node<S>, r: Node<S>, full: Log, entries: seq<Entry>, next: Index)
    requires Settled(m, n, full) && Settled(m, r, full) && Fits(n, entries, next)
    requires r.store.baseIndex == n.store.baseIndex && r.commitIndex == n.commitIndex
    ensures Fits(r, entries, next)
  {
    forall k | 0 <= k < |entries| && r.store.baseIndex < entries[k].index <= r.commitIndex
      ensures TermAt(r, entries[k].index) == Some(entries[k].term)
    {
      StoredEntry(m, n, full, entries[k].index);
      StoredEntry(m, r, full, entries[k].index);
    }
  }

  // ---- every public step ----

  lemma BroadcastSettled<S>(m: StateMachine<S>, n: Node<S>, full: Log)
    requires Settled(m, n, full)
    ensures Settled(m, BroadcastAppend(n).0, full)
  {
    SameCoreSettled(m, n, BroadcastAppend(n).0, full);
  }

  lemma LeadSettled<S>(m: StateMachine<S>, n: Node<S>, full: Log) returns (more: Log)
    requires Settled(m, n, full)
    ensures Settled(m, BecomeLeader(m, n).0, more)
  {
    ReignSettled(m, n, full);
    more := AdvanceSettled(m, OpenedReign(n), full + [Entry(n.term, |full| + 1, Noop)]);
    BroadcastSettled(m, MaybeAdvanceCommit(m, OpenedReign(n)), more);
  }

  lemma ReignSettled<S>(m: StateMachine<S>, n: Node<S>, full: Log)
    requires Settled(m, n, full)
    ensures Settled(m, OpenedReign(n), full + [Entry(n.term, |full| + 1, Noop)])
  {
    StoredLog(m, n.store, full);
    AppendSettled(m, n, OpenedReign(n), full, Entry(n.term, |full| + 1, Noop));
  }

  lemma TickSettled<S>(m: StateMachine<S>, n: Node<S>, full: Log, due: bool) returns (more: Log)
    requires Settled(m, n, full)
    ensures Settled(m, OnTick(m, n, due).0, more)
  {
    more := full;
    if due {
      if n.role == Leader {
        BroadcastSettled(m, n, full);
      } else if n.id in Voters(n.config) {
        assert Settled(m, Stand(n), full);
        if IsQuorum(Stand(n).config, Stand(n).votes) { more := LeadSettled(m, Stand(n), full); }
      }
    }
  }

  lemma VoteSettled<S>(m: StateMachine<S>, n: Node<S>, full: Log, term: Term, candidate: ReplicaId, lli: Index,
                       llt: Term)
    requires Settled(m, n, full)
    ensures Settled(m, HandleRequestVote(n, term, candidate, lli, llt).0, full)
  {
    FollowerSettled(m, n, full, term, None);
    DecideSettled(m, if term > n.term then BecomeFollower(n, term, None) else n, full, term, candidate, lli, llt);
  }

  lemma DecideSettled<S>(m: StateMachine<S>, n: Node<S>, full: Log, term: Term, candidate: ReplicaId, lli: Index,
                         llt: Term)
    requires Settled(m, n, full)
    ensures Settled(m, DecideVote(n, term, candidate, lli, llt).0, full)
  {
  }

  lemma VoteRespSettled<S>(m: StateMachine<S>, n: Node<S>, full: Log, from: ReplicaId, term: Term, granted: bool)
    returns (more: Log)
    requires Settled(m, n, full)
    ensures Settled(m, HandleRequestVoteResp(m, n, from, term, granted).0, more)
  {
    more := full;
    if term > n.term {
      FollowerSettled(m, n, full, term, None);
    } else if n.role == Candidate && term == n.term && granted {
      var n1 := n.(votes := n.votes + {from});
      SameCoreSettled(m, n, n1, full);
      if IsQuorum(n1.config, n1.votes) { more := LeadSettled(m, n1, full); }
    }
  }

  lemma HearBackSettled<S>(m: StateMachine<S>, n: Node<S>, full: Log, from: ReplicaId, msg: Message) returns (more: Log)
    requires Settled(m, n, full) && msg.AppendEntriesResp?
    ensures Settled(m, HearBack(m, n, from, msg).0, more)
  {
    if msg.success {
      var n1 := Matched(n, from, msg.matchIndex);
      SameCoreSettled(m, n, n1, full);
      more := AdvanceSettled(m, n1, full);
      SameCoreSettled(m, MaybeAdvanceCommit(m, n1), ServeReads(m, MaybeAdvanceCommit(m, n1)), more);
    } else {
      more := full;
      SameCoreSettled(m, n, HearBack(m, n, from, msg).0, full);
    }
  }

  lemma RespSettled<S>(m: StateMachine<S>, n: Node<S>, full: Log, from: ReplicaId, msg: Message) returns (more: Log)
    requires Settled(m, n, full) && msg.AppendEntriesResp?
    ensures Settled(m, HandleAppendEntriesResp(m, n, from, msg).0, more)
  {
    more := full;
    if msg.term > n.term {
      FollowerSettled(m, n, full, msg.term, None);
    } else if n.role == Leader && msg.term == n.term {
      var n1 := n.(ackedSeq := n.ackedSeq[from := Max(msg.readSeq, Get(n.ackedSeq, from, 0))]);
      SameCoreSettled(m, n, n1, full);
      more := HearBackSettled(m, n1, full, from, msg);
    }
  }

  lemma MessageSettled<S>(m: StateMachine<S>, n: Node<S>, full: Log, from: ReplicaId, msg: Message) returns (more: Log)
    requires Settled(m, n, full) && Legal(n, msg)
    ensures Settled(m, OnMessage(m, n, from, msg).0, more)
  {
    more := full;
    match msg
    case RequestVote(t, c, lli, llt) => VoteSettled(m, n, full, t, c, lli, llt);
    case RequestVoteResp(t, granted) => more := VoteRespSettled(m, n, full, from, t, granted);
    case AppendEntries(_, _, _, _, _, _, _) => more := AppendEntriesSettled(m, n, full, msg);
    case AppendEntriesResp(_, _, _, _, _) => more := RespSettled(m, n, full, from, msg);
  }

  lemma ProposeSettled<S>(m: StateMachine<S>, n: Node<S>, full: Log, command: Bytes) returns (more: Log)
    requires Settled(m, n, full)
    ensures Settled(m, Propose(m, n, command).0, more)
  {
    more := full;
    if n.role == Leader {
      AppendLocalSettled(m, n, full, Command(command));
      more := full + [Entry(n.term, |full| + 1, Command(command))];
      var n1 := AppendLocal(n, Command(command));
      BroadcastSettled(m, n1, more);
      more := AdvanceSettled(m, BroadcastAppend(n1).0, more);
    }
  }

  lemma ProposeConfSettled<S>(m: StateMachine<S>, n: Node<S>, full: Log, voters: seq<ReplicaId>) returns (more: Log)
    requires Settled(m, n, full)
    ensures Settled(m, ProposeConf(n, voters).0, more)
  {
    more := full;
    if n.role == Leader && n.config.Simple? {
      var payload := Config(Joint(n.config.voters, Sorted(voters)));
      AppendLocalSettled(m, n, full, payload);
      more := full + [Entry(n.term, |full| + 1, payload)];
      BroadcastSettled(m, AppendLocal(n, payload), more);
    }
  }

  lemma CompactSettled<S>(m: StateMachine<S>, n: Node<S>, full: Log)
    requires Settled(m, n, full)
    ensures Settled(m, Compact(m, n), full)
  {
    CompactLive(m, n, full);
  }

  /** The store of a settled replica rebuilds it. */
  lemma SettledRecovers<S(!new)>(m: StateMachine<S>, n: Node<S>, full: Log, id: ReplicaId, voters: seq<ReplicaId>)
    requires Settled(m, n, full) && Reversible(m)
    ensures var r := RestoreFrom(m, id, voters, n.snapshotThreshold, n.store);
            && r.store == n.store && r.term == n.term && r.votedFor == n.votedFor
            && r.commitIndex == n.commitIndex && r.lastApplied == n.lastApplied && r.sm == n.sm
  {
    var n0 := NewWithStore(m, id, voters, n.snapshotThreshold, n.store);
    var n1 := RecomputeConfig(Rebased(Reloaded(m, n0)));
    assert n1.sm == Replay(m, full[..n.store.baseIndex]);
    assert Live(m, n1, full);
    ApplyLoopLive(m, n1, full);
    ServeKeeps(m, ApplyLoop(m, n1));
  }

  /** What a driver can do to a replica. */
  datatype Input =
    | Timer(due: bool)
    | Receive(from: ReplicaId, msg: Message)
    | Submit(command: Bytes)
    | ChangeMembers(voters: seq<ReplicaId>)
    | Query(reqId: nat, query: Bytes)
    | CompactNow
    | TakeOutput
    | CrashAndRestart(bootstrap: seq<ReplicaId>)

  function Feed<S>(m: StateMachine<S>, n: Node<S>, input: Input): Node<S> {
    match input
    case Timer(due) => OnTick(m, n, due).0
    case Receive(from, msg) => OnMessage(m, n, from, msg).0
    case Submit(command) => Propose(m, n, command).0
    case ChangeMembers(voters) => ProposeConf(n, voters).0
    case Query(reqId, query) => Read(m, n, reqId, query).0
    case CompactNow => Compact(m, n)
    case TakeOutput => n.(ready := [], outbox := [])
    case CrashAndRestart(bootstrap) => RestoreFrom(m, n.id, bootstrap, n.snapshotThreshold, n.store)
  }

  lemma FeedSettled<S(!new)>(m: StateMachine<S>, n: Node<S>, full: Log, input: Input) returns (more: Log)
    requires Settled(m, n, full) && (input.Receive? ==> Legal(n, input.msg)) && Reversible(m)
    ensures Settled(m, Feed(m, n, input), more)
  {
    more := full;
    match input
    case Timer(due) => more := TickSettled(m, n, full, due);
    case Receive(from, msg) => more := MessageSettled(m, n, full, from, msg);
    case Submit(command) => more := ProposeSettled(m, n, full, command);
    case ChangeMembers(voters) => more := ProposeConfSettled(m, n, full, voters);
    case Query(reqId, query) => SameCoreSettled(m, n, Feed(m, n, input), full);
    case CompactNow => CompactSettled(m, n, full);
    case TakeOutput =>
    case CrashAndRestart(bootstrap) => SettledRecovers(m, n, full, n.id, bootstrap);
  }

  function FeedAll<S>(m: StateMachine<S>, n: Node<S>, inputs: seq<Input>): Node<S>
    decreases |inputs|
  {
    if inputs == [] then n else FeedAll(m, Feed(m, n, inputs[0]), inputs[1..])
  }

  ghost predicate LegalAll<S>(m: StateMachine<S>, n: Node<S>, inputs: seq<Input>)
    decreases |inputs|
  {
    inputs != [] ==> (inputs[0].Receive? ==> Legal(n, inputs[0].msg)) && LegalAll(m, Feed(m, n, inputs[0]), inputs[1..])
  }

  lemma {:induction false} FeedAllSettled<S(!new)>(m: StateMachine<S>, n: Node<S>, full: Log,
                                                   inputs: seq<Input>)
    returns (more: Log)
    requires Settled(m, n, full) && LegalAll(m, n, inputs) && Reversible(m)
    ensures Settled(m, FeedAll(m, n, inputs), more)
    decreases |inputs|
  {
    more := full;
    if inputs != [] {
      more := FeedSettled(m, n, full, inputs[0]);
      more := FeedAllSettled(m, Feed(m, n, inputs[0]), more, inputs[1..]);
    }
  }

  // ---- recovery ----

  /** Crash recovery: after any sequence of legal inputs, earlier crashes and restarts among them,
      the stored hard state is the live one and the store alone rebuilds log, term, vote, commit index,
      applied index and state machine. */
  lemma CrashRecovery<S(!new)>(m: StateMachine<S>, id: ReplicaId, voters: seq<ReplicaId>, threshold: nat,
                               inputs: seq<Input>)
    requires Reversible(m) && LegalAll(m, NewWithStore(m, id, voters, threshold, EmptyStore), inputs)
    ensures var n := FeedAll(m, NewWithStore(m, id, voters, threshold, EmptyStore), inputs);
            var r := RestoreFrom(m, id, voters, n.snapshotThreshold, n.store);
            && n.store.hardState == HardState(n.term, n.votedFor, n.commitIndex)
            && r.store == n.store && r.term == n.term && r.votedFor == n.votedFor
            && r.commitIndex == n.commitIndex && r.lastApplied == n.lastApplied && r.sm == n.sm
  {
    var n := NewWithStore(m, id, voters, threshold, EmptyStore);
    assert Settled(m, n, []);
    var full := FeedAllSettled(m, n, [], inputs);
    SettledRecovers(m, FeedAll(m, n, inputs), full, id, voters);
  }

  /** In a Raft group every message a replica takes is legal. */
  lemma GroupMessagesLegal<S>(h: History, id: ReplicaId, n: Node<S>, p: Packet)
    requires Valid(h) && NodeOk(h, id, n) && MsgOk(h, p)
    ensures Legal(n, p.msg)
  {
    if p.msg.AppendEntries? && p.msg.term >= n.term {
      var r := h.reigns[p.msg.term];
      assert ReignOk(h.base, h.reigns, p.msg.term);
      CoherentIndexed(h.reigns, r.log);
      CoherentIndexed(h.reigns, n.store.log);
      LeaderHoldsCommitted(h, n.term, p.msg.term, n.store.log, n.commitIndex);
      forall k | 0 <= k < |p.msg.entries|
        ensures p.msg.entries[k].index == p.msg.prevLogIndex + 1 + k
        ensures 0 < p.msg.entries[k].index <= n.commitIndex ==>
                  TermAt(n, p.msg.entries[k].index) == Some(p.msg.entries[k].term)
      {
        assert p.msg.entries[k] == r.log[p.msg.prevLogIndex + k];
        PlainTermAt(n, p.msg.entries[k].index);
      }
    }
  }
}
