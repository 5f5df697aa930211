/** Installing a leader's snapshot: what is kept of the follower's log, and when the follower
    is left as if it had applied the leader's entries itself. */
module RaftInstall {
  import opened Wrappers
  import opened RaftTypes
  import opened ConfigChain
  import opened LogStore
  import opened RaftModel
  import opened RaftHandlers
  import opened RaftRecovery

  // ---- what the handler leaves ----

  /** The store holds, live, an entry of this term at index `k`. */
  ghost predicate HasEntry(s: Store, k: Index, t: Term) {
    s.baseIndex < k <= s.baseIndex + |s.log| && s.log[k - s.baseIndex - 1].term == t
  }

  /** The live entries past index `k`. */
  function Past(s: Store, k: Index): Log
    requires s.baseIndex <= k
  {
    if k - s.baseIndex <= |s.log| then s.log[k - s.baseIndex..] else []
  }

  /** A snapshot past the base replaces everything up to its last index. What lies behind stays exactly if the log had
      the snapshot's last entry; otherwise the whole log is given up. */
  lemma InstallKeeps<S>(m: StateMachine<S>, n: Node<S>, msg: Message)
    requires msg.InstallSnapshot? && Contiguous(n.store)
    requires n.term <= msg.term && n.store.baseIndex < msg.lastIncludedIndex
    ensures var k := msg.lastIncludedIndex;
            var r := HandleInstallSnapshot(m, n, msg).0;
            && r.store.log == (if HasEntry(n.store, k, msg.lastIncludedTerm) then Past(n.store, k) else [])
            && r.store.baseIndex == k && r.store.baseTerm == msg.lastIncludedTerm
            && r.store.hasSnapshot && r.store.snapshotData == msg.data && Contiguous(r.store)
    ensures var k := msg.lastIncludedIndex;
            var r := HandleInstallSnapshot(m, n, msg).0;
            && r.commitIndex == (if n.commitIndex < k then k else n.commitIndex)
            && r.lastApplied == (if n.lastApplied < k then k else n.lastApplied)
            && r.role == Follower && r.term == msg.term && r.leaderId == Some(msg.leader)
            && r.votedFor == (if n.term == msg.term then n.votedFor else None)
            && r.store.hardState == HardState(r.term, r.votedFor, r.commitIndex)
            && r.sm == m.restore(n.sm, msg.data) && r.baseConfig == msg.lastIncludedConfig
            && r.config == ConfigOf(msg.lastIncludedConfig, r.store.log)
    ensures HandleInstallSnapshot(m, n, msg).1
         == [Out(msg.leader, AppendEntriesResp(msg.term, true, msg.lastIncludedIndex, 0, msg.readSeq))]
  {
    var n1 := BecomeFollower(n, msg.term, Some(msg.leader));
    InstallTaken(m, n, msg);
    InstalledStore(m, n1, msg);
    InstalledFields(m, n1, msg);
    LiveAll(Installed(m, n1, msg));
  }

  lemma LiveAll<S>(n: Node<S>)
    requires Contiguous(n.store)
    ensures LiveEntries(n) == n.store.log
  {
    EntriesToEnd(n.store, n.store.baseIndex + 1);
  }

  lemma InstallTaken<S>(m: StateMachine<S>, n: Node<S>, msg: Message)
    requires msg.InstallSnapshot? && n.term <= msg.term && n.store.baseIndex < msg.lastIncludedIndex
    ensures HandleInstallSnapshot(m, n, msg)
         == (Installed(m, BecomeFollower(n, msg.term, Some(msg.leader)), msg),
             [Out(msg.leader, AppendEntriesResp(msg.term, true, msg.lastIncludedIndex, 0, msg.readSeq))])
    ensures BecomeFollower(n, msg.term, Some(msg.leader)).store == n.store.(
              hardState := if n.term == msg.term then n.store.hardState else HardState(msg.term, None, n.commitIndex))
  {
  }

  lemma InstalledFields<S>(m: StateMachine<S>, n: Node<S>, msg: Message)
    requires msg.InstallSnapshot? && Contiguous(n.store) && n.store.baseIndex < msg.lastIncludedIndex
    ensures var k, r := msg.lastIncludedIndex, Installed(m, n, msg);
            && r.commitIndex == (if n.commitIndex < k then k else n.commitIndex)
            && r.lastApplied == (if n.lastApplied < k then k else n.lastApplied)
            && r.role == n.role && r.term == n.term && r.votedFor == n.votedFor && r.leaderId == n.leaderId
            && r.store.hardState == HardState(r.term, r.votedFor, r.commitIndex)
            && r.sm == m.restore(n.sm, msg.data) && r.baseConfig == msg.lastIncludedConfig
            && r.config == ConfigOf(msg.lastIncludedConfig, LiveEntries(r))
            && r.snapshotThreshold == n.snapshotThreshold
  {
  }

  lemma InstalledStore<S>(m: StateMachine<S>, n: Node<S>, msg: Message)
    requires msg.InstallSnapshot? && Contiguous(n.store) && n.store.baseIndex < msg.lastIncludedIndex
    ensures var k := msg.lastIncludedIndex;
            var s := Installed(m, n, msg).store;
            && s.log == (if HasEntry(n.store, k, msg.lastIncludedTerm) then Past(n.store, k) else [])
            && s.baseIndex == k && s.baseTerm == msg.lastIncludedTerm && s.hasSnapshot && s.snapshotData == msg.data
            && Contiguous(s)
  {
    var k := msg.lastIncludedIndex;
    assert TermAt(n, k) == Some(msg.lastIncludedTerm) <==> HasEntry(n.store, k, msg.lastIncludedTerm);
    if HasEntry(n.store, k, msg.lastIncludedTerm) { AfterIsTail(n.store.log, n.store.baseIndex + 1, k); }
  }

  /** A snapshot of an earlier term changes nothing, and one that is covered only brings the replica into the term. */
  lemma InstallIgnored<S>(m: StateMachine<S>, n: Node<S>, msg: Message)
    requires msg.InstallSnapshot? && (msg.term < n.term || msg.lastIncludedIndex <= n.store.baseIndex)
    ensures var (r, outs) := HandleInstallSnapshot(m, n, msg);
            && r.sm == n.sm && r.store == n.store.(hardState := r.store.hardState) && r.commitIndex == n.commitIndex
            && r.lastApplied == n.lastApplied && r.config == n.config && (msg.term < n.term ==> r == n)
            && |outs| == 1 && outs[0].dest == msg.leader && outs[0].msg.AppendEntriesResp?
            && (outs[0].msg.success <==> n.term <= msg.term)
  {
  }

  // ---- a snapshot of a leader's log ----

  /** Equal terms at an index mean equal logs up to it. */
  ghost predicate Matching(a: Log, b: Log) {
    forall k {:trigger Agree(a, b, k)} :: 0 < k <= |a| && k <= |b| && a[k - 1].term == b[k - 1].term ==> Agree(a, b, k)
  }

  /** The message is a snapshot of the first entries of `lead`. */
  ghost predicate SnapshotOf<S>(m: StateMachine<S>, msg: Message, lead: Log) {
    && msg.InstallSnapshot? && Indexed(lead) && 0 < msg.lastIncludedIndex <= |lead|
    && msg.lastIncludedTerm == lead[msg.lastIncludedIndex - 1].term
    && msg.data == m.snapshot(Replay(m, lead[..msg.lastIncludedIndex]))
  }

  /** What the follower holds afterwards: its own log if the leader's goes through it, else the leader's up to the
      snapshot. */
  ghost function Merged(full: Log, lead: Log, k: nat): Log
    requires 0 < k <= |lead|
  {
    if k <= |full| && full[k - 1].term == lead[k - 1].term then full else lead[..k]
  }

  /** Nothing the leader's log contradicts survives up to the snapshot, and a mismatch there leaves nothing past it. */
  lemma MergedFits(full: Log, lead: Log, k: nat)
    requires 0 < k <= |lead| && Indexed(full) && Indexed(lead) && Matching(full, lead)
    ensures Agree(Merged(full, lead, k), lead, k) && Indexed(Merged(full, lead, k))
    ensures !Agree(full, lead, k) ==> |Merged(full, lead, k)| == k
  {
    assert k <= |full| && full[k - 1].term == lead[k - 1].term ==> Agree(full, lead, k);
  }

  lemma InstalledStored<S>(m: StateMachine<S>, n: Node<S>, full: Log, lead: Log, msg: Message)
    requires Stored(m, n.store, full) && SnapshotOf(m, msg, lead) && Matching(full, lead)
    requires n.store.baseIndex < msg.lastIncludedIndex
    ensures Stored(m, Installed(m, n, msg).store, Merged(full, lead, msg.lastIncludedIndex))
  {
    var k := msg.lastIncludedIndex;
    var more := Merged(full, lead, k);
    StoredLog(m, n.store, full);
    InstalledStore(m, n, msg);
    MergedFits(full, lead, k);
    assert more[..k] == lead[..k];
    HasEntryOf(m, n.store, full, k, msg.lastIncludedTerm);
  }

  lemma HasEntryOf<S>(m: StateMachine<S>, s: Store, full: Log, k: Index, t: Term)
    requires Stored(m, s, full) && s.baseIndex < k
    ensures HasEntry(s, k, t) <==> k <= |full| && full[k - 1].term == t
    ensures k <= |full| ==> Past(s, k) == full[k..]
  {
    assert s.log == full[s.baseIndex..];
  }

  /** A follower that has applied no further than the snapshot is left as if it had applied the leader's entries. */
  lemma InstallSettles<S(!new)>(m: StateMachine<S>, n: Node<S>, full: Log, lead: Log, msg: Message)
    requires Settled(m, n, full) && Reversible(m) && SnapshotOf(m, msg, lead) && Matching(full, lead)
    requires n.term <= msg.term && n.store.baseIndex < msg.lastIncludedIndex && n.lastApplied <= msg.lastIncludedIndex
    ensures Settled(m, HandleInstallSnapshot(m, n, msg).0, Merged(full, lead, msg.lastIncludedIndex))
  {
    var k := msg.lastIncludedIndex;
    var n1 := BecomeFollower(n, msg.term, Some(msg.leader));
    InstallTaken(m, n, msg);
    StoredLog(m, n.store, full);
    InstalledFields(m, n1, msg);
    InstalledStored(m, n1, full, lead, msg);
    MergedFits(full, lead, k);
    assert Merged(full, lead, k)[..k] == lead[..k];
  }

  // ---- a snapshot that comes late ----

  /** The state machine reflects exactly the applied entries. */
  ghost predicate StateRight<S>(m: StateMachine<S>, r: Node<S>, full: Log) {
    r.lastApplied <= |full| && r.sm == Replay(m, full[..r.lastApplied])
  }

  /** A command between positions `i` and `j`. */
  ghost predicate CommandBetween(log: Log, i: nat, j: nat) {
    exists k :: i <= k < j && k < |log| && log[k].payload.Command?
  }

  /** A follower that has applied further keeps its log, and its applied index, but takes the older state. */
  lemma LateInstall<S(!new)>(m: StateMachine<S>, n: Node<S>, full: Log, lead: Log, msg: Message)
    requires Settled(m, n, full) && Reversible(m) && SnapshotOf(m, msg, lead) && Matching(full, lead)
    requires n.term <= msg.term && n.store.baseIndex < msg.lastIncludedIndex < n.lastApplied
    requires Agree(full, lead, msg.lastIncludedIndex)
    ensures var r := HandleInstallSnapshot(m, n, msg).0;
            && Stored(m, r.store, full) && r.lastApplied == n.lastApplied && r.commitIndex == n.commitIndex
            && r.sm == Replay(m, full[..msg.lastIncludedIndex])
  {
    var n1 := BecomeFollower(n, msg.term, Some(msg.leader));
    InstallTaken(m, n, msg);
    StoredLog(m, n.store, full);
    InstalledFields(m, n1, msg);
    InstalledStored(m, n1, full, lead, msg);
    assert full[..msg.lastIncludedIndex] == lead[..msg.lastIncludedIndex];
  }

  lemma {:induction false} NoCommandsNoChange<S>(m: StateMachine<S>, log: Log, i: nat, j: nat)
    requires i <= j <= |log| && !CommandBetween(log, i, j)
    ensures Replay(m, log[..j]) == Replay(m, log[..i])
    decreases j
  {
    if i < j {
      NoCommandsNoChange(m, log, i, j - 1);
      assert log[..j][..j - 1] == log[..j - 1];
    }
  }

  /** If no command lies between the snapshot and what the follower has applied, no harm is done. */
  lemma LateInstallHarmless<S(!new)>(m: StateMachine<S>, n: Node<S>, full: Log, lead: Log, msg: Message)
    requires Settled(m, n, full) && Reversible(m) && SnapshotOf(m, msg, lead) && Matching(full, lead)
    requires n.term <= msg.term && n.store.baseIndex < msg.lastIncludedIndex < n.lastApplied
    requires Agree(full, lead, msg.lastIncludedIndex)
    requires !CommandBetween(full, msg.lastIncludedIndex, n.lastApplied)
    ensures StateRight(m, HandleInstallSnapshot(m, n, msg).0, full)
  {
    LateInstall(m, n, full, lead, msg);
    NoCommandsNoChange(m, full, msg.lastIncludedIndex, n.lastApplied);
  }

  /** Counts the commands it is given. */
  const Tally: StateMachine<nat> :=
    StateMachine(0, (s, c) => (s + 1, []), (s, q) => [], s => Strokes(s), (s, d) => |d|)

  function Strokes(n: int): (b: Bytes)
    ensures n >= 0 ==> |b| == n
  {
    if n <= 0 then [] else Strokes(n - 1) + [0]
  }

  lemma {:induction false} CommandsCount(log: Log, i: nat, j: nat)
    requires i <= j <= |log|
    ensures Replay(Tally, log[..i]) <= Replay(Tally, log[..j])
    ensures Replay(Tally, log[..i]) == Replay(Tally, log[..j]) <==> !CommandBetween(log, i, j)
    decreases j
  {
    if i < j {
      CommandsCount(log, i, j - 1);
      assert log[..j][..j - 1] == log[..j - 1];
      if log[j - 1].payload.Command? {
        assert CommandBetween(log, i, j);
      } else if CommandBetween(log, i, j) {
        var k :| i <= k < j && k < |log| && log[k].payload.Command?;
        assert CommandBetween(log, i, j - 1);
      }
    }
  }

  /** For a state machine that notices every command the state is right exactly if the snapshot reaches as far as the
      follower has applied, or no command lies in between. */
  lemma InstallExactly(n: Node<nat>, full: Log, lead: Log, msg: Message)
    requires Settled(Tally, n, full) && SnapshotOf(Tally, msg, lead) && Matching(full, lead)
    requires n.term <= msg.term && n.store.baseIndex < msg.lastIncludedIndex
    requires msg.lastIncludedIndex < n.lastApplied ==> Agree(full, lead, msg.lastIncludedIndex)
    ensures StateRight(Tally, HandleInstallSnapshot(Tally, n, msg).0, Merged(full, lead, msg.lastIncludedIndex))
       <==> n.lastApplied <= msg.lastIncludedIndex || !CommandBetween(full, msg.lastIncludedIndex, n.lastApplied)
  {
    var k := msg.lastIncludedIndex;
    assert Reversible(Tally);
    if n.lastApplied <= k {
      InstallSettles(Tally, n, full, lead, msg);
    } else {
      LateInstall(Tally, n, full, lead, msg);
      CommandsCount(full, k, n.lastApplied);
      assert Merged(full, lead, k) == full;
    }
  }

  /** A follower has applied a no-op and a command. */
  const Applied2: Message := AppendEntries(1, 1, 0, 0, [Entry(1, 1, Noop), Entry(1, 2, Command([]))], 2, 0)

  /** A snapshot of the no-op alone, sent before, arrives after. */
  const Late: Message := InstallSnapshot(1, 1, 1, 1, Simple([0, 1]), [], 0)

  lemma AppliedState()
    ensures var n := NewWithStore(Tally, 0, [0, 1], 0, EmptyStore);
            var r := HandleAppendEntries(Tally, n, Applied2).0;
            && Legal(n, Applied2) && Settled(Tally, r, Applied2.entries) && r.lastApplied == 2 && r.term == 1
            && r.store.baseIndex == 0
  {
    var n := NewWithStore(Tally, 0, [0, 1], 0, EmptyStore);
    AppliedFits(n);
    AppliedTaken(n);
  }

  lemma AppliedFits(n: Node<nat>)
    requires n.commitIndex == 0
    ensures Legal(n, Applied2)
  {
  }

  lemma AppliedTaken(n: Node<nat>)
    requires n.store == EmptyStore && n.term == 0 && n.commitIndex == 0 && n.lastApplied == 0 && n.sm == 0
    requires n.snapshotThreshold == 0
    ensures var r := HandleAppendEntries(Tally, n, Applied2).0;
            Settled(Tally, r, Applied2.entries) && r.lastApplied == 2 && r.term == 1 && r.store.baseIndex == 0
  {
    var n1 := BecomeFollower(n, 1, Some(1));
    assert n1.store == EmptyStore.(hardState := HardState(1, None, 0)) && n1.votedFor == None;
    AppliedSpliced(n1);
    AppliedCommits(RecomputeConfig(Splice(n1, Applied2.entries)));
    assert HandleAppendEntries(Tally, n, Applied2).0
        == FollowCommit(Tally, RecomputeConfig(Splice(n1, Applied2.entries)), 2);
  }

  lemma AppliedSpliced(n: Node<nat>)
    requires n.store.log == [] && n.store.baseIndex == 0
    ensures Splice(n, Applied2.entries) == n.(store := n.store.(log := Applied2.entries))
  {
    var e := Applied2.entries;
    var n1 := n.(store := n.store.(log := [e[0]]));
    assert n.store.log + [e[0]] == [e[0]] && [e[0]] + [e[1]] == e;
    assert SpliceOne(n, e[0]) == n1 && e[1..] == [e[1]];
    assert SpliceOne(n1, e[1]) == n.(store := n.store.(log := e)) && [e[1]][1..] == [];
    assert Splice(n1, [e[1]]) == Splice(SpliceOne(n1, e[1]), []);
  }

  lemma AppliedCommits(n: Node<nat>)
    requires n.store == Store(Applied2.entries, 0, 0, [], HardState(n.term, n.votedFor, 0), false)
    requires n.commitIndex == 0 && n.lastApplied == 0 && n.sm == 0 && n.snapshotThreshold == 0
    ensures var r := FollowCommit(Tally, n, 2);
            Settled(Tally, r, Applied2.entries) && r.lastApplied == 2 && r.term == n.term && r.store.baseIndex == 0
  {
    var n1 := PersistHardState(n.(commitIndex := 2));
    assert n1.store.log[0..] == n1.store.log && Live(Tally, n1, Applied2.entries);
    ApplyCommittedSettles(Tally, n1, Applied2.entries);
    ApplyCommittedFrame(Tally, n1);
  }

  /** The state forgets the command, and the replica will never apply it again. */
  lemma LateInstallLoses()
    ensures var n := NewWithStore(Tally, 0, [0, 1], 0, EmptyStore);
            var r := HandleInstallSnapshot(Tally, HandleAppendEntries(Tally, n, Applied2).0, Late).0;
            r.lastApplied == 2 && r.sm == 0 && Replay(Tally, Applied2.entries[..2]) == 1
  {
    var n := NewWithStore(Tally, 0, [0, 1], 0, EmptyStore);
    var full := Applied2.entries;
    AppliedState();
    AppliedReplays();
    assert Reversible(Tally);
    LateInstall(Tally, HandleAppendEntries(Tally, n, Applied2).0, full, full, Late);
  }

  lemma AppliedReplays()
    ensures var full := Applied2.entries;
            Replay(Tally, full[..1]) == 0 && Replay(Tally, full[..2]) == 1 && SnapshotOf(Tally, Late, full)
            && Matching(full, full)
  {
    var full := Applied2.entries;
    assert full[..1] == [full[0]] && full[..2] == full && full[..1][..0] == [] && full[..2][..1] == full[..1];
    assert Replay(Tally, full[..0]) == 0 && Replay(Tally, full[..1]) == 0;
  }

  // ---- how far back a leader goes ----

  /** A follower that refuses is tried again further back: never past its hint, always at least one entry earlier,
      until the first. */
  lemma RefusalMovesBack<S>(m: StateMachine<S>, n: Node<S>, from: ReplicaId, msg: Message)
    requires msg.AppendEntriesResp? && !msg.success && n.role == Leader && msg.term == n.term
    ensures var (r, outs) := HandleAppendEntriesResp(m, n, from, msg);
            && from in r.nextIndex && 1 <= r.nextIndex[from]
            && (r.nextIndex[from] < Get(n.nextIndex, from, 1) || r.nextIndex[from] == 1)
            && (msg.conflictIndex > 0 ==> r.nextIndex[from] <= msg.conflictIndex)
            && (r.nextIndex[from] == 1 || r.nextIndex[from] + 1 == Get(n.nextIndex, from, 1)
                || r.nextIndex[from] == msg.conflictIndex)
            && (forall p :: p != from ==> Get(r.nextIndex, p, 0) == Get(n.nextIndex, p, 0))
            && r.matchIndex == n.matchIndex && r.store == n.store && r.commitIndex == n.commitIndex
            && outs == [Out(from, AppendFor(r, from))]
  {
  }

  ghost predicate Refusals(term: Term, msgs: seq<Message>) {
    forall k :: 0 <= k < |msgs| ==> msgs[k].AppendEntriesResp? && !msgs[k].success && msgs[k].term == term
  }

  /** The leader after a follower's refusals, one after the other. */
  ghost function Heard<S>(m: StateMachine<S>, n: Node<S>, from: ReplicaId, msgs: seq<Message>): Node<S>
    requires Refusals(n.term, msgs)
  {
    if msgs == [] then n
    else
      var before := Heard(m, n, from, msgs[..|msgs| - 1]);
      HandleAppendEntriesResp(m, before, from, msgs[|msgs| - 1]).0
  }

  /** However little a follower has, as many refusals as the leader's guess is off are enough to find it. */
  lemma {:induction false} RefusalsReachStart<S>(m: StateMachine<S>, n: Node<S>, from: ReplicaId, msgs: seq<Message>)
    requires n.role == Leader && Refusals(n.term, msgs) && Get(n.nextIndex, from, 1) >= 1
    ensures var r, before := Heard(m, n, from, msgs), Get(n.nextIndex, from, 1);
            && r.role == Leader && r.term == n.term && r.store == n.store
            && 1 <= Get(r.nextIndex, from, 1) <= Max(1, before - Min(|msgs|, before))
    decreases |msgs|
  {
    if msgs != [] {
      var init := msgs[..|msgs| - 1];
      RefusalsReachStart(m, n, from, init);
      RefusalMovesBack(m, Heard(m, n, from, init), from, msgs[|msgs| - 1]);
    }
  }
}
