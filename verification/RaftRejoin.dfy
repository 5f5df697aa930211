/** What a restart makes of a replica's membership. The stored snapshot does not say which
    configuration was in force at its base, so the replica comes back with the bootstrap
    voters there: exactly right if the live log still holds a configuration, or if the one
    folded away was the bootstrap one. */
module RaftRejoin {
  import opened Wrappers
  import opened RaftTypes
  import opened Membership
  import opened ConfigChain
  import opened LogStore
  import opened RaftModel
  import opened RaftHandlers
  import opened RaftRecovery

  // ---- the active membership is always that of the log ----

  /** The membership in force is the last one in the live log, or else the one at its base. */
  ghost predicate Tracked<S>(n: Node<S>) {
    n.config == ConfigOf(n.baseConfig, LiveEntries(n))
  }

  ghost predicate SameLog<S>(n: Node<S>, r: Node<S>) {
    && r.store.log == n.store.log && r.store.baseIndex == n.store.baseIndex
    && r.config == n.config && r.baseConfig == n.baseConfig
  }

  lemma SameTracked<S>(n: Node<S>, r: Node<S>)
    requires Tracked(n) && SameLog(n, r)
    ensures Tracked(r)
  {
  }

  lemma RecomputeTracked<S>(n: Node<S>)
    ensures Tracked(RecomputeConfig(n))
  {
  }

  lemma ApplyTracked<S>(m: StateMachine<S>, n: Node<S>)
    requires Tracked(n)
    ensures Tracked(ApplyCommitted(m, n))
  {
    ApplyLoopFrame(m, n);
    var n1 := ServeReads(m, ApplyLoop(m, n));
    SameTracked(n, n1);
    CompactTracked(m, n1);
  }

  lemma CompactTracked<S>(m: StateMachine<S>, n: Node<S>)
    requires Tracked(n)
    ensures Tracked(Compact(m, n)) && Tracked(MaybeCompact(m, n))
  {
  }

  lemma AppendTracked<S>(m: StateMachine<S>, n: Node<S>, full: Log, payload: EntryPayload)
    requires Tracked(n) && Stored(m, n.store, full)
    ensures Tracked(AppendLocal(n, payload))
  {
    if !payload.Config? {
      var e := Entry(n.term, LastIndex(n.store) + 1, payload);
      StoredLog(m, n.store, full);
      LiveMore(m, n.store, full, e);
      assert LiveEntries(AppendLocal(n, payload)) == LiveEntries(n) + [e];
      PlainEntryLast(LiveEntries(n), e);
    }
  }

  lemma LiveMore<S>(m: StateMachine<S>, s: Store, full: Log, e: Entry)
    requires Stored(m, s, full) && e.index == |full| + 1
    ensures var r := Append(s, [e]);
            Entries(r, r.baseIndex + 1, LastIndex(r)) == Entries(s, s.baseIndex + 1, LastIndex(s)) + [e]
  {
    StoredAppend(m, s, full, e);
    LiveIsLog(m, s, full);
    LiveIsLog(m, Append(s, [e]), full + [e]);
  }

  lemma PlainEntryLast(log: Log, e: Entry)
    requires !IsConfig(e)
    ensures LastConfigPos(log + [e]) == LastConfigPos(log)
  {
    assert (log + [e])[..|log|] == log;
  }

  lemma AdvanceTracked<S>(m: StateMachine<S>, n: Node<S>)
    requires Tracked(n)
    ensures Tracked(MaybeAdvanceCommit(m, n))
  {
    if n.role == Leader {
      var k := HighestCommittable(n, LastIndex(n.store));
      var n1 := PersistHardState(n.(commitIndex := k));
      SameTracked(n, n1);
      ApplyTracked(m, n1);
      FinalizeTracked(ApplyCommitted(m, n1));
    }
  }

  lemma FinalizeTracked<S>(n: Node<S>)
    requires Tracked(n)
    ensures Tracked(FinalizeJointIfCommitted(n))
  {
  }

  lemma LeadTracked<S>(m: StateMachine<S>, n: Node<S>, full: Log)
    requires Tracked(n) && Stored(m, n.store, full)
    ensures Tracked(BecomeLeader(m, n).0)
  {
    SameTracked(n, InOffice(n));
    AppendTracked(m, InOffice(n), full, Noop);
    AdvanceTracked(m, OpenedReign(n));
    SameTracked(MaybeAdvanceCommit(m, OpenedReign(n)), BecomeLeader(m, n).0);
  }

  lemma TickTracked<S>(m: StateMachine<S>, n: Node<S>, full: Log, due: bool)
    requires Tracked(n) && Stored(m, n.store, full)
    ensures Tracked(OnTick(m, n, due).0)
  {
    if due && n.role != Leader {
      SameTracked(n, Stand(n));
      LeadTracked(m, Stand(n), full);
    }
  }

  lemma FollowerTracked<S>(n: Node<S>, term: Term, leader: Option<ReplicaId>)
    requires Tracked(n)
    ensures Tracked(BecomeFollower(n, term, leader))
  {
  }

  lemma VoteTracked<S>(n: Node<S>, term: Term, candidate: ReplicaId, lli: Index, llt: Term)
    requires Tracked(n)
    ensures Tracked(HandleRequestVote(n, term, candidate, lli, llt).0)
  {
    FollowerTracked(n, term, None);
    var n1 := if term > n.term then BecomeFollower(n, term, None) else n;
    SameTracked(n1, DecideVote(n1, term, candidate, lli, llt).0);
  }

  lemma AppendEntriesTracked<S>(m: StateMachine<S>, n: Node<S>, msg: Message)
    requires Tracked(n) && msg.AppendEntries?
    ensures Tracked(HandleAppendEntries(m, n, msg).0)
  {
    var n1 := BecomeFollower(n, msg.term, Some(msg.leader));
    FollowerTracked(n, msg.term, Some(msg.leader));
    var n2 := RecomputeConfig(Splice(n1, msg.entries));
    RecomputeTracked(Splice(n1, msg.entries));
    FollowCommitTracked(m, n2, msg.leaderCommit);
  }

  lemma FollowCommitTracked<S>(m: StateMachine<S>, n: Node<S>, commit: Index)
    requires Tracked(n)
    ensures Tracked(FollowCommit(m, n, commit))
  {
    if commit > n.commitIndex {
      var n1 := PersistHardState(n.(commitIndex := Min(commit, LastIndex(n.store))));
      SameTracked(n, n1);
      ApplyTracked(m, n1);
    }
  }

  lemma HearBackTracked<S>(m: StateMachine<S>, n: Node<S>, from: ReplicaId, msg: Message)
    requires Tracked(n) && msg.AppendEntriesResp?
    ensures Tracked(HearBack(m, n, from, msg).0)
  {
    if msg.success {
      SameTracked(n, Matched(n, from, msg.matchIndex));
      AdvanceTracked(m, Matched(n, from, msg.matchIndex));
      var r := MaybeAdvanceCommit(m, Matched(n, from, msg.matchIndex));
      SameTracked(r, ServeReads(m, r));
    }
  }

  lemma RespTracked<S>(m: StateMachine<S>, n: Node<S>, from: ReplicaId, msg: Message)
    requires Tracked(n) && msg.AppendEntriesResp?
    ensures Tracked(HandleAppendEntriesResp(m, n, from, msg).0)
  {
    FollowerTracked(n, msg.term, None);
    var n1 := n.(ackedSeq := n.ackedSeq[from := Max(msg.readSeq, Get(n.ackedSeq, from, 0))]);
    SameTracked(n, n1);
    HearBackTracked(m, n1, from, msg);
  }

  lemma VoteRespTracked<S>(m: StateMachine<S>, n: Node<S>, full: Log, from: ReplicaId, term: Term, granted: bool)
    requires Tracked(n) && Stored(m, n.store, full)
    ensures Tracked(HandleRequestVoteResp(m, n, from, term, granted).0)
  {
    FollowerTracked(n, term, None);
    var n1 := n.(votes := n.votes + {from});
    SameTracked(n, n1);
    LeadTracked(m, n1, full);
  }

  lemma MessageTracked<S>(m: StateMachine<S>, n: Node<S>, full: Log, from: ReplicaId, msg: Message)
    requires Tracked(n) && Stored(m, n.store, full) && !msg.InstallSnapshot?
    ensures Tracked(OnMessage(m, n, from, msg).0)
  {
    match msg
    case RequestVote(t, c, lli, llt) => VoteTracked(n, t, c, lli, llt);
    case RequestVoteResp(t, granted) => VoteRespTracked(m, n, full, from, t, granted);
    case AppendEntries(_, _, _, _, _, _, _) => AppendEntriesTracked(m, n, msg);
    case AppendEntriesResp(_, _, _, _, _) => RespTracked(m, n, from, msg);
  }

  lemma ProposeTracked<S>(m: StateMachine<S>, n: Node<S>, full: Log, command: Bytes)
    requires Tracked(n) && Stored(m, n.store, full)
    ensures Tracked(Propose(m, n, command).0)
  {
    if n.role == Leader {
      var n1 := AppendLocal(n, Command(command));
      AppendTracked(m, n, full, Command(command));
      SameTracked(n1, BroadcastAppend(n1).0);
      AdvanceTracked(m, BroadcastAppend(n1).0);
    }
  }

  lemma ChangeTracked<S>(n: Node<S>, voters: seq<ReplicaId>)
    requires Tracked(n)
    ensures Tracked(ProposeConf(n, voters).0)
  {
    if n.role == Leader && n.config.Simple? {
      var n1 := AppendLocal(n, Config(Joint(n.config.voters, Sorted(voters))));
      assert Tracked(n1);
      SameTracked(n1, BroadcastAppend(n1).0);
    }
  }

  lemma RestartTracked<S>(m: StateMachine<S>, id: ReplicaId, voters: seq<ReplicaId>, threshold: nat, store: Store)
    ensures Tracked(RestoreFrom(m, id, voters, threshold, store))
  {
    var n := Rebased(Reloaded(m, NewWithStore(m, id, voters, threshold, store)));
    RecomputeTracked(n);
    ApplyTracked(m, RecomputeConfig(n));
  }

  lemma FeedTracked<S>(m: StateMachine<S>, n: Node<S>, full: Log, input: Input)
    requires Tracked(n) && Settled(m, n, full) && (input.Receive? ==> Legal(n, input.msg))
    ensures Tracked(Feed(m, n, input))
  {
    match input
    case Timer(due) => TickTracked(m, n, full, due);
    case Receive(from, msg) => MessageTracked(m, n, full, from, msg);
    case Submit(command) => ProposeTracked(m, n, full, command);
    case ChangeMembers(voters) => ChangeTracked(n, voters);
    case Query(reqId, query) => SameTracked(n, Feed(m, n, input));
    case CompactNow => CompactTracked(m, n);
    case TakeOutput => SameTracked(n, Feed(m, n, input));
    case CrashAndRestart(bootstrap) => RestartTracked(m, n.id, bootstrap, n.snapshotThreshold, n.store);
  }

  lemma {:induction false} FeedAllTracked<S(!new)>(m: StateMachine<S>, n: Node<S>, full: Log, inputs: seq<Input>)
    returns (more: Log)
    requires Tracked(n) && Settled(m, n, full) && LegalAll(m, n, inputs) && Reversible(m)
    ensures Tracked(FeedAll(m, n, inputs)) && Settled(m, FeedAll(m, n, inputs), more)
    decreases |inputs|
  {
    more := full;
    if inputs != [] {
      FeedTracked(m, n, full, inputs[0]);
      more := FeedSettled(m, n, full, inputs[0]);
      more := FeedAllTracked(m, Feed(m, n, inputs[0]), more, inputs[1..]);
    }
  }

  // ---- what a restart finds ----

  /** What a replica's live log, or else its base, says about membership is what the bootstrap voters would give. */
  ghost predicate MembershipKept<S>(n: Node<S>, voters: seq<ReplicaId>) {
    LastConfigPos(LiveEntries(n)) >= 0 || n.baseConfig == Simple(Sorted(voters))
  }

  lemma {:induction false} BaseOnly(base: ConfState, log: Log, i: Index)
    requires forall k :: 0 <= k < |log| ==> log[k].index > i
    ensures ConfigUpTo(base, log, i) == base
  {
    if log != [] { BaseOnly(base, log[..|log| - 1], i); }
  }

  /** A restart finds the bootstrap voters at the base of the log, whatever was in force there. */
  lemma RestoredBase<S>(m: StateMachine<S>, n: Node<S>, full: Log, id: ReplicaId, voters: seq<ReplicaId>)
    requires Settled(m, n, full)
    ensures var n1 := RecomputeConfig(Rebased(Reloaded(m, NewWithStore(m, id, voters, n.snapshotThreshold, n.store))));
            n1.store == n.store && n1.config == ConfigOf(Simple(Sorted(voters)), LiveEntries(n))
  {
    LiveIsLog(m, n.store, full);
    RebasedConfig(Reloaded(m, NewWithStore(m, id, voters, n.snapshotThreshold, n.store)));
  }

  lemma LiveIsLog<S>(m: StateMachine<S>, s: Store, full: Log)
    requires Stored(m, s, full)
    ensures Entries(s, s.baseIndex + 1, LastIndex(s)) == s.log
    ensures forall k :: 0 <= k < |s.log| ==> s.log[k].index > s.baseIndex
  {
    StoredLog(m, s, full);
    EntriesToEnd(s, s.baseIndex + 1);
  }

  lemma RebasedConfig<S>(n: Node<S>)
    requires forall k :: 0 <= k < |LiveEntries(n)| ==> LiveEntries(n)[k].index > n.store.baseIndex
    ensures var r := RecomputeConfig(Rebased(n));
            r.store == n.store && r.config == ConfigOf(n.baseConfig, LiveEntries(n))
  {
    BaseOnly(n.baseConfig, LiveEntries(n), n.store.baseIndex);
  }

  /** The restarted replica has nothing to compact, so that is its membership. */
  lemma RestoredMembership<S(!new)>(m: StateMachine<S>, n: Node<S>, full: Log, id: ReplicaId, voters: seq<ReplicaId>)
    requires Settled(m, n, full) && Reversible(m)
    ensures RestoreFrom(m, id, voters, n.snapshotThreshold, n.store).config
         == ConfigOf(Simple(Sorted(voters)), LiveEntries(n))
  {
    RestoredBase(m, n, full, id, voters);
    var n1 := RecomputeConfig(Rebased(Reloaded(m, NewWithStore(m, id, voters, n.snapshotThreshold, n.store))));
    assert n1.sm == Replay(m, full[..n.store.baseIndex]);
    assert Live(m, n1, full);
    ApplyLoopLive(m, n1, full);
    ServeKeeps(m, ApplyLoop(m, n1));
  }

  /** After any sequence of legal inputs, a restart brings the membership in force back exactly if the live log holds
      a configuration or the one at its base is the bootstrap one. */
  lemma MembershipRecovered<S(!new)>(m: StateMachine<S>, id: ReplicaId, voters: seq<ReplicaId>, threshold: nat,
                                     inputs: seq<Input>)
    requires Reversible(m) && LegalAll(m, NewWithStore(m, id, voters, threshold, EmptyStore), inputs)
    ensures var n := FeedAll(m, NewWithStore(m, id, voters, threshold, EmptyStore), inputs);
            RestoreFrom(m, id, voters, n.snapshotThreshold, n.store).config == n.config <==> MembershipKept(n, voters)
  {
    var n := NewWithStore(m, id, voters, threshold, EmptyStore);
    assert Settled(m, n, []) && Tracked(n);
    var full := FeedAllTracked(m, n, [], inputs);
    RestoredMembership(m, FeedAll(m, n, inputs), full, id, voters);
  }

  // ---- a membership that is forgotten ----

  /** A leader's message with the change to replicas 0 and 1, already committed. */
  const Joined: Message := AppendEntries(1, 1, 0, 0, [Entry(1, 1, Config(Simple([0, 1])))], 1, 0)

  /** Bootstrapped alone, replica 0 learns of the change and folds it away. */
  const Folding: seq<Input> := [Receive(1, Joined), CompactNow]

  lemma JoinedState<S>(m: StateMachine<S>)
    ensures var n := NewWithStore(m, 0, [0], 0, EmptyStore);
            var r := HandleAppendEntries(m, n, Joined).0;
            && Legal(n, Joined) && r.store == Store(Joined.entries, 0, 0, [], HardState(1, None, 1), false)
            && r.lastApplied == 1
  {
    var n := NewWithStore(m, 0, [0], 0, EmptyStore);
    JoinedFits(n);
    JoinedTaken(m, n);
  }

  lemma JoinedFits<S>(n: Node<S>)
    requires n.commitIndex == 0
    ensures Legal(n, Joined)
  {
  }

  lemma JoinedTaken<S>(m: StateMachine<S>, n: Node<S>)
    requires n.term == 0 && n.commitIndex == 0 && n.lastApplied == 0 && n.snapshotThreshold == 0
    requires n.store == EmptyStore
    ensures var r := HandleAppendEntries(m, n, Joined).0;
            r.store == Store(Joined.entries, 0, 0, [], HardState(1, None, 1), false) && r.lastApplied == 1
  {
    var n1 := BecomeFollower(n, 1, Some(1));
    assert n1.store == EmptyStore.(hardState := HardState(1, None, 0)) && n1.votedFor == None;
    JoinedSpliced(n1);
    JoinedCommits(m, RecomputeConfig(Splice(n1, Joined.entries)));
    assert HandleAppendEntries(m, n, Joined).0 == FollowCommit(m, RecomputeConfig(Splice(n1, Joined.entries)), 1);
  }

  lemma JoinedSpliced<S>(n: Node<S>)
    requires n.store.log == [] && n.store.baseIndex == 0
    ensures Splice(n, Joined.entries) == n.(store := n.store.(log := Joined.entries))
  {
    var e := Joined.entries;
    assert n.store.log + e == e && e[1..] == [];
    assert SpliceOne(n, e[0]) == n.(store := n.store.(log := e));
  }

  lemma JoinedCommits<S>(m: StateMachine<S>, n: Node<S>)
    requires n.store.log == Joined.entries && n.commitIndex == 0 && n.lastApplied == 0 && n.snapshotThreshold == 0
    ensures var r := FollowCommit(m, n, 1);
            r.lastApplied == 1 && r.store == n.store.(hardState := HardState(n.term, n.votedFor, 1))
  {
    ApplyCommittedFrame(m, PersistHardState(n.(commitIndex := 1)));
  }

  lemma FoldedState<S>(m: StateMachine<S>, r: Node<S>)
    requires r.store == Store(Joined.entries, 0, 0, [], HardState(1, None, 1), false) && r.lastApplied == 1
    ensures var f := Compact(m, r); f.baseConfig == Simple([0, 1]) && f.store.log == []
  {
    EntriesToEnd(r.store, 1);
    assert LiveEntries(r) == Joined.entries;
  }

  lemma FoldingIs<S>(m: StateMachine<S>, n: Node<S>, r: Node<S>)
    requires Feed(m, n, Receive(1, Joined)) == r && Legal(n, Joined)
    ensures FeedAll(m, n, Folding) == Compact(m, r) && LegalAll(m, n, Folding)
  {
    assert Folding[1..] == [CompactNow] && [CompactNow][1..] == [];
    assert FeedAll(m, r, [CompactNow]) == Compact(m, r);
    assert LegalAll(m, r, [CompactNow]);
  }

  lemma FoldingEnds<S>(m: StateMachine<S>)
    ensures var n := NewWithStore(m, 0, [0], 0, EmptyStore);
            var f := FeedAll(m, n, Folding);
            LegalAll(m, n, Folding) && f.baseConfig == Simple([0, 1]) && f.store.log == []
  {
    var n := NewWithStore(m, 0, [0], 0, EmptyStore);
    var r := HandleAppendEntries(m, n, Joined).0;
    JoinedState(m);
    FoldedState(m, r);
    JoinedFed(m, n);
    FoldingIs(m, n, r);
  }

  lemma JoinedFed<S>(m: StateMachine<S>, n: Node<S>)
    ensures Feed(m, n, Receive(1, Joined)) == HandleAppendEntries(m, n, Joined).0
  {
  }

  /** With no configuration left in the log, a restart finds only the bootstrap voters. */
  lemma NothingLeft<S(!new)>(m: StateMachine<S>, n: Node<S>, full: Log, voters: seq<ReplicaId>)
    requires Settled(m, n, full) && Tracked(n) && Reversible(m) && n.store.log == []
    ensures n.config == n.baseConfig
    ensures RestoreFrom(m, 0, voters, n.snapshotThreshold, n.store).config == Simple(Sorted(voters))
  {
    assert LiveEntries(n) == [];
    RestoredMembership(m, n, full, 0, voters);
  }

  /** Its store brings back the bootstrap membership instead. */
  lemma MembershipForgotten<S(!new)>(m: StateMachine<S>)
    requires Reversible(m)
    ensures var n := NewWithStore(m, 0, [0], 0, EmptyStore);
            var f := FeedAll(m, n, Folding);
            && LegalAll(m, n, Folding) && f.config == Simple([0, 1])
            && RestoreFrom(m, 0, [0], f.snapshotThreshold, f.store).config == Simple([0])
  {
    var n := NewWithStore(m, 0, [0], 0, EmptyStore);
    FoldingEnds(m);
    assert Settled(m, n, []) && Tracked(n) && Sorted([0]) == [0];
    var full := FeedAllTracked(m, n, [], Folding);
    NothingLeft(m, FeedAll(m, n, Folding), full, [0]);
  }
}
