/** What a replica reports as applied: the records each input adds to its outbox are those of
    the entries it has newly applied, in order, each with the entry's command and the state
    machine's result. */
module RaftRecords {
  import opened Wrappers
  import opened RaftTypes
  import opened Membership
  import opened ConfigChain
  import opened LogStore
  import opened RaftModel
  import opened RaftHandlers
  import RaftReads
  import opened RaftRecovery

  /** What is reported for the entry at index `idx`. */
  ghost function Record<S>(m: StateMachine<S>, full: Log, idx: Index): Applied
    requires 0 < idx <= |full|
  {
    match full[idx - 1].payload
    case Command(x) => Applied(idx, x, m.apply(Replay(m, full[..idx - 1]), x).1)
    case _ => Applied(idx, [], [])
  }

  /** From `from` and the reports in `before`, one report for every entry up to what `r` has applied. */
  ghost predicate Reports<S>(m: StateMachine<S>, full: Log, before: seq<Applied>, from: Index, r: Node<S>) {
    && before <= r.outbox && from <= r.lastApplied <= |full|
    && |r.outbox| == |before| + (r.lastApplied - from)
    && forall i {:trigger r.outbox[i]} :: |before| <= i < |r.outbox| ==>
         r.outbox[i] == Record(m, full, from + 1 + (i - |before|))
  }

  lemma {:induction false} ApplyLoopReports<S>(m: StateMachine<S>, n: Node<S>, full: Log)
    requires Live(m, n, full)
    ensures Reports(m, full, n.outbox, n.lastApplied, ApplyLoop(m, n))
    decreases n.commitIndex - n.lastApplied
  {
    if n.lastApplied < n.commitIndex {
      var n1 := ApplyOne(m, n);
      ApplyOneLive(m, n, full);
      ApplyOneReports(m, n, full);
      ApplyLoopReports(m, n1, full);
      OneMore(m, full, n.outbox, n.lastApplied, ApplyLoop(m, n1));
    }
  }

  lemma OneMore<S>(m: StateMachine<S>, full: Log, before: seq<Applied>, from: Index, r: Node<S>)
    requires from < |full| && Reports(m, full, before + [Record(m, full, from + 1)], from + 1, r)
    ensures Reports(m, full, before, from, r)
  {
    var next := before + [Record(m, full, from + 1)];
    forall i | |before| <= i < |r.outbox| ensures r.outbox[i] == Record(m, full, from + 1 + (i - |before|)) {
      if i == |before| { assert r.outbox[i] == next[i]; }
    }
  }

  lemma ApplyOneReports<S>(m: StateMachine<S>, n: Node<S>, full: Log)
    requires Live(m, n, full) && n.lastApplied < n.commitIndex
    ensures ApplyOne(m, n).outbox == n.outbox + [Record(m, full, n.lastApplied + 1)]
  {
    StoredEntry(m, n.(lastApplied := n.lastApplied + 1), full, n.lastApplied + 1);
  }

  lemma ApplyReports<S>(m: StateMachine<S>, n: Node<S>, full: Log)
    requires Live(m, n, full)
    ensures Reports(m, full, n.outbox, n.lastApplied, ApplyCommitted(m, n))
  {
    ApplyLoopReports(m, n, full);
  }

  /** Reports are of entries that stay. */
  lemma ReportsGrow<S>(m: StateMachine<S>, full: Log, more: Log, before: seq<Applied>, from: Index, n: Node<S>,
                       r: Node<S>)
    requires Reports(m, full, before, from, n) && full <= more
    requires r.outbox == n.outbox && r.lastApplied == n.lastApplied
    ensures Reports(m, more, before, from, r)
  {
    forall i | |before| <= i < |r.outbox| ensures r.outbox[i] == Record(m, more, from + 1 + (i - |before|)) {
      assert r.outbox[i] == n.outbox[i];
      var idx := from + 1 + (i - |before|);
      assert full[..idx - 1] == more[..idx - 1];
    }
  }

  lemma NothingReported<S>(m: StateMachine<S>, n: Node<S>, r: Node<S>, full: Log)
    requires r.outbox == n.outbox && r.lastApplied == n.lastApplied <= |full|
    ensures Reports(m, full, n.outbox, n.lastApplied, r)
  {
  }

  lemma AdvanceReports<S>(m: StateMachine<S>, n: Node<S>, full: Log) returns (more: Log)
    requires Settled(m, n, full)
    ensures Settled(m, MaybeAdvanceCommit(m, n), more) && full <= more
    ensures Reports(m, more, n.outbox, n.lastApplied, MaybeAdvanceCommit(m, n))
  {
    more := full;
    NothingReported(m, n, n, full);
    if n.role == Leader {
      StoredLog(m, n.store, full);
      var k := HighestCommittable(n, LastIndex(n.store));
      if k != n.commitIndex { more := CommitReports(m, n, full, k); }
    }
  }

  lemma CommitReports<S>(m: StateMachine<S>, n: Node<S>, full: Log, k: Index) returns (more: Log)
    requires Settled(m, n, full) && n.commitIndex <= k <= |full|
    ensures Settled(m, CommitTo(m, n, k), more) && full <= more
    ensures Reports(m, more, n.outbox, n.lastApplied, CommitTo(m, n, k))
  {
    var n1 := PersistHardState(n.(commitIndex := k));
    ApplyCommittedSettles(m, n1, full);
    ApplyReports(m, n1, full);
    more := FinalizeSettled(m, ApplyCommitted(m, n1), full);
    FinalizeKeeps(ApplyCommitted(m, n1));
    ReportsGrow(m, full, more, n.outbox, n.lastApplied, ApplyCommitted(m, n1), CommitTo(m, n, k));
  }

  lemma FinalizeKeeps<S>(n: Node<S>)
    ensures var r := FinalizeJointIfCommitted(n); r.outbox == n.outbox && r.lastApplied == n.lastApplied
  {
  }

  lemma LeadReports<S>(m: StateMachine<S>, n: Node<S>, full: Log) returns (more: Log)
    requires Settled(m, n, full)
    ensures Settled(m, BecomeLeader(m, n).0, more) && Reports(m, more, n.outbox, n.lastApplied, BecomeLeader(m, n).0)
  {
    ReignSettled(m, n, full);
    more := AdvanceReports(m, OpenedReign(n), full + [Entry(n.term, |full| + 1, Noop)]);
    var r := MaybeAdvanceCommit(m, OpenedReign(n));
    BroadcastSettled(m, r, more);
    ReportsGrow(m, more, more, n.outbox, n.lastApplied, r, BecomeLeader(m, n).0);
  }

  /** A step that neither commits nor applies. */
  lemma QuietReports<S>(m: StateMachine<S>, n: Node<S>, full: Log, r: Node<S>)
    requires Settled(m, n, full) && r.outbox == n.outbox && r.lastApplied == n.lastApplied
    requires Settled(m, r, full)
    ensures Settled(m, r, full) && Reports(m, full, n.outbox, n.lastApplied, r)
  {
    NothingReported(m, n, r, full);
  }

  lemma TickReports<S>(m: StateMachine<S>, n: Node<S>, full: Log, due: bool) returns (more: Log)
    requires Settled(m, n, full)
    ensures var r := OnTick(m, n, due).0; Settled(m, r, more) && Reports(m, more, n.outbox, n.lastApplied, r)
  {
    more := full;
    if due {
      if n.role == Leader {
        BroadcastSettled(m, n, full);
        QuietReports(m, n, full, BroadcastAppend(n).0);
      } else if n.id in Voters(n.config) {
        assert Settled(m, Stand(n), full);
        QuietReports(m, n, full, Stand(n));
        if IsQuorum(Stand(n).config, Stand(n).votes) { more := LeadReports(m, Stand(n), full); }
      } else {
        QuietReports(m, n, full, n);
      }
    } else {
      QuietReports(m, n, full, n);
    }
  }

  lemma VoteReports<S>(m: StateMachine<S>, n: Node<S>, full: Log, term: Term, candidate: ReplicaId, lli: Index,
                       llt: Term)
    requires Settled(m, n, full)
    ensures var r := HandleRequestVote(n, term, candidate, lli, llt).0;
            Settled(m, r, full) && Reports(m, full, n.outbox, n.lastApplied, r)
  {
    VoteSettled(m, n, full, term, candidate, lli, llt);
    var n1 := if term > n.term then BecomeFollower(n, term, None) else n;
    assert n1.outbox == n.outbox && n1.lastApplied == n.lastApplied;
    QuietReports(m, n, full, DecideVote(n1, term, candidate, lli, llt).0);
  }

  lemma VoteRespReports<S>(m: StateMachine<S>, n: Node<S>, full: Log, from: ReplicaId, term: Term, granted: bool)
    returns (more: Log)
    requires Settled(m, n, full)
    ensures var r := HandleRequestVoteResp(m, n, from, term, granted).0;
            Settled(m, r, more) && Reports(m, more, n.outbox, n.lastApplied, r)
  {
    more := full;
    var n1 := n.(votes := n.votes + {from});
    SameCoreSettled(m, n, n1, full);
    QuietReports(m, n, full, n1);
    QuietReports(m, n, full, n);
    FollowerSettled(m, n, full, term, None);
    QuietReports(m, n, full, BecomeFollower(n, term, None));
    if term <= n.term && n.role == Candidate && term == n.term && granted && IsQuorum(n1.config, n1.votes) {
      more := LeadReports(m, n1, full);
    }
  }

  lemma AcceptReports<S>(m: StateMachine<S>, n: Node<S>, full: Log, msg: Message) returns (more: Log)
    requires Settled(m, n, full) && msg.AppendEntries? && msg.prevLogIndex <= |full|
             && Fits(n, msg.entries, msg.prevLogIndex + 1)
    ensures var r := Accept(m, n, msg).0; Settled(m, r, more) && Reports(m, more, n.outbox, n.lastApplied, r)
  {
    more := SpliceSettled(m, n, full, msg.entries, msg.prevLogIndex + 1);
    RaftReads.SpliceFrame(n, msg.entries);
    var n1 := RecomputeConfig(Splice(n, msg.entries));
    SameCoreSettled(m, Splice(n, msg.entries), n1, more);
    FollowCommitReports(m, n1, more, msg.leaderCommit);
  }

  lemma FollowCommitReports<S>(m: StateMachine<S>, n: Node<S>, full: Log, leaderCommit: Index)
    requires Settled(m, n, full)
    ensures var r := FollowCommit(m, n, leaderCommit);
            Settled(m, r, full) && Reports(m, full, n.outbox, n.lastApplied, r)
  {
    StoredLog(m, n.store, full);
    FollowCommitSettled(m, n, full, leaderCommit);
    if leaderCommit > n.commitIndex {
      ApplyReports(m, PersistHardState(n.(commitIndex := Min(leaderCommit, LastIndex(n.store)))), full);
    } else {
      QuietReports(m, n, full, n);
    }
  }

  lemma AppendEntriesReports<S>(m: StateMachine<S>, n: Node<S>, full: Log, msg: Message) returns (more: Log)
    requires Settled(m, n, full) && msg.AppendEntries? && Legal(n, msg)
    ensures var r := HandleAppendEntries(m, n, msg).0;
            Settled(m, r, more) && Reports(m, more, n.outbox, n.lastApplied, r)
  {
    more := full;
    if msg.term < n.term {
      QuietReports(m, n, full, n);
    } else {
      var n1 := BecomeFollower(n, msg.term, Some(msg.leader));
      FollowerSettled(m, n, full, msg.term, Some(msg.leader));
      QuietReports(m, n, full, n1);
      if TermAt(n1, msg.prevLogIndex) == Some(msg.prevLogTerm) {
        more := MatchedReports(m, n, full, msg);
        AppendAccepted(m, n, msg);
      }
    }
  }

  lemma MatchedReports<S>(m: StateMachine<S>, n: Node<S>, full: Log, msg: Message) returns (more: Log)
    requires Settled(m, n, full) && msg.AppendEntries? && Legal(n, msg) && msg.term >= n.term
    requires TermAt(BecomeFollower(n, msg.term, Some(msg.leader)), msg.prevLogIndex) == Some(msg.prevLogTerm)
    ensures var r := Accept(m, BecomeFollower(n, msg.term, Some(msg.leader)), msg).0;
            Settled(m, r, more) && Reports(m, more, n.outbox, n.lastApplied, r)
  {
    var n1 := BecomeFollower(n, msg.term, Some(msg.leader));
    FollowerSettled(m, n, full, msg.term, Some(msg.leader));
    StoredEntry(m, n, full, msg.prevLogIndex);
    StoredEntry(m, n1, full, msg.prevLogIndex);
    FollowerFits(m, n, n1, full, msg.entries, msg.prevLogIndex + 1);
    more := AcceptReports(m, n1, full, msg);
    assert n1.outbox == n.outbox && n1.lastApplied == n.lastApplied;
  }

  lemma HearBackReports<S>(m: StateMachine<S>, n: Node<S>, full: Log, from: ReplicaId, msg: Message) returns (more: Log)
    requires Settled(m, n, full) && msg.AppendEntriesResp?
    ensures var r := HearBack(m, n, from, msg).0; Settled(m, r, more) && Reports(m, more, n.outbox, n.lastApplied, r)
  {
    if msg.success {
      var n1 := Matched(n, from, msg.matchIndex);
      SameCoreSettled(m, n, n1, full);
      more := AdvanceReports(m, n1, full);
      var r := MaybeAdvanceCommit(m, n1);
      SameCoreSettled(m, r, ServeReads(m, r), more);
      ReportsGrow(m, more, more, n.outbox, n.lastApplied, r, ServeReads(m, r));
    } else {
      more := full;
      SameCoreSettled(m, n, HearBack(m, n, from, msg).0, full);
      QuietReports(m, n, full, HearBack(m, n, from, msg).0);
    }
  }

  lemma RespReports<S>(m: StateMachine<S>, n: Node<S>, full: Log, from: ReplicaId, msg: Message) returns (more: Log)
    requires Settled(m, n, full) && msg.AppendEntriesResp?
    ensures var r := HandleAppendEntriesResp(m, n, from, msg).0;
            Settled(m, r, more) && Reports(m, more, n.outbox, n.lastApplied, r)
  {
    more := full;
    QuietReports(m, n, full, n);
    if msg.term > n.term {
      FollowerSettled(m, n, full, msg.term, None);
      QuietReports(m, n, full, BecomeFollower(n, msg.term, None));
    } else if n.role == Leader && msg.term == n.term {
      var n1 := n.(ackedSeq := n.ackedSeq[from := Max(msg.readSeq, Get(n.ackedSeq, from, 0))]);
      SameCoreSettled(m, n, n1, full);
      more := HearBackReports(m, n1, full, from, msg);
    }
  }

  lemma MessageReports<S>(m: StateMachine<S>, n: Node<S>, full: Log, from: ReplicaId, msg: Message) returns (more: Log)
    requires Settled(m, n, full) && Legal(n, msg)
    ensures var r := OnMessage(m, n, from, msg).0; Settled(m, r, more) && Reports(m, more, n.outbox, n.lastApplied, r)
  {
    more := full;
    match msg
    case RequestVote(t, c, lli, llt) => VoteReports(m, n, full, t, c, lli, llt);
    case RequestVoteResp(t, granted) => more := VoteRespReports(m, n, full, from, t, granted);
    case AppendEntries(_, _, _, _, _, _, _) => more := AppendEntriesReports(m, n, full, msg);
    case AppendEntriesResp(_, _, _, _, _) => more := RespReports(m, n, full, from, msg);
  }

  lemma ProposeReports<S>(m: StateMachine<S>, n: Node<S>, full: Log, command: Bytes) returns (more: Log)
    requires Settled(m, n, full)
    ensures var r := Propose(m, n, command).0; Settled(m, r, more) && Reports(m, more, n.outbox, n.lastApplied, r)
  {
    more := full;
    if n.role == Leader {
      var n1 := AppendLocal(n, Command(command));
      AppendLocalSettled(m, n, full, Command(command));
      BroadcastSettled(m, n1, full + [Entry(n.term, |full| + 1, Command(command))]);
      more := AdvanceReports(m, BroadcastAppend(n1).0, full + [Entry(n.term, |full| + 1, Command(command))]);
    } else {
      QuietReports(m, n, full, n);
    }
  }

  lemma ChangeReports<S>(m: StateMachine<S>, n: Node<S>, full: Log, voters: seq<ReplicaId>) returns (more: Log)
    requires Settled(m, n, full)
    ensures var r := ProposeConf(n, voters).0; Settled(m, r, more) && Reports(m, more, n.outbox, n.lastApplied, r)
  {
    more := ProposeConfSettled(m, n, full, voters);
    assert ProposeConf(n, voters).0.outbox == n.outbox && ProposeConf(n, voters).0.lastApplied == n.lastApplied;
    NothingReported(m, n, ProposeConf(n, voters).0, more);
  }

  lemma RestartReports<S(!new)>(m: StateMachine<S>, n: Node<S>, full: Log, id: ReplicaId, voters: seq<ReplicaId>)
    requires Settled(m, n, full) && Reversible(m)
    ensures var r := RestoreFrom(m, id, voters, n.snapshotThreshold, n.store);
            Settled(m, r, full) && Reports(m, full, [], n.store.baseIndex, r)
  {
    SettledRecovers(m, n, full, id, voters);
    var n1 := RecomputeConfig(Rebased(Reloaded(m, NewWithStore(m, id, voters, n.snapshotThreshold, n.store))));
    assert n1.sm == Replay(m, full[..n.store.baseIndex]);
    assert Live(m, n1, full);
    ApplyReports(m, n1, full);
  }

  lemma QueryReports<S>(m: StateMachine<S>, n: Node<S>, full: Log, reqId: nat, query: Bytes)
    requires Settled(m, n, full)
    ensures var r := Read(m, n, reqId, query).0; Settled(m, r, full) && Reports(m, full, n.outbox, n.lastApplied, r)
  {
    SameCoreSettled(m, n, Read(m, n, reqId, query).0, full);
    QuietReports(m, n, full, Read(m, n, reqId, query).0);
  }

  lemma CompactReports<S>(m: StateMachine<S>, n: Node<S>, full: Log)
    requires Settled(m, n, full)
    ensures Settled(m, Compact(m, n), full) && Reports(m, full, n.outbox, n.lastApplied, Compact(m, n))
  {
    CompactSettled(m, n, full);
    QuietReports(m, n, full, Compact(m, n));
  }

  ghost predicate ReportsOf<S>(m: StateMachine<S>, n: Node<S>, input: Input, r: Node<S>, full: Log) {
    match input
    case TakeOutput => r.outbox == [] && r.lastApplied == n.lastApplied
    case CrashAndRestart(_) => Reports(m, full, [], n.store.baseIndex, r)
    case _ => Reports(m, full, n.outbox, n.lastApplied, r)
  }

  /** The reports an input adds: none for what has been reported, one in order for everything newly applied; a restart
      starts over from the snapshot, and taking the output leaves nothing. */
  lemma FeedReports<S(!new)>(m: StateMachine<S>, n: Node<S>, full: Log, input: Input) returns (more: Log)
    requires Settled(m, n, full) && (input.Receive? ==> Legal(n, input.msg)) && Reversible(m)
    ensures var r := Feed(m, n, input);
            Settled(m, r, more) && ReportsOf(m, n, input, r, more)
  {
    more := full;
    match input
    case Timer(due) => more := TickReports(m, n, full, due);
    case Receive(from, msg) => more := MessageReports(m, n, full, from, msg);
    case Submit(command) => more := ProposeReports(m, n, full, command);
    case ChangeMembers(voters) => more := ChangeReports(m, n, full, voters);
    case Query(reqId, query) => QueryReports(m, n, full, reqId, query);
    case CompactNow => CompactReports(m, n, full);
    case TakeOutput => SameCoreSettled(m, n, Feed(m, n, input), full);
    case CrashAndRestart(bootstrap) => RestartReports(m, n, full, n.id, bootstrap);
  }

  /** One report for every index past `from` that `r` has applied, in order. */
  ghost predicate InOrder<S>(before: seq<Applied>, from: Index, r: Node<S>) {
    && before <= r.outbox && from <= r.lastApplied && |r.outbox| == |before| + (r.lastApplied - from)
    && forall i {:trigger r.outbox[i]} :: |before| <= i < |r.outbox| ==> r.outbox[i].index == from + 1 + (i - |before|)
  }

  lemma InOrderTrans<S>(before: seq<Applied>, from: Index, n: Node<S>, r: Node<S>)
    requires InOrder(before, from, n) && InOrder(n.outbox, n.lastApplied, r)
    ensures InOrder(before, from, r)
  {
    forall i | |before| <= i < |r.outbox| ensures r.outbox[i].index == from + 1 + (i - |before|) {
      if i < |n.outbox| { assert r.outbox[i] == n.outbox[i]; }
    }
  }

  /** The output is not taken and the replica does not crash. */
  ghost predicate Uninterrupted(inputs: seq<Input>)
    decreases |inputs|
  {
    inputs != [] ==> !inputs[0].TakeOutput? && !inputs[0].CrashAndRestart? && Uninterrupted(inputs[1..])
  }

  lemma FeedInOrder<S(!new)>(m: StateMachine<S>, n: Node<S>, full: Log, input: Input) returns (more: Log)
    requires Settled(m, n, full) && (input.Receive? ==> Legal(n, input.msg)) && Reversible(m)
    requires !input.TakeOutput? && !input.CrashAndRestart?
    ensures Settled(m, Feed(m, n, input), more) && InOrder(n.outbox, n.lastApplied, Feed(m, n, input))
  {
    more := FeedReports(m, n, full, input);
    ReportsInOrder(m, more, n.outbox, n.lastApplied, Feed(m, n, input));
  }

  lemma ReportsInOrder<S>(m: StateMachine<S>, full: Log, before: seq<Applied>, from: Index, r: Node<S>)
    requires Reports(m, full, before, from, r)
    ensures InOrder(before, from, r)
  {
  }

  /** However many inputs, until the output is taken every applied entry is reported exactly once, in order. */
  lemma {:induction false} FeedAllReports<S(!new)>(m: StateMachine<S>, n: Node<S>, full: Log, inputs: seq<Input>)
    requires Settled(m, n, full) && LegalAll(m, n, inputs) && Reversible(m)
    requires Uninterrupted(inputs)
    ensures InOrder(n.outbox, n.lastApplied, FeedAll(m, n, inputs))
    decreases |inputs|
  {
    if inputs != [] {
      var n1 := Feed(m, n, inputs[0]);
      var mid := FeedInOrder(m, n, full, inputs[0]);
      FeedAllReports(m, n1, mid, inputs[1..]);
      InOrderTrans(n.outbox, n.lastApplied, n1, FeedAll(m, n1, inputs[1..]));
    }
  }
}
