/** Which answers a replica gives to reads: every step adds exactly what the reads in play
    allow. A value is given only by a replica that leads throughout the step, to a read that
    is no longer pending, and from the state it has applied; whoever does not lead says so;
    and every read is answered once or still pending. Holds for every step of every run. */
module RaftAnswers {
  import opened Wrappers
  import opened RaftTypes
  import opened Membership
  import opened LogStore
  import opened RaftModel
  import opened RaftHandlers
  import opened RaftCluster
  import RaftReads
  import opened RaftCompactGroup

  type Answers = seq<(nat, ReadResult)>

  // ---- the reads in play ----

  /** Only a leader has reads waiting. */
  ghost predicate Waits<S>(n: Node<S>) {
    n.role != Leader ==> n.pending == []
  }

  /** The read a step brings to a leader: it waits for what is committed now and for the next heartbeat. */
  function Brought<S>(n: Node<S>, s: Step): seq<PendingRead> {
    if s.SubmitRead? && n.role == Leader then [PendingRead(s.reqId, s.query, n.commitIndex, n.readSeq + 1)] else []
  }

  /** How many of the reads carry the request number `id`. */
  ghost function Reads(rs: seq<PendingRead>, id: nat): nat {
    if rs == [] then 0 else (if rs[0].reqId == id then 1 else 0) + Reads(rs[1..], id)
  }

  /** How many of the answers are to `id`. */
  ghost function Given(ans: Answers, id: nat): nat {
    if ans == [] then 0 else (if ans[0].0 == id then 1 else 0) + Given(ans[1..], id)
  }

  /** `a` answers `pr`, one of the reads in play and no longer pending, with the query's value on the applied state. */
  ghost predicate ValueFor<S>(m: StateMachine<S>, r: Node<S>, open: seq<PendingRead>, a: (nat, ReadResult),
                              pr: PendingRead) {
    && pr in open && pr !in r.pending && pr.readIndex <= r.lastApplied
    && a == (pr.reqId, Value(m.query(r.sm, pr.query)))
  }

  /** Of the reads in play, some have been answered with values on top of `base` and the others are pending. */
  ghost predicate Serves<S>(m: StateMachine<S>, base: Answers, open: seq<PendingRead>, r: Node<S>) {
    && base <= r.ready
    && (forall a {:trigger a in r.ready[|base|..]} :: a in r.ready[|base|..] ==>
          exists pr :: ValueFor(m, r, open, a, pr))
    && (forall pr {:trigger pr in r.pending} :: pr in r.pending ==> pr in open)
    && (forall id {:trigger Reads(open, id)} :: Given(r.ready[|base|..], id) + Reads(r.pending, id) == Reads(open, id))
  }

  /** Every pending read has been refused, in order. */
  ghost predicate Refuses<S>(n: Node<S>, r: Node<S>) {
    && r.pending == [] && |r.ready| == |n.ready| + |n.pending| && n.ready <= r.ready
    && forall i {:trigger n.pending[i]} :: 0 <= i < |n.pending| ==>
         r.ready[|n.ready| + i] == (n.pending[i].reqId, NotLeader)
  }

  /** The answers step `s` adds, taking a replica from `n` to `r`. */
  ghost predicate StepAnswers<S>(m: StateMachine<S>, n: Node<S>, s: Step, r: Node<S>) {
    if s.Restart? then r.ready == [] && r.pending == []
    else if s.Drain? then r.ready == [] && r.pending == n.pending
    else if s.SubmitRead? && n.role != Leader then
      r.ready == n.ready + [(s.reqId, NotLeader)] && r.pending == n.pending
    else if n.role == Leader && r.role == Leader && r.term == n.term then
      Serves(m, n.ready, n.pending + Brought(n, s), r)
    else Refuses(n, r)
  }

  // ---- serving ----

  lemma {:induction false} GivenMore(a: Answers, b: Answers, id: nat)
    ensures Given(a + b, id) == Given(a, id) + Given(b, id)
  {
    if a == [] {
      assert a + b == b;
    } else {
      GivenMore(a[1..], b, id);
      assert (a + b)[1..] == a[1..] + b;
    }
  }

  /** One pass over the waiting reads answers or keeps each of them. */
  lemma {:induction false} EachOnce<S>(m: StateMachine<S>, sm: S, rs: seq<PendingRead>, confirmed: nat, applied: Index,
                                       id: nat)
    ensures Given(Served(m, sm, rs, confirmed, applied), id) + Reads(StillPending(rs, confirmed, applied), id)
         == Reads(rs, id)
  {
    if rs != [] {
      EachOnce(m, sm, rs[1..], confirmed, applied, id);
      var rest, kept := Served(m, sm, rs[1..], confirmed, applied), StillPending(rs[1..], confirmed, applied);
      if Servable(rs[0], confirmed, applied) {
        assert StillPending(rs, confirmed, applied) == [] + kept == kept;
      } else {
        assert Served(m, sm, rs, confirmed, applied) == [] + rest == rest;
      }
    }
  }

  /** What is answered may be, and what is kept may not. */
  lemma {:induction false} ServedOrKept<S>(m: StateMachine<S>, sm: S, rs: seq<PendingRead>, confirmed: nat,
                                           applied: Index)
    ensures forall a :: a in Served(m, sm, rs, confirmed, applied) ==>
              exists pr :: AnswerTo(m, sm, rs, confirmed, applied, a, pr)
    ensures forall pr :: pr in StillPending(rs, confirmed, applied) ==> pr in rs && !Servable(pr, confirmed, applied)
  {
    if rs != [] {
      ServedOrKept(m, sm, rs[1..], confirmed, applied);
      var rest := Served(m, sm, rs[1..], confirmed, applied);
      forall a | a in rest ensures exists pr :: AnswerTo(m, sm, rs, confirmed, applied, a, pr) {
        var pr :| AnswerTo(m, sm, rs[1..], confirmed, applied, a, pr);
        assert AnswerTo(m, sm, rs, confirmed, applied, a, pr);
      }
      if Servable(rs[0], confirmed, applied) {
        assert AnswerTo(m, sm, rs, confirmed, applied, (rs[0].reqId, Value(m.query(sm, rs[0].query))), rs[0]);
      }
    }
  }

  ghost predicate AnswerTo<S>(m: StateMachine<S>, sm: S, rs: seq<PendingRead>, confirmed: nat, applied: Index,
                              a: (nat, ReadResult), pr: PendingRead) {
    pr in rs && Servable(pr, confirmed, applied) && a == (pr.reqId, Value(m.query(sm, pr.query)))
  }

  lemma NothingServed<S>(m: StateMachine<S>, n: Node<S>)
    ensures Serves(m, n.ready, n.pending, n)
  {
  }

  /** Nothing that answers depend on has changed. */
  lemma SameServes<S>(m: StateMachine<S>, base: Answers, open: seq<PendingRead>, n: Node<S>, r: Node<S>)
    requires Serves(m, base, open, n)
    requires r.ready == n.ready && r.pending == n.pending && r.sm == n.sm && r.lastApplied == n.lastApplied
    ensures Serves(m, base, open, r)
  {
    forall id ensures Given(r.ready[|base|..], id) + Reads(r.pending, id) == Reads(open, id) {
      assert Given(n.ready[|base|..], id) + Reads(n.pending, id) == Reads(open, id);
    }
    forall a | a in r.ready[|base|..] ensures exists pr :: ValueFor(m, r, open, a, pr) {
      var pr :| ValueFor(m, n, open, a, pr);
      assert ValueFor(m, r, open, a, pr);
    }
  }

  lemma ServeServes<S>(m: StateMachine<S>, base: Answers, open: seq<PendingRead>, n: Node<S>)
    requires Serves(m, base, open, n)
    ensures Serves(m, base, open, ServeReads(m, n))
  {
    if n.role == Leader {
      var confirmed, r := ConfirmedReadSeq(n), ServeReads(m, n);
      var past, more := n.ready[|base|..], Served(m, n.sm, n.pending, confirmed, n.lastApplied);
      ServedOrKept(m, n.sm, n.pending, confirmed, n.lastApplied);
      assert r.ready[|base|..] == past + more;
      forall id ensures Given(past + more, id) + Reads(r.pending, id) == Reads(open, id) {
        GivenMore(past, more, id);
        EachOnce(m, n.sm, n.pending, confirmed, n.lastApplied, id);
        assert Given(past, id) + Reads(n.pending, id) == Reads(open, id);
      }
      forall a | a in past + more ensures exists pr :: ValueFor(m, r, open, a, pr) {
        if a in past {
          var pr :| ValueFor(m, n, open, a, pr);
          assert ValueFor(m, r, open, a, pr);
        } else {
          var pr :| AnswerTo(m, n.sm, n.pending, confirmed, n.lastApplied, a, pr);
          assert ValueFor(m, r, open, a, pr);
        }
      }
    }
  }

  /** Applying comes before answering. */
  lemma ApplyServes<S>(m: StateMachine<S>, n: Node<S>)
    ensures var r := ApplyCommitted(m, n); Serves(m, n.ready, n.pending, r) && r.role == n.role && r.term == n.term
    ensures n.role != Leader ==> ApplyCommitted(m, n).ready == n.ready
  {
    var n1 := ApplyLoop(m, n);
    ApplyLoopFrame(m, n);
    NothingServed(m, n1);
    ServeServes(m, n.ready, n.pending, n1);
    var n2 := ServeReads(m, n1);
    SameServes(m, n.ready, n.pending, n2, MaybeCompact(m, n2));
  }

  lemma AdvanceServes<S>(m: StateMachine<S>, n: Node<S>)
    ensures var r := MaybeAdvanceCommit(m, n); Serves(m, n.ready, n.pending, r) && r.role == n.role && r.term == n.term
  {
    NothingServed(m, n);
    if n.role == Leader {
      var k := HighestCommittable(n, LastIndex(n.store));
      if k != n.commitIndex {
        var n1 := PersistHardState(n.(commitIndex := k));
        ApplyServes(m, n1);
        SameServes(m, n.ready, n.pending, ApplyCommitted(m, n1), CommitTo(m, n, k));
      }
    }
  }

  /** Where no read is in play there is nothing to answer. */
  lemma NoneOpen<S>(m: StateMachine<S>, base: Answers, r: Node<S>)
    requires Serves(m, base, [], r)
    ensures r.ready == base && r.pending == []
  {
    var added := r.ready[|base|..];
    assert r.ready == base + added;
    FirstCounts(added, r.pending);
  }

  lemma FirstCounts(ans: Answers, rs: seq<PendingRead>)
    ensures ans != [] ==> Given(ans, ans[0].0) > 0 && Reads([], ans[0].0) == 0
    ensures rs != [] ==> Reads(rs, rs[0].reqId) > 0 && Reads([], rs[0].reqId) == 0
  {
  }

  // ---- the steps ----

  lemma FollowRefuses<S>(n: Node<S>, term: Term, leader: Option<ReplicaId>)
    ensures Refuses(n, BecomeFollower(n, term, leader))
  {
  }

  lemma LeadAnswers<S>(m: StateMachine<S>, n: Node<S>)
    requires n.pending == []
    ensures BecomeLeader(m, n).0.ready == n.ready && BecomeLeader(m, n).0.pending == []
  {
    AdvanceServes(m, OpenedReign(n));
    NoneOpen(m, n.ready, MaybeAdvanceCommit(m, OpenedReign(n)));
  }

  lemma TickAnswers<S>(m: StateMachine<S>, n: Node<S>, s: Step)
    requires s.Tick? && Waits(n)
    ensures StepAnswers(m, n, s, OnTick(m, n, s.due).0)
  {
    NothingServed(m, n);
    assert n.pending + Brought(n, s) == n.pending;
    if s.due {
      if n.role == Leader {
        SameServes(m, n.ready, n.pending, n, BroadcastAppend(n).0);
      } else if n.id in Voters(n.config) && IsQuorum(Stand(n).config, Stand(n).votes) {
        LeadAnswers(m, Stand(n));
      }
    }
  }

  lemma VoteAnswers<S>(m: StateMachine<S>, n: Node<S>, s: Step)
    requires s.Deliver? && s.p.msg.RequestVote? && Waits(n)
    ensures var msg := s.p.msg;
            StepAnswers(m, n, s, HandleRequestVote(n, msg.term, msg.candidate, msg.lastLogIndex, msg.lastLogTerm).0)
  {
    NothingServed(m, n);
    assert n.pending + Brought(n, s) == n.pending;
    FollowRefuses(n, s.p.msg.term, None);
    var n1 := if s.p.msg.term > n.term then BecomeFollower(n, s.p.msg.term, None) else n;
    var r := DecideVote(n1, s.p.msg.term, s.p.msg.candidate, s.p.msg.lastLogIndex, s.p.msg.lastLogTerm).0;
    if n1 == n { SameServes(m, n.ready, n.pending, n, r); }
  }

  lemma VoteRespAnswers<S>(m: StateMachine<S>, n: Node<S>, s: Step)
    requires s.Deliver? && s.p.msg.RequestVoteResp? && Waits(n)
    ensures StepAnswers(m, n, s, HandleRequestVoteResp(m, n, s.p.src, s.p.msg.term, s.p.msg.granted).0)
  {
    NothingServed(m, n);
    assert n.pending + Brought(n, s) == n.pending;
    FollowRefuses(n, s.p.msg.term, None);
    if n.role == Candidate {
      LeadAnswers(m, n.(votes := n.votes + {s.p.src}));
      assert s.p.msg.term <= n.term ==>
          Refuses(n, HandleRequestVoteResp(m, n, s.p.src, s.p.msg.term, s.p.msg.granted).0);
    }
  }

  lemma FollowLeaderAnswers<S>(m: StateMachine<S>, n: Node<S>, msg: Message)
    requires msg.AppendEntries? && n.role == Follower && n.pending == []
    ensures var r := FollowLeader(m, n, msg).0; r.role == Follower && r.ready == n.ready && r.pending == []
  {
    var n1 := RecomputeConfig(Splice(n, msg.entries));
    RaftReads.SpliceFrame(n, msg.entries);
    if msg.leaderCommit > n1.commitIndex {
      var n2 := PersistHardState(n1.(commitIndex := Min(msg.leaderCommit, LastIndex(n1.store))));
      ApplyServes(m, n2);
      NoneOpen(m, n.ready, ApplyCommitted(m, n2));
    }
  }

  lemma AppendEntriesAnswers<S>(m: StateMachine<S>, n: Node<S>, s: Step)
    requires s.Deliver? && s.p.msg.AppendEntries? && Waits(n)
    ensures StepAnswers(m, n, s, HandleAppendEntries(m, n, s.p.msg).0)
  {
    var msg := s.p.msg;
    if msg.term < n.term {
      NothingServed(m, n);
      assert n.pending + Brought(n, s) == n.pending;
    } else {
      var n1 := BecomeFollower(n, msg.term, Some(msg.leader));
      FollowRefuses(n, msg.term, Some(msg.leader));
      FollowLeaderAnswers(m, n1, msg);
    }
  }

  lemma InstallAnswers<S>(m: StateMachine<S>, n: Node<S>, s: Step)
    requires s.Deliver? && s.p.msg.InstallSnapshot? && Waits(n)
    ensures StepAnswers(m, n, s, HandleInstallSnapshot(m, n, s.p.msg).0)
  {
    NothingServed(m, n);
    assert n.pending + Brought(n, s) == n.pending;
    var n1 := BecomeFollower(n, s.p.msg.term, Some(s.p.msg.leader));
    FollowRefuses(n, s.p.msg.term, Some(s.p.msg.leader));
    InstalledKeeps(m, n1, s.p.msg);
  }

  lemma InstalledKeeps<S>(m: StateMachine<S>, n: Node<S>, msg: Message)
    requires msg.InstallSnapshot?
    ensures var r := Installed(m, n, msg); r.role == n.role && r.ready == n.ready && r.pending == n.pending
  {
  }

  lemma HearBackServes<S>(m: StateMachine<S>, n: Node<S>, from: ReplicaId, msg: Message)
    requires msg.AppendEntriesResp?
    ensures var r := HearBack(m, n, from, msg).0;
            Serves(m, n.ready, n.pending, r) && r.role == n.role && r.term == n.term
  {
    NothingServed(m, n);
    if msg.success {
      var n1 := Matched(n, from, msg.matchIndex);
      AdvanceServes(m, n1);
      ServeServes(m, n.ready, n.pending, MaybeAdvanceCommit(m, n1));
    } else {
      var n1 := n.(nextIndex := n.nextIndex[from := Backed(Get(n.nextIndex, from, 1), msg.conflictIndex)]);
      SameServes(m, n.ready, n.pending, n, n1);
      ServeServes(m, n.ready, n.pending, n1);
    }
  }

  lemma RespAnswers<S>(m: StateMachine<S>, n: Node<S>, s: Step)
    requires s.Deliver? && s.p.msg.AppendEntriesResp? && Waits(n)
    ensures StepAnswers(m, n, s, HandleAppendEntriesResp(m, n, s.p.src, s.p.msg).0)
  {
    NothingServed(m, n);
    assert n.pending + Brought(n, s) == n.pending;
    FollowRefuses(n, s.p.msg.term, None);
    var n1 := n.(ackedSeq := n.ackedSeq[s.p.src := Max(s.p.msg.readSeq, Get(n.ackedSeq, s.p.src, 0))]);
    HearBackServes(m, n1, s.p.src, s.p.msg);
  }

  lemma MessageAnswers<S>(m: StateMachine<S>, n: Node<S>, s: Step)
    requires s.Deliver? && Waits(n)
    ensures StepAnswers(m, n, s, OnMessage(m, n, s.p.src, s.p.msg).0)
  {
    match s.p.msg
    case RequestVote(_, _, _, _) => VoteAnswers(m, n, s);
    case RequestVoteResp(_, _) => VoteRespAnswers(m, n, s);
    case AppendEntries(_, _, _, _, _, _, _) => AppendEntriesAnswers(m, n, s);
    case AppendEntriesResp(_, _, _, _, _) => RespAnswers(m, n, s);
    case InstallSnapshot(_, _, _, _, _, _, _) => InstallAnswers(m, n, s);
  }

  lemma ProposeAnswers<S>(m: StateMachine<S>, n: Node<S>, s: Step)
    requires s.SubmitCommand? && Waits(n)
    ensures StepAnswers(m, n, s, Propose(m, n, s.command).0)
  {
    assert n.pending + Brought(n, s) == n.pending;
    if n.role == Leader { AdvanceServes(m, BroadcastAppend(AppendLocal(n, Command(s.command))).0); }
  }

  lemma ConfAnswers<S>(m: StateMachine<S>, n: Node<S>, s: Step)
    requires s.SubmitConf? && Waits(n)
    ensures StepAnswers(m, n, s, ProposeConf(n, s.voters).0)
  {
    assert n.pending + Brought(n, s) == n.pending;
    NothingServed(m, n);
    if n.role == Leader { SameServes(m, n.ready, n.pending, n, ProposeConf(n, s.voters).0); }
  }

  lemma ReadAnswers<S>(m: StateMachine<S>, n: Node<S>, s: Step)
    requires s.SubmitRead? && Waits(n)
    ensures StepAnswers(m, n, s, Read(m, n, s.reqId, s.query).0)
  {
    if n.role == Leader {
      var n1 := BroadcastAppend(n).0.(pending := n.pending + Brought(n, s));
      NothingServed(m, n1);
      ServeServes(m, n.ready, n.pending + Brought(n, s), n1);
    }
  }

  lemma RestartAnswers<S>(m: StateMachine<S>, voters: seq<ReplicaId>, n: Node<S>, id: ReplicaId)
    ensures var r := RestoreFrom(m, id, voters, n.snapshotThreshold, n.store);
            r.role == Follower && r.ready == [] && r.pending == []
  {
    var n1 := RecomputeConfig(Rebased(Reloaded(m, NewWithStore(m, id, voters, n.snapshotThreshold, n.store))));
    ApplyServes(m, n1);
    NoneOpen(m, [], ApplyCommitted(m, n1));
  }

  /** Every step of a replica gives the answers it should, and leaves reads waiting only at a leader. */
  lemma ActAnswers<S>(m: StateMachine<S>, voters: seq<ReplicaId>, n: Node<S>, s: Step)
    requires Waits(n)
    ensures StepAnswers(m, n, s, Act(m, voters, n, s).0) && Waits(Act(m, voters, n, s).0)
  {
    match s
    case Tick(_, _) => TickAnswers(m, n, s);
    case Deliver(_) => MessageAnswers(m, n, s);
    case SubmitCommand(_, _) => ProposeAnswers(m, n, s);
    case SubmitConf(_, _) => ConfAnswers(m, n, s);
    case SubmitRead(_, _, _) => ReadAnswers(m, n, s);
    case Drain(_) =>
    case Restart(id) => RestartAnswers(m, voters, n, id);
  }

  // ---- whole runs ----

  ghost predicate AllWait<S>(c: Cluster<S>) {
    forall v {:trigger c.nodes[v]} :: v in c.nodes ==> Waits(c.nodes[v])
  }

  lemma {:induction false} GoWaits<S>(m: StateMachine<S>, voters: seq<ReplicaId>, c: Cluster<S>, steps: seq<Step>)
    requires AllWait(c)
    ensures AllWait(Go(m, voters, c, steps))
    decreases |steps|
  {
    if steps != [] {
      var k := |steps| - 1;
      var d := Go(m, voters, c, steps[..k]);
      GoWaits(m, voters, c, steps[..k]);
      if Enabled(d, steps[k]) { ActAnswers(m, voters, d.nodes[Actor(steps[k])], steps[k]); }
    }
  }

  /** In any run, compaction, snapshots, membership changes and restarts included, the replica that takes step `i`
      adds exactly the answers it should, and nobody else adds any. */
  lemma EveryAnswer<S>(m: StateMachine<S>, ids: set<ReplicaId>, voters: seq<ReplicaId>, thresholds: ReplicaId -> nat,
                       steps: seq<Step>, i: nat, v: ReplicaId)
    requires i < |steps|
    requires v in Go(m, voters, Begin(m, ids, voters, thresholds), steps[..i]).nodes
    ensures var c := Go(m, voters, Begin(m, ids, voters, thresholds), steps[..i]);
            var d := Go(m, voters, Begin(m, ids, voters, thresholds), steps[..i + 1]);
            && v in d.nodes
            && (if Enabled(c, steps[i]) && v == Actor(steps[i]) then StepAnswers(m, c.nodes[v], steps[i], d.nodes[v])
                else d.nodes[v] == c.nodes[v])
  {
    var b := Begin(m, ids, voters, thresholds);
    assert steps[..i + 1][..i] == steps[..i];
    GoWaits(m, voters, b, steps[..i]);
    var c := Go(m, voters, b, steps[..i]);
    if Enabled(c, steps[i]) { ActAnswers(m, voters, c.nodes[Actor(steps[i])], steps[i]); }
  }

  /** Step `i` asked `v`, leading the term `t`, for this read. */
  ghost predicate AskedAt<S>(m: StateMachine<S>, voters: seq<ReplicaId>, c: Cluster<S>, steps: seq<Step>, i: int,
                             v: ReplicaId, t: Term, pr: PendingRead) {
    && 0 <= i < |steps| && steps[i] == SubmitRead(v, pr.reqId, pr.query)
    && var d := Go(m, voters, c, steps[..i]);
    && v in d.nodes && d.nodes[v].role == Leader && d.nodes[v].term == t
    && pr.readIndex == d.nodes[v].commitIndex && pr.minSeq == d.nodes[v].readSeq + 1
  }

  ghost predicate ReadsAsked<S>(m: StateMachine<S>, voters: seq<ReplicaId>, c: Cluster<S>, steps: seq<Step>,
                                v: ReplicaId, n: Node<S>) {
    forall pr {:trigger pr in n.pending} :: pr in n.pending ==>
      exists i :: AskedAt(m, voters, c, steps, i, v, n.term, pr)
  }

  lemma ReadsAskedLater<S>(m: StateMachine<S>, voters: seq<ReplicaId>, c: Cluster<S>, steps: seq<Step>, k: nat,
                           v: ReplicaId, n: Node<S>)
    requires k <= |steps| && ReadsAsked(m, voters, c, steps[..k], v, n)
    ensures ReadsAsked(m, voters, c, steps, v, n)
  {
    forall pr | pr in n.pending ensures exists i :: AskedAt(m, voters, c, steps, i, v, n.term, pr) {
      var i :| AskedAt(m, voters, c, steps[..k], i, v, n.term, pr);
      assert steps[..k][..i] == steps[..i];
      assert AskedAt(m, voters, c, steps, i, v, n.term, pr);
    }
  }

  /** A step leaves pending only reads that were, or the one it brings. */
  lemma PendingFrom<S>(m: StateMachine<S>, n: Node<S>, s: Step, r: Node<S>, pr: PendingRead)
    requires Waits(n) && StepAnswers(m, n, s, r) && pr in r.pending
    ensures s.Drain? || (n.role == Leader && r.term == n.term && (pr in n.pending || pr in Brought(n, s)))
  {
    assert !s.Drain? && n.role == Leader ==> pr in n.pending + Brought(n, s);
  }

  lemma {:induction false} PendingWasAsked<S>(m: StateMachine<S>, voters: seq<ReplicaId>, c: Cluster<S>,
                                              steps: seq<Step>, v: ReplicaId)
    requires AllWait(c) && v in c.nodes && c.nodes[v].pending == []
    ensures v in Go(m, voters, c, steps).nodes && ReadsAsked(m, voters, c, steps, v, Go(m, voters, c, steps).nodes[v])
    decreases |steps|
  {
    if steps != [] {
      var k := |steps| - 1;
      var d, s := Go(m, voters, c, steps[..k]), steps[k];
      PendingWasAsked(m, voters, c, steps[..k], v);
      ReadsAskedLater(m, voters, c, steps, k, v, d.nodes[v]);
      GoWaits(m, voters, c, steps[..k]);
      if Enabled(d, s) && Actor(s) == v {
        var n, r := d.nodes[v], Act(m, voters, d.nodes[v], s).0;
        ActAnswers(m, voters, n, s);
        assert s.Drain? ==> r.term == n.term;
        forall pr | pr in r.pending ensures exists i :: AskedAt(m, voters, c, steps, i, v, r.term, pr) {
          PendingFrom(m, n, s, r, pr);
          if pr !in n.pending { assert AskedAt(m, voters, c, steps, k, v, r.term, pr); }
        }
      }
    }
  }
}
