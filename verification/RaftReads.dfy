/** Linearizable reads (ReadIndex): a read that a leader answers reflects
    everything any replica had committed when the read was issued. */
module RaftReads {
  import opened Wrappers
  import opened RaftTypes
  import opened Membership
  import opened ConfigChain
  import opened LogStore
  import opened RaftModel
  import opened RaftHistory
  import opened RaftSteps
  import opened RaftInvariant
  import opened RaftHandlers
  import opened RaftCluster

  // ---- why a confirmed leader cannot have been replaced ----

  /** An elected log holds the last change any coherent log of lower terms has finished. */
  lemma HoldsFinished(h: History, t: Term, leader: ReplicaId, a: Log, voters: set<ReplicaId>, b: Log)
    requires Valid(h) && Elected(h.base, h.reigns, h.ballots, t, leader, a, voters)
    requires Coherent(h.reigns, b) && TermsBelow(b, t)
    ensures Agree(a, b, FinishedLen(b))
  {
    if LastSimplePos(b) >= 0 {
      var d := FinishedIsCommitted(h, b);
      ElectedComplete(h, t, leader, a, voters, d);
    }
  }

  /** The first leader after term t has no finished change that is missing from term t's log `b`. */
  lemma FinishedHeld(h: History, t: Term, u: Term, size: nat, b: Log)
    requires Valid(h) && t in h.reigns && u in h.reigns && t < u
    requires size <= |b| && Agree(b, h.reigns[t].log, |b|) && |h.reigns[t].elog| < |b|
    requires forall s :: t < s < u ==> !HasTerm(h.reigns[u].elog, s)
    requires forall k :: 0 <= k < |h.reigns[u].elog| && h.reigns[u].elog[k].term == t ==> k < size
    ensures Agree(h.reigns[u].elog, b, FinishedLen(h.reigns[u].elog))
  {
    var a, r := h.reigns[u].elog, h.reigns[t];
    assert ReignElected(h, u);
    if LastSimplePos(a) >= 0 {
      var j := LastSimplePos(a);
      var d := FinishedIsCommitted(h, a);
      assert Placed(h.reigns, a, j);
      assert HasTerm(a, d.term);
      if d.term < t {
        assert ReignElected(h, t);
        ElectedComplete(h, t, r.leader, r.elog, r.voters, d);
        assert Agree(r.elog, r.log, |r.elog|) by { assert ReignOk(h.base, h.reigns, t); }
      }
    }
  }

  ghost predicate HasTerm(log: Log, t: int) {
    exists k :: 0 <= k < |log| && log[k].term == t
  }

  /** If a later term had a leader in the state with history h, then some replica in any
      quorum that confirms term t's leader had by then voted past term t. */
  lemma {:induction false} ConfirmerMovedOn(h: History, g: History, t: Term, u: Term, b: Log, confirmed: set<ReplicaId>)
    returns (s: Term, v: ReplicaId)
    requires Valid(h) && Valid(g) && Later(h, g)
    requires t in h.reigns && u in h.reigns && t < u
    requires |h.reigns[t].log| <= |b| && t in g.reigns && Agree(b, g.reigns[t].log, |b|)
    requires IsQuorum(ConfigOf(h.base, b), confirmed)
    ensures t < s && v in confirmed && (s, v) in h.ballots
    decreases u
  {
    var a := h.reigns[u].elog;
    assert GrowsAt(h.reigns, g.reigns, t) && GrowsAt(h.reigns, g.reigns, u);
    assert ReignOk(h.base, h.reigns, t) && ReignElected(h, u) && ReignElected(g, u);
    if w: Term :| t < w < u && HasTerm(a, w) {
      var k :| 0 <= k < |a| && a[k].term == w;
      assert Placed(h.reigns, a, k);
      s, v := ConfirmerMovedOn(h, g, t, w, b, confirmed);
    } else {
      forall k | 0 <= k < |a| && a[k].term == t ensures k < |h.reigns[t].log| {
        assert Placed(h.reigns, a, k);
      }
      FinishedHeld(g, t, u, |h.reigns[t].log|, b);
      TermLogBelow(g, t, u, b);
      HoldsFinished(g, u, g.reigns[u].leader, a, g.reigns[u].voters, b);
      CoherentChain(g, b);
      QuorumsMeet(h.base, a, b, h.reigns[u].voters, confirmed);
      s := u;
      v :| v in h.reigns[u].voters && v in confirmed;
      assert VotedFor(h.ballots, u, v, h.reigns[u].leader, a);
    }
  }

  lemma TermLogBelow(g: History, t: Term, u: Term, b: Log)
    requires Valid(g) && t in g.reigns && t < u && Agree(b, g.reigns[t].log, |b|)
    ensures Coherent(g.reigns, b) && TermsBelow(b, u)
  {
    var r := g.reigns[t];
    assert ReignOk(g.base, g.reigns, t);
    CoherentPrefix(g.reigns, r.log, |b|);
    assert b == r.log[..|b|];
    assert forall k :: 0 <= k < |r.elog| ==> r.log[k] == r.elog[k];
  }

  /** A leader of term t that has committed an entry of its own term, while no later term
      has a leader, has committed as far as anybody. */
  lemma CommittedFurthest<S>(h: History, l: ReplicaId, n: Node<S>, x: ReplicaId, o: Node<S>)
    requires Valid(h) && NodeOk(h, l, n) && NodeOk(h, x, o) && n.role == Leader
    requires n.commitIndex > 0 && n.store.log[n.commitIndex - 1].term == n.term
    requires forall s :: s in h.reigns ==> s <= n.term
    ensures o.commitIndex <= n.commitIndex
  {
    if o.commitIndex > 0 {
      var c :| c in h.certs && Covers(h.reigns, c, o.term, o.store.log, o.commitIndex);
      if c.term < n.term { EarlierCommitted(h, l, n, c); }
    }
  }

  /** Whatever earlier terms have committed lies before a leader's own entries. */
  lemma EarlierCommitted<S>(h: History, l: ReplicaId, n: Node<S>, c: Cert)
    requires Valid(h) && NodeOk(h, l, n) && n.role == Leader && c in h.certs && c.term < n.term
    requires n.commitIndex > 0 && n.store.log[n.commitIndex - 1].term == n.term
    ensures c.upTo < n.commitIndex
  {
    var r := h.reigns[n.term];
    assert ReignElected(h, n.term);
    ElectedComplete(h, n.term, r.leader, r.elog, r.voters, c);
    OwnEntriesPastElection(h, n.store.log, n.commitIndex - 1);
  }

  // ---- what one step does to heartbeat counters and their echoes ----

  /** Only a leader keeps echoes and pending reads. */
  ghost predicate Idle<S>(n: Node<S>) {
    n.role != Leader ==> n.ackedSeq == map[] && n.pending == []
  }

  /** From `n` to `r` the echoes are dropped, kept, or (on a response of the current
      term) raised for its sender. */
  ghost predicate Echoes<S>(n: Node<S>, s: Step, r: Node<S>) {
    || r.ackedSeq == map[]
    || (r.ackedSeq == n.ackedSeq && n.role == Leader && r.term == n.term)
    || (&& s.Deliver? && s.p.msg.AppendEntriesResp? && s.p.msg.term == n.term == r.term && n.role == Leader
        && r.ackedSeq == n.ackedSeq[s.p.src := Max(s.p.msg.readSeq, Get(n.ackedSeq, s.p.src, 0))])
  }

  ghost predicate OutFacts<S>(r: Node<S>, s: Step, o: Out) {
    && (o.msg.AppendEntries? ==> o.msg.readSeq <= r.readSeq)
    && (o.msg.AppendEntriesResp? ==>
          && s.Deliver? && s.p.msg.AppendEntries? && o.dest == s.p.msg.leader
          && o.msg.term == r.term && o.msg.readSeq == s.p.msg.readSeq)
  }

  ghost predicate StepFacts<S>(n: Node<S>, s: Step, res: (Node<S>, seq<Out>)) {
    && Idle(res.0)
    && Echoes(n, s, res.0)
    && (!s.Restart? ==> n.readSeq <= res.0.readSeq)
    && forall i {:trigger res.1[i]} :: 0 <= i < |res.1| ==> OutFacts(res.0, s, res.1[i])
  }

  /** Committing leaves role, term, counters and echoes alone and only lengthens the log. */
  lemma AdvanceFrame<S>(m: StateMachine<S>, n: Node<S>)
    requires n.snapshotThreshold == 0
    ensures var r := MaybeAdvanceCommit(m, n);
            && r.role == n.role && r.term == n.term && r.readSeq == n.readSeq && r.ackedSeq == n.ackedSeq
            && |n.store.log| <= |r.store.log| && Agree(n.store.log, r.store.log, |n.store.log|)
  {
    var k := HighestCommittable(n, LastIndex(n.store));
    ApplyCommittedFrame(m, PersistHardState(n.(commitIndex := k)));
  }

  lemma BroadcastFacts<S>(n: Node<S>, s: Step, n0: Node<S>)
    requires n.role == Leader && Echoes(n0, s, n) && n0.readSeq <= n.readSeq
    ensures StepFacts(n0, s, BroadcastAppend(n))
  {
    BroadcastParts(n);
  }

  lemma BecomeLeaderFacts<S>(m: StateMachine<S>, n: Node<S>, s: Step, n0: Node<S>)
    requires n.snapshotThreshold == 0 && n.ackedSeq == map[] && n0.readSeq <= n.readSeq
    ensures StepFacts(n0, s, BecomeLeader(m, n))
  {
    var n1 := OpenedReign(n);
    AdvanceFrame(m, n1);
    BroadcastFacts(MaybeAdvanceCommit(m, n1), s, n0);
  }

  lemma TickFacts<S>(m: StateMachine<S>, n: Node<S>, s: Step)
    requires n.snapshotThreshold == 0 && Idle(n) && s.Tick?
    ensures StepFacts(n, s, OnTick(m, n, s.due))
  {
    if s.due {
      if n.role == Leader {
        BroadcastFacts(n, s, n);
      } else if n.id in Voters(n.config) && IsQuorum(Stand(n).config, Stand(n).votes) {
        BecomeLeaderFacts(m, Stand(n), s, n);
      }
    }
  }

  lemma FollowCommitFrame<S>(m: StateMachine<S>, n: Node<S>, lc: Index)
    requires n.snapshotThreshold == 0
    ensures var r := FollowCommit(m, n, lc);
            r.role == n.role && r.term == n.term && r.readSeq == n.readSeq && r.ackedSeq == n.ackedSeq
            && (n.role != Leader ==> r.pending == n.pending)
  {
    if lc > n.commitIndex {
      var n1 := PersistHardState(n.(commitIndex := Min(lc, LastIndex(n.store))));
      ApplyCommittedFrame(m, n1);
      ApplyLoopFrame(m, n1);
    }
  }

  lemma {:induction false} SpliceFrame<S>(n: Node<S>, entries: seq<Entry>)
    ensures Splice(n, entries) == n.(store := Splice(n, entries).store)
    decreases |entries|
  {
    if entries != [] { SpliceFrame(SpliceOne(n, entries[0]), entries[1..]); }
  }

  lemma AcceptFrame<S>(m: StateMachine<S>, n: Node<S>, msg: Message)
    requires n.snapshotThreshold == 0 && msg.AppendEntries? && n.role == Follower
    ensures var r := Accept(m, n, msg).0;
            r.role == n.role && r.term == n.term && r.readSeq == n.readSeq && r.ackedSeq == n.ackedSeq
                && r.pending == n.pending
  {
    SpliceFrame(n, msg.entries);
    FollowCommitFrame(m, RecomputeConfig(Splice(n, msg.entries)), msg.leaderCommit);
  }

  lemma AppendEntriesFacts<S>(m: StateMachine<S>, n: Node<S>, s: Step)
    requires n.snapshotThreshold == 0 && Idle(n) && s.Deliver? && s.p.msg.AppendEntries?
    ensures StepFacts(n, s, HandleAppendEntries(m, n, s.p.msg))
  {
    if s.p.msg.term >= n.term {
      FollowLeaderFacts(m, n, BecomeFollower(n, s.p.msg.term, Some(s.p.msg.leader)), s);
    }
  }

  lemma FollowLeaderFacts<S>(m: StateMachine<S>, n0: Node<S>, n: Node<S>, s: Step)
    requires n.snapshotThreshold == 0 && n.role == Follower && s.Deliver? && s.p.msg.AppendEntries?
    requires n.ackedSeq == map[] && n.pending == [] && n.readSeq == n0.readSeq
    ensures StepFacts(n0, s, FollowLeader(m, n, s.p.msg))
  {
    AcceptFrame(m, n, s.p.msg);
  }

  lemma RespFacts<S>(m: StateMachine<S>, n: Node<S>, s: Step)
    requires n.snapshotThreshold == 0 && Idle(n) && s.Deliver? && s.p.msg.AppendEntriesResp?
    ensures StepFacts(n, s, HandleAppendEntriesResp(m, n, s.p.src, s.p.msg))
  {
    var msg := s.p.msg;
    if n.role == Leader && msg.term == n.term {
      var n1 := n.(ackedSeq := n.ackedSeq[s.p.src := Max(msg.readSeq, Get(n.ackedSeq, s.p.src, 0))]);
      HearBackFacts(m, n, n1, s);
    }
  }

  lemma HearBackFacts<S>(m: StateMachine<S>, n0: Node<S>, n: Node<S>, s: Step)
    requires n.snapshotThreshold == 0 && n.role == Leader && s.Deliver? && s.p.msg.AppendEntriesResp?
    requires Echoes(n0, s, n) && n.readSeq == n0.readSeq
    ensures StepFacts(n0, s, HearBack(m, n, s.p.src, s.p.msg))
  {
    if s.p.msg.success { AdvanceFrame(m, Matched(n, s.p.src, s.p.msg.matchIndex)); }
  }

  lemma VoteFacts<S>(n: Node<S>, s: Step)
    requires Idle(n) && s.Deliver? && s.p.msg.RequestVote?
    ensures StepFacts(n, s,
                      HandleRequestVote(n, s.p.msg.term, s.p.msg.candidate, s.p.msg.lastLogIndex, s.p.msg.lastLogTerm))
  {
    var n1 := if s.p.msg.term > n.term then BecomeFollower(n, s.p.msg.term, None) else n;
    assert Idle(n1) && Echoes(n, s, n1) && n1.readSeq == n.readSeq;
  }

  lemma VoteRespFacts<S>(m: StateMachine<S>, n: Node<S>, s: Step)
    requires n.snapshotThreshold == 0 && Idle(n) && s.Deliver? && s.p.msg.RequestVoteResp?
    ensures StepFacts(n, s, HandleRequestVoteResp(m, n, s.p.src, s.p.msg.term, s.p.msg.granted))
  {
    if s.p.msg.term == n.term && n.role == Candidate && s.p.msg.granted {
      var n1 := n.(votes := n.votes + {s.p.src});
      if IsQuorum(n1.config, n1.votes) { BecomeLeaderFacts(m, n1, s, n); }
    }
  }

  lemma MessageFacts<S>(m: StateMachine<S>, n: Node<S>, s: Step)
    requires n.snapshotThreshold == 0 && Idle(n) && s.Deliver? && !s.p.msg.InstallSnapshot?
    ensures StepFacts(n, s, OnMessage(m, n, s.p.src, s.p.msg))
  {
    match s.p.msg
    case RequestVote(_, _, _, _) => VoteFacts(n, s);
    case RequestVoteResp(_, _) => VoteRespFacts(m, n, s);
    case AppendEntries(_, _, _, _, _, _, _) => AppendEntriesFacts(m, n, s);
    case AppendEntriesResp(_, _, _, _, _) => RespFacts(m, n, s);
  }

  lemma ProposeFacts<S>(m: StateMachine<S>, n: Node<S>, s: Step)
    requires n.snapshotThreshold == 0 && Idle(n) && s.SubmitCommand?
    ensures StepFacts(n, s, Propose(m, n, s.command))
  {
    if n.role == Leader {
      var n1 := AppendLocal(n, Command(s.command));
      BroadcastParts(n1);
      AdvanceFrame(m, BroadcastAppend(n1).0);
    }
  }

  lemma ClientFacts<S>(m: StateMachine<S>, n: Node<S>, s: Step)
    requires n.snapshotThreshold == 0 && Idle(n) && (s.SubmitConf? || s.SubmitRead?)
    ensures s.SubmitConf? ==> StepFacts(n, s, ProposeConf(n, s.voters))
    ensures s.SubmitRead? ==> StepFacts(n, s, Read(m, n, s.reqId, s.query))
  {
    if s.SubmitConf? && n.role == Leader && n.config.Simple? {
      BroadcastFacts(AppendLocal(n, Config(Joint(n.config.voters, Sorted(s.voters)))), s, n);
    }
    if s.SubmitRead? && n.role == Leader { BroadcastParts(n); }
  }

  lemma ActFacts<S>(m: StateMachine<S>, voters: seq<ReplicaId>, h: History, id: ReplicaId, n: Node<S>, s: Step)
    requires NodeOk(h, id, n) && Idle(n) && h.base == Simple(Sorted(voters)) && Actor(s) == id
    requires s.Deliver? ==> MsgOk(h, s.p)
    ensures StepFacts(n, s, Act(m, voters, n, s))
  {
    match s
    case Tick(_, _) => TickFacts(m, n, s);
    case Deliver(_) => MessageFacts(m, n, s);
    case SubmitCommand(_, _) => ProposeFacts(m, n, s);
    case SubmitConf(_, _) => ClientFacts(m, n, s);
    case SubmitRead(_, _, _) => ClientFacts(m, n, s);
    case Drain(_) =>
    case Restart(_) => RestartFacts(m, voters, h, id, n);
  }

  lemma RestartFacts<S>(m: StateMachine<S>, voters: seq<ReplicaId>, h: History, id: ReplicaId, n: Node<S>)
    requires NodeOk(h, id, n) && h.base == Simple(Sorted(voters))
    ensures StepFacts(n, Restart(id), Act(m, voters, n, Restart(id)))
  {
    CoherentIndexed(h.reigns, n.store.log);
    RestoreKeeps(m, h, id, n, voters);
  }

  // ---- the run from the issue of a read on ----

  ghost predicate AllIdle<S>(c: Cluster<S>) {
    forall v {:trigger Idle(c.nodes[v])} :: v in c.nodes ==> Idle(c.nodes[v])
  }

  /** The replicas that have not moved past term `t`. */
  ghost function Calm<S>(c: Cluster<S>, t: Term): set<ReplicaId> {
    set v | v in c.nodes && c.nodes[v].term <= t
  }

  ghost predicate EchoFrom(p: Packet, l: ReplicaId, t: Term, q: nat) {
    p.dst == l && p.msg.AppendEntriesResp? && p.msg.term == t && p.msg.readSeq >= q
  }

  /** Whoever echoes a heartbeat numbered `q` or later to the leader `l` of term `t` was calm. */
  ghost predicate ReadInv<S>(c: Cluster<S>, l: ReplicaId, t: Term, q: nat, calm: set<ReplicaId>) {
    && (forall v :: v in c.nodes && v !in calm ==> c.nodes[v].term > t)
    && (forall p {:trigger EchoFrom(p, l, t, q)} :: p in c.net && EchoFrom(p, l, t, q) ==> p.src in calm)
    && (l in c.nodes && c.nodes[l].role == Leader && c.nodes[l].term == t ==>
          forall v :: v in c.nodes[l].ackedSeq && c.nodes[l].ackedSeq[v] >= q ==> v in calm)
  }

  lemma ReadInvNext<S>(m: StateMachine<S>, voters: seq<ReplicaId>, h: History, c: Cluster<S>, s: Step,
                       l: ReplicaId, t: Term, q: nat, calm: set<ReplicaId>)
    requires ClusterOk(h, c) && h.base == Simple(Sorted(voters)) && AllIdle(c)
    ensures AllIdle(Next(m, voters, c, s))
    ensures ReadInv(c, l, t, q, calm) ==> ReadInv(Next(m, voters, c, s), l, t, q, calm)
  {
    if Enabled(c, s) {
      var id := Actor(s);
      var n := c.nodes[id];
      assert NodeOk(h, id, n) && Idle(n) && (s.Deliver? ==> MsgOk(h, s.p));
      ActFacts(m, voters, h, id, n, s);
      var g := ActOk(m, voters, h, id, n, s);
      ReadInvRoute(m, h, g, c, s, Act(m, voters, n, s), l, t, q, calm);
    }
  }

  lemma ReadInvRoute<S>(m: StateMachine<S>, h: History, g: History, c: Cluster<S>, s: Step, res: (Node<S>, seq<Out>),
                        l: ReplicaId, t: Term, q: nat, calm: set<ReplicaId>)
    requires Enabled(c, s) && AllIdle(c)
    requires Advances(m, c.nodes[Actor(s)], res.0) && StepFacts(c.nodes[Actor(s)], s, res)
    ensures AllIdle(Route(c, Actor(s), res))
    ensures ReadInv(c, l, t, q, calm) ==> ReadInv(Route(c, Actor(s), res), l, t, q, calm)
  {
    var id := Actor(s);
    var d := Route(c, id, res);
    forall v | v in d.nodes ensures Idle(d.nodes[v]) {
      if v != id { assert Idle(c.nodes[v]); }
    }
    if ReadInv(c, l, t, q, calm) {
      forall p | p in d.net && EchoFrom(p, l, t, q) ensures p.src in calm {
        if p !in c.net {
          var i :| 0 <= i < |res.1| && p == Packet(id, res.1[i].dest, res.1[i].msg);
          assert OutFacts(res.0, s, res.1[i]);
        }
      }
      if l == id && res.0.role == Leader && res.0.term == t {
        assert s.Deliver? ==> s.p in c.net;
        forall v | v in res.0.ackedSeq && res.0.ackedSeq[v] >= q ensures v in calm {
          if s.Deliver? { assert EchoFrom(s.p, l, t, q) ==> s.p.src in calm; }
        }
      }
    }
  }

  // ---- how a pending read gets answered ----

  lemma {:induction false} ServeSplits<S>(m: StateMachine<S>, sm: S, rs: seq<PendingRead>, confirmed: nat,
                                          applied: Index, pr: PendingRead)
    requires pr in rs
    ensures pr in StillPending(rs, confirmed, applied)
         || (Servable(pr, confirmed, applied)
             && (pr.reqId, Value(m.query(sm, pr.query))) in Served(m, sm, rs, confirmed, applied))
  {
    if rs[0] != pr {
      assert pr in rs[1..];
      ServeSplits(m, sm, rs[1..], confirmed, applied, pr);
    }
  }

  /** `x` is among the answers added to `before` to get `after`. */
  ghost predicate Added(before: seq<(nat, ReadResult)>, after: seq<(nat, ReadResult)>, x: (nat, ReadResult)) {
    before <= after && x in after[|before|..]
  }

  lemma AddedLate(before: seq<(nat, ReadResult)>, mid: seq<(nat, ReadResult)>, after: seq<(nat, ReadResult)>,
                  x: (nat, ReadResult))
    requires before <= mid <= after && (Added(before, mid, x) || Added(mid, after, x))
    ensures Added(before, after, x)
  {
    if Added(before, mid, x) {
      assert mid[|before|..] <= after[|before|..];
    } else {
      assert after[|before|..] == after[|before|..|mid|] + after[|mid|..];
    }
  }

  /** Replica state `a` answered `pr`, on the way from a state with answers `before` to `r`. */
  ghost predicate Answered<S>(m: StateMachine<S>, before: seq<(nat, ReadResult)>, a: Node<S>, r: Node<S>,
                              pr: PendingRead) {
    && a.role == Leader && a.term == r.term && a.ackedSeq == r.ackedSeq && a.id == r.id
    && a.config == ConfigOf(r.baseConfig, a.store.log)
    && |a.store.log| <= |r.store.log| && Agree(a.store.log, r.store.log, |a.store.log|)
    && Servable(pr, ConfirmedReadSeq(a), a.lastApplied)
    && AppliedOk(m, a)
    && Added(before, r.ready, (pr.reqId, Value(m.query(a.sm, pr.query))))
  }

  lemma ServeAnswers<S>(m: StateMachine<S>, n: Node<S>, pr: PendingRead)
    requires n.role == Leader && pr in n.pending && AppliedOk(m, n) && n.config == ConfigOf(n.baseConfig, n.store.log)
    ensures pr in ServeReads(m, n).pending || Answered(m, n.ready, n, ServeReads(m, n), pr)
  {
    ServeSplits(m, n.sm, n.pending, ConfirmedReadSeq(n), n.lastApplied, pr);
  }

  /** Committing applies entries and serves reads from the state just applied. */
  lemma CommitAnswers<S>(m: StateMachine<S>, n: Node<S>, k: Index, pr: PendingRead) returns (a: Node<S>)
    requires n.role == Leader && pr in n.pending && AppliedOk(m, n) && n.config == ConfigOf(n.baseConfig, n.store.log)
    requires n.snapshotThreshold == 0 && n.store.baseIndex == 0 && k <= |n.store.log|
    ensures pr in CommitTo(m, n, k).pending || Answered(m, n.ready, a, CommitTo(m, n, k), pr)
    ensures |n.store.log| <= |a.store.log|
  {
    var n1 := PersistHardState(n.(commitIndex := k));
    a := ApplyLoop(m, n1);
    ApplyLoopFrame(m, n1);
    ApplyLoopReplays(m, n1);
    ServeAnswers(m, a, pr);
  }

  lemma AdvanceAnswers<S>(m: StateMachine<S>, h: History, id: ReplicaId, n: Node<S>, pr: PendingRead)
    returns (a: Node<S>)
    requires Valid(h) && NodeOk(h, id, n) && n.role == Leader && AppliedOk(m, n) && pr in n.pending
    ensures pr in MaybeAdvanceCommit(m, n).pending || Answered(m, n.ready, a, MaybeAdvanceCommit(m, n), pr)
    ensures |n.store.log| <= |a.store.log|
  {
    a := n;
    assert LastIndex(n.store) == |n.store.log| by {
      CoherentIndexed(h.reigns, n.store.log);
      PlainLog(n);
    }
    var k := HighestCommittable(n, |n.store.log|);
    if k != n.commitIndex {
      a := CommitAnswers(m, n, k, pr);
    }
  }

  /** Answering in between still leaves the answer with the final state. */
  lemma AnsweredThenServed<S>(m: StateMachine<S>, before: seq<(nat, ReadResult)>, a: Node<S>, r: Node<S>,
                              pr: PendingRead)
    requires Answered(m, before, a, r, pr)
    ensures Answered(m, before, a, ServeReads(m, r), pr)
  {
    AddedLate(before, r.ready, ServeReads(m, r).ready, (pr.reqId, Value(m.query(a.sm, pr.query))));
  }

  lemma AdvanceReady<S>(m: StateMachine<S>, n: Node<S>)
    requires n.snapshotThreshold == 0
    ensures n.ready <= MaybeAdvanceCommit(m, n).ready
  {
    if n.role == Leader {
      ApplyLoopFrame(m, PersistHardState(n.(commitIndex := HighestCommittable(n, LastIndex(n.store)))));
    }
  }

  lemma SuccessAnswers<S>(m: StateMachine<S>, h: History, id: ReplicaId, n: Node<S>, pr: PendingRead)
    returns (a: Node<S>)
    requires Valid(h) && NodeOk(h, id, n) && n.role == Leader && AppliedOk(m, n) && pr in n.pending
    ensures var r := ServeReads(m, MaybeAdvanceCommit(m, n)); pr in r.pending || Answered(m, n.ready, a, r, pr)
    ensures |n.store.log| <= |a.store.log|
  {
    var n1 := MaybeAdvanceCommit(m, n);
    a := AdvanceAnswers(m, h, id, n, pr);
    if pr in n1.pending {
      AdvanceFrame(m, n);
      var g := MaybeAdvanceCommitOk(m, h, id, n);
      a := n1;
      ServeAnswers(m, n1, pr);
      AdvanceReady(m, n);
      if pr !in ServeReads(m, n1).pending {
        AddedLate(n.ready, n1.ready, ServeReads(m, n1).ready, (pr.reqId, Value(m.query(a.sm, pr.query))));
      }
    } else {
      AnsweredThenServed(m, n.ready, a, n1, pr);
    }
  }

  /** A response to leader `n` answers a read it no longer keeps. */
  lemma RespAnswers<S>(m: StateMachine<S>, h: History, id: ReplicaId, n: Node<S>, p: Packet, pr: PendingRead)
    returns (a: Node<S>)
    requires Valid(h) && NodeOk(h, id, n) && n.role == Leader && AppliedOk(m, n) && pr in n.pending
    requires p.msg.AppendEntriesResp? && MsgOk(h, p) && p.dst == id && p.msg.term == n.term
    ensures var r := HearBack(m, n, p.src, p.msg).0; pr in r.pending || Answered(m, n.ready, a, r, pr)
    ensures |n.store.log| <= |a.store.log|
  {
    if p.msg.success {
      HearBackSuccess(m, n, p.src, p.msg);
      MatchedOk(h, id, n, p.src, p.msg.matchIndex);
      a := SuccessAnswers(m, h, id, Matched(n, p.src, p.msg.matchIndex), pr);
    } else {
      a := n.(nextIndex := n.nextIndex[p.src := Backed(Get(n.nextIndex, p.src, 1), p.msg.conflictIndex)]);
      ServeAnswers(m, a, pr);
    }
  }

  lemma ProposeAnswers<S>(m: StateMachine<S>, h: History, id: ReplicaId, n: Node<S>, command: Bytes, pr: PendingRead)
    returns (a: Node<S>)
    requires Valid(h) && NodeOk(h, id, n) && n.role == Leader && AppliedOk(m, n) && pr in n.pending
    ensures var r := Propose(m, n, command).0; pr in r.pending || Answered(m, n.ready, a, r, pr)
    ensures |n.store.log| <= |a.store.log|
  {
    var n1 := AppendLocal(n, Command(command));
    var f := AppendLocalOk(h, id, n, Command(command));
    AppendLocalApplied(m, n, Command(command));
    BroadcastParts(n1);
    BroadcastOk(f, id, n1);
    a := AdvanceAnswers(m, f, id, BroadcastAppend(n1).0, pr);
  }

  lemma ReadAnswers<S>(m: StateMachine<S>, h: History, id: ReplicaId, n: Node<S>, s: Step, pr: PendingRead)
    returns (a: Node<S>)
    requires NodeOk(h, id, n) && n.role == Leader && AppliedOk(m, n) && s.SubmitRead?
    requires pr in n.pending || pr == PendingRead(s.reqId, s.query, n.commitIndex, n.readSeq + 1)
    ensures var r := Read(m, n, s.reqId, s.query).0; pr in r.pending || Answered(m, n.ready, a, r, pr)
    ensures |n.store.log| <= |a.store.log|
  {
    BroadcastParts(n);
    var n1 := BroadcastAppend(n).0;
    a := n1.(pending := n1.pending + [PendingRead(s.reqId, s.query, n1.commitIndex, n1.readSeq)]);
    ServeAnswers(m, a, pr);
  }

  /** A leader that stays leader either keeps a pending read or has answered it. */
  lemma ActAnswers<S>(m: StateMachine<S>, voters: seq<ReplicaId>, h: History, id: ReplicaId, n: Node<S>, s: Step,
                      pr: PendingRead)
    returns (a: Node<S>)
    requires Valid(h) && NodeOk(h, id, n) && n.role == Leader && AppliedOk(m, n) && h.base == Simple(Sorted(voters))
    requires Actor(s) == id && (s.Deliver? ==> MsgOk(h, s.p))
    requires pr in n.pending || (s.SubmitRead? && pr == PendingRead(s.reqId, s.query, n.commitIndex, n.readSeq + 1))
    ensures var r := Act(m, voters, n, s).0;
            r.role == Leader && r.term == n.term ==> pr in r.pending || Answered(m, n.ready, a, r, pr)
    ensures |n.store.log| <= |a.store.log|
  {
    a := n;
    match s
    case Tick(_, due) => TickKeeps(m, n, due);
    case Deliver(p) => a := MessageAnswers(m, h, id, n, p, pr);
    case SubmitCommand(_, command) => a := ProposeAnswers(m, h, id, n, command, pr);
    case SubmitConf(_, newVoters) => ConfKeeps(n, newVoters);
    case SubmitRead(_, _, _) => a := ReadAnswers(m, h, id, n, s, pr);
    case Drain(_) =>
    case Restart(_) =>
      CoherentIndexed(h.reigns, n.store.log);
      RestoreKeeps(m, h, id, n, voters);
  }

  lemma TickKeeps<S>(m: StateMachine<S>, n: Node<S>, due: bool)
    requires n.role == Leader
    ensures OnTick(m, n, due).0.pending == n.pending
  {
    BroadcastParts(n);
  }

  lemma ConfKeeps<S>(n: Node<S>, voters: seq<ReplicaId>)
    requires n.role == Leader
    ensures ProposeConf(n, voters).0.pending == n.pending
  {
    if n.config.Simple? {
      BroadcastParts(AppendLocal(n, Config(Joint(n.config.voters, Sorted(voters)))));
    }
  }

  lemma VoteKeeps<S>(m: StateMachine<S>, n: Node<S>, p: Packet)
    requires n.role == Leader && (p.msg.RequestVote? || p.msg.RequestVoteResp?)
    ensures var r := OnMessage(m, n, p.src, p.msg).0; r.role == Leader ==> r.pending == n.pending
  {
  }

  lemma MessageAnswers<S>(m: StateMachine<S>, h: History, id: ReplicaId, n: Node<S>, p: Packet, pr: PendingRead)
    returns (a: Node<S>)
    requires Valid(h) && NodeOk(h, id, n) && n.role == Leader && AppliedOk(m, n) && pr in n.pending
    requires MsgOk(h, p) && p.dst == id
    ensures var r := OnMessage(m, n, p.src, p.msg).0;
            r.role == Leader && r.term == n.term ==> pr in r.pending || Answered(m, n.ready, a, r, pr)
    ensures |n.store.log| <= |a.store.log|
  {
    a := n;
    match p.msg
    case RequestVote(_, _, _, _) => VoteKeeps(m, n, p);
    case RequestVoteResp(_, _) => VoteKeeps(m, n, p);
    case AppendEntries(_, _, _, _, _, _, _) => FollowersDoNotLead(m, n, p.msg);
    case AppendEntriesResp(t, _, _, _, readSeq) =>
      if t == n.term {
        var seqs := n.ackedSeq[p.src := Max(readSeq, Get(n.ackedSeq, p.src, 0))];
        EchoOk(m, h, id, n, seqs);
        a := RespAnswers(m, h, id, n.(ackedSeq := seqs), p, pr);
      }
  }

  lemma FollowersDoNotLead<S>(m: StateMachine<S>, n: Node<S>, msg: Message)
    requires msg.AppendEntries? && n.snapshotThreshold == 0
    ensures msg.term >= n.term ==> HandleAppendEntries(m, n, msg).0.role == Follower
  {
    AcceptFrame(m, BecomeFollower(n, msg.term, Some(msg.leader)), msg);
  }

  // ---- heartbeat numbers of a replica that has not restarted ----

  ghost predicate SeqBound(p: Packet, l: ReplicaId, q: nat) {
    && (p.src == l && p.msg.AppendEntries? ==> p.msg.readSeq <= q)
    && (p.dst == l && p.msg.AppendEntriesResp? ==> p.msg.readSeq <= q)
  }

  /** No heartbeat of `l`, and no echo of one, is numbered past its counter. */
  ghost predicate SeqInv<S>(c: Cluster<S>, l: ReplicaId) {
    l in c.nodes ==>
      && (forall p {:trigger SeqBound(p, l, c.nodes[l].readSeq)} :: p in c.net ==> SeqBound(p, l, c.nodes[l].readSeq))
      && (forall v :: v in c.nodes[l].ackedSeq ==> c.nodes[l].ackedSeq[v] <= c.nodes[l].readSeq)
  }

  lemma SeqInvNext<S>(m: StateMachine<S>, voters: seq<ReplicaId>, h: History, c: Cluster<S>, s: Step, l: ReplicaId)
    requires ClusterOk(h, c) && h.base == Simple(Sorted(voters)) && AllIdle(c)
    requires SeqInv(c, l) && s != Restart(l)
    ensures SeqInv(Next(m, voters, c, s), l)
  {
    if Enabled(c, s) && l in c.nodes {
      var id := Actor(s);
      var n := c.nodes[id];
      assert NodeOk(h, id, n) && Idle(n) && (s.Deliver? ==> MsgOk(h, s.p));
      ActFacts(m, voters, h, id, n, s);
      SeqInvRoute(c, s, Act(m, voters, n, s), l);
    }
  }

  lemma SeqInvRoute<S>(c: Cluster<S>, s: Step, res: (Node<S>, seq<Out>), l: ReplicaId)
    requires Enabled(c, s) && l in c.nodes && StepFacts(c.nodes[Actor(s)], s, res)
    requires s.Deliver? && s.p.msg.AppendEntries? ==> s.p.msg.leader == s.p.src
    requires SeqInv(c, l) && s != Restart(l)
    ensures SeqInv(Route(c, Actor(s), res), l)
  {
    var id := Actor(s);
    var d := Route(c, id, res);
    var q := d.nodes[l].readSeq;
    assert c.nodes[l].readSeq <= q;
    assert s.Deliver? ==> SeqBound(s.p, l, c.nodes[l].readSeq);
    forall p | p in d.net ensures SeqBound(p, l, q) {
      if p in c.net {
        assert SeqBound(p, l, c.nodes[l].readSeq);
      } else {
        var i :| 0 <= i < |res.1| && p == Packet(id, res.1[i].dest, res.1[i].msg);
        assert OutFacts(res.0, s, res.1[i]);
      }
    }
  }

  lemma {:induction false} SeqRun<S>(m: StateMachine<S>, ids: set<ReplicaId>, voters: seq<ReplicaId>, steps: seq<Step>,
                                     l: ReplicaId)
    ensures AllIdle(Run(m, ids, voters, steps))
    ensures Restart(l) !in steps ==> SeqInv(Run(m, ids, voters, steps), l)
    decreases |steps|
  {
    if steps != [] {
      var k := |steps| - 1;
      var c := Run(m, ids, voters, steps[..k]);
      var h := RunOk(m, ids, voters, steps[..k]);
      SeqRun(m, ids, voters, steps[..k], l);
      ReadInvNext(m, voters, h, c, steps[k], l, 0, 0, {});
      if Restart(l) !in steps { SeqInvNext(m, voters, h, c, steps[k], l); }
    }
  }

  /** From step `i` on, only replicas that were calm then echo heartbeats sent after it. */
  lemma {:induction false} ReadInvRun<S>(m: StateMachine<S>, ids: set<ReplicaId>, voters: seq<ReplicaId>,
                                         steps: seq<Step>, i: nat, l: ReplicaId, t: Term, q: nat, calm: set<ReplicaId>)
    requires i <= |steps| && ReadInv(Run(m, ids, voters, steps[..i]), l, t, q, calm)
    ensures ReadInv(Run(m, ids, voters, steps), l, t, q, calm)
    decreases |steps|
  {
    if i == |steps| {
      assert steps[..i] == steps;
    } else {
      var k := |steps| - 1;
      assert steps[..k][..i] == steps[..i];
      ReadInvRun(m, ids, voters, steps[..k], i, l, t, q, calm);
      var h := RunOk(m, ids, voters, steps[..k]);
      SeqRun(m, ids, voters, steps[..k], l);
      ReadInvNext(m, voters, h, Run(m, ids, voters, steps[..k]), steps[k], l, t, q, calm);
    }
  }

  /** Whoever has echoed, in the term of `l`, a heartbeat numbered past its counter is still in that term. */
  ghost predicate EchoesCurrent<S>(c: Cluster<S>, l: ReplicaId) {
    && l in c.nodes
    && var n := c.nodes[l];
    && (forall p {:trigger EchoFrom(p, l, n.term, n.readSeq + 1)} :: p in c.net && EchoFrom(p, l, n.term, n.readSeq + 1)
          ==> p.src in Calm(c, n.term))
    && (forall v :: v in n.ackedSeq && n.ackedSeq[v] > n.readSeq ==> v in Calm(c, n.term))
  }

  /** So it is at a replica that has not restarted: there are no such echoes. */
  lemma NotRestarted<S>(m: StateMachine<S>, ids: set<ReplicaId>, voters: seq<ReplicaId>, steps: seq<Step>, l: ReplicaId)
    requires Restart(l) !in steps && l in Run(m, ids, voters, steps).nodes
    ensures EchoesCurrent(Run(m, ids, voters, steps), l)
  {
    var c := Run(m, ids, voters, steps);
    SeqRun(m, ids, voters, steps, l);
    forall p | p in c.net ensures !EchoFrom(p, l, c.nodes[l].term, c.nodes[l].readSeq + 1) {
      assert SeqBound(p, l, c.nodes[l].readSeq);
    }
  }

  // ---- freshness ----

  lemma CalmVotes<S>(h: History, c: Cluster<S>, t: Term)
    requires ClusterOk(h, c)
    ensures forall s, v :: v in Calm(c, t) && (s, v) in h.ballots ==> s <= t
  {
    forall s, v | v in Calm(c, t) && (s, v) in h.ballots ensures s <= t {
      assert NodeOk(h, v, c.nodes[v]);
    }
  }

  /** A quorum that answered the heartbeat was calm when the read was issued, so nobody
      had been elected past the leader's term. */
  lemma NobodyElectedSince<S>(h: History, g: History, c: Cluster<S>, a: Node<S>, t: Term, q: nat)
    requires ClusterOk(h, c) && Valid(g) && Later(h, g) && t in h.reigns && a.id in Calm(c, t)
    requires t in g.reigns && |h.reigns[t].log| <= |a.store.log| && Agree(a.store.log, g.reigns[t].log, |a.store.log|)
    requires a.config == ConfigOf(h.base, a.store.log) && 1 <= q <= ConfirmedReadSeq(a)
    requires forall v :: v in a.ackedSeq && a.ackedSeq[v] >= q ==> v in Calm(c, t)
    ensures forall u :: u in h.reigns ==> u <= t
  {
    var confirmed := Reached(a, ConfirmedReadSeq(a));
    assert IsQuorum(a.config, confirmed);
    assert confirmed <= Calm(c, t);
    CalmVotes(h, c, t);
    forall u | u in h.reigns ensures u <= t {
      if t < u {
        var s, v := ConfirmerMovedOn(h, g, t, u, a.store.log, confirmed);
      }
    }
  }

  /** Among the answers added to `before`, the read `pr` is answered from the first `a` entries of the log. */
  ghost predicate AnsweredFrom<S>(m: StateMachine<S>, before: seq<(nat, ReadResult)>, r: Node<S>, pr: PendingRead,
                                  a: nat) {
    a <= |r.store.log| && Added(before, r.ready, (pr.reqId, Value(m.query(Replay(m, r.store.log[..a]), pr.query))))
  }

  lemma AnswerPrefix<S>(m: StateMachine<S>, before: seq<(nat, ReadResult)>, a: Node<S>, r: Node<S>, pr: PendingRead)
    requires Answered(m, before, a, r, pr)
    ensures AnsweredFrom(m, before, r, pr, a.lastApplied) && pr.readIndex <= a.lastApplied
  {
    assert r.store.log[..a.lastApplied] == a.store.log[..a.lastApplied];
  }

  /** In `c`, leader `l` has committed an entry of its own term and `pr` is the read it is about to register. */
  ghost predicate Asked<S>(c: Cluster<S>, l: ReplicaId, pr: PendingRead) {
    && l in c.nodes
    && var n := c.nodes[l];
    && n.role == Leader && 0 < n.commitIndex <= |n.store.log| && n.store.log[n.commitIndex - 1].term == n.term
    && pr.readIndex == n.commitIndex && pr.minSeq == n.readSeq + 1
  }

  /** The step that answers: nobody had committed further than the leader when the read was issued. */
  lemma AnswerIsFresh<S>(m: StateMachine<S>, h: History, g: History, c: Cluster<S>, l: ReplicaId,
                         before: seq<(nat, ReadResult)>, a: Node<S>, r: Node<S>, pr: PendingRead)
    requires ClusterOk(h, c) && Asked(c, l, pr)
    requires var n := c.nodes[l];
             && r.role == Leader && r.term == n.term && |n.store.log| <= |a.store.log|
             && forall v :: v in r.ackedSeq && r.ackedSeq[v] >= pr.minSeq ==> v in Calm(c, n.term)
    requires Valid(g) && Later(h, g) && NodeOk(g, l, r) && Answered(m, before, a, r, pr)
    ensures AnsweredFrom(m, before, r, pr, a.lastApplied)
    ensures forall x :: x in c.nodes ==> c.nodes[x].commitIndex <= a.lastApplied
  {
    var n := c.nodes[l];
    assert NodeOk(h, l, n);
    AnswerPrefix(m, before, a, r, pr);
    NobodyElectedSince(h, g, c, a, n.term, pr.minSeq);
    forall x | x in c.nodes ensures c.nodes[x].commitIndex <= n.commitIndex {
      assert NodeOk(h, x, c.nodes[x]);
      CommittedFurthest(h, l, n, x, c.nodes[x]);
    }
  }

  lemma LogGrewSince<S>(h: History, f: History, l: ReplicaId, n: Node<S>, o: Node<S>)
    requires Valid(h) && Valid(f) && Later(h, f) && NodeOk(h, l, n) && NodeOk(f, l, o)
    requires n.role == Leader && o.role == Leader && o.term == n.term
    ensures |n.store.log| <= |o.store.log|
  {
    assert GrowsAt(h.reigns, f.reigns, n.term);
  }

  lemma NextAnswers<S>(m: StateMachine<S>, voters: seq<ReplicaId>, f: History, d: Cluster<S>, s: Step, l: ReplicaId,
                       pr: PendingRead)
    returns (b: Node<S>)
    requires ClusterOk(f, d) && f.base == Simple(Sorted(voters)) && AllApplied(m, d) && l in d.nodes
             && d.nodes[l].role == Leader
    requires var o := d.nodes[l];
             pr in o.pending
                 || (s == SubmitRead(l, pr.reqId, pr.query) && pr.readIndex == o.commitIndex
                     && pr.minSeq == o.readSeq + 1)
    requires var r := Next(m, voters, d, s).nodes[l];
             r.role == Leader && r.term == d.nodes[l].term && pr !in r.pending
    ensures Answered(m, d.nodes[l].ready, b, Next(m, voters, d, s).nodes[l], pr)
            && |d.nodes[l].store.log| <= |b.store.log|
  {
    assert Enabled(d, s) && Actor(s) == l;
    assert NodeOk(f, l, d.nodes[l]) && AppliedOk(m, d.nodes[l]) && (s.Deliver? ==> MsgOk(f, s.p));
    b := ActAnswers(m, voters, f, l, d.nodes[l], s, pr);
  }

  /** From `c`, where the read is asked, to `d`, where it is about to be answered by step `s`. */
  lemma AnswerStep<S>(m: StateMachine<S>, voters: seq<ReplicaId>, h: History, f: History, c: Cluster<S>, d: Cluster<S>,
                      s: Step, l: ReplicaId, pr: PendingRead) returns (a: nat)
    requires ClusterOk(h, c) && ClusterOk(f, d) && Later(h, f) && Onward(m, c, d) && h.base == Simple(Sorted(voters))
    requires AllApplied(m, d) && AllIdle(d) && Asked(c, l, pr)
    requires pr in d.nodes[l].pending || (d == c && s == SubmitRead(l, pr.reqId, pr.query))
    requires var e := Next(m, voters, d, s);
             && l in e.nodes && e.nodes[l].role == Leader && e.nodes[l].term == c.nodes[l].term
                && pr !in e.nodes[l].pending
             && ReadInv(e, l, c.nodes[l].term, pr.minSeq, Calm(c, c.nodes[l].term))
    ensures AnsweredFrom(m, d.nodes[l].ready, Next(m, voters, d, s).nodes[l], pr, a)
    ensures forall x :: x in c.nodes ==> c.nodes[x].commitIndex <= a
  {
    var o, e := d.nodes[l], Next(m, voters, d, s);
    var g := NextOk(m, voters, f, d, s);
    LaterTrans(h, f, g);
    assert NodeOk(g, l, e.nodes[l]) && Idle(o);
    LeadsThroughout(m, h, f, c, d, e, l);
    var b := NextAnswers(m, voters, f, d, s, l, pr);
    AnswerIsFresh(m, h, g, c, l, o.ready, b, e.nodes[l], pr);
    a := b.lastApplied;
  }

  /** A replica that leads the same term in `c` and `e` and leads in `d` in between leads that term there. */
  lemma LeadsThroughout<S>(m: StateMachine<S>, h: History, f: History, c: Cluster<S>, d: Cluster<S>, e: Cluster<S>,
                           l: ReplicaId)
    requires ClusterOk(h, c) && ClusterOk(f, d) && Later(h, f) && Onward(m, c, d) && Onward(m, d, e)
    requires l in c.nodes && c.nodes[l].role == Leader && d.nodes[l].role == Leader
             && e.nodes[l].term == c.nodes[l].term
    ensures d.nodes[l].term == c.nodes[l].term && |c.nodes[l].store.log| <= |d.nodes[l].store.log|
  {
    assert NodeOk(h, l, c.nodes[l]) && NodeOk(f, l, d.nodes[l]);
    assert Advances(m, c.nodes[l], d.nodes[l]) && Advances(m, d.nodes[l], e.nodes[l]);
    LogGrewSince(h, f, l, c.nodes[l], d.nodes[l]);
  }

  lemma RunSoFar<S>(m: StateMachine<S>, ids: set<ReplicaId>, voters: seq<ReplicaId>, steps: seq<Step>, i: nat)
    returns (h: History, f: History)
    requires i <= |steps|
    ensures h.base == Simple(Sorted(voters)) && Later(h, f)
    ensures ClusterOk(h, Run(m, ids, voters, steps[..i])) && ClusterOk(f, Run(m, ids, voters, steps))
    ensures Onward(m, Run(m, ids, voters, steps[..i]), Run(m, ids, voters, steps))
    ensures AllApplied(m, Run(m, ids, voters, steps)) && AllIdle(Run(m, ids, voters, steps))
  {
    h := RunOk(m, ids, voters, steps[..i]);
    f := RunFrom(m, ids, voters, steps, i, h);
    var _ := RunOk(m, ids, voters, steps);
    SeqRun(m, ids, voters, steps, 0);
  }

  lemma CalmEchoes<S>(m: StateMachine<S>, ids: set<ReplicaId>, voters: seq<ReplicaId>, steps: seq<Step>, i: nat,
                      l: ReplicaId, pr: PendingRead)
    requires i <= |steps| && Asked(Run(m, ids, voters, steps[..i]), l, pr)
    requires EchoesCurrent(Run(m, ids, voters, steps[..i]), l)
    ensures var c := Run(m, ids, voters, steps[..i]);
            ReadInv(Run(m, ids, voters, steps), l, c.nodes[l].term, pr.minSeq, Calm(c, c.nodes[l].term))
  {
    var c := Run(m, ids, voters, steps[..i]);
    assert ReadInv(c, l, c.nodes[l].term, pr.minSeq, Calm(c, c.nodes[l].term));
    ReadInvRun(m, ids, voters, steps, i, l, c.nodes[l].term, pr.minSeq, Calm(c, c.nodes[l].term));
  }

  lemma RunStep<S>(m: StateMachine<S>, ids: set<ReplicaId>, voters: seq<ReplicaId>, steps: seq<Step>, j: nat)
    requires j < |steps|
    ensures Run(m, ids, voters, steps[..j + 1]) == Next(m, voters, Run(m, ids, voters, steps[..j]), steps[j])
  {
    assert steps[..j + 1][..j] == steps[..j];
  }

  /** ReadIndex freshness. Leader `l`, which has committed an entry of its own term and has not
      restarted (or has, but left no echoes behind), is asked to read at step `i`, in state `c`.
      If at step `j`, from `d` to `e`, the read leaves its pending list while it still leads that
      term, step `j` adds an answer to it: the query's value on a log prefix that covers everything
      any replica had committed in `c`. */
  lemma ReadIndexFresh<S>(m: StateMachine<S>, ids: set<ReplicaId>, voters: seq<ReplicaId>, steps: seq<Step>, i: nat,
                          j: nat, l: ReplicaId, pr: PendingRead, c: Cluster<S>, d: Cluster<S>, e: Cluster<S>)
    returns (a: nat)
    requires i <= j < |steps| && c == Run(m, ids, voters, steps[..i])
    requires d == Run(m, ids, voters, steps[..j]) && e == Run(m, ids, voters, steps[..j + 1])
    requires steps[i] == SubmitRead(l, pr.reqId, pr.query) && Asked(c, l, pr)
    requires Restart(l) !in steps[..i] || EchoesCurrent(c, l)
    requires l in d.nodes && (j == i || pr in d.nodes[l].pending)
    requires l in e.nodes && pr !in e.nodes[l].pending && e.nodes[l].role == Leader
             && e.nodes[l].term == c.nodes[l].term
    ensures l in e.nodes && AnsweredFrom(m, d.nodes[l].ready, e.nodes[l], pr, a)
    ensures forall x :: x in c.nodes ==> c.nodes[x].commitIndex <= a
  {
    assert steps[..j][..i] == steps[..i] && steps[..j + 1][..i] == steps[..i];
    if Restart(l) !in steps[..i] { NotRestarted(m, ids, voters, steps[..i], l); }
    var h, f := RunSoFar(m, ids, voters, steps[..j], i);
    CalmEchoes(m, ids, voters, steps[..j + 1], i, l, pr);
    RunStep(m, ids, voters, steps, j);
    a := AnswerStep(m, voters, h, f, c, d, steps[j], l, pr);
  }
}
