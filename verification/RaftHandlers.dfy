/** Every handler of a replica in good standing keeps it in good standing: each
    lemma extends the history to match what the handler did. */
module RaftHandlers {
  import opened Wrappers
  import opened RaftTypes
  import opened Membership
  import opened ConfigChain
  import opened LogStore
  import opened RaftModel
  import opened RaftHistory
  import opened RaftSteps
  import opened RaftInvariant

  // ---- reading a log that starts at index 1 ----

  ghost predicate Indexed(log: Log) {
    forall k :: 0 <= k < |log| ==> log[k].index == k + 1
  }

  lemma CoherentIndexed(rs: Reigns, log: Log)
    requires Coherent(rs, log)
    ensures Indexed(log)
  {
    forall k | 0 <= k < |log| ensures log[k].index == k + 1 {
      assert Placed(rs, log, k);
    }
  }

  ghost predicate Plain<S>(n: Node<S>) {
    n.store.baseIndex == 0 && n.store.baseTerm == 0 && !n.store.hasSnapshot && Indexed(n.store.log)
  }

  lemma PlainLog<S>(n: Node<S>)
    requires Plain(n)
    ensures LastIndex(n.store) == |n.store.log|
    ensures LastTerm(n.store) == TermOfLast(n.store.log)
    ensures LiveEntries(n) == n.store.log
    ensures RecomputeConfig(n) == n.(config := ConfigOf(n.baseConfig, n.store.log))
  {
    EntriesToEnd(n.store, 1);
  }

  lemma PlainTermAt<S>(n: Node<S>, k: nat)
    requires Plain(n)
    ensures TermAt(n, k) == if k > |n.store.log| then None else Some(TermBefore(n.store.log, k))
  {
  }

  // ---- the state machine follows the log ----

  ghost function ApplyEntry<S>(m: StateMachine<S>, s: S, e: Entry): S {
    if e.payload.Command? then m.apply(s, e.payload.command).0 else s
  }

  /** The state reached by applying the commands of `log` in order. */
  ghost function Replay<S>(m: StateMachine<S>, log: Log): S {
    if log == [] then m.initial else ApplyEntry(m, Replay(m, log[..|log| - 1]), log[|log| - 1])
  }

  ghost predicate AppliedOk<S>(m: StateMachine<S>, n: Node<S>) {
    n.lastApplied <= |n.store.log| && n.sm == Replay(m, n.store.log[..n.lastApplied])
  }

  lemma AppliedAgree<S>(m: StateMachine<S>, n: Node<S>, r: Node<S>)
    requires AppliedOk(m, n) && r.sm == n.sm && r.lastApplied == n.lastApplied
    requires Agree(n.store.log, r.store.log, n.lastApplied)
    ensures AppliedOk(m, r)
  {
    assert n.store.log[..n.lastApplied] == r.store.log[..n.lastApplied];
  }

  lemma {:induction false} ApplyLoopReplays<S>(m: StateMachine<S>, n: Node<S>)
    requires n.store.baseIndex == 0 && n.commitIndex <= |n.store.log| && AppliedOk(m, n)
    ensures AppliedOk(m, ApplyLoop(m, n))
    decreases n.commitIndex - n.lastApplied
  {
    if n.lastApplied < n.commitIndex {
      var k, log := n.lastApplied, n.store.log;
      assert log[..k + 1][..k] == log[..k];
      ApplyOneFrame(m, n);
      ApplyLoopReplays(m, ApplyOne(m, n));
    }
  }

  lemma ApplyCommittedReplays<S>(m: StateMachine<S>, n: Node<S>)
    requires n.snapshotThreshold == 0 && n.store.baseIndex == 0 && n.commitIndex <= |n.store.log| && AppliedOk(m, n)
    ensures AppliedOk(m, ApplyCommitted(m, n))
  {
    ApplyLoopReplays(m, n);
    ApplyLoopFrame(m, n);
  }

  // ---- applying and serving reads touch nothing the protocol relies on ----

  /** `r` is `n` but for what was applied and answered. */
  ghost predicate SameProtocol<S>(n: Node<S>, r: Node<S>) {
    r == n.(lastApplied := r.lastApplied, outbox := r.outbox, sm := r.sm, ready := r.ready, pending := r.pending)
  }

  lemma {:induction false} ApplyLoopFrame<S>(m: StateMachine<S>, n: Node<S>)
    ensures SameProtocol(n, ApplyLoop(m, n))
    ensures ApplyLoop(m, n).lastApplied == Max(n.lastApplied, n.commitIndex)
    ensures ApplyLoop(m, n).pending == n.pending && ApplyLoop(m, n).ready == n.ready
    decreases n.commitIndex - n.lastApplied
  {
    if n.lastApplied < n.commitIndex {
      ApplyOneFrame(m, n);
      ApplyLoopFrame(m, ApplyOne(m, n));
    }
  }

  lemma ApplyOneFrame<S>(m: StateMachine<S>, n: Node<S>)
    ensures SameProtocol(n, ApplyOne(m, n)) && ApplyOne(m, n).lastApplied == n.lastApplied + 1
    ensures ApplyOne(m, n).pending == n.pending && ApplyOne(m, n).ready == n.ready
  {
  }

  lemma ApplyCommittedFrame<S>(m: StateMachine<S>, n: Node<S>)
    requires n.snapshotThreshold == 0
    ensures SameProtocol(n, ApplyCommitted(m, n))
    ensures ApplyCommitted(m, n).lastApplied == Max(n.lastApplied, n.commitIndex)
  {
    ApplyLoopFrame(m, n);
  }

  /** Good standing does not depend on what was applied or answered. */
  lemma SameProtocolOk<S>(h: History, id: ReplicaId, n: Node<S>, r: Node<S>)
    requires NodeOk(h, id, n) && SameProtocol(n, r) && r.lastApplied <= r.commitIndex
    ensures NodeOk(h, id, r)
  {
  }

  lemma AppendLocalApplied<S>(m: StateMachine<S>, n: Node<S>, payload: EntryPayload)
    requires AppliedOk(m, n)
    ensures AppliedOk(m, AppendLocal(n, payload))
  {
    AppliedAgree(m, n, AppendLocal(n, payload));
  }

  lemma OpenedReignApplied<S>(m: StateMachine<S>, n: Node<S>)
    requires AppliedOk(m, n)
    ensures AppliedOk(m, OpenedReign(n))
  {
    AppliedAgree(m, n, OpenedReign(n));
  }

  lemma CommitToApplied<S>(m: StateMachine<S>, n: Node<S>, k: Index)
    requires n.snapshotThreshold == 0 && n.store.baseIndex == 0 && k <= |n.store.log| && AppliedOk(m, n)
    ensures AppliedOk(m, CommitTo(m, n, k))
  {
    var n1 := PersistHardState(n.(commitIndex := k));
    ApplyCommittedReplays(m, n1);
    var n2 := ApplyCommitted(m, n1);
    if FinalizeJointIfCommitted(n2) != n2 {
      AppendLocalApplied(m, n2, Config(Simple(n2.config.incoming)));
    }
  }

  // ---- becoming a follower ----

  lemma BecomeFollowerOk<S>(h: History, id: ReplicaId, n: Node<S>, t: Term, leader: Option<ReplicaId>)
    requires NodeOk(h, id, n) && t >= n.term
    ensures NodeOk(h, id, BecomeFollower(n, t, leader))
  {
    LogLater(h, n.store.log, n.term, t, n.commitIndex);
    if t > n.term { PastLater(h, id, n.term, n.votedFor, t); }
  }

  lemma LogLater(h: History, log: Log, t: Term, t': Term, k: nat)
    requires LogOk(h, log, t) && Committed(h, t, log, k) && t <= t'
    ensures LogOk(h, log, t') && Committed(h, t', log, k)
  {
    if k > 0 {
      var c :| c in h.certs && Covers(h.reigns, c, t, log, k);
      assert Covers(h.reigns, c, t', log, k);
    }
  }

  lemma PastLater(h: History, id: ReplicaId, t: Term, votedFor: Option<ReplicaId>, t': Term)
    requires PastOk(h, id, t, votedFor) && t < t'
    ensures PastOk(h, id, t', None)
  {
  }

  /** What every handler lemma establishes of the handler's result. */
  ghost predicate StepOk<S>(m: StateMachine<S>, h: History, g: History, id: ReplicaId, n: Node<S>,
                            res: (Node<S>, seq<Out>)) {
    Valid(g) && Extends(h, g, id) && NodeOk(g, id, res.0) && OutsOk(g, id, res.1) && Advances(m, n, res.0)
  }

  /** Terms and commit indices never go back, and the state machine keeps reflecting
      exactly the applied entries of the log. */
  ghost predicate Advances<S>(m: StateMachine<S>, n: Node<S>, r: Node<S>) {
    n.term <= r.term && n.commitIndex <= r.commitIndex && (AppliedOk(m, n) ==> AppliedOk(m, r))
  }

  lemma StepOkVia<S>(m: StateMachine<S>, h: History, g: History, id: ReplicaId, n: Node<S>, n1: Node<S>,
                     res: (Node<S>, seq<Out>))
    requires Advances(m, n, n1) && StepOk(m, h, g, id, n1, res)
    ensures StepOk(m, h, g, id, n, res)
  {
  }

  /** A replica's log is a chain of legal configuration changes. */
  lemma CoherentChain(h: History, log: Log)
    requires h.base.Simple? && ReignsOk(h.base, h.reigns) && Coherent(h.reigns, log)
    ensures Chain(h.base, log)
  {
    if log != [] {
      assert Placed(h.reigns, log, |log| - 1);
      var t := log[|log| - 1].term;
      assert ReignOk(h.base, h.reigns, t);
      ChainPrefix(h.base, log, h.reigns[t].log, |log|);
      assert log[..|log|] == log;
    }
  }

  // ---- votes ----

  /** What a replica's record says about it, apart from its role. */
  ghost predicate Standing(h: History, id: ReplicaId, t: Term, votedFor: Option<ReplicaId>, log: Log, commit: nat) {
    && LogOk(h, log, t)
    && PastOk(h, id, t, votedFor)
    && RetainsAll(h, id, log)
    && Committed(h, t, log, commit)
  }

  /** Recording a vote, for the first time or again for the same candidate. */
  lemma GrantHistory(h: History, id: ReplicaId, t: Term, votedFor: Option<ReplicaId>, log: Log, commit: nat,
                     c: ReplicaId) returns (g: History)
    requires Valid(h) && Standing(h, id, t, votedFor, log, commit)
    requires votedFor == None || votedFor == Some(c)
    requires (t, c) in h.bids && AtLeastAsUpToDate(h.bids[(t, c)], log)
    ensures Valid(g) && Extends(h, g, id) && Standing(g, id, t, Some(c), log, commit)
    ensures (t, id) in g.ballots && g.ballots[(t, id)].candidate == c && BallotForBid(g, t, id)
    ensures g == h.(ballots := g.ballots)
  {
    if votedFor == Some(c) {
      g := h;
    } else {
      g := AddBallot(h, t, id, c, log);
      AddBallotValid(h, t, id, c, log);
      AdditionsExtend(h, id, t, 0, log, c, Cert(0, 0, 0, {}));
      CommittedStable(h, g, id, t, log, log, commit);
      forall s | (s, id) in g.ballots ensures BallotForBid(g, s, id) {
        if s != t { assert BallotForBid(h, s, id); }
      }
    }
  }

  lemma LeadsSame(h: History, g: History, id: ReplicaId, t: Term, log: Log, matchIndex: map<ReplicaId, Index>,
                  nextIndex: map<ReplicaId, Index>, commit: Index)
    requires Leads(h, id, t, log, matchIndex, nextIndex, commit)
    requires g.reigns == h.reigns && g.acked == h.acked && g.certs == h.certs
    ensures Leads(g, id, t, log, matchIndex, nextIndex, commit)
  {
    forall p | p in matchIndex ensures MatchOk(g, t, p, matchIndex[p]) {
      assert MatchOk(h, t, p, matchIndex[p]);
    }
  }

  lemma StandsSame(h: History, g: History, id: ReplicaId, t: Term, log: Log, votes: set<ReplicaId>)
    requires Stands(h, id, t, log, votes) && Extends(h, g, id) && g.reigns == h.reigns
    ensures Stands(g, id, t, log, votes)
  {
    assert BidBy(h.bids, g.bids, id, (t, id));
    VotesStable(h, g, id, id, t, log, votes);
  }

  lemma GrantOk<S>(h: History, id: ReplicaId, n: Node<S>, c: ReplicaId) returns (g: History)
    requires Valid(h) && NodeOk(h, id, n)
    requires n.votedFor == None || n.votedFor == Some(c)
    requires (n.term, c) in h.bids && AtLeastAsUpToDate(h.bids[(n.term, c)], n.store.log)
    ensures Valid(g) && Extends(h, g, id) && NodeOk(g, id, PersistHardState(n.(votedFor := Some(c))))
    ensures (n.term, id) in g.ballots && g.ballots[(n.term, id)].candidate == c && BallotForBid(g, n.term, id)
  {
    g := GrantHistory(h, id, n.term, n.votedFor, n.store.log, n.commitIndex, c);
    if n.role == Leader {
      LeadsSame(h, g, id, n.term, n.store.log, n.matchIndex, n.nextIndex, n.commitIndex);
    } else if n.role == Candidate {
      StandsSame(h, g, id, n.term, n.store.log, n.votes);
    }
  }

  lemma DecideVoteOk<S>(m: StateMachine<S>, h: History, id: ReplicaId, n: Node<S>, p: Packet) returns (g: History)
    requires Valid(h) && NodeOk(h, id, n) && MsgOk(h, p) && p.dst == id && p.msg.RequestVote?
    ensures StepOk(m, h, g, id, n, DecideVote(n, p.msg.term, p.msg.candidate, p.msg.lastLogIndex, p.msg.lastLogTerm))
  {
    var m := p.msg;
    CoherentIndexed(h.reigns, n.store.log);
    PlainLog(n);
    if Grants(n, m.term, m.candidate, m.lastLogIndex, m.lastLogTerm) {
      g := GrantOk(h, id, n, m.candidate);
    } else {
      g := h;
    }
  }

  lemma RequestVoteOk<S>(m: StateMachine<S>, h: History, id: ReplicaId, n: Node<S>, p: Packet) returns (g: History)
    requires Valid(h) && NodeOk(h, id, n) && MsgOk(h, p) && p.dst == id && p.msg.RequestVote?
    ensures StepOk(m, h, g, id, n,
                   HandleRequestVote(n, p.msg.term, p.msg.candidate, p.msg.lastLogIndex, p.msg.lastLogTerm))
  {
    if p.msg.term > n.term {
      BecomeFollowerOk(h, id, n, p.msg.term, None);
      g := DecideVoteOk(m, h, id, BecomeFollower(n, p.msg.term, None), p);
    } else {
      g := DecideVoteOk(m, h, id, n, p);
    }
  }

  // ---- winning an election ----

  /** Two winners of one term would share a voter, so they are the same replica. */
  lemma OneWinner(h: History, t: Term, a: ReplicaId, loga: Log, va: set<ReplicaId>)
    requires Valid(h) && t in h.reigns && Elected(h.base, h.reigns, h.ballots, t, a, loga, va)
    ensures h.reigns[t].leader == a
  {
    var r := h.reigns[t];
    assert ReignElected(h, t);
    if LastSimplePos(loga) >= 0 {
      var c := FinishedIsCommitted(h, loga);
      ElectedComplete(h, t, r.leader, r.elog, r.voters, c);
    }
    if LastSimplePos(r.elog) >= 0 {
      var c := FinishedIsCommitted(h, r.elog);
      ElectedComplete(h, t, a, loga, va, c);
    }
    QuorumsMeet(h.base, loga, r.elog, va, r.voters);
    var v :| v in va && v in r.voters;
    assert VotedFor(h.ballots, t, v, a, loga) && VotedFor(h.ballots, t, v, r.leader, r.elog);
  }

  /** A candidate holding a quorum of votes opens its reign with a no-op. */
  lemma OpenReign<S>(h: History, id: ReplicaId, n: Node<S>) returns (g: History)
    requires Valid(h) && NodeOk(h, id, n) && n.role == Candidate && IsQuorum(n.config, n.votes)
    ensures Valid(g) && Extends(h, g, id)
    ensures g.reigns == h.reigns[n.term :=
              Reign(id, n.store.log, n.store.log + [Entry(n.term, |n.store.log| + 1, Noop)], n.votes)]
    ensures g.base == h.base && g.ballots == h.ballots && g.bids == h.bids && g.certs == h.certs
    ensures n.term !in h.reigns && g.acked == h.acked[(n.term, id) := |n.store.log| + 1]
  {
    var log, t := n.store.log, n.term;
    CoherentChain(h, log);
    assert Elected(h.base, h.reigns, h.ballots, t, id, log, n.votes);
    if t in h.reigns {
      OneWinner(h, t, id, log, n.votes);
    }
    g := ReignOpens(h, id, t, log, n.votes);
  }

  lemma ReignOpens(h: History, id: ReplicaId, t: Term, log: Log, votes: set<ReplicaId>) returns (g: History)
    requires Valid(h) && t !in h.reigns && NoLaterBallot(h, id, t)
    requires Elected(h.base, h.reigns, h.ballots, t, id, log, votes)
    ensures Valid(g) && Extends(h, g, id)
    ensures g.reigns == h.reigns[t := Reign(id, log, log + [Entry(t, |log| + 1, Noop)], votes)]
    ensures g.base == h.base && g.ballots == h.ballots && g.bids == h.bids && g.certs == h.certs
    ensures g.acked == h.acked[(t, id) := |log| + 1]
  {
    var e := Entry(t, |log| + 1, Noop);
    var f := AddReign(h, t, id, log, votes, e);
    AddReignValid(h, t, id, log, votes, e);
    assert (t, id) !in h.acked by {
      assert (t, id) in h.acked ==> AckOk(h.reigns, h.acked, t, id);
    }
    g := AddAck(f, t, id, |log| + 1);
    AddAckValid(f, t, id, |log| + 1);
  }

  /** Acknowledging a longer prefix that the log holds keeps it retaining everything. */
  lemma RetainsWithAck(h: History, g: History, id: ReplicaId, t: Term, log: Log, log': Log, k: nat)
    requires Valid(h) && Grows(h.reigns, g.reigns) && RetainsAll(h, id, log)
    requires t in g.reigns && Agree(log', g.reigns[t].log, k)
    requires |log| <= |log'| && Agree(log, log', |log|) && TermOfLast(log) <= TermOfLast(log')
    requires forall s :: s != t ==> ((s, id) in g.acked <==> (s, id) in h.acked)
    requires forall s :: s != t && (s, id) in g.acked ==> g.acked[(s, id)] == h.acked[(s, id)]
    requires (t, id) in g.acked
             && (g.acked[(t, id)] <= k || ((t, id) in h.acked && g.acked[(t, id)] == h.acked[(t, id)]))
    ensures RetainsAll(g, id, log')
  {
    var rs, rs' := h.reigns, g.reigns;
    forall s: Term ensures Retains(rs', g.acked, id, log', s) {
      if (s, id) in g.acked && s in rs' && !(s == t && g.acked[(t, id)] <= k) {
        assert Retains(rs, h.acked, id, log, s);
        assert AckOk(rs, h.acked, s, id);
        assert GrowsAt(rs, rs', s);
        forall j | (&& 1 <= j <= g.acked[(s, id)] && j <= |rs'[s].log| && rs'[s].log[j - 1].term == s
                    && Inherited(rs', s, j, TermOfLast(log')))
          ensures Agree(log', rs'[s].log, j)
        {
          assert Inherited(rs', s, j, TermOfLast(log));
          InheritedShrinks(rs, rs', s, j, TermOfLast(log));
          assert rs[s].log[j - 1] == rs'[s].log[j - 1];
          assert Agree(log, rs[s].log, j);
        }
      }
    }
  }

  lemma LastTermGrows(h: History, log: Log, t: Term, e: Entry)
    requires LogOk(h, log, t) && e.term == t
    ensures TermOfLast(log) <= TermOfLast(log + [e])
  {
  }

  /** A node made of parts that are each in order. */
  ghost predicate LedLog(h: History, id: ReplicaId, t: Term, votedFor: Option<ReplicaId>, log: Log, commit: nat) {
    && t in h.reigns && h.reigns[t].leader == id && h.reigns[t].log == log
    && (t, id) in h.acked && h.acked[(t, id)] == |log|
    && Standing(h, id, t, votedFor, log, commit)
  }

  lemma LeaderHistory(h: History, g: History, id: ReplicaId, t: Term, votedFor: Option<ReplicaId>,
                      log: Log, e: Entry, commit: nat)
    requires Valid(h) && Valid(g) && Extends(h, g, id) && e.term == t
    requires t in g.reigns && g.reigns[t].leader == id && g.reigns[t].log == log + [e]
    requires LogOk(h, log, t) && PastOk(h, id, t, votedFor) && RetainsAll(h, id, log)
    requires commit <= |log| && Committed(h, t, log, commit)
    requires g.ballots == h.ballots && g.bids == h.bids && g.acked == h.acked[(t, id) := |log| + 1]
    requires forall s :: s in g.reigns && s !in h.reigns ==> s == t
    ensures LedLog(g, id, t, votedFor, log + [e], commit)
  {
    var log' := log + [e];
    assert ReignOk(g.base, g.reigns, t);
    LastTermGrows(h, log, t, e);
    RetainsWithAck(h, g, id, t, log, log', |log'|);
    CommittedStable(h, g, id, t, log, log', commit);
    PastSelf(h, g, id, t, votedFor);
  }

  lemma AppendLocalShape<S>(n: Node<S>, payload: EntryPayload, e: Entry)
    requires Plain(n) && e == Entry(n.term, |n.store.log| + 1, payload)
    requires n.config == ConfigOf(n.baseConfig, n.store.log)
    ensures AppendLocal(n, payload)
         == n.(store := n.store.(log := n.store.log + [e]),
               matchIndex := if n.id in n.matchIndex then n.matchIndex[n.id := |n.store.log| + 1] else n.matchIndex,
               config := ConfigOf(n.baseConfig, n.store.log + [e]))
  {
    PlainLog(n);
    var n1 := n.(store := Append(n.store, [e]),
                 matchIndex := if n.id in n.matchIndex then n.matchIndex[n.id := |n.store.log| + 1] else n.matchIndex);
    PlainLog(n1);
    ConfigAppend(n.baseConfig, n.store.log, e);
  }

  /** The state right after winning: leader, no-op appended. */
  lemma BecomeLeaderBase<S>(h: History, id: ReplicaId, n: Node<S>) returns (g: History)
    requires Valid(h) && NodeOk(h, id, n) && n.role == Candidate && IsQuorum(n.config, n.votes)
    ensures Valid(g) && Extends(h, g, id) && NodeOk(g, id, OpenedReign(n))
  {
    var log, t := n.store.log, n.term;
    g := OpenReign(h, id, n);
    var e := Entry(t, |log| + 1, Noop);
    LeaderHistory(h, g, id, t, n.votedFor, log, e, n.commitIndex);
    assert forall c :: c in g.certs ==> c.term != t by {
      forall c | c in h.certs ensures c.term != t { assert CertOk(h.base, h.reigns, h.acked, c); }
    }
    CoherentIndexed(h.reigns, log);
    OpenedReignShape(n, e);
    NewLeaderOk(g, id, OpenedReign(n));
  }

  lemma OpenedReignShape<S>(n: Node<S>, e: Entry)
    requires Plain(n) && e == Entry(n.term, |n.store.log| + 1, Noop)
    requires n.config == ConfigOf(n.baseConfig, n.store.log)
    ensures var r := OpenedReign(n);
      && r == n.(role := Leader, leaderId := Some(n.id), nextIndex := r.nextIndex, matchIndex := r.matchIndex,
                 store := n.store.(log := n.store.log + [e]), config := ConfigOf(n.baseConfig, n.store.log + [e]))
      && (forall p :: p in r.matchIndex ==> r.matchIndex[p] == 0)
      && (forall p :: p in r.nextIndex ==> r.nextIndex[p] == |n.store.log| + 1)
  {
    PlainLog(n);
    var n1 := n.(role := Leader, leaderId := Some(n.id),
                 nextIndex := Filled(Peers(n), LastIndex(n.store) + 1), matchIndex := Filled(Peers(n), 0));
    AppendLocalShape(n1, Noop, e);
  }

  lemma NewLeaderOk<S>(g: History, id: ReplicaId, r: Node<S>)
    requires Shape(g, id, r) && r.role == Leader
    requires LedLog(g, id, r.term, r.votedFor, r.store.log, r.commitIndex)
    requires r.lastApplied <= r.commitIndex <= |r.store.log|
    requires forall p :: p in r.matchIndex ==> r.matchIndex[p] == 0
    requires forall p :: p in r.nextIndex ==> 1 <= r.nextIndex[p] <= |r.store.log| + 1
    requires forall c :: c in g.certs ==> c.term != r.term
    ensures NodeOk(g, id, r)
  {
  }

  /** Own additions at the current term keep a replica's past in order. */
  lemma PastSelf(h: History, g: History, id: ReplicaId, t: Term, votedFor: Option<ReplicaId>)
    requires Extends(h, g, id) && PastOk(h, id, t, votedFor)
    requires g.ballots == h.ballots && g.bids == h.bids
    requires forall s :: (s, id) in g.acked && (s, id) !in h.acked ==> s == t
    requires forall s :: s in g.reigns && s !in h.reigns ==> s == t
    ensures PastOk(g, id, t, votedFor)
  {
    forall s | (s, id) in g.ballots ensures BallotForBid(g, s, id) {
      assert BallotForBid(h, s, id);
    }
    forall s | s in g.reigns && g.reigns[s].leader == id ensures s <= t {
      if s in h.reigns { assert GrowsAt(h.reigns, g.reigns, s); }
    }
  }

  // ---- a leader appends ----

  lemma AppendLocalOk<S>(h: History, id: ReplicaId, n: Node<S>, payload: EntryPayload) returns (g: History)
    requires Valid(h) && NodeOk(h, id, n) && n.role == Leader
    requires payload.Config? ==> NextConf(n.config, payload.conf)
    requires payload.Config? && payload.conf.Simple? ==>
               exists c :: c in h.certs && Finishes(c, n.term, |n.store.log|, n.store.log)
    ensures Valid(g) && Extends(h, g, id) && NodeOk(g, id, AppendLocal(n, payload))
    ensures g.certs == h.certs
  {
    var log, t := n.store.log, n.term;
    var e := Entry(t, |log| + 1, payload);
    g := LeaderAppends(h, id, t, e);
    LeaderHistory(h, g, id, t, n.votedFor, log, e, n.commitIndex);
    CoherentIndexed(h.reigns, log);
    AppendLocalShape(n, payload, e);
    LeaderAppended(h, g, id, n, AppendLocal(n, payload));
    LedNodeOk(g, id, AppendLocal(n, payload));
  }

  lemma LedNodeOk<S>(g: History, id: ReplicaId, r: Node<S>)
    requires Shape(g, id, r) && r.role == Leader && LeaderOk(g, id, r)
    requires LedLog(g, id, r.term, r.votedFor, r.store.log, r.commitIndex)
    requires r.lastApplied <= r.commitIndex <= |r.store.log|
    ensures NodeOk(g, id, r)
  {
  }

  lemma LeaderAppends(h: History, id: ReplicaId, t: Term, e: Entry) returns (g: History)
    requires Valid(h) && t in h.reigns && h.reigns[t].leader == id && NoLaterBallot(h, id, t)
    requires (t, id) in h.acked && h.acked[(t, id)] == |h.reigns[t].log|
    requires e.term == t && e.index == |h.reigns[t].log| + 1
    requires IsConfig(e) ==> NextConf(ConfigOf(h.base, h.reigns[t].log), e.payload.conf)
    requires IsSimple(e) ==> exists c :: c in h.certs && Finishes(c, t, |h.reigns[t].log|, h.reigns[t].log)
    ensures Valid(g) && Extends(h, g, id) && g.certs == h.certs && g.ballots == h.ballots && g.bids == h.bids
    ensures g.reigns == h.reigns[t := h.reigns[t].(log := h.reigns[t].log + [e])]
    ensures g.acked == h.acked[(t, id) := |h.reigns[t].log| + 1]
  {
    var f := AddEntry(h, t, e);
    AddEntryValid(h, t, e);
    g := AddAck(f, t, id, |h.reigns[t].log| + 1);
    AddAckValid(f, t, id, |h.reigns[t].log| + 1);
  }

  lemma LeaderAppended<S>(h: History, g: History, id: ReplicaId, n: Node<S>, r: Node<S>)
    requires LeaderOk(h, id, n) && n.role == Leader && r.role == Leader && r.term == n.term && n.id == id
    requires r.commitIndex == n.commitIndex && g.certs == h.certs && r.nextIndex == n.nextIndex
    requires n.term in g.reigns && g.reigns[n.term].leader == id && g.reigns[n.term].log == r.store.log
    requires |r.store.log| == |n.store.log| + 1
    requires r.matchIndex == if n.id in n.matchIndex then n.matchIndex[n.id := |r.store.log|] else n.matchIndex
    requires g.acked == h.acked[(n.term, id) := |r.store.log|]
    ensures LeaderOk(g, id, r)
  {
    forall p | p in r.matchIndex ensures MatchOk(g, r.term, p, r.matchIndex[p]) {
      assert MatchOk(h, n.term, p, n.matchIndex[p]);
    }
  }

  // ---- a leader commits ----

  /** The quorum that holds entry `k` has acknowledged it, so the commit is certified. */
  lemma CertifyCommit<S>(h: History, id: ReplicaId, n: Node<S>, k: Index) returns (c: Cert)
    requires Valid(h) && NodeOk(h, id, n) && n.role == Leader
    requires n.commitIndex < k <= |n.store.log| && Committable(n, k)
    ensures CertOk(h.base, h.reigns, h.acked, c)
    ensures c == Cert(n.term, k, |n.store.log|, Holders(n, k))
  {
    var log, t := n.store.log, n.term;
    c := Cert(t, k, |log|, Holders(n, k));
    CoherentIndexed(h.reigns, log);
    PlainTermAt(n, k);
    assert ReignOk(h.base, h.reigns, t);
    assert log[..|log|] == log;
    forall v | v in c.quorum ensures (t, v) in h.acked && k <= h.acked[(t, v)] {
      if v != id {
        assert v in n.matchIndex;
        assert MatchOk(h, t, v, n.matchIndex[v]);
      }
    }
  }

  /** Recording the commit and moving the commit index to it. */
  lemma CommitHistory(h: History, id: ReplicaId, t: Term, votedFor: Option<ReplicaId>, log: Log, commit: nat,
                      mi: map<ReplicaId, Index>, ni: map<ReplicaId, Index>, c: Cert) returns (g: History)
    requires Valid(h) && Standing(h, id, t, votedFor, log, commit) && Leads(h, id, t, log, mi, ni, commit)
    requires CertOk(h.base, h.reigns, h.acked, c) && c.term == t && commit < c.upTo <= |log|
    ensures g == AddCert(h, c) && Valid(g) && Extends(h, g, id)
    ensures Standing(g, id, t, votedFor, log, c.upTo) && Leads(g, id, t, log, mi, ni, c.upTo)
  {
    g := AddCert(h, c);
    AddCertValid(h, c);
    AdditionsExtend(h, id, t, 0, log, id, c);
    assert Covers(g.reigns, c, t, log, c.upTo);
    PastSelf(h, g, id, t, votedFor);
    forall p | p in mi ensures MatchOk(g, t, p, mi[p]) {
      assert MatchOk(h, t, p, mi[p]);
    }
  }

  lemma CommitRecorded<S>(h: History, id: ReplicaId, n: Node<S>, c: Cert) returns (g: History)
    requires Valid(h) && NodeOk(h, id, n) && n.role == Leader
    requires CertOk(h.base, h.reigns, h.acked, c) && c.term == n.term && n.commitIndex < c.upTo <= |n.store.log|
    ensures g == AddCert(h, c) && Valid(g) && Extends(h, g, id)
    ensures NodeOk(g, id, PersistHardState(n.(commitIndex := c.upTo)))
  {
    g := CommitHistory(h, id, n.term, n.votedFor, n.store.log, n.commitIndex, n.matchIndex, n.nextIndex, c);
  }

  /** Moving the commit index to `k` and everything that follows from it. */
  lemma CommitToOk<S>(m: StateMachine<S>, h: History, id: ReplicaId, n: Node<S>, k: Index) returns (g: History)
    requires Valid(h) && NodeOk(h, id, n) && n.role == Leader
    requires n.commitIndex < k <= |n.store.log| && Committable(n, k)
    ensures Valid(g) && Extends(h, g, id) && NodeOk(g, id, CommitTo(m, n, k))
    ensures CommitTo(m, n, k).role == Leader && Advances(m, n, CommitTo(m, n, k))
  {
    if AppliedOk(m, n) { CommitToApplied(m, n, k); }
    var c := CertifyCommit(h, id, n, k);
    var f := CommitRecorded(h, id, n, c);
    var n1 := PersistHardState(n.(commitIndex := k));
    ApplyCommittedFrame(m, n1);
    var n2 := ApplyCommitted(m, n1);
    SameProtocolOk(f, id, n1, n2);
    g := FinalizeOk(f, id, n2, c);
    ExtendsTrans(h, f, g, id);
  }

  lemma MaybeAdvanceCommitOk<S>(m: StateMachine<S>, h: History, id: ReplicaId, n: Node<S>) returns (g: History)
    requires Valid(h) && NodeOk(h, id, n) && n.role == Leader
    ensures Valid(g) && Extends(h, g, id) && NodeOk(g, id, MaybeAdvanceCommit(m, n))
    ensures MaybeAdvanceCommit(m, n).role == Leader && Advances(m, n, MaybeAdvanceCommit(m, n))
  {
    assert LastIndex(n.store) == |n.store.log| by {
      CoherentIndexed(h.reigns, n.store.log);
      PlainLog(n);
    }
    var k := HighestCommittable(n, |n.store.log|);
    if k == n.commitIndex {
      g := h;
    } else {
      g := CommitToOk(m, h, id, n, k);
    }
  }

  lemma FinalizeOk<S>(h: History, id: ReplicaId, n: Node<S>, c: Cert) returns (g: History)
    requires Valid(h) && NodeOk(h, id, n) && n.role == Leader
    requires c in h.certs && c.term == n.term && c.size == |n.store.log| && c.upTo == n.commitIndex
    ensures Valid(g) && Extends(h, g, id) && NodeOk(g, id, FinalizeJointIfCommitted(n))
    ensures FinalizeJointIfCommitted(n).role == Leader && FinalizeJointIfCommitted(n).term == n.term
    ensures FinalizeJointIfCommitted(n).commitIndex == n.commitIndex
  {
    g := h;
    CoherentIndexed(h.reigns, n.store.log);
    PlainLog(n);
    if n.config.Joint? && LastConfigIndex(n).Some? && n.commitIndex >= LastConfigIndex(n).value {
      assert n.store.log[..|n.store.log|] == n.store.log;
      assert Finishes(c, n.term, |n.store.log|, n.store.log);
      g := AppendLocalOk(h, id, n, Config(Simple(n.config.incoming)));
    }
  }

  // ---- a leader replicates ----

  lemma AppendForShape<S>(n: Node<S>, p: ReplicaId, next: Index)
    requires Plain(n) && next == Get(n.nextIndex, p, 1) && 1 <= next <= |n.store.log| + 1
    ensures AppendFor(n, p) == AppendEntries(n.term, n.id, next - 1, TermBefore(n.store.log, next - 1),
                                             n.store.log[next - 1..], n.commitIndex, n.readSeq)
  {
    PlainLog(n);
    EntriesToEnd(n.store, next);
    PlainTermAt(n, next - 1);
  }

  lemma AppendForOk<S>(h: History, id: ReplicaId, n: Node<S>, p: ReplicaId)
    requires Valid(h) && NodeOk(h, id, n) && n.role == Leader && p != id
    ensures MsgOk(h, Packet(id, p, AppendFor(n, p)))
  {
    CoherentIndexed(h.reigns, n.store.log);
    AppendForShape(n, p, Get(n.nextIndex, p, 1));
    assert ReignOk(h.base, h.reigns, n.term);
  }

  lemma BroadcastParts<S>(n: Node<S>)
    ensures var n1, ps := n.(readSeq := n.readSeq + 1), Peers(n);
            && BroadcastAppend(n).0 == n1 && |BroadcastAppend(n).1| == |ps|
            && forall i :: 0 <= i < |ps| ==>
                 BroadcastAppend(n).1[i] == Out(ps[i], AppendFor(n1, ps[i])) && ps[i] != n.id
  {
    var ps := Peers(n);
    assert forall i :: 0 <= i < |ps| ==> ps[i] in ps;
  }

  lemma BroadcastOk<S>(h: History, id: ReplicaId, n: Node<S>)
    requires Valid(h) && NodeOk(h, id, n) && n.role == Leader
    ensures NodeOk(h, id, BroadcastAppend(n).0) && OutsOk(h, id, BroadcastAppend(n).1)
  {
    var n1 := n.(readSeq := n.readSeq + 1);
    BeatOk(h, id, n);
    BroadcastParts(n);
    var outs := BroadcastAppend(n).1;
    forall i | 0 <= i < |outs| ensures MsgOk(h, Packet(id, outs[i].dest, outs[i].msg)) {
      AppendForOk(h, id, n1, outs[i].dest);
    }
  }

  lemma BeatOk<S>(h: History, id: ReplicaId, n: Node<S>)
    requires NodeOk(h, id, n)
    ensures NodeOk(h, id, n.(readSeq := n.readSeq + 1))
  {
  }

  lemma BecomeLeaderOk<S>(m: StateMachine<S>, h: History, id: ReplicaId, n: Node<S>) returns (g: History)
    requires Valid(h) && NodeOk(h, id, n) && n.role == Candidate && IsQuorum(n.config, n.votes)
    ensures StepOk(m, h, g, id, n, BecomeLeader(m, n))
  {
    var n1 := OpenedReign(n);
    var f := BecomeLeaderBase(h, id, n);
    if AppliedOk(m, n) { OpenedReignApplied(m, n); }
    g := MaybeAdvanceCommitOk(m, f, id, n1);
    ExtendsTrans(h, f, g, id);
    BroadcastStepOk(m, h, g, id, n, n1, MaybeAdvanceCommit(m, n1));
  }

  /** A leader that got from `n` to `n2` broadcasts. */
  lemma BroadcastStepOk<S>(m: StateMachine<S>, h: History, g: History, id: ReplicaId, n: Node<S>, n1: Node<S>,
                           n2: Node<S>)
    requires Valid(g) && Extends(h, g, id) && NodeOk(g, id, n2) && n2.role == Leader
    requires Advances(m, n, n1) && Advances(m, n1, n2)
    ensures StepOk(m, h, g, id, n, BroadcastAppend(n2))
  {
    BroadcastOk(g, id, n2);
  }

  // ---- elections ----

  /** Standing for election: a new term, a bid, and a vote for oneself. */
  lemma StandOk<S>(h: History, id: ReplicaId, n: Node<S>) returns (g: History)
    requires Valid(h) && NodeOk(h, id, n)
    ensures Valid(g) && Extends(h, g, id) && NodeOk(g, id, Stand(n))
  {
    g := StandHistory(h, id, n.term, n.votedFor, n.store.log, n.commitIndex);
  }

  lemma StandHistory(h: History, id: ReplicaId, t: Term, votedFor: Option<ReplicaId>, log: Log, commit: nat)
    returns (g: History)
    requires Valid(h) && Standing(h, id, t, votedFor, log, commit)
    ensures Valid(g) && Extends(h, g, id) && Standing(g, id, t + 1, Some(id), log, commit)
    ensures Stands(g, id, t + 1, log, {id})
  {
    var f := AddBid(h, t + 1, id, log);
    AddBidValid(h, t + 1, id, log);
    g := AddBallot(f, t + 1, id, id, log);
    AddBallotValid(f, t + 1, id, id, log);
    AdditionsExtend(h, id, t + 1, 0, log, id, Cert(0, 0, 0, {}));
    AdditionsExtend(f, id, t + 1, 0, log, id, Cert(0, 0, 0, {}));
    ExtendsTrans(h, f, g, id);
    LogLater(h, log, t, t + 1, commit);
    CommittedStable(h, g, id, t + 1, log, log, commit);
    StandPast(h, g, id, t, votedFor, log);
    assert VotedFor(g.ballots, t + 1, id, id, log);
  }

  lemma StandPast(h: History, g: History, id: ReplicaId, t: Term, votedFor: Option<ReplicaId>, log: Log)
    requires PastOk(h, id, t, votedFor)
    requires g == h.(bids := h.bids[(t + 1, id) := log], ballots := h.ballots[(t + 1, id) := Ballot(id, log)])
    ensures PastOk(g, id, t + 1, Some(id))
  {
    forall s | (s, id) in g.ballots ensures s <= t + 1 && BallotForBid(g, s, id) {
      if s != t + 1 { assert BallotForBid(h, s, id); }
    }
  }

  lemma VoteRequestsOk<S>(h: History, id: ReplicaId, n: Node<S>)
    requires NodeOk(h, id, n) && n.role == Candidate
    ensures OutsOk(h, id, VoteRequests(n))
  {
    CoherentIndexed(h.reigns, n.store.log);
    PlainLog(n);
  }

  lemma StartElectionOk<S>(m: StateMachine<S>, h: History, id: ReplicaId, n: Node<S>) returns (g: History)
    requires Valid(h) && NodeOk(h, id, n)
    ensures StepOk(m, h, g, id, n, StartElection(m, n))
  {
    var n1 := Stand(n);
    var f := StandOk(h, id, n);
    if IsQuorum(n1.config, n1.votes) {
      g := BecomeLeaderOk(m, f, id, n1);
      ExtendsTrans(h, f, g, id);
    } else {
      g := f;
      VoteRequestsOk(g, id, n1);
    }
  }

  lemma RequestVoteRespOk<S>(m: StateMachine<S>, h: History, id: ReplicaId, n: Node<S>, p: Packet) returns (g: History)
    requires Valid(h) && NodeOk(h, id, n) && MsgOk(h, p) && p.dst == id && p.msg.RequestVoteResp?
    ensures StepOk(m, h, g, id, n, HandleRequestVoteResp(m, n, p.src, p.msg.term, p.msg.granted))
  {
    g := h;
    ExtendsRefl(h, id);
    if p.msg.term > n.term {
      StepDownOk(m, h, id, n, p.msg.term);
    } else if n.role == Candidate && p.msg.term == n.term && p.msg.granted {
      var n1 := n.(votes := n.votes + {p.src});
      CountVoteOk(m, h, id, n, p.src);
      if IsQuorum(n1.config, n1.votes) {
        g := BecomeLeaderOk(m, h, id, n1);
      }
    }
  }

  lemma CountVoteOk<S>(m: StateMachine<S>, h: History, id: ReplicaId, n: Node<S>, v: ReplicaId)
    requires NodeOk(h, id, n) && n.role == Candidate
    requires (n.term, v) in h.ballots && h.ballots[(n.term, v)].candidate == id && BallotForBid(h, n.term, v)
    ensures NodeOk(h, id, n.(votes := n.votes + {v})) && Advances(m, n, n.(votes := n.votes + {v}))
  {
    assert VotedFor(h.ballots, n.term, v, id, n.store.log);
  }

  // ---- a follower accepts entries ----

  /** Splicing a piece of a leader's log: if nothing conflicts the log is kept,
      else it becomes the leader's log up to the end of the piece. */
  lemma {:induction false} SpliceResult<S>(rs: Reigns, n: Node<S>, r: Log, q: nat, entries: seq<Entry>)
    requires Plain(n) && Coherent(rs, n.store.log) && Coherent(rs, r) && Agree(n.store.log, r, q)
    requires q + |entries| <= |r| && entries == r[q..q + |entries|]
    ensures var l := Splice(n, entries).store.log;
            && Splice(n, entries) == n.(store := n.store.(log := l))
            && l == if Agree(n.store.log, r, q + |entries|) then n.store.log else r[..q + |entries|]
    decreases |entries|
  {
    if entries != [] {
      var e := entries[0];
      var log := n.store.log;
      CoherentIndexed(rs, r);
      PlainTermAt(n, q + 1);
      assert e == r[q];
      var n1 := SpliceOne(n, e);
      if q < |log| && log[q].term == e.term {
        LogMatching(rs, log, r, q);
        assert n1 == n;
      } else {
        assert n1 == n.(store := n.store.(log := r[..q + 1])) by {
          assert log[..q] + [e] == r[..q + 1];
          if q == |log| { assert log[..q] == log; }
        }
        CoherentPrefix(rs, r, q + 1);
      }
      assert entries[1..] == r[q + 1..q + 1 + |entries[1..]|];
      SpliceResult(rs, n1, r, q + 1, entries[1..]);
    }
  }

  /** Every leader holds what was committed in an earlier term. */
  lemma ReignHoldsCert(h: History, t: Term, c: Cert)
    requires Valid(h) && t in h.reigns && c in h.certs && c.term < t
    ensures c.term in h.reigns && Agree(h.reigns[c.term].log, h.reigns[t].log, c.upTo)
  {
    var r := h.reigns[t];
    assert ReignElected(h, t);
    ElectedComplete(h, t, r.leader, r.elog, r.voters, c);
    assert Agree(r.elog, r.log, |r.elog|) by { assert ReignOk(h.base, h.reigns, t); }
  }

  /** What committing guarantees a follower: the sender's log holds its committed prefix. */
  lemma LeaderHoldsCommitted(h: History, t: Term, t': Term, log: Log, k: nat)
    requires Valid(h) && Committed(h, t, log, k) && k <= |log| && t <= t' && t' in h.reigns
    ensures Agree(log, h.reigns[t'].log, k)
  {
    if k > 0 {
      var c :| c in h.certs && Covers(h.reigns, c, t, log, k);
      if c.term < t' { ReignHoldsCert(h, t', c); }
    }
  }

  /** The log after accepting, and what it still guarantees. */
  lemma AcceptedLog(h: History, id: ReplicaId, t: Term, log: Log, l: Log, end: nat, commit: nat)
    requires Valid(h) && t in h.reigns && end <= |h.reigns[t].log| && |h.reigns[t].elog| < end
    requires LogOk(h, log, t) && RetainsAll(h, id, log) && commit <= |log| && Committed(h, t, log, commit)
    requires l == if Agree(log, h.reigns[t].log, end) then log else h.reigns[t].log[..end]
    requires forall s {:trigger (s, id) in h.acked} :: (s, id) in h.acked ==> s <= t
    ensures LogOk(h, l, t) && RetainsAll(h, id, l) && Agree(l, h.reigns[t].log, end)
    ensures commit <= |l| && Committed(h, t, l, commit) && Agree(l, log, commit)
  {
    var r := h.reigns[t];
    LeaderHoldsCommitted(h, t, t, log, commit);
    assert ReignOk(h.base, h.reigns, t);
    if l != log {
      assert commit <= end;
      CoherentPrefix(h.reigns, r.log, end);
      assert Agree(l, log, commit);
      ExtendsRefl(h, id);
      CommittedStable(h, h, id, t, log, l, commit);
      assert TermsBelow(l, t + 1) by {
        assert forall k :: 0 <= k < |r.elog| ==> r.log[k] == r.elog[k];
      }
      assert TermOfLast(l) == t;
      forall s: Term ensures Retains(h.reigns, h.acked, id, l, s) {
        RetainsReplaced(h, id, t, log, l, end, s);
      }
    }
  }

  lemma RetainsReplaced(h: History, id: ReplicaId, t: Term, log: Log, l: Log, end: nat, s: Term)
    requires t in h.reigns && |h.reigns[t].elog| < end <= |h.reigns[t].log| && l == h.reigns[t].log[..end]
    requires ReignOk(h.base, h.reigns, t) && LogOk(h, log, t) && TermOfLast(l) == t
    requires !Agree(log, h.reigns[t].log, end) && Retains(h.reigns, h.acked, id, log, s)
    requires (s, id) in h.acked ==> s <= t
    ensures Retains(h.reigns, h.acked, id, l, s)
  {
    var rs := h.reigns;
    if (s, id) in h.acked && s in rs {
      forall k | (&& 1 <= k <= h.acked[(s, id)] && k <= |rs[s].log| && rs[s].log[k - 1].term == s
                  && Inherited(rs, s, k, TermOfLast(l)))
        ensures Agree(l, rs[s].log, k)
      {
        if s < t {
          assert HeldAtElection(rs, t, s, k);
        } else {
          assert Inherited(rs, s, k, TermOfLast(log));
          assert Agree(log, rs[s].log, k);
        }
      }
    }
  }

  /** Replica `id` acknowledges what its log agrees on with the leader of its term. */
  lemma AckHistory(h: History, id: ReplicaId, t: Term, votedFor: Option<ReplicaId>, log: Log, commit: nat, k: nat)
    returns (g: History)
    requires Valid(h) && Standing(h, id, t, votedFor, log, commit)
    requires t in h.reigns && Agree(log, h.reigns[t].log, k)
    ensures Valid(g) && Extends(h, g, id) && Standing(g, id, t, votedFor, log, commit)
    ensures (t, id) in g.acked && k <= g.acked[(t, id)] && g.reigns == h.reigns && g.certs == h.certs
  {
    g := AddAck(h, t, id, k);
    AddAckValid(h, t, id, k);
    AdditionsExtend(h, id, t, k, log, id, Cert(0, 0, 0, {}));
    RetainsWithAck(h, g, id, t, log, log, k);
    PastSelf(h, g, id, t, votedFor);
    CommittedStable(h, g, id, t, log, log, commit);
  }

  lemma AcknowledgeOk<S>(h: History, id: ReplicaId, n: Node<S>, k: nat) returns (g: History)
    requires Valid(h) && NodeOk(h, id, n) && n.role == Follower
    requires n.term in h.reigns && Agree(n.store.log, h.reigns[n.term].log, k)
    ensures Valid(g) && Extends(h, g, id) && NodeOk(g, id, n)
    ensures (n.term, id) in g.acked && k <= g.acked[(n.term, id)] && g.reigns == h.reigns && g.certs == h.certs
  {
    g := AckHistory(h, id, n.term, n.votedFor, n.store.log, n.commitIndex, k);
  }

  /** Following the leader's commit index: what it covers, this log covers. */
  lemma FollowCommitOk<S>(m: StateMachine<S>, h: History, id: ReplicaId, n: Node<S>, lc: Index, end: nat)
    requires Valid(h) && NodeOk(h, id, n) && n.role == Follower
    requires n.term in h.reigns && Agree(n.store.log, h.reigns[n.term].log, end)
    requires lc <= end && Committed(h, n.term, h.reigns[n.term].log, lc)
    ensures NodeOk(h, id, FollowCommit(m, n, lc)) && FollowCommit(m, n, lc).term == n.term
    ensures Advances(m, n, FollowCommit(m, n, lc))
  {
    if lc > n.commitIndex {
      CoherentIndexed(h.reigns, n.store.log);
      PlainLog(n);
      ExtendsRefl(h, id);
      CommittedStable(h, h, id, n.term, h.reigns[n.term].log, n.store.log, lc);
      var n1 := PersistHardState(n.(commitIndex := lc));
      assert NodeOk(h, id, n1);
      ApplyCommittedFrame(m, n1);
      SameProtocolOk(h, id, n1, ApplyCommitted(m, n1));
      if AppliedOk(m, n) { ApplyCommittedReplays(m, n1); }
    }
  }

  /** A follower of the sender's term, whose log agrees at the previous entry. */
  lemma AcceptOk<S>(m: StateMachine<S>, h: History, id: ReplicaId, n: Node<S>, p: Packet) returns (g: History)
    requires Valid(h) && NodeOk(h, id, n) && n.role == Follower
    requires p.msg.AppendEntries? && MsgOk(h, p) && p.dst == id && p.msg.term == n.term
    requires TermAt(n, p.msg.prevLogIndex) == Some(p.msg.prevLogTerm)
    ensures StepOk(m, h, g, id, n, Accept(m, n, p.msg))
  {
    SplicedOk(h, id, n, p);
    var n2 := RecomputeConfig(Splice(n, p.msg.entries));
    g := AfterSpliceOk(m, h, id, n2, p);
    if AppliedOk(m, n) { AppliedAgree(m, n, n2); }
    StepOkVia(m, h, g, id, n, n2, Acknowledged(FollowCommit(m, n2, p.msg.leaderCommit), p.msg));
    AcceptParts(m, h, g, id, n, p.msg);
  }

  lemma AcceptParts<S>(m: StateMachine<S>, h: History, g: History, id: ReplicaId, n: Node<S>, msg: Message)
    requires msg.AppendEntries?
    requires StepOk(m, h, g, id, n,
                    Acknowledged(FollowCommit(m, RecomputeConfig(Splice(n, msg.entries)), msg.leaderCommit), msg))
    ensures StepOk(m, h, g, id, n, Accept(m, n, msg))
  {
    assert Accept(m, n, msg)
        == Acknowledged(FollowCommit(m, RecomputeConfig(Splice(n, msg.entries)), msg.leaderCommit), msg);
  }

  lemma AfterSpliceOk<S>(m: StateMachine<S>, h: History, id: ReplicaId, n2: Node<S>, p: Packet) returns (g: History)
    requires Valid(h) && NodeOk(h, id, n2) && n2.role == Follower
    requires p.msg.AppendEntries? && MsgOk(h, p) && p.dst == id && p.msg.term == n2.term
    requires Agree(n2.store.log, h.reigns[n2.term].log, p.msg.prevLogIndex + |p.msg.entries|)
    ensures StepOk(m, h, g, id, n2, Acknowledged(FollowCommit(m, n2, p.msg.leaderCommit), p.msg))
  {
    var r, end := h.reigns[n2.term].log, p.msg.prevLogIndex + |p.msg.entries|;
    g := AcknowledgeOk(h, id, n2, end);
    CommittedStable(h, g, id, n2.term, r, r, p.msg.leaderCommit);
    FollowCommitOk(m, g, id, n2, p.msg.leaderCommit, end);
  }

  /** Splicing keeps the follower in good standing and never disturbs what it has committed. */
  lemma SplicedOk<S>(h: History, id: ReplicaId, n: Node<S>, p: Packet)
    requires Valid(h) && NodeOk(h, id, n) && n.role == Follower
    requires p.msg.AppendEntries? && MsgOk(h, p) && p.dst == id && p.msg.term == n.term
    requires TermAt(n, p.msg.prevLogIndex) == Some(p.msg.prevLogTerm)
    ensures var n2 := RecomputeConfig(Splice(n, p.msg.entries));
            && NodeOk(h, id, n2) && n2.role == Follower && n2.term == n.term
            && Agree(n2.store.log, h.reigns[n.term].log, p.msg.prevLogIndex + |p.msg.entries|)
            && n2.commitIndex == n.commitIndex && Agree(n2.store.log, n.store.log, n.commitIndex)
            && n2.sm == n.sm && n2.lastApplied == n.lastApplied
  {
    SplicedLog(h, id, n, p);
    var end := p.msg.prevLogIndex + |p.msg.entries|;
    var l := Splice(n, p.msg.entries).store.log;
    AcceptedLog(h, id, n.term, n.store.log, l, end, n.commitIndex);
    CoherentIndexed(h.reigns, l);
    PlainLog(Splice(n, p.msg.entries));
    ReplaceLogOk(h, id, n, l);
  }

  lemma SplicedLog<S>(h: History, id: ReplicaId, n: Node<S>, p: Packet)
    requires ReignsOk(h.base, h.reigns) && Shape(h, id, n) && Coherent(h.reigns, n.store.log)
    requires p.msg.AppendEntries? && AppendOk(h, p) && p.msg.term == n.term
    requires TermAt(n, p.msg.prevLogIndex) == Some(p.msg.prevLogTerm)
    ensures var l := Splice(n, p.msg.entries).store.log;
            var r, end := h.reigns[n.term].log, p.msg.prevLogIndex + |p.msg.entries|;
            && Splice(n, p.msg.entries) == n.(store := n.store.(log := l))
            && l == if Agree(n.store.log, r, end) then n.store.log else r[..end]
  {
    var r := h.reigns[n.term].log;
    var q, end := p.msg.prevLogIndex, p.msg.prevLogIndex + |p.msg.entries|;
    assert ReignOk(h.base, h.reigns, n.term);
    CoherentIndexed(h.reigns, n.store.log);
    PlainTermAt(n, q);
    if q > 0 {
      LogMatching(h.reigns, n.store.log, r, q - 1);
    }
    assert p.msg.entries == r[q..end];
    SpliceResult(h.reigns, n, r, q, p.msg.entries);
  }

  lemma ReplaceLogOk<S>(h: History, id: ReplicaId, n: Node<S>, l: Log)
    requires NodeOk(h, id, n) && n.role == Follower
    requires LogOk(h, l, n.term) && RetainsAll(h, id, l) && n.commitIndex <= |l|
             && Committed(h, n.term, l, n.commitIndex)
    ensures NodeOk(h, id, n.(store := n.store.(log := l), config := ConfigOf(h.base, l)))
  {
  }

  lemma FollowLeaderOk<S>(m: StateMachine<S>, h: History, id: ReplicaId, n: Node<S>, p: Packet) returns (g: History)
    requires Valid(h) && NodeOk(h, id, n) && n.role == Follower
    requires p.msg.AppendEntries? && MsgOk(h, p) && p.dst == id && p.msg.term == n.term
    ensures StepOk(m, h, g, id, n, FollowLeader(m, n, p.msg))
  {
    if TermAt(n, p.msg.prevLogIndex) == Some(p.msg.prevLogTerm) {
      g := AcceptOk(m, h, id, n, p);
    } else {
      g := h;
      ExtendsRefl(h, id);
    }
  }

  lemma RefuseOk<S>(m: StateMachine<S>, h: History, id: ReplicaId, n: Node<S>, p: Packet)
    requires Valid(h) && NodeOk(h, id, n) && p.msg.term < n.term
    requires p.msg.AppendEntries? && MsgOk(h, p) && p.dst == id
    ensures StepOk(m, h, h, id, n, HandleAppendEntries(m, n, p.msg))
  {
    ExtendsRefl(h, id);
  }

  lemma HandleNewer<S>(m: StateMachine<S>, h: History, g: History, id: ReplicaId, n: Node<S>, msg: Message)
    requires msg.AppendEntries? && msg.term >= n.term
    requires StepOk(m, h, g, id, n, FollowLeader(m, BecomeFollower(n, msg.term, Some(msg.leader)), msg))
    ensures StepOk(m, h, g, id, n, HandleAppendEntries(m, n, msg))
  {
    assert HandleAppendEntries(m, n, msg) == FollowLeader(m, BecomeFollower(n, msg.term, Some(msg.leader)), msg);
  }

  lemma BecomeFollowerAdvances<S>(m: StateMachine<S>, n: Node<S>, t: Term, leader: Option<ReplicaId>)
    requires t >= n.term
    ensures Advances(m, n, BecomeFollower(n, t, leader))
    ensures BecomeFollower(n, t, leader).role == Follower && BecomeFollower(n, t, leader).term == t
  {
  }

  lemma NewerOk<S>(m: StateMachine<S>, h: History, id: ReplicaId, n: Node<S>, p: Packet) returns (g: History)
    requires Valid(h) && NodeOk(h, id, n) && p.msg.term >= n.term
    requires p.msg.AppendEntries? && MsgOk(h, p) && p.dst == id
    ensures StepOk(m, h, g, id, n, FollowLeader(m, BecomeFollower(n, p.msg.term, Some(p.msg.leader)), p.msg))
  {
    var n1 := BecomeFollower(n, p.msg.term, Some(p.msg.leader));
    BecomeFollowerOk(h, id, n, p.msg.term, Some(p.msg.leader));
    BecomeFollowerAdvances(m, n, p.msg.term, Some(p.msg.leader));
    g := FollowLeaderOk(m, h, id, n1, p);
    StepOkVia(m, h, g, id, n, n1, FollowLeader(m, n1, p.msg));
  }

  lemma AppendEntriesOk<S>(m: StateMachine<S>, h: History, id: ReplicaId, n: Node<S>, p: Packet) returns (g: History)
    requires Valid(h) && NodeOk(h, id, n)
    requires p.msg.AppendEntries? && MsgOk(h, p) && p.dst == id
    ensures StepOk(m, h, g, id, n, HandleAppendEntries(m, n, p.msg))
  {
    if p.msg.term < n.term {
      g := h;
      RefuseOk(m, h, id, n, p);
    } else {
      g := NewerOk(m, h, id, n, p);
      HandleNewer(m, h, g, id, n, p.msg);
    }
  }

  // ---- a leader hears back ----

  lemma ServeReadsOk<S>(m: StateMachine<S>, h: History, id: ReplicaId, n: Node<S>)
    requires NodeOk(h, id, n)
    ensures NodeOk(h, id, ServeReads(m, n)) && SameProtocol(n, ServeReads(m, n))
  {
    SameProtocolOk(h, id, n, ServeReads(m, n));
  }

  lemma MatchedOk<S>(h: History, id: ReplicaId, n: Node<S>, from: ReplicaId, k: Index)
    requires Valid(h) && NodeOk(h, id, n) && n.role == Leader
    requires (n.term, from) in h.acked && k <= h.acked[(n.term, from)]
    ensures NodeOk(h, id, Matched(n, from, k))
  {
    assert AckOk(h.reigns, h.acked, n.term, from);
    var r := Matched(n, from, k);
    forall p | p in r.matchIndex ensures MatchOk(h, r.term, p, r.matchIndex[p]) {
      if p != from { assert MatchOk(h, n.term, p, n.matchIndex[p]); }
    }
  }

  lemma HeardSuccessOk<S>(m: StateMachine<S>, h: History, id: ReplicaId, n: Node<S>) returns (g: History)
    requires Valid(h) && NodeOk(h, id, n) && n.role == Leader
    ensures StepOk(m, h, g, id, n, (ServeReads(m, MaybeAdvanceCommit(m, n)), []))
  {
    g := MaybeAdvanceCommitOk(m, h, id, n);
    ServeReadsOk(m, g, id, MaybeAdvanceCommit(m, n));
  }

  lemma HeardFailureOk<S>(m: StateMachine<S>, h: History, id: ReplicaId, n: Node<S>, p: Packet)
    requires Valid(h) && NodeOk(h, id, n) && n.role == Leader
    requires p.msg.AppendEntriesResp? && MsgOk(h, p) && p.dst == id && !p.msg.success
    ensures StepOk(m, h, h, id, n, HearBack(m, n, p.src, p.msg))
  {
    ExtendsRefl(h, id);
    RetryOk(m, h, id, n, p.src, Backed(Get(n.nextIndex, p.src, 1), p.msg.conflictIndex));
  }

  lemma HearBackSuccess<S>(m: StateMachine<S>, n: Node<S>, from: ReplicaId, msg: Message)
    requires msg.AppendEntriesResp? && msg.success
    ensures HearBack(m, n, from, msg) == (ServeReads(m, MaybeAdvanceCommit(m, Matched(n, from, msg.matchIndex))), [])
  {
  }

  lemma HearBackVia<S>(m: StateMachine<S>, h: History, g: History, id: ReplicaId, n: Node<S>, from: ReplicaId,
                       msg: Message)
    requires msg.AppendEntriesResp? && msg.success
    requires StepOk(m, h, g, id, n, (ServeReads(m, MaybeAdvanceCommit(m, Matched(n, from, msg.matchIndex))), []))
    ensures StepOk(m, h, g, id, n, HearBack(m, n, from, msg))
  {
    HearBackSuccess(m, n, from, msg);
  }

  lemma HearBackOk<S>(m: StateMachine<S>, h: History, id: ReplicaId, n: Node<S>, p: Packet) returns (g: History)
    requires Valid(h) && NodeOk(h, id, n) && n.role == Leader
    requires p.msg.AppendEntriesResp? && MsgOk(h, p) && p.dst == id && p.msg.term == n.term
    ensures StepOk(m, h, g, id, n, HearBack(m, n, p.src, p.msg))
  {
    if p.msg.success {
      MatchedOk(h, id, n, p.src, p.msg.matchIndex);
      var n1 := Matched(n, p.src, p.msg.matchIndex);
      g := HeardSuccessOk(m, h, id, n1);
      StepOkVia(m, h, g, id, n, n1, (ServeReads(m, MaybeAdvanceCommit(m, n1)), []));
      HearBackVia(m, h, g, id, n, p.src, p.msg);
    } else {
      g := h;
      HeardFailureOk(m, h, id, n, p);
    }
  }

  lemma EchoOk<S>(m: StateMachine<S>, h: History, id: ReplicaId, n: Node<S>, seqs: map<ReplicaId, nat>)
    requires NodeOk(h, id, n)
    ensures NodeOk(h, id, n.(ackedSeq := seqs)) && Advances(m, n, n.(ackedSeq := seqs))
  {
  }

  /** How a leader reads a response of its own term. */
  lemma RespOwnTerm<S>(m: StateMachine<S>, h: History, g: History, id: ReplicaId, n: Node<S>, from: ReplicaId,
                       msg: Message)
    requires msg.AppendEntriesResp? && n.role == Leader && msg.term == n.term
    requires StepOk(m, h, g, id, n,
               HearBack(m, n.(ackedSeq := n.ackedSeq[from := Max(msg.readSeq, Get(n.ackedSeq, from, 0))]), from, msg))
    ensures StepOk(m, h, g, id, n, HandleAppendEntriesResp(m, n, from, msg))
  {
    assert HandleAppendEntriesResp(m, n, from, msg)
        == HearBack(m, n.(ackedSeq := n.ackedSeq[from := Max(msg.readSeq, Get(n.ackedSeq, from, 0))]), from, msg);
  }

  lemma AppendEntriesRespOk<S>(m: StateMachine<S>, h: History, id: ReplicaId, n: Node<S>, p: Packet)
    returns (g: History)
    requires Valid(h) && NodeOk(h, id, n)
    requires p.msg.AppendEntriesResp? && MsgOk(h, p) && p.dst == id
    ensures StepOk(m, h, g, id, n, HandleAppendEntriesResp(m, n, p.src, p.msg))
  {
    if p.msg.term <= n.term && n.role == Leader && p.msg.term == n.term {
      var seqs := n.ackedSeq[p.src := Max(p.msg.readSeq, Get(n.ackedSeq, p.src, 0))];
      EchoOk(m, h, id, n, seqs);
      g := HearBackOk(m, h, id, n.(ackedSeq := seqs), p);
      StepOkVia(m, h, g, id, n, n.(ackedSeq := seqs), HearBack(m, n.(ackedSeq := seqs), p.src, p.msg));
      RespOwnTerm(m, h, g, id, n, p.src, p.msg);
    } else {
      g := h;
      ExtendsRefl(h, id);
      if p.msg.term > n.term { StepDownOk(m, h, id, n, p.msg.term); }
    }
  }

  lemma StepDownOk<S>(m: StateMachine<S>, h: History, id: ReplicaId, n: Node<S>, t: Term)
    requires Valid(h) && NodeOk(h, id, n) && t > n.term
    ensures StepOk(m, h, h, id, n, (BecomeFollower(n, t, None), []))
  {
    ExtendsRefl(h, id);
    BecomeFollowerOk(h, id, n, t, None);
    BecomeFollowerAdvances(m, n, t, None);
  }

  lemma RetryOk<S>(m: StateMachine<S>, h: History, id: ReplicaId, n: Node<S>, from: ReplicaId, next: Index)
    requires Valid(h) && NodeOk(h, id, n) && n.role == Leader && from != id
    requires 1 <= next <= Max(Get(n.nextIndex, from, 1), 1)
    ensures var r := ServeReads(m, n.(nextIndex := n.nextIndex[from := next]));
            NodeOk(h, id, r) && MsgOk(h, Packet(id, from, AppendFor(r, from)))
  {
    var n1 := n.(nextIndex := n.nextIndex[from := next]);
    assert NodeOk(h, id, n1);
    ServeReadsOk(m, h, id, n1);
    AppendForOk(h, id, ServeReads(m, n1), from);
  }

  // ---- clients ----

  lemma ProposeOk<S>(m: StateMachine<S>, h: History, id: ReplicaId, n: Node<S>, command: Bytes) returns (g: History)
    requires Valid(h) && NodeOk(h, id, n)
    ensures StepOk(m, h, g, id, n, Propose(m, n, command))
  {
    if n.role == Leader {
      var n1 := AppendLocal(n, Command(command));
      var f := AppendLocalOk(h, id, n, Command(command));
      if AppliedOk(m, n) { AppendLocalApplied(m, n, Command(command)); }
      g := ReplicateOk(m, f, id, n1);
      ExtendsTrans(h, f, g, id);
    } else {
      g := h;
      ExtendsRefl(h, id);
    }
  }

  /** Broadcast, then count the leader's own copy towards the commit. */
  lemma ReplicateOk<S>(m: StateMachine<S>, h: History, id: ReplicaId, n: Node<S>) returns (g: History)
    requires Valid(h) && NodeOk(h, id, n) && n.role == Leader
    ensures StepOk(m, h, g, id, n, (MaybeAdvanceCommit(m, BroadcastAppend(n).0), BroadcastAppend(n).1))
  {
    BroadcastOk(h, id, n);
    g := MaybeAdvanceCommitOk(m, h, id, BroadcastAppend(n).0);
    OutsStable(h, g, id, BroadcastAppend(n).1);
  }

  lemma ProposeConfOk<S>(m: StateMachine<S>, h: History, id: ReplicaId, n: Node<S>, voters: seq<ReplicaId>)
    returns (g: History)
    requires Valid(h) && NodeOk(h, id, n)
    ensures StepOk(m, h, g, id, n, ProposeConf(n, voters))
  {
    if n.role == Leader && n.config.Simple? {
      var joint := Config(Joint(n.config.voters, Sorted(voters)));
      var n1 := AppendLocal(n, joint);
      g := AppendLocalOk(h, id, n, joint);
      if AppliedOk(m, n) { AppendLocalApplied(m, n, joint); }
      BroadcastStepOk(m, h, g, id, n, n1, n1);
    } else {
      g := h;
      ExtendsRefl(h, id);
    }
  }

  lemma ReadOk<S>(m: StateMachine<S>, h: History, id: ReplicaId, n: Node<S>, reqId: nat, query: Bytes)
    returns (g: History)
    requires Valid(h) && NodeOk(h, id, n)
    ensures StepOk(m, h, g, id, n, Read(m, n, reqId, query))
  {
    g := h;
    if n.role == Leader {
      BroadcastOk(h, id, n);
      var n1 := BroadcastAppend(n).0;
      var n2 := n1.(pending := n1.pending + [PendingRead(reqId, query, n1.commitIndex, n1.readSeq)]);
      SameProtocolOk(h, id, n1, n2);
      ServeReadsOk(m, h, id, n2);
    } else {
      SameProtocolOk(h, id, n, Read(m, n, reqId, query).0);
    }
  }

  lemma OnTickOk<S>(m: StateMachine<S>, h: History, id: ReplicaId, n: Node<S>, due: bool) returns (g: History)
    requires Valid(h) && NodeOk(h, id, n)
    ensures StepOk(m, h, g, id, n, OnTick(m, n, due))
  {
    g := h;
    if due && n.role == Leader {
      BroadcastOk(h, id, n);
    } else if due && n.id in Voters(n.config) {
      g := StartElectionOk(m, h, id, n);
    }
  }

  lemma OnMessageOk<S>(m: StateMachine<S>, h: History, id: ReplicaId, n: Node<S>, p: Packet) returns (g: History)
    requires Valid(h) && NodeOk(h, id, n) && MsgOk(h, p) && p.dst == id
    ensures StepOk(m, h, g, id, n, OnMessage(m, n, p.src, p.msg))
  {
    match p.msg
    case RequestVote(_, _, _, _) => g := RequestVoteOk(m, h, id, n, p);
    case RequestVoteResp(_, _) => g := RequestVoteRespOk(m, h, id, n, p);
    case AppendEntries(_, _, _, _, _, _, _) => g := AppendEntriesOk(m, h, id, n, p);
    case AppendEntriesResp(_, _, _, _, _) => g := AppendEntriesRespOk(m, h, id, n, p);
  }

  // ---- crash and restart ----

  lemma {:induction false} ConfigBeforeFirst(base: ConfState, log: Log)
    requires forall k :: 0 <= k < |log| ==> log[k].index > 0
    ensures ConfigUpTo(base, log, 0) == base
  {
    if log != [] { ConfigBeforeFirst(base, log[..|log| - 1]); }
  }

  /** A restart from the durable store keeps term, vote, log, commit index and configuration. */
  lemma RestoreKeeps<S>(m: StateMachine<S>, h: History, id: ReplicaId, n: Node<S>, voters: seq<ReplicaId>)
    requires Shape(h, id, n) && Indexed(n.store.log) && h.base == Simple(Sorted(voters))
    ensures var r := RestoreFrom(m, id, voters, 0, n.store);
            && r.store == n.store && r.term == n.term && r.votedFor == n.votedFor && r.commitIndex == n.commitIndex
            && r.lastApplied == n.commitIndex && r.role == Follower && Shape(h, id, r)
            && r.readSeq == 0 && r.ackedSeq == map[] && r.pending == []
            && (n.commitIndex <= |n.store.log| ==> AppliedOk(m, r))
  {
    var n0 := NewWithStore(m, id, voters, 0, n.store);
    var n1 := n0.(term := n.store.hardState.term, votedFor := n.store.hardState.votedFor);
    PlainLog(n1);
    ConfigBeforeFirst(h.base, n.store.log);
    var n3 := n1.(baseConfig := ConfigAt(n1, 0));
    var n4 := n3.(commitIndex := n.commitIndex, lastApplied := 0);
    PlainLog(n4);
    ApplyCommittedFrame(m, RecomputeConfig(n4));
    ApplyLoopFrame(m, RecomputeConfig(n4));
    if n.commitIndex <= |n.store.log| { ApplyCommittedReplays(m, RecomputeConfig(n4)); }
  }

  lemma RestoreOk<S>(m: StateMachine<S>, h: History, id: ReplicaId, n: Node<S>, voters: seq<ReplicaId>)
    requires Valid(h) && NodeOk(h, id, n) && h.base == Simple(Sorted(voters))
    ensures NodeOk(h, id, RestoreFrom(m, id, voters, 0, n.store))
  {
    CoherentIndexed(h.reigns, n.store.log);
    RestoreKeeps(m, h, id, n, voters);
  }
}
