/** How one replica, and one message in flight, must relate to the history. */
module RaftInvariant {
  import opened Wrappers
  import opened RaftTypes
  import opened ConfigChain
  import opened RaftModel
  import opened RaftHistory
  import opened RaftSteps

  datatype Packet = Packet(src: ReplicaId, dst: ReplicaId, msg: Message)

  /** Certificate `c` commits the first `k` entries of `log` for a replica at term `t`. */
  ghost predicate Covers(rs: Reigns, c: Cert, t: Term, log: Log, k: nat) {
    c.term <= t && k <= c.upTo && c.term in rs && Agree(log, rs[c.term].log, k)
  }

  ghost predicate Committed(h: History, t: Term, log: Log, k: nat) {
    k > 0 ==> exists c :: c in h.certs && Covers(h.reigns, c, t, log, k)
  }

  // ---- replicas ----

  /** Compaction is off: no snapshot, the log starts at index 1. The durable hard
      state equals the live one, and the configuration in effect is the log's. */
  ghost predicate Shape<S>(h: History, id: ReplicaId, n: Node<S>) {
    && n.id == id
    && n.snapshotThreshold == 0
    && n.store.baseIndex == 0 && n.store.baseTerm == 0 && !n.store.hasSnapshot
    && n.store.hardState == HardState(n.term, n.votedFor, n.commitIndex)
    && n.baseConfig == h.base
    && n.config == ConfigOf(h.base, n.store.log)
  }

  ghost predicate LogOk(h: History, log: Log, t: Term) {
    Coherent(h.reigns, log) && TermsBelow(log, t + 1)
  }

  /** What replica `id` at term `t` has done in the past. */
  ghost predicate PastOk(h: History, id: ReplicaId, t: Term, votedFor: Option<ReplicaId>) {
    && NoLaterBallot(h, id, t)
    && (forall s {:trigger s in h.reigns} :: s in h.reigns && h.reigns[s].leader == id ==> s <= t)
    && (forall s {:trigger (s, id) in h.bids} :: (s, id) in h.bids ==> s <= t)
    && (forall s {:trigger (s, id) in h.acked} :: (s, id) in h.acked ==> s <= t)
    && ((t, id) in h.ballots <==> votedFor.Some?)
    && (votedFor.Some? ==> h.ballots[(t, id)].candidate == votedFor.value)
    && (forall s {:trigger (s, id) in h.ballots} :: (s, id) in h.ballots ==> BallotForBid(h, s, id))
  }

  /** The vote of `v` in term `t` went to a bid at least as up to date as its log. */
  ghost predicate BallotForBid(h: History, t: Term, v: ReplicaId)
    requires (t, v) in h.ballots
  {
    var b := h.ballots[(t, v)];
    (t, b.candidate) in h.bids && AtLeastAsUpToDate(h.bids[(t, b.candidate)], b.vlog)
  }

  ghost predicate RetainsAll(h: History, id: ReplicaId, log: Log) {
    forall s: Term {:trigger Retains(h.reigns, h.acked, id, log, s)} :: Retains(h.reigns, h.acked, id, log, s)
  }

  ghost predicate LeaderOk<S>(h: History, id: ReplicaId, n: Node<S>) {
    n.role == Leader ==> Leads(h, id, n.term, n.store.log, n.matchIndex, n.nextIndex, n.commitIndex)
  }

  ghost predicate Leads(h: History, id: ReplicaId, t: Term, log: Log, matchIndex: map<ReplicaId, Index>,
                        nextIndex: map<ReplicaId, Index>, commit: Index) {
    && t in h.reigns
    && h.reigns[t].leader == id
    && h.reigns[t].log == log
    && (t, id) in h.acked && h.acked[(t, id)] == |log|
    && (forall p :: p in matchIndex ==> MatchOk(h, t, p, matchIndex[p]))
    && (forall p :: p in nextIndex ==> 1 <= nextIndex[p] <= |log| + 1)
    && (forall c :: c in h.certs && c.term == t ==> c.upTo <= commit)
  }

  ghost predicate MatchOk(h: History, t: Term, p: ReplicaId, k: Index) {
    k == 0 || ((t, p) in h.acked && k <= h.acked[(t, p)])
  }

  ghost predicate CandidateOk<S>(h: History, id: ReplicaId, n: Node<S>) {
    n.role == Candidate ==> Stands(h, id, n.term, n.store.log, n.votes)
  }

  ghost predicate Stands(h: History, id: ReplicaId, t: Term, log: Log, votes: set<ReplicaId>) {
    && (t, id) in h.bids
    && h.bids[(t, id)] == log
    && TermsBelow(log, t)
    && (t in h.reigns ==> h.reigns[t].leader != id)
    && forall v :: v in votes ==> VotedFor(h.ballots, t, v, id, log)
  }

  ghost predicate CommitOk<S>(h: History, n: Node<S>) {
    && n.lastApplied <= n.commitIndex <= |n.store.log|
    && Committed(h, n.term, n.store.log, n.commitIndex)
  }

  ghost predicate NodeOk<S>(h: History, id: ReplicaId, n: Node<S>) {
    && Shape(h, id, n)
    && LogOk(h, n.store.log, n.term)
    && PastOk(h, id, n.term, n.votedFor)
    && RetainsAll(h, id, n.store.log)
    && LeaderOk(h, id, n)
    && CandidateOk(h, id, n)
    && CommitOk(h, n)
  }

  // ---- messages ----

  ghost predicate AppendOk(h: History, p: Packet)
    requires p.msg.AppendEntries?
  {
    var m := p.msg;
    && m.term in h.reigns
    && var r := h.reigns[m.term];
    && m.leader == p.src == r.leader && p.dst != p.src
    && |r.elog| < m.prevLogIndex + |m.entries| <= |r.log|
    && m.prevLogTerm == TermBefore(r.log, m.prevLogIndex)
    && (forall i :: 0 <= i < |m.entries| ==> m.entries[i] == r.log[m.prevLogIndex + i])
    && m.leaderCommit <= m.prevLogIndex + |m.entries|
    && Committed(h, m.term, r.log, m.leaderCommit)
  }

  /** The term of the entry at 1-based index `k`, 0 before the log. */
  ghost function TermBefore(log: Log, k: nat): Term
    requires k <= |log|
  {
    if k == 0 then 0 else log[k - 1].term
  }

  ghost predicate MsgOk(h: History, p: Packet) {
    match p.msg
    case RequestVote(t, c, lli, llt) =>
      && p.src == c && (t, c) in h.bids
      && lli == |h.bids[(t, c)]| && llt == TermOfLast(h.bids[(t, c)])
    case RequestVoteResp(t, granted) =>
      granted ==> && (t, p.src) in h.ballots && h.ballots[(t, p.src)].candidate == p.dst
                  && BallotForBid(h, t, p.src)
    case AppendEntries(_, _, _, _, _, _, _) => AppendOk(h, p)
    case AppendEntriesResp(t, success, k, _, _) =>
      && p.dst != p.src
      && (success ==> (t, p.src) in h.acked && k <= h.acked[(t, p.src)])
    case InstallSnapshot(_, _, _, _, _, _, _) => false
  }

  ghost predicate OutsOk(h: History, id: ReplicaId, outs: seq<Out>) {
    forall i {:trigger outs[i]} :: 0 <= i < |outs| ==> MsgOk(h, Packet(id, outs[i].dest, outs[i].msg))
  }

  // ---- what a step of replica `id` may add ----

  type Key = (Term, ReplicaId)

  ghost predicate ReignBy(rs: Reigns, rs': Reigns, id: ReplicaId, t: Term) {
    && (t in rs && rs[t].leader != id ==> t in rs' && rs'[t] == rs[t])
    && (t in rs' && t !in rs ==> rs'[t].leader == id)
  }

  ghost predicate BallotBy(b: Ballots, b': Ballots, id: ReplicaId, k: Key) {
    && (k in b ==> k in b' && b'[k] == b[k])
    && (k in b' && k !in b ==> k.1 == id)
  }

  ghost predicate BidBy(b: map<Key, Log>, b': map<Key, Log>, id: ReplicaId, k: Key) {
    && (k in b ==> k in b' && b'[k] == b[k])
    && (k in b' && k !in b ==> k.1 == id)
  }

  ghost predicate AckBy(a: Acks, a': Acks, id: ReplicaId, k: Key) {
    && (k in a ==> k in a' && a[k] <= a'[k])
    && (k in a' && k.1 != id ==> k in a && a'[k] == a[k])
  }

  ghost predicate CertBy(h: History, g: History, id: ReplicaId, c: Cert) {
    && (c in h.certs ==> c in g.certs)
    && (c in g.certs && c !in h.certs ==> c.term in g.reigns && g.reigns[c.term].leader == id)
  }

  ghost predicate Extends(h: History, g: History, id: ReplicaId) {
    && g.base == h.base
    && Grows(h.reigns, g.reigns)
    && (forall t {:trigger ReignBy(h.reigns, g.reigns, id, t)} :: ReignBy(h.reigns, g.reigns, id, t))
    && (forall k {:trigger BallotBy(h.ballots, g.ballots, id, k)} :: BallotBy(h.ballots, g.ballots, id, k))
    && (forall k {:trigger BidBy(h.bids, g.bids, id, k)} :: BidBy(h.bids, g.bids, id, k))
    && (forall k {:trigger AckBy(h.acked, g.acked, id, k)} :: AckBy(h.acked, g.acked, id, k))
    && (forall c {:trigger CertBy(h, g, id, c)} :: CertBy(h, g, id, c))
  }

  lemma ExtendsTrans(h: History, g: History, f: History, id: ReplicaId)
    requires Extends(h, g, id) && Extends(g, f, id)
    ensures Extends(h, f, id)
  {
    forall t | t in h.reigns ensures GrowsAt(h.reigns, f.reigns, t) {
      assert GrowsAt(h.reigns, g.reigns, t);
      assert GrowsAt(g.reigns, f.reigns, t);
    }
    forall t: Term ensures ReignBy(h.reigns, f.reigns, id, t) {
      assert ReignBy(h.reigns, g.reigns, id, t) && ReignBy(g.reigns, f.reigns, id, t);
      if t in h.reigns { assert GrowsAt(h.reigns, g.reigns, t); }
      if t in g.reigns { assert GrowsAt(g.reigns, f.reigns, t); }
    }
    forall k: Key ensures BallotBy(h.ballots, f.ballots, id, k) {
      assert BallotBy(h.ballots, g.ballots, id, k) && BallotBy(g.ballots, f.ballots, id, k);
    }
    forall k: Key ensures BidBy(h.bids, f.bids, id, k) {
      assert BidBy(h.bids, g.bids, id, k) && BidBy(g.bids, f.bids, id, k);
    }
    forall k: Key ensures AckBy(h.acked, f.acked, id, k) {
      assert AckBy(h.acked, g.acked, id, k) && AckBy(g.acked, f.acked, id, k);
    }
    forall c: Cert ensures CertBy(h, f, id, c) {
      assert CertBy(h, g, id, c) && CertBy(g, f, id, c);
      if c in g.certs && c !in h.certs { assert GrowsAt(g.reigns, f.reigns, c.term); }
    }
  }

  lemma ExtendsRefl(h: History, id: ReplicaId)
    ensures Extends(h, h, id)
  {
  }

  /** The additions a replica makes on its own behalf extend the history. */
  lemma AdditionsExtend(h: History, id: ReplicaId, t: Term, k: nat, log: Log, candidate: ReplicaId, c: Cert)
    ensures (t, id) !in h.bids ==> Extends(h, AddBid(h, t, id, log), id)
    ensures (t, id) !in h.ballots ==> Extends(h, AddBallot(h, t, id, candidate, log), id)
    ensures Extends(h, AddAck(h, t, id, k), id)
    ensures c.term in h.reigns && h.reigns[c.term].leader == id ==> Extends(h, AddCert(h, c), id)
  {
  }

  // ---- stability ----

  lemma CommittedStable(h: History, g: History, id: ReplicaId, t: Term, log: Log, log': Log, k: nat)
    requires Extends(h, g, id) && Committed(h, t, log, k) && Agree(log, log', k)
    ensures Committed(g, t, log', k)
  {
    if k > 0 {
      var c :| c in h.certs && Covers(h.reigns, c, t, log, k);
      assert GrowsAt(h.reigns, g.reigns, c.term) && CertBy(h, g, id, c);
      assert Covers(g.reigns, c, t, log', k);
    }
  }

  lemma RetainsStable(h: History, g: History, id: ReplicaId, v: ReplicaId, log: Log)
    requires Valid(h) && Extends(h, g, id) && RetainsAll(h, v, log)
    requires forall s :: (s, v) in g.acked ==> (s, v) in h.acked && h.acked[(s, v)] == g.acked[(s, v)]
    ensures RetainsAll(g, v, log)
  {
    forall s: Term ensures Retains(g.reigns, g.acked, v, log, s) {
      assert Retains(h.reigns, h.acked, v, log, s);
      if (s, v) in h.acked { assert AckOk(h.reigns, h.acked, s, v); }
      RetainsGrows(h.reigns, g.reigns, h.acked, v, log, s);
    }
  }

  /** A step of `id` leaves every other replica in good standing. */
  lemma NodeStable<S>(h: History, g: History, id: ReplicaId, v: ReplicaId, n: Node<S>)
    requires Valid(h) && Extends(h, g, id) && v != id && NodeOk(h, v, n)
    ensures NodeOk(g, v, n)
  {
    CoherentGrows(h.reigns, g.reigns, n.store.log);
    assert forall s :: (s, v) in g.acked ==> AckBy(h.acked, g.acked, id, (s, v));
    RetainsStable(h, g, id, v, n.store.log);
    CommittedStable(h, g, id, n.term, n.store.log, n.store.log, n.commitIndex);
    if n.role == Leader { LeadsStable(h, g, id, v, n.term, n.store.log, n.matchIndex, n.nextIndex, n.commitIndex); }
    if n.role == Candidate { StandsStable(h, g, id, v, n.term, n.store.log, n.votes); }
    PastStable(h, g, id, v, n.term, n.votedFor);
  }

  lemma PastStable(h: History, g: History, id: ReplicaId, v: ReplicaId, t: Term, votedFor: Option<ReplicaId>)
    requires Extends(h, g, id) && v != id && PastOk(h, v, t, votedFor)
    ensures PastOk(g, v, t, votedFor)
  {
    assert BallotBy(h.ballots, g.ballots, id, (t, v));
    forall s | (s, v) in g.ballots ensures s <= t && BallotForBid(g, s, v) {
      assert BallotBy(h.ballots, g.ballots, id, (s, v));
      BallotForBidStable(h, g, id, s, v);
    }
    forall s | s in g.reigns && g.reigns[s].leader == v ensures s <= t {
      assert ReignBy(h.reigns, g.reigns, id, s);
      assert s in h.reigns && GrowsAt(h.reigns, g.reigns, s);
    }
    forall s | (s, v) in g.bids ensures s <= t { assert BidBy(h.bids, g.bids, id, (s, v)); }
    forall s | (s, v) in g.acked ensures s <= t { assert AckBy(h.acked, g.acked, id, (s, v)); }
  }

  lemma BallotForBidStable(h: History, g: History, id: ReplicaId, t: Term, v: ReplicaId)
    requires Extends(h, g, id) && (t, v) in h.ballots && BallotForBid(h, t, v)
    ensures (t, v) in g.ballots && g.ballots[(t, v)] == h.ballots[(t, v)] && BallotForBid(g, t, v)
  {
    assert BallotBy(h.ballots, g.ballots, id, (t, v));
    assert BidBy(h.bids, g.bids, id, (t, h.ballots[(t, v)].candidate));
  }

  lemma LeadsStable(h: History, g: History, id: ReplicaId, v: ReplicaId, t: Term, log: Log,
                    matchIndex: map<ReplicaId, Index>, nextIndex: map<ReplicaId, Index>, commit: Index)
    requires Extends(h, g, id) && v != id && Leads(h, v, t, log, matchIndex, nextIndex, commit)
    ensures Leads(g, v, t, log, matchIndex, nextIndex, commit)
  {
    assert ReignBy(h.reigns, g.reigns, id, t) && AckBy(h.acked, g.acked, id, (t, v));
    forall p | p in matchIndex ensures MatchOk(g, t, p, matchIndex[p]) {
      assert MatchOk(h, t, p, matchIndex[p]) && AckBy(h.acked, g.acked, id, (t, p));
    }
    forall c | c in g.certs && c.term == t ensures c.upTo <= commit {
      assert CertBy(h, g, id, c);
    }
  }

  lemma StandsStable(h: History, g: History, id: ReplicaId, v: ReplicaId, t: Term, log: Log, votes: set<ReplicaId>)
    requires Extends(h, g, id) && v != id && Stands(h, v, t, log, votes)
    ensures Stands(g, v, t, log, votes)
  {
    assert BidBy(h.bids, g.bids, id, (t, v)) && ReignBy(h.reigns, g.reigns, id, t);
    if t in h.reigns { assert GrowsAt(h.reigns, g.reigns, t); }
    VotesStable(h, g, id, v, t, log, votes);
  }

  lemma VotesStable(h: History, g: History, id: ReplicaId, v: ReplicaId, t: Term, log: Log, votes: set<ReplicaId>)
    requires Extends(h, g, id) && forall w :: w in votes ==> VotedFor(h.ballots, t, w, v, log)
    ensures forall w :: w in votes ==> VotedFor(g.ballots, t, w, v, log)
  {
    forall w | w in votes ensures VotedFor(g.ballots, t, w, v, log) {
      assert VotedFor(h.ballots, t, w, v, log) && BallotBy(h.ballots, g.ballots, id, (t, w));
    }
  }

  lemma MsgStable(h: History, g: History, id: ReplicaId, p: Packet)
    requires Extends(h, g, id) && MsgOk(h, p)
    ensures MsgOk(g, p)
  {
    match p.msg
    case RequestVote(t, c, _, _) => assert BidBy(h.bids, g.bids, id, (t, c));
    case RequestVoteResp(t, granted) => if granted { BallotForBidStable(h, g, id, t, p.src); }
    case AppendEntries(t, _, _, _, _, lc, _) =>
      assert GrowsAt(h.reigns, g.reigns, t);
      CommittedStable(h, g, id, t, h.reigns[t].log, g.reigns[t].log, lc);
    case AppendEntriesResp(t, _, _, _, _) => assert AckBy(h.acked, g.acked, id, (t, p.src));
  }

  lemma OutsStable(h: History, g: History, id: ReplicaId, outs: seq<Out>)
    requires Extends(h, g, id) && OutsOk(h, id, outs)
    ensures OutsOk(g, id, outs)
  {
    forall i | 0 <= i < |outs| ensures MsgOk(g, Packet(id, outs[i].dest, outs[i].msg)) {
      MsgStable(h, g, id, Packet(id, outs[i].dest, outs[i].msg));
    }
  }
}
