/** What a whole run of the cluster has done so far, and the facts about that
    history from which the Raft safety theorems follow: who led each term with
    which log, who voted for whom holding which log, which prefixes were
    acknowledged, and which commit decisions were taken by which quorum. */
module RaftHistory {
  import opened RaftTypes
  import opened Membership
  import opened ConfigChain

  /** A leader's time in office: its log when elected, its log now, its voters. */
  datatype Reign = Reign(leader: ReplicaId, elog: Log, log: Log, voters: set<ReplicaId>)

  /** A vote, with the voter's log when it was cast. */
  datatype Ballot = Ballot(candidate: ReplicaId, vlog: Log)

  /** The leader of `term`, holding `size` entries, committed up to `upTo` on `quorum`. */
  datatype Cert = Cert(term: Term, upTo: nat, size: nat, quorum: set<ReplicaId>)

  type Reigns = map<Term, Reign>
  type Ballots = map<(Term, ReplicaId), Ballot>
  type Acks = map<(Term, ReplicaId), nat>

  datatype History = History(
    base: ConfState,
    reigns: Reigns,
    ballots: Ballots,
    bids: map<(Term, ReplicaId), Log>,
    acked: Acks,
    certs: set<Cert>)

  ghost function TermOfLast(log: Log): Term {
    if log == [] then 0 else log[|log| - 1].term
  }

  ghost predicate AtLeastAsUpToDate(a: Log, b: Log) {
    TermOfLast(a) > TermOfLast(b) || (TermOfLast(a) == TermOfLast(b) && |a| >= |b|)
  }

  // Quantifiers below are triggered on the predicate they establish, so that a
  // proof brings in one instance at a time by asserting it.

  /** Entry `k` of `log` sits where its term's leader put it, on top of the same prefix. */
  ghost predicate Placed(rs: Reigns, log: Log, k: nat)
    requires k < |log|
  {
    && log[k].index == k + 1
    && log[k].term in rs
    && Agree(log, rs[log[k].term].log, k + 1)
  }

  ghost predicate Coherent(rs: Reigns, log: Log) {
    forall k {:trigger Placed(rs, log, k)} :: 0 <= k < |log| ==> Placed(rs, log, k)
  }

  ghost predicate TermsBelow(log: Log, t: Term) {
    forall k :: 0 <= k < |log| ==> log[k].term < t
  }

  ghost predicate ReignOk(base: ConfState, rs: Reigns, t: Term)
    requires t in rs
  {
    var r := rs[t];
    && |r.elog| < |r.log|
    && Agree(r.elog, r.log, |r.elog|)
    && TermsBelow(r.elog, t)
    && (forall k :: |r.elog| <= k < |r.log| ==> r.log[k].term == t)
    && Coherent(rs, r.log)
    && Chain(base, r.log)
  }

  ghost predicate ReignsOk(base: ConfState, rs: Reigns) {
    forall t {:trigger ReignOk(base, rs, t)} :: t in rs ==> ReignOk(base, rs, t)
  }

  /** `voters` elected `leader` in term `t` while it held `log`. */
  ghost predicate Elected(base: ConfState, rs: Reigns, ballots: Ballots,
                          t: Term, leader: ReplicaId, log: Log, voters: set<ReplicaId>) {
    && Coherent(rs, log)
    && TermsBelow(log, t)
    && Chain(base, log)
    && IsQuorum(ConfigOf(base, log), voters)
    && forall v :: v in voters ==> VotedFor(ballots, t, v, leader, log)
  }

  /** `v` voted for `leader` in term `t`, and `log` was at least as up to date as its own. */
  ghost predicate VotedFor(ballots: Ballots, t: Term, v: ReplicaId, leader: ReplicaId, log: Log) {
    && (t, v) in ballots
    && ballots[(t, v)].candidate == leader
    && AtLeastAsUpToDate(log, ballots[(t, v)].vlog)
  }

  ghost predicate ReignElected(h: History, t: Term)
    requires t in h.reigns
  {
    Elected(h.base, h.reigns, h.ballots, t, h.reigns[t].leader, h.reigns[t].elog, h.reigns[t].voters)
  }

  /** The leader of term s was elected holding the first `k` entries of term t's leader. */
  ghost predicate HeldAtElection(rs: Reigns, s: Term, t: Term, k: nat)
    requires s in rs && t in rs
  {
    Agree(rs[s].elog, rs[t].log, k)
  }

  /** All leaders of terms in (t, upTo] were. */
  ghost predicate Inherited(rs: Reigns, t: Term, k: nat, upTo: Term)
    requires t in rs
  {
    forall s {:trigger HeldAtElection(rs, s, t, k)} :: s in rs && t < s <= upTo ==> HeldAtElection(rs, s, t, k)
  }

  /** If `log` belongs to a replica that acknowledged the first `k` entries of term t's
      leader, it still holds them unless some leader whose entries it took did not. */
  ghost predicate Retains(rs: Reigns, acked: Acks, v: ReplicaId, log: Log, t: Term) {
    (t, v) in acked && t in rs ==>
      forall k {:trigger Agree(log, rs[t].log, k)} ::
        (&& 1 <= k <= acked[(t, v)]
         && k <= |rs[t].log|
         && rs[t].log[k - 1].term == t
         && Inherited(rs, t, k, TermOfLast(log)))
        ==> Agree(log, rs[t].log, k)
  }

  ghost predicate BallotOk(rs: Reigns, ballots: Ballots, acked: Acks, t: Term, v: ReplicaId)
    requires (t, v) in ballots
  {
    var vlog := ballots[(t, v)].vlog;
    && Coherent(rs, vlog)
    && forall s: Term {:trigger Retains(rs, acked, v, vlog, s)} :: s < t ==> Retains(rs, acked, v, vlog, s)
  }

  ghost predicate AckOk(rs: Reigns, acked: Acks, t: Term, v: ReplicaId)
    requires (t, v) in acked
  {
    t in rs && acked[(t, v)] <= |rs[t].log|
  }

  ghost predicate CertOk(base: ConfState, rs: Reigns, acked: Acks, c: Cert) {
    && c.term in rs
    && var r := rs[c.term];
    && 1 <= c.upTo <= c.size <= |r.log|
    && |r.elog| < c.size
    && r.log[c.upTo - 1].term == c.term
    && IsQuorum(ConfigOf(base, r.log[..c.size]), c.quorum)
    && forall v :: v in c.quorum ==> (c.term, v) in acked && c.upTo <= acked[(c.term, v)]
  }

  /** A settled configuration was appended only once its Joint had been committed. */
  ghost predicate FinishOk(rs: Reigns, certs: set<Cert>, t: Term)
    requires t in rs
  {
    var r := rs[t];
    forall j :: |r.elog| <= j < |r.log| && IsSimple(r.log[j]) ==>
      exists c :: c in certs && Finishes(c, t, j, r.log)
  }

  /** `c` committed the Joint that the Simple at `j` of term t's leader finishes. */
  ghost predicate Finishes(c: Cert, t: Term, j: nat, log: Log)
    requires j <= |log|
  {
    c.term == t && c.size == j && LastConfigPos(log[..j]) < c.upTo
  }

  ghost predicate Valid(h: History) {
    && h.base.Simple?
    && ReignsOk(h.base, h.reigns)
    && (forall t {:trigger ReignElected(h, t)} :: t in h.reigns ==> ReignElected(h, t))
    && (forall t, v {:trigger BallotOk(h.reigns, h.ballots, h.acked, t, v)} ::
          (t, v) in h.ballots ==> BallotOk(h.reigns, h.ballots, h.acked, t, v))
    && (forall t, v {:trigger AckOk(h.reigns, h.acked, t, v)} ::
          (t, v) in h.acked ==> AckOk(h.reigns, h.acked, t, v))
    && (forall c {:trigger CertOk(h.base, h.reigns, h.acked, c)} ::
          c in h.certs ==> CertOk(h.base, h.reigns, h.acked, c))
    && (forall t {:trigger FinishOk(h.reigns, h.certs, t)} :: t in h.reigns ==> FinishOk(h.reigns, h.certs, t))
  }

  // ---- consequences ----

  /** Log matching: equal terms at a position mean equal logs up to it. */
  lemma LogMatching(rs: Reigns, a: Log, b: Log, k: nat)
    requires Coherent(rs, a) && Coherent(rs, b)
    requires k < |a| && k < |b| && a[k].term == b[k].term
    ensures Agree(a, b, k + 1)
  {
    assert Placed(rs, a, k) && Placed(rs, b, k);
  }

  lemma CoherentPrefix(rs: Reigns, a: Log, k: nat)
    requires Coherent(rs, a) && k <= |a|
    ensures Coherent(rs, a[..k])
  {
    var p := a[..k];
    forall i | 0 <= i < |p|
      ensures Placed(rs, p, i)
    {
      assert Placed(rs, a, i);
    }
  }

  /** Terms never decrease along a coherent log. */
  lemma TermsSorted(h: History, a: Log, i: nat, j: nat)
    requires Coherent(h.reigns, a) && i <= j < |a| && ReignsOk(h.base, h.reigns)
    ensures a[i].term <= a[j].term
  {
    assert Placed(h.reigns, a, j);
    assert ReignOk(h.base, h.reigns, a[j].term);
    var r := h.reigns[a[j].term];
    assert a[i] == r.log[i];
    assert i < |r.elog| ==> r.elog[i] == r.log[i];
  }

  /** An entry of term t lies past the log its leader was elected with. */
  lemma OwnEntriesPastElection(h: History, a: Log, k: nat)
    requires Coherent(h.reigns, a) && k < |a| && ReignsOk(h.base, h.reigns)
    ensures Placed(h.reigns, a, k) && |h.reigns[a[k].term].elog| <= k
  {
    assert Placed(h.reigns, a, k);
    assert ReignOk(h.base, h.reigns, a[k].term);
    assert a[k] == h.reigns[a[k].term].log[k];
  }

  /** The change finished last in a coherent log was committed in the term that finished it. */
  lemma FinishedIsCommitted(h: History, log: Log) returns (c: Cert)
    requires Valid(h) && Coherent(h.reigns, log) && LastSimplePos(log) >= 0
    ensures c in h.certs && CertOk(h.base, h.reigns, h.acked, c)
    ensures c.term == log[LastSimplePos(log)].term && c.size == LastSimplePos(log)
    ensures FinishedLen(log) <= c.upTo && Agree(log, h.reigns[c.term].log, LastSimplePos(log) + 1)
  {
    var j := LastSimplePos(log);
    var t := log[j].term;
    OwnEntriesPastElection(h, log, j);
    var r := h.reigns[t];
    assert FinishOk(h.reigns, h.certs, t);
    assert r.log[j] == log[j];
    c :| c in h.certs && Finishes(c, t, j, r.log);
    assert CertOk(h.base, h.reigns, h.acked, c);
    assert log[..j] == r.log[..j];
  }

  /** The up-to-date rule: a voter that holds the prefix votes only for a log that holds it. */
  lemma UpToDateCarries(h: History, a: Log, vlog: Log, t: Term, k: nat)
    requires Coherent(h.reigns, a) && Coherent(h.reigns, vlog) && AtLeastAsUpToDate(a, vlog)
    requires t in h.reigns && 1 <= k && Agree(vlog, h.reigns[t].log, k) && h.reigns[t].log[k - 1].term == t
    requires ReignsOk(h.base, h.reigns)
    requires Inherited(h.reigns, t, k, TermOfLast(a))
    ensures Agree(a, h.reigns[t].log, k)
  {
    TermsSorted(h, vlog, k - 1, |vlog| - 1);
    var s := TermOfLast(a);
    assert Placed(h.reigns, a, |a| - 1);
    if s == TermOfLast(vlog) {
      assert Placed(h.reigns, vlog, |vlog| - 1);
    } else {
      OwnEntriesPastElection(h, a, |a| - 1);
      var r := h.reigns[s];
      assert HeldAtElection(h.reigns, s, t, k);
      assert ReignOk(h.base, h.reigns, s);
    }
  }

  /** A log whose last finished change came at or after the commit holds what was committed,
      or else that change lies inside the committer's log. */
  lemma FinishedInside(h: History, a: Log, c: Cert, d: Cert)
    requires CertOk(h.base, h.reigns, h.acked, c) && CertOk(h.base, h.reigns, h.acked, d) && ReignsOk(h.base, h.reigns)
    requires Coherent(h.reigns, a) && LastSimplePos(a) >= 0
    requires d.term == a[LastSimplePos(a)].term && d.size == LastSimplePos(a) && FinishedLen(a) <= d.upTo
    requires Agree(a, h.reigns[d.term].log, LastSimplePos(a) + 1)
    requires d.term < c.term ==> Agree(h.reigns[c.term].elog, h.reigns[d.term].log, d.upTo)
    requires d.term > c.term ==> Agree(h.reigns[d.term].elog, h.reigns[c.term].log, c.upTo)
    ensures Agree(a, h.reigns[c.term].log, c.upTo) || Agree(a, h.reigns[c.term].log[..c.size], FinishedLen(a))
  {
    var r := h.reigns[c.term];
    var b := r.log[..c.size];
    var j := LastSimplePos(a);
    assert FinishedLen(a) <= j;
    assert ReignOk(h.base, h.reigns, c.term) && ReignOk(h.base, h.reigns, d.term);
    if d.term < c.term {
      assert Agree(a, b, FinishedLen(a));
    } else if d.term == c.term {
      if j < c.size {
        assert Agree(a, b, FinishedLen(a));
      }
    } else {
      OwnEntriesPastElection(h, a, j);
    }
  }

  /** A voter shared by the committing quorum and the electing quorum passes the prefix on. */
  lemma SharedVoterCarries(h: History, t: Term, leader: ReplicaId, a: Log, voters: set<ReplicaId>,
                           c: Cert, v: ReplicaId)
    requires Elected(h.base, h.reigns, h.ballots, t, leader, a, voters) && v in voters
    requires CertOk(h.base, h.reigns, h.acked, c) && v in c.quorum && c.term < t
    requires BallotOk(h.reigns, h.ballots, h.acked, t, v) && ReignsOk(h.base, h.reigns)
    requires Inherited(h.reigns, c.term, c.upTo, t - 1)
    ensures Agree(a, h.reigns[c.term].log, c.upTo)
  {
    var vlog := h.ballots[(t, v)].vlog;
    assert a != [] ==> a[|a| - 1].term < t;
    assert Retains(h.reigns, h.acked, v, vlog, c.term);
    assert Inherited(h.reigns, c.term, c.upTo, TermOfLast(vlog));
    UpToDateCarries(h, a, vlog, c.term, c.upTo);
  }

  /** Leader completeness: whoever is elected in a later term holds everything
      committed in an earlier one, across any number of membership changes. */
  lemma {:induction false} ElectedComplete(h: History, t: Term, leader: ReplicaId, a: Log,
                                           voters: set<ReplicaId>, c: Cert)
    requires Valid(h) && Elected(h.base, h.reigns, h.ballots, t, leader, a, voters)
    requires c in h.certs && c.term < t
    ensures CertOk(h.base, h.reigns, h.acked, c) && Agree(a, h.reigns[c.term].log, c.upTo)
    decreases t, c.term, c.size
  {
    assert CertOk(h.base, h.reigns, h.acked, c);
    var r := h.reigns[c.term];
    forall s | s in h.reigns && c.term < s <= t - 1
      ensures HeldAtElection(h.reigns, s, c.term, c.upTo)
    {
      assert ReignElected(h, s);
      ElectedComplete(h, s, h.reigns[s].leader, h.reigns[s].elog, h.reigns[s].voters, c);
    }
    AgreeWithCommitter(h, t, leader, a, voters, c);
    if LastSimplePos(a) >= 0 {
      var d := FinishedIsCommitted(h, a);
      if d.term < c.term {
        assert ReignElected(h, c.term);
        ElectedComplete(h, c.term, r.leader, r.elog, r.voters, d);
      } else if d.term > c.term {
        assert HeldAtElection(h.reigns, d.term, c.term, c.upTo);
      }
      FinishedInside(h, a, c, d);
    }
    if !Agree(a, r.log, c.upTo) {
      var v := ElectorInQuorum(h, t, leader, a, voters, c);
      assert BallotOk(h.reigns, h.ballots, h.acked, t, v);
      SharedVoterCarries(h, t, leader, a, voters, c, v);
    }
  }

  lemma ElectorInQuorum(h: History, t: Term, leader: ReplicaId, a: Log,
                        voters: set<ReplicaId>, c: Cert) returns (v: ReplicaId)
    requires Elected(h.base, h.reigns, h.ballots, t, leader, a, voters) && CertOk(h.base, h.reigns, h.acked, c)
             && ReignsOk(h.base, h.reigns)
    requires Agree(a, h.reigns[c.term].log[..c.size], FinishedLen(h.reigns[c.term].log[..c.size]))
    requires Agree(a, h.reigns[c.term].log[..c.size], FinishedLen(a))
    ensures v in voters && v in c.quorum
  {
    var r := h.reigns[c.term];
    assert ReignOk(h.base, h.reigns, c.term);
    ChainPrefix(h.base, r.log, r.log, c.size);
    QuorumsMeet(h.base, a, r.log[..c.size], voters, c.quorum);
    v :| v in voters && v in c.quorum;
  }

  /** The elected log holds the last change the committer's log had finished. */
  lemma {:induction false} AgreeWithCommitter(h: History, t: Term, leader: ReplicaId, a: Log,
                                              voters: set<ReplicaId>, c: Cert)
    requires Valid(h) && Elected(h.base, h.reigns, h.ballots, t, leader, a, voters)
    requires c in h.certs && CertOk(h.base, h.reigns, h.acked, c) && c.term < t
    ensures Agree(a, h.reigns[c.term].log[..c.size], FinishedLen(h.reigns[c.term].log[..c.size]))
    decreases t, c.term, c.size, 0
  {
    var r := h.reigns[c.term];
    var b := r.log[..c.size];
    assert ReignOk(h.base, h.reigns, c.term);
    CoherentPrefix(h.reigns, r.log, c.size);
    if LastSimplePos(b) >= 0 {
      var d := FinishedIsCommitted(h, b);
      assert d.term <= c.term by {
        TermsSorted(h, r.log, LastSimplePos(b), |r.log| - 1);
      }
      ElectedComplete(h, t, leader, a, voters, d);
      assert Agree(b, h.reigns[d.term].log, FinishedLen(b));
    }
  }
}
