/** The six ways a step adds to the history, each shown to keep it valid. */
module RaftSteps {
  import opened RaftTypes
  import opened ConfigChain
  import opened RaftHistory

  // ---- growth of the record of leaders ----

  ghost predicate GrowsAt(rs: Reigns, rs': Reigns, t: Term)
    requires t in rs
  {
    && t in rs'
    && rs'[t].leader == rs[t].leader && rs'[t].elog == rs[t].elog && rs'[t].voters == rs[t].voters
    && Agree(rs[t].log, rs'[t].log, |rs[t].log|)
  }

  ghost predicate Grows(rs: Reigns, rs': Reigns) {
    forall t {:trigger GrowsAt(rs, rs', t)} :: t in rs ==> GrowsAt(rs, rs', t)
  }

  lemma CoherentGrows(rs: Reigns, rs': Reigns, log: Log)
    requires Grows(rs, rs') && Coherent(rs, log)
    ensures Coherent(rs', log)
  {
    forall k | 0 <= k < |log| ensures Placed(rs', log, k) {
      assert Placed(rs, log, k);
      assert GrowsAt(rs, rs', log[k].term);
    }
  }

  lemma InheritedShrinks(rs: Reigns, rs': Reigns, t: Term, k: nat, upTo: Term)
    requires Grows(rs, rs') && t in rs && t in rs' && k <= |rs[t].log| && Inherited(rs', t, k, upTo)
    ensures Inherited(rs, t, k, upTo)
  {
    forall s | s in rs && t < s <= upTo ensures HeldAtElection(rs, s, t, k) {
      assert GrowsAt(rs, rs', s) && GrowsAt(rs, rs', t);
      assert HeldAtElection(rs', s, t, k);
    }
  }

  lemma RetainsGrows(rs: Reigns, rs': Reigns, acked: Acks, v: ReplicaId, log: Log, t: Term)
    requires Grows(rs, rs') && Retains(rs, acked, v, log, t)
    requires (t, v) in acked ==> AckOk(rs, acked, t, v)
    ensures Retains(rs', acked, v, log, t)
  {
    if (t, v) in acked && t in rs' {
      assert GrowsAt(rs, rs', t);
      forall k | (&& 1 <= k <= acked[(t, v)] && k <= |rs'[t].log| && rs'[t].log[k - 1].term == t
                  && Inherited(rs', t, k, TermOfLast(log)))
        ensures Agree(log, rs'[t].log, k)
      {
        InheritedShrinks(rs, rs', t, k, TermOfLast(log));
        assert rs[t].log[k - 1] == rs'[t].log[k - 1];
        assert Agree(log, rs[t].log, k);
      }
    }
  }

  lemma BallotGrows(rs: Reigns, rs': Reigns, ballots: Ballots, acked: Acks, t: Term, v: ReplicaId)
    requires Grows(rs, rs') && (t, v) in ballots && BallotOk(rs, ballots, acked, t, v)
    requires forall s {:trigger AckOk(rs, acked, s, v)} :: (s, v) in acked ==> AckOk(rs, acked, s, v)
    ensures BallotOk(rs', ballots, acked, t, v)
  {
    var vlog := ballots[(t, v)].vlog;
    CoherentGrows(rs, rs', vlog);
    forall s: Term | s < t ensures Retains(rs', acked, v, vlog, s) {
      assert Retains(rs, acked, v, vlog, s);
      if (s, v) in acked { assert AckOk(rs, acked, s, v); }
      RetainsGrows(rs, rs', acked, v, vlog, s);
    }
  }

  lemma CertGrows(base: ConfState, rs: Reigns, rs': Reigns, acked: Acks, acked': Acks, c: Cert)
    requires Grows(rs, rs') && CertOk(base, rs, acked, c)
    requires forall v :: (c.term, v) in acked ==> (c.term, v) in acked' && acked[(c.term, v)] <= acked'[(c.term, v)]
    ensures CertOk(base, rs', acked', c)
  {
    assert GrowsAt(rs, rs', c.term);
    assert rs[c.term].log[..c.size] == rs'[c.term].log[..c.size];
    assert rs[c.term].log[c.upTo - 1] == rs'[c.term].log[c.upTo - 1];
  }

  lemma ReignGrows(base: ConfState, rs: Reigns, rs': Reigns, t: Term)
    requires Grows(rs, rs') && t in rs && ReignOk(base, rs, t) && t in rs' && rs'[t] == rs[t]
    ensures ReignOk(base, rs', t)
  {
    CoherentGrows(rs, rs', rs[t].log);
  }

  lemma ElectedGrows(base: ConfState, rs: Reigns, rs': Reigns, ballots: Ballots, ballots': Ballots,
                     t: Term, leader: ReplicaId, log: Log, voters: set<ReplicaId>)
    requires Grows(rs, rs') && Elected(base, rs, ballots, t, leader, log, voters)
    requires forall k :: k in ballots ==> k in ballots' && ballots'[k] == ballots[k]
    ensures Elected(base, rs', ballots', t, leader, log, voters)
  {
    CoherentGrows(rs, rs', log);
    forall v | v in voters ensures VotedFor(ballots', t, v, leader, log) {
      assert VotedFor(ballots, t, v, leader, log);
    }
  }

  // ---- the six additions ----

  /** A replica stands for election. */
  function AddBid(h: History, t: Term, c: ReplicaId, log: Log): History {
    h.(bids := h.bids[(t, c) := log])
  }

  lemma AddBidValid(h: History, t: Term, c: ReplicaId, log: Log)
    requires Valid(h)
    ensures Valid(AddBid(h, t, c, log))
  {
    var g := AddBid(h, t, c, log);
    forall s | s in g.reigns ensures ReignElected(g, s) { assert ReignElected(h, s); }
  }

  /** A replica votes for the first time in a term. */
  function AddBallot(h: History, t: Term, v: ReplicaId, candidate: ReplicaId, vlog: Log): History {
    h.(ballots := h.ballots[(t, v) := Ballot(candidate, vlog)])
  }

  lemma AddBallotValid(h: History, t: Term, v: ReplicaId, candidate: ReplicaId, vlog: Log)
    requires Valid(h) && (t, v) !in h.ballots
    requires Coherent(h.reigns, vlog)
    requires forall s: Term {:trigger Retains(h.reigns, h.acked, v, vlog, s)} :: s < t ==>
               Retains(h.reigns, h.acked, v, vlog, s)
    ensures Valid(AddBallot(h, t, v, candidate, vlog))
  {
    var g := AddBallot(h, t, v, candidate, vlog);
    var rs := h.reigns;
    forall s | s in rs ensures ReignElected(g, s) {
      assert ReignElected(h, s);
      ElectedGrows(h.base, rs, rs, h.ballots, g.ballots, s, rs[s].leader, rs[s].elog, rs[s].voters);
    }
    forall s, w | (s, w) in g.ballots ensures BallotOk(rs, g.ballots, g.acked, s, w) {
      if (s, w) != (t, v) {
        assert BallotOk(rs, h.ballots, h.acked, s, w);
      }
    }
  }

  /** What the acknowledging replica's earlier votes need: it has not voted past term `t`. */
  ghost predicate NoLaterBallot(h: History, v: ReplicaId, t: Term) {
    forall s {:trigger (s, v) in h.ballots} :: (s, v) in h.ballots ==> s <= t
  }

  /** Replica `v` acknowledges the first `k` entries of term t's leader. */
  function AddAck(h: History, t: Term, v: ReplicaId, k: nat): History {
    var before := if (t, v) in h.acked then h.acked[(t, v)] else 0;
    h.(acked := h.acked[(t, v) := if before < k then k else before])
  }

  lemma AddAckValid(h: History, t: Term, v: ReplicaId, k: nat)
    requires Valid(h) && t in h.reigns && k <= |h.reigns[t].log| && NoLaterBallot(h, v, t)
    ensures Valid(AddAck(h, t, v, k))
  {
    var g := AddAck(h, t, v, k);
    var rs := h.reigns;
    forall s | s in rs ensures ReignElected(g, s) { assert ReignElected(h, s); }
    forall s, w | (s, w) in g.ballots ensures BallotOk(rs, g.ballots, g.acked, s, w) {
      assert BallotOk(rs, h.ballots, h.acked, s, w);
      var vlog := h.ballots[(s, w)].vlog;
      forall u: Term | u < s ensures Retains(rs, g.acked, w, vlog, u) {
        assert Retains(rs, h.acked, w, vlog, u);
      }
    }
    forall s, w | (s, w) in g.acked ensures AckOk(rs, g.acked, s, w) {
      if (s, w) in h.acked { assert AckOk(rs, h.acked, s, w); }
    }
    forall c | c in g.certs ensures CertOk(g.base, rs, g.acked, c) {
      assert CertOk(h.base, rs, h.acked, c);
      CertGrows(h.base, rs, rs, h.acked, g.acked, c);
    }
  }

  /** A leader decides to commit. */
  function AddCert(h: History, c: Cert): History {
    h.(certs := h.certs + {c})
  }

  lemma AddCertValid(h: History, c: Cert)
    requires Valid(h) && CertOk(h.base, h.reigns, h.acked, c)
    ensures Valid(AddCert(h, c))
  {
    var g := AddCert(h, c);
    var rs := h.reigns;
    forall s | s in rs ensures ReignElected(g, s) { assert ReignElected(h, s); }
    forall s | s in rs ensures FinishOk(rs, g.certs, s) {
      assert FinishOk(rs, h.certs, s);
    }
  }

  /** A candidate wins term `t` and appends its opening entry. */
  function AddReign(h: History, t: Term, leader: ReplicaId, elog: Log, voters: set<ReplicaId>, e: Entry): History {
    h.(reigns := h.reigns[t := Reign(leader, elog, elog + [e], voters)])
  }

  lemma AddReignValid(h: History, t: Term, leader: ReplicaId, elog: Log, voters: set<ReplicaId>, e: Entry)
    requires Valid(h) && t !in h.reigns
    requires Elected(h.base, h.reigns, h.ballots, t, leader, elog, voters)
    requires e.term == t && e.index == |elog| + 1 && !IsConfig(e)
    ensures Valid(AddReign(h, t, leader, elog, voters, e))
    ensures Grows(h.reigns, AddReign(h, t, leader, elog, voters, e).reigns)
  {
    var g := AddReign(h, t, leader, elog, voters, e);
    var rs, rs' := h.reigns, g.reigns;
    assert Grows(rs, rs');
    forall s | s in rs' ensures ReignOk(g.base, rs', s) {
      if s == t {
        CoherentGrows(rs, rs', elog);
        NewLogCoherent(rs', t, elog, e);
        ChainAppend(g.base, elog, e);
      } else {
        assert ReignOk(h.base, rs, s);
        ReignGrows(h.base, rs, rs', s);
      }
    }
    forall s | s in rs' ensures ReignElected(g, s) {
      if s != t { assert ReignElected(h, s); }
      ElectedGrows(h.base, rs, rs', h.ballots, g.ballots, s, rs'[s].leader, rs'[s].elog, rs'[s].voters);
    }
    GrowthKeepsRest(h, g);
    forall s | s in rs' ensures FinishOk(rs', g.certs, s) {
      if s != t { assert FinishOk(rs, h.certs, s); }
    }
  }

  /** Extending a coherent log that is its term's own record keeps it coherent. */
  lemma NewLogCoherent(rs: Reigns, t: Term, log: Log, e: Entry)
    requires t in rs && rs[t].log == log + [e] && e.term == t && e.index == |log| + 1
    requires Coherent(rs, log)
    ensures Coherent(rs, log + [e])
  {
    var l := log + [e];
    forall k | 0 <= k < |l| ensures Placed(rs, l, k) {
      if k < |log| {
        assert Placed(rs, log, k);
        assert l[k] == log[k];
      }
    }
  }

  /** Votes, acknowledgements and commits survive growth of the leaders' record. */
  lemma GrowthKeepsRest(h: History, g: History)
    requires Valid(h) && Grows(h.reigns, g.reigns)
    requires g.base == h.base && g.ballots == h.ballots && g.acked == h.acked && g.certs == h.certs
    ensures forall t, v {:trigger BallotOk(g.reigns, g.ballots, g.acked, t, v)} ::
              (t, v) in g.ballots ==> BallotOk(g.reigns, g.ballots, g.acked, t, v)
    ensures forall t, v {:trigger AckOk(g.reigns, g.acked, t, v)} :: (t, v) in g.acked ==>
              AckOk(g.reigns, g.acked, t, v)
    ensures forall c {:trigger CertOk(g.base, g.reigns, g.acked, c)} :: c in g.certs ==>
              CertOk(g.base, g.reigns, g.acked, c)
  {
    forall t, v | (t, v) in g.ballots ensures BallotOk(g.reigns, g.ballots, g.acked, t, v) {
      assert BallotOk(h.reigns, h.ballots, h.acked, t, v);
      BallotGrows(h.reigns, g.reigns, h.ballots, h.acked, t, v);
    }
    forall t, v | (t, v) in g.acked ensures AckOk(g.reigns, g.acked, t, v) {
      assert AckOk(h.reigns, h.acked, t, v);
      assert GrowsAt(h.reigns, g.reigns, t);
    }
    forall c | c in g.certs ensures CertOk(g.base, g.reigns, g.acked, c) {
      assert CertOk(h.base, h.reigns, h.acked, c);
      CertGrows(h.base, h.reigns, g.reigns, h.acked, g.acked, c);
    }
  }

  /** The leader of term `t` appends an entry of its own. */
  function AddEntry(h: History, t: Term, e: Entry): History
    requires t in h.reigns
  {
    h.(reigns := h.reigns[t := h.reigns[t].(log := h.reigns[t].log + [e])])
  }

  lemma AddEntryValid(h: History, t: Term, e: Entry)
    requires Valid(h) && t in h.reigns
    requires e.term == t && e.index == |h.reigns[t].log| + 1
    requires IsConfig(e) ==> NextConf(ConfigOf(h.base, h.reigns[t].log), e.payload.conf)
    requires IsSimple(e) ==> exists c :: c in h.certs && Finishes(c, t, |h.reigns[t].log|, h.reigns[t].log)
    ensures Valid(AddEntry(h, t, e))
    ensures Grows(h.reigns, AddEntry(h, t, e).reigns)
  {
    var g := AddEntry(h, t, e);
    var rs, rs' := h.reigns, g.reigns;
    var old_, new_ := rs[t].log, rs'[t].log;
    assert Grows(rs, rs');
    forall s | s in rs' ensures ReignOk(g.base, rs', s) {
      assert ReignOk(h.base, rs, s);
      if s == t {
        CoherentGrows(rs, rs', old_);
        NewLogCoherent(rs', t, old_, e);
        ChainAppend(g.base, old_, e);
      } else {
        ReignGrows(h.base, rs, rs', s);
      }
    }
    forall s | s in rs' ensures ReignElected(g, s) {
      assert ReignElected(h, s);
      ElectedGrows(h.base, rs, rs', h.ballots, g.ballots, s, rs[s].leader, rs[s].elog, rs[s].voters);
    }
    GrowthKeepsRest(h, g);
    forall s | s in rs' ensures FinishOk(rs', g.certs, s) {
      assert FinishOk(rs, h.certs, s);
      if s == t { FinishExtends(rs, rs', h.certs, t, e); }
    }
  }

  lemma FinishExtends(rs: Reigns, rs': Reigns, certs: set<Cert>, t: Term, e: Entry)
    requires t in rs && t in rs' && rs'[t] == rs[t].(log := rs[t].log + [e])
    requires FinishOk(rs, certs, t)
    requires IsSimple(e) ==> exists c :: c in certs && Finishes(c, t, |rs[t].log|, rs[t].log)
    ensures FinishOk(rs', certs, t)
  {
    var a, b := rs[t].log, rs'[t].log;
    forall j | |rs[t].elog| <= j < |b| && IsSimple(b[j])
      ensures exists c :: c in certs && Finishes(c, t, j, b)
    {
      assert b[..j] == a[..j];
      assert j < |a| ==> b[j] == a[j];
      var c :| c in certs && Finishes(c, t, j, a);
      assert Finishes(c, t, j, b);
    }
  }
}
