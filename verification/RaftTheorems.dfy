/** The safety theorems of the Raft core, for every run: any replicas, any
    bootstrap voters, any interleaving of ticks, deliveries (with loss,
    duplication and reordering), client commands, membership changes, reads,
    crashes and restarts. */
module RaftTheorems {
  import opened RaftTypes
  import opened Membership
  import opened ConfigChain
  import opened RaftModel
  import opened RaftHistory
  import opened RaftSteps
  import opened RaftInvariant
  import opened RaftHandlers
  import opened RaftCluster

  // ---- facts about one history ----

  /** Two committed prefixes never disagree. */
  lemma CommittedAgree(h: History, t1: Term, a: Log, k1: nat, t2: Term, b: Log, k2: nat)
    requires Valid(h) && Committed(h, t1, a, k1) && Committed(h, t2, b, k2) && k1 <= |a| && k2 <= |b|
    ensures Agree(a, b, Min(k1, k2))
  {
    if k1 > 0 && k2 > 0 {
      var c :| c in h.certs && Covers(h.reigns, c, t1, a, k1);
      var d :| d in h.certs && Covers(h.reigns, d, t2, b, k2);
      if c.term <= d.term {
        CertsAgree(h, c, d);
      } else {
        CertsAgree(h, d, c);
      }
    }
  }

  /** A later commit's leader holds what an earlier commit covers. */
  lemma CertsAgree(h: History, c: Cert, d: Cert)
    requires Valid(h) && c in h.certs && d in h.certs && c.term <= d.term
    ensures c.term in h.reigns && d.term in h.reigns && Agree(h.reigns[c.term].log, h.reigns[d.term].log, c.upTo)
  {
    assert CertOk(h.base, h.reigns, h.acked, c);
    assert d.term in h.reigns by { assert CertOk(h.base, h.reigns, h.acked, d); }
    if c.term < d.term { ReignHoldsCert(h, d.term, c); }
  }

  lemma LaterCommitted(h: History, g: History, t: Term, log: Log, k: nat)
    requires Later(h, g) && Committed(h, t, log, k)
    ensures Committed(g, t, log, k)
  {
    if k > 0 {
      var c :| c in h.certs && Covers(h.reigns, c, t, log, k);
      assert GrowsAt(h.reigns, g.reigns, c.term);
      assert Covers(g.reigns, c, t, log, k);
    }
  }

  /** What two replicas have committed agrees, the first one's state taken earlier. */
  lemma CommittedPair<S>(h: History, g: History, a: ReplicaId, n: Node<S>, b: ReplicaId, l: Node<S>)
    requires Valid(g) && Later(h, g) && NodeOk(h, a, n) && NodeOk(g, b, l)
    ensures Agree(n.store.log, l.store.log, Min(n.commitIndex, l.commitIndex))
  {
    LaterCommitted(h, g, n.term, n.store.log, n.commitIndex);
    CommittedAgree(g, n.term, n.store.log, n.commitIndex, l.term, l.store.log, l.commitIndex);
  }

  lemma AppliedPair<S>(m: StateMachine<S>, h: History, g: History, a: ReplicaId, n: Node<S>, b: ReplicaId, l: Node<S>,
                       x: Index)
    requires Valid(g) && Later(h, g) && NodeOk(h, a, n) && NodeOk(g, b, l)
    requires AppliedOk(m, n) && AppliedOk(m, l) && 1 <= x <= n.lastApplied && x <= l.lastApplied
    ensures x <= |n.store.log| && x <= |l.store.log| && n.store.log[x - 1] == l.store.log[x - 1]
    ensures n.lastApplied == l.lastApplied ==> n.sm == l.sm
  {
    CommittedPair(h, g, a, n, b, l);
    if n.lastApplied == l.lastApplied {
      assert n.store.log[..n.lastApplied] == l.store.log[..n.lastApplied];
    }
  }

  // ---- the theorems ----

  /** Election safety: at most one leader per term, over the whole run. */
  lemma ElectionSafety<S>(m: StateMachine<S>, ids: set<ReplicaId>, voters: seq<ReplicaId>, steps: seq<Step>, i: nat,
                          a: ReplicaId, b: ReplicaId)
    requires i <= |steps|
    requires var c := Run(m, ids, voters, steps[..i]); a in c.nodes && c.nodes[a].role == Leader
    requires var d := Run(m, ids, voters, steps); b in d.nodes && d.nodes[b].role == Leader
    requires Run(m, ids, voters, steps[..i]).nodes[a].term == Run(m, ids, voters, steps).nodes[b].term
    ensures a == b
  {
    var h := RunOk(m, ids, voters, steps[..i]);
    var g := RunFrom(m, ids, voters, steps, i, h);
    var n, l := Run(m, ids, voters, steps[..i]).nodes[a], Run(m, ids, voters, steps).nodes[b];
    assert NodeOk(h, a, n) && NodeOk(g, b, l);
    assert GrowsAt(h.reigns, g.reigns, l.term);
  }

  /** Log matching, between any two replicas at any two times: the same term at an
      index means the same entries up to it. */
  lemma LogsMatch<S>(m: StateMachine<S>, ids: set<ReplicaId>, voters: seq<ReplicaId>, steps: seq<Step>, i: nat,
                     a: ReplicaId, b: ReplicaId, k: nat)
    requires i <= |steps|
    requires a in Run(m, ids, voters, steps[..i]).nodes && b in Run(m, ids, voters, steps).nodes
    requires var la := Run(m, ids, voters, steps[..i]).nodes[a].store.log;
             var lb := Run(m, ids, voters, steps).nodes[b].store.log;
             k < |la| && k < |lb| && la[k].term == lb[k].term
    ensures Agree(Run(m, ids, voters, steps[..i]).nodes[a].store.log, Run(m, ids, voters, steps).nodes[b].store.log,
                  k + 1)
  {
    var h := RunOk(m, ids, voters, steps[..i]);
    var g := RunFrom(m, ids, voters, steps, i, h);
    var n, l := Run(m, ids, voters, steps[..i]).nodes[a], Run(m, ids, voters, steps).nodes[b];
    assert NodeOk(h, a, n) && NodeOk(g, b, l);
    CoherentGrows(h.reigns, g.reigns, n.store.log);
    LogMatching(g.reigns, n.store.log, l.store.log, k);
  }

  /** Leader completeness: what a replica had committed at any time is in the log of
      every leader of a later (or the same) term from then on. */
  lemma LeaderCompleteness<S>(m: StateMachine<S>, ids: set<ReplicaId>, voters: seq<ReplicaId>, steps: seq<Step>, i: nat,
                              a: ReplicaId, b: ReplicaId)
    requires i <= |steps|
    requires a in Run(m, ids, voters, steps[..i]).nodes && b in Run(m, ids, voters, steps).nodes
    requires var n := Run(m, ids, voters, steps).nodes[b];
             n.role == Leader && n.term >= Run(m, ids, voters, steps[..i]).nodes[a].term
    ensures var n := Run(m, ids, voters, steps[..i]).nodes[a];
            Agree(n.store.log, Run(m, ids, voters, steps).nodes[b].store.log, n.commitIndex)
  {
    var h := RunOk(m, ids, voters, steps[..i]);
    var g := RunFrom(m, ids, voters, steps, i, h);
    var n, l := Run(m, ids, voters, steps[..i]).nodes[a], Run(m, ids, voters, steps).nodes[b];
    assert NodeOk(h, a, n) && NodeOk(g, b, l);
    LaterCommitted(h, g, n.term, n.store.log, n.commitIndex);
    LeaderHoldsCommitted(g, n.term, l.term, n.store.log, n.commitIndex);
  }

  /** Leader completeness, the other way round in time: a leader of a later term already
      holds what a leader of an earlier term goes on to commit. */
  lemma LeaderAnticipates<S>(m: StateMachine<S>, ids: set<ReplicaId>, voters: seq<ReplicaId>, steps: seq<Step>, i: nat,
                             a: ReplicaId, b: ReplicaId)
    requires i <= |steps|
    requires b in Run(m, ids, voters, steps[..i]).nodes && a in Run(m, ids, voters, steps).nodes
    requires var n := Run(m, ids, voters, steps[..i]).nodes[b];
             n.role == Leader && n.term > Run(m, ids, voters, steps).nodes[a].term
    ensures var n := Run(m, ids, voters, steps).nodes[a];
            Agree(n.store.log, Run(m, ids, voters, steps[..i]).nodes[b].store.log, n.commitIndex)
  {
    var h := RunOk(m, ids, voters, steps[..i]);
    var g := RunFrom(m, ids, voters, steps, i, h);
    var n, l := Run(m, ids, voters, steps).nodes[a], Run(m, ids, voters, steps[..i]).nodes[b];
    assert NodeOk(g, a, n) && NodeOk(h, b, l);
    ReignHoldsCommitted(h, g, l.term, n.term, n.store.log, n.commitIndex);
  }

  lemma ReignHoldsCommitted(h: History, g: History, t: Term, s: Term, log: Log, k: nat)
    requires Valid(h) && Valid(g) && Later(h, g) && t in h.reigns && s < t && k <= |log| && Committed(g, s, log, k)
    ensures Agree(log, h.reigns[t].log, k)
  {
    if k > 0 {
      var c :| c in g.certs && Covers(g.reigns, c, s, log, k);
      assert GrowsAt(h.reigns, g.reigns, t) && ReignOk(h.base, h.reigns, t);
      var r := g.reigns[t];
      assert ReignElected(g, t);
      ElectedComplete(g, t, r.leader, r.elog, r.voters, c);
    }
  }

  /** State machine safety: entries applied at the same index, by any two replicas at
      any two times, are the same entry; and replicas that have applied equally far
      hold the same state. */
  lemma StateMachineSafety<S>(m: StateMachine<S>, ids: set<ReplicaId>, voters: seq<ReplicaId>, steps: seq<Step>, i: nat,
                              a: ReplicaId, b: ReplicaId, x: Index)
    requires i <= |steps|
    requires a in Run(m, ids, voters, steps[..i]).nodes && b in Run(m, ids, voters, steps).nodes
    requires 1 <= x <= Run(m, ids, voters, steps[..i]).nodes[a].lastApplied
    requires x <= Run(m, ids, voters, steps).nodes[b].lastApplied
    ensures var n, l := Run(m, ids, voters, steps[..i]).nodes[a], Run(m, ids, voters, steps).nodes[b];
            && x <= |n.store.log| && x <= |l.store.log| && n.store.log[x - 1] == l.store.log[x - 1]
            && (n.lastApplied == l.lastApplied ==> n.sm == l.sm)
  {
    var h := RunOk(m, ids, voters, steps[..i]);
    var e := RunOk(m, ids, voters, steps);
    var g := RunFrom(m, ids, voters, steps, i, h);
    var n, l := Run(m, ids, voters, steps[..i]).nodes[a], Run(m, ids, voters, steps).nodes[b];
    assert NodeOk(h, a, n) && NodeOk(g, b, l) && AppliedOk(m, n) && AppliedOk(m, l);
    AppliedPair(m, h, g, a, n, b, l, x);
  }

  /** A replica never gives up what it has committed: its commit index never goes back
      and no truncation reaches at or below it, across crashes and restarts. */
  lemma CommittedStays<S>(m: StateMachine<S>, ids: set<ReplicaId>, voters: seq<ReplicaId>, steps: seq<Step>, i: nat,
                          a: ReplicaId)
    requires i <= |steps| && a in Run(m, ids, voters, steps[..i]).nodes
    ensures a in Run(m, ids, voters, steps).nodes
    ensures var n, l := Run(m, ids, voters, steps[..i]).nodes[a], Run(m, ids, voters, steps).nodes[a];
            && n.commitIndex <= l.commitIndex && n.term <= l.term
            && Agree(n.store.log, l.store.log, n.commitIndex)
  {
    var h := RunOk(m, ids, voters, steps[..i]);
    var g := RunFrom(m, ids, voters, steps, i, h);
    var n, l := Run(m, ids, voters, steps[..i]).nodes[a], Run(m, ids, voters, steps).nodes[a];
    assert NodeOk(h, a, n) && NodeOk(g, a, l) && Advances(m, n, l);
    CommittedPair(h, g, a, n, a, l);
  }

  /** Joint consensus: the configurations in every log form a chain
      Simple(v), Joint(v,w), Simple(w), Joint(w,x), ... from the bootstrap voters. */
  lemma ConfigurationsFormChain<S>(m: StateMachine<S>, ids: set<ReplicaId>, voters: seq<ReplicaId>, steps: seq<Step>,
                                   a: ReplicaId)
    requires a in Run(m, ids, voters, steps).nodes
    ensures Chain(Simple(Sorted(voters)), Run(m, ids, voters, steps).nodes[a].store.log)
    ensures Run(m, ids, voters, steps).nodes[a].config
         == ConfigOf(Simple(Sorted(voters)), Run(m, ids, voters, steps).nodes[a].store.log)
  {
    var h := RunOk(m, ids, voters, steps);
    var n := Run(m, ids, voters, steps).nodes[a];
    assert NodeOk(h, a, n);
    CoherentChain(h, n.store.log);
  }

  /** Quorums of a configuration and of the one it changes into always meet. */
  lemma NeighbouringQuorumsMeet(c: ConfState, d: ConfState, p: set<ReplicaId>, q: set<ReplicaId>)
    requires NextConf(c, d) && IsQuorum(c, p) && IsQuorum(d, q)
    ensures exists x :: x in p && x in q
  {
    match c
    case Simple(v) => MajoritiesMeet(v, p, q);
    case Joint(_, w) => MajoritiesMeet(w, p, q);
  }
}
