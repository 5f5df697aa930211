/** The EPaxos theorems, for every run: any replica set, any interleaving of
    proposals and deliveries, any loss and reordering. */
module EpaxosTheorems {
  import opened Membership
  import opened Digraph
  import opened EpaxosModel
  import opened EpaxosCluster
  import opened EpaxosHistory
  import opened EpaxosSteps

  // ---- the invariant holds in every run ----

  /** What earlier states can rely on later. */
  ghost predicate Later(h: History, g: History) {
    && g.reps == h.reps && MapGrows(h.proposed, g.proposed) && MapGrows(h.decided, g.decided)
       && MapGrows(h.before, g.before)
    && (forall b {:trigger g.before[b]} :: b in g.before && b !in h.before ==> h.decided.Keys <= g.before[b])
  }

  lemma LaterTrans(h: History, f: History, g: History)
    requires Later(h, f) && Later(f, g)
    ensures Later(h, g)
  {
    forall b | b in g.before && b !in h.before ensures h.decided.Keys <= g.before[b] {
      if b in f.before { assert g.before[b] == f.before[b]; }
    }
  }

  lemma LaterSelf(h: History)
    ensures Later(h, h)
  {
  }

  ghost predicate Onward(c: Cluster, d: Cluster) {
    d.nodes.Keys == c.nodes.Keys && forall v {:trigger d.nodes[v]} :: v in c.nodes ==>
          c.nodes[v].executed <= d.nodes[v].executed
  }

  lemma DeliverHandled(conflict: Interference, h: History, v: ReplicaId, n: Replica, p: Packet) returns (g: History)
    requires HistoryOk(conflict, h) && NodeOk(h, v, n) && n.replicas != [] && PacketOk(h, p) && Pending(h, p)
             && p.dst == v
    ensures Handled(conflict, h, g, v, p.msg.instance, OnMessage(conflict, n, p.src, p.msg)) && Effects(h, g, p)
  {
    match p.msg
    case PreAccept(i, _, command, seqNo, deps) =>
      var op := Opinion(Max(seqNo, LocalSeq(conflict, n.cmds, command, i)),
                        deps + LocalDeps(conflict, n.cmds, command, i));
      PreAcceptHandled(conflict, h, v, n, p, op);
      g := AddOpinion(h, i, v, op);
    case PreAcceptReply(_, _, _, _) => g := ReplyHandled(conflict, h, v, n, p);
    case Accept(i, _, _, _, _) =>
      AcceptHandled(conflict, h, v, n, p);
      g := AddAccepted(h, i, v);
    case AcceptReply(_, _) => g := AcceptReplyHandled(conflict, h, v, n, p);
    case Commit(_, _, _, _) =>
      CommitHandled(conflict, h, v, n, p);
      g := h;
  }

  lemma DeliverUndisturbed(conflict: Interference, h: History, g: History, c: Cluster, k: nat)
    requires ClusterOk(conflict, h, c) && k < |c.sent| && k !in c.delivered && Effects(h, g, c.sent[k])
    ensures Undisturbed(g, c.sent, c.delivered + {k})
  {
    forall j | 0 <= j < |c.sent| && j !in c.delivered + {k} ensures Pending(g, c.sent[j]) {
      if j < k { assert !SameKey(c.sent[j], c.sent[k]); } else { assert !SameKey(c.sent[k], c.sent[j]); }
      PendingKept(conflict, h, g, c.sent[k], c.sent[j]);
    }
  }

  lemma SubmitUndisturbed(conflict: Interference, h: History, c: Cluster, id: ReplicaId, command: Bytes)
    requires ClusterOk(conflict, h, c) && id in c.nodes
    ensures Undisturbed(Proposed(conflict, h, c.nodes[id], command), c.sent, c.delivered)
  {
    assert NodeOk(h, id, c.nodes[id]);
    NewInstance(conflict, h, id, c.nodes[id]);
    forall k | 0 <= k < |c.sent| && k !in c.delivered
      ensures Pending(Proposed(conflict, h, c.nodes[id], command), c.sent[k])
    {
      assert PacketOk(h, c.sent[k]) && Pending(h, c.sent[k]);
    }
  }

  /** The state after a handler whose obligations are met. */
  lemma StepOk(conflict: Interference, h: History, g: History, c: Cluster, id: ReplicaId, i: Instance, o: Outcome,
               r: Replica, after: set<nat>)
    requires ClusterOk(conflict, h, c) && id in c.nodes && Handled(conflict, h, g, id, i, o)
    requires Finishes(o, r) && c.nodes[id].executed == o.replica.executed
    requires Undisturbed(g, c.sent, after) && forall k :: k in after ==> k < |c.sent|
    ensures var d := Cluster(c.nodes[id := r], c.sent + Packets(id, o.outs), after);
            ClusterOk(conflict, g, d) && Onward(c, d)
  {
    NetStep(conflict, h, g, c, id, i, o, after);
    NodesAfter(conflict, h, g, c, id, i, o, r);
  }

  lemma NodesAfter(conflict: Interference, h: History, g: History, c: Cluster, id: ReplicaId, i: Instance, o: Outcome,
                   r: Replica)
    requires ClusterOk(conflict, h, c) && g.reps != {} && Grows(h, g, id, i) && NodeOk(g, id, o.replica)
    requires Finishes(o, r)
    ensures o.replica.executed <= r.executed
    ensures forall v {:trigger NodeOk(g, v, c.nodes[id := r][v])} :: v in c.nodes[id := r] ==>
              NodeOk(g, v, c.nodes[id := r][v])
  {
    FinishedOk(g, id, o, r);
    OthersKeep(conflict, h, g, c, id, i);
    NodesStep(g, c.nodes, id, r);
  }

  lemma NetStep(conflict: Interference, h: History, g: History, c: Cluster, id: ReplicaId, i: Instance, o: Outcome,
                after: set<nat>)
    requires ClusterOk(conflict, h, c) && Handled(conflict, h, g, id, i, o)
    requires Undisturbed(g, c.sent, after) && forall k :: k in after ==> k < |c.sent|
    ensures NetOk(g, c.sent + Packets(id, o.outs), after)
  {
    NetGrows(conflict, h, g, id, i, o, c.sent, c.delivered, after);
  }

  lemma NodesStep(g: History, nodes: map<ReplicaId, Replica>, id: ReplicaId, r: Replica)
    requires g.reps != {} && NodeOk(g, id, r)
    requires forall v {:trigger NodeOk(g, v, nodes[v])} :: v in nodes && v != id ==> NodeOk(g, v, nodes[v])
    ensures forall v {:trigger NodeOk(g, v, nodes[id := r][v])} :: v in nodes[id := r] ==>
              NodeOk(g, v, nodes[id := r][v])
  {
    var d := nodes[id := r];
    forall v | v in d ensures NodeOk(g, v, d[v]) {
      assert v != id ==> NodeOk(g, v, nodes[v]);
    }
  }

  lemma FinishedOk(g: History, id: ReplicaId, o: Outcome, r: Replica)
    requires g.reps != {} && NodeOk(g, id, o.replica) && Finishes(o, r)
    ensures NodeOk(g, id, r) && o.replica.executed <= r.executed
  {
    if o.executes { ExecutedOk(g, id, o.replica, r); }
  }

  lemma OthersKeep(conflict: Interference, h: History, g: History, c: Cluster, id: ReplicaId, i: Instance)
    requires ClusterOk(conflict, h, c) && Grows(h, g, id, i)
    ensures forall v {:trigger NodeOk(g, v, c.nodes[v])} :: v in c.nodes && v != id ==> NodeOk(g, v, c.nodes[v])
  {
    forall v | v in c.nodes && v != id ensures NodeOk(g, v, c.nodes[v]) {
      assert NodeOk(h, v, c.nodes[v]);
      NodeStable(h, g, id, i, v, c.nodes[v]);
    }
  }

  lemma GrowsLater(conflict: Interference, h: History, g: History, id: ReplicaId, i: Instance)
    requires HistoryOk(conflict, h) && HistoryOk(conflict, g) && Grows(h, g, id, i)
    requires i in h.proposed || (i in g.before && g.before[i] == h.decided.Keys)
    ensures Later(h, g)
  {
    forall b | b in g.before && b !in h.before ensures h.decided.Keys <= g.before[b] {
      assert b in g.proposed && b !in h.proposed;
    }
  }

  lemma ExecutedKept(conflict: Interference, c: Cluster, s: Step)
    requires Enabled(c, s)
    ensures Act(conflict, c, s).replica.executed == c.nodes[Actor(c, s)].executed
  {
  }

  lemma SubmitOk(conflict: Interference, h: History, c: Cluster, s: Step, d: Cluster) returns (g: History)
    requires ClusterOk(conflict, h, c) && Next(conflict, c, s, d) && Enabled(c, s) && s.Submit?
    ensures ClusterOk(conflict, g, d) && Later(h, g) && Onward(c, d)
  {
    var o := Propose(conflict, c.nodes[s.id], s.command);
    g := SubmitHandled(conflict, h, c, s.id, s.command, o);
    assert !o.executes && o.replica.executed == c.nodes[s.id].executed;
    StepOk(conflict, h, g, c, s.id, Instance(s.id, c.nodes[s.id].nextSlot), o, d.nodes[s.id], d.delivered);
  }

  lemma SubmitHandled(conflict: Interference, h: History, c: Cluster, id: ReplicaId, command: Bytes, o: Outcome)
    returns (g: History)
    requires ClusterOk(conflict, h, c) && id in c.nodes && o == Propose(conflict, c.nodes[id], command)
    ensures Handled(conflict, h, g, id, Instance(id, c.nodes[id].nextSlot), o) && Later(h, g)
    ensures Undisturbed(g, c.sent, c.delivered)
  {
    var n := c.nodes[id];
    assert NodeOk(h, id, n);
    g := Proposed(conflict, h, n, command);
    ProposeHandled(conflict, h, id, n, command);
    SubmitUndisturbed(conflict, h, c, id, command);
    ProposedLater(conflict, h, id, n, command);
  }

  lemma ProposedLater(conflict: Interference, h: History, id: ReplicaId, n: Replica, command: Bytes)
    requires HistoryOk(conflict, h) && NodeOk(h, id, n)
    ensures Later(h, Proposed(conflict, h, n, command))
  {
    NewInstance(conflict, h, id, n);
  }

  lemma DeliverOk(conflict: Interference, h: History, c: Cluster, s: Step, d: Cluster) returns (g: History)
    requires ClusterOk(conflict, h, c) && Next(conflict, c, s, d) && Enabled(c, s) && s.Deliver?
    ensures ClusterOk(conflict, g, d) && Later(h, g) && Onward(c, d)
  {
    var p := c.sent[s.k];
    assert NodeOk(h, p.dst, c.nodes[p.dst]);
    g := DeliverHandled(conflict, h, p.dst, c.nodes[p.dst], p);
    ExecutedKept(conflict, c, s);
    DeliverConcludes(conflict, h, g, c, s, d, Act(conflict, c, s));
  }

  lemma DeliverConcludes(conflict: Interference, h: History, g: History, c: Cluster, s: Step, d: Cluster, o: Outcome)
    requires ClusterOk(conflict, h, c) && s.Deliver? && s.k < |c.sent| && s.k !in c.delivered
             && c.sent[s.k].dst in c.nodes
    requires var p := c.sent[s.k];
             && Handled(conflict, h, g, p.dst, p.msg.instance, o) && Effects(h, g, p)
             && p.dst in d.nodes && Finishes(o, d.nodes[p.dst]) && c.nodes[p.dst].executed == o.replica.executed
             && d == Cluster(c.nodes[p.dst := d.nodes[p.dst]], c.sent + Packets(p.dst, o.outs), c.delivered + {s.k})
    ensures ClusterOk(conflict, g, d) && Later(h, g) && Onward(c, d)
  {
    var p := c.sent[s.k];
    DeliverUndisturbed(conflict, h, g, c, s.k);
    DeliverLater(conflict, h, g, c, s.k);
    StepOk(conflict, h, g, c, p.dst, p.msg.instance, o, d.nodes[p.dst], d.delivered);
  }

  lemma DeliverLater(conflict: Interference, h: History, g: History, c: Cluster, k: nat)
    requires ClusterOk(conflict, h, c) && k < |c.sent| && HistoryOk(conflict, g)
    requires Grows(h, g, c.sent[k].dst, c.sent[k].msg.instance)
    ensures Later(h, g)
  {
    assert PacketOk(h, c.sent[k]);
    GrowsLater(conflict, h, g, c.sent[k].dst, c.sent[k].msg.instance);
  }

  lemma NextOk(conflict: Interference, h: History, c: Cluster, s: Step, d: Cluster) returns (g: History)
    requires ClusterOk(conflict, h, c) && Next(conflict, c, s, d)
    ensures ClusterOk(conflict, g, d) && Later(h, g) && Onward(c, d)
  {
    g := h;
    if Enabled(c, s) {
      if s.Submit? { g := SubmitOk(conflict, h, c, s, d); } else { g := DeliverOk(conflict, h, c, s, d); }
    }
  }

  ghost function NoHistory(replicas: seq<ReplicaId>): History {
    History(Elements(replicas), map[], map[], map[], map[], {}, map[], map[], map[])
  }

  lemma InitOk(conflict: Interference, replicas: seq<ReplicaId>, c: Cluster)
    requires Init(c, replicas) && replicas != []
    ensures ClusterOk(conflict, NoHistory(replicas), c)
  {
    NoHistoryOk(conflict, replicas);
    forall v | v in c.nodes ensures NodeOk(NoHistory(replicas), v, c.nodes[v]) { NewNodeOk(replicas, v); }
  }

  lemma NoHistoryOk(conflict: Interference, replicas: seq<ReplicaId>)
    requires replicas != []
    ensures HistoryOk(conflict, NoHistory(replicas))
  {
    assert replicas[0] in Elements(replicas);
  }

  lemma NewNodeOk(replicas: seq<ReplicaId>, v: ReplicaId)
    requires v in replicas
    ensures NoHistory(replicas).reps != {} && NodeOk(NoHistory(replicas), v, NewReplica(v, replicas))
  {
    assert v in Elements(replicas);
    assert Elements(Sorted(replicas)) == Elements(replicas);
    ElementsCount(Sorted(replicas));
    assert ExecOk(NoHistory(replicas), map[], []);
  }

  /** From any earlier state of a run, the history grows to the end of the run. */
  lemma {:induction false} RunFrom(conflict: Interference, replicas: seq<ReplicaId>, steps: seq<Step>, cs: seq<Cluster>,
                                   x: nat, y: nat, h: History) returns (g: History)
    requires IsRun(conflict, replicas, steps, cs) && x <= y < |cs| && ClusterOk(conflict, h, cs[x])
    ensures ClusterOk(conflict, g, cs[y]) && Later(h, g)
    decreases y
  {
    if x == y {
      g := h;
      LaterSelf(h);
    } else {
      var f := RunFrom(conflict, replicas, steps, cs, x, y - 1, h);
      assert Next(conflict, cs[y - 1], steps[y - 1], cs[y - 1 + 1]);
      g := NextOk(conflict, f, cs[y - 1], steps[y - 1], cs[y]);
      LaterTrans(h, f, g);
    }
  }

  /** Two states of a run and histories for them, the second grown from the first. */
  lemma RunHistories(conflict: Interference, replicas: seq<ReplicaId>, steps: seq<Step>, cs: seq<Cluster>, x: nat,
                     y: nat)
    returns (h: History, g: History)
    requires IsRun(conflict, replicas, steps, cs) && replicas != [] && x <= y < |cs|
    ensures ClusterOk(conflict, h, cs[x]) && ClusterOk(conflict, g, cs[y]) && Later(h, g)
    ensures h.reps == Elements(replicas)
  {
    InitOk(conflict, replicas, cs[0]);
    h := RunFrom(conflict, replicas, steps, cs, 0, x, NoHistory(replicas));
    g := RunFrom(conflict, replicas, steps, cs, x, y, h);
  }

  // ---- quorums ----

  lemma SetsMeet(r: set<ReplicaId>, a: set<ReplicaId>, b: set<ReplicaId>)
    requires a <= r && b <= r && |a| + |b| > |r|
    ensures exists x :: x in a && x in b
  {
    if a !! b {
      assert |a + b| == |a| + |b|;
      SubsetSize(a + b, r);
    }
  }

  lemma {:induction false} SubsetSize(a: set<ReplicaId>, b: set<ReplicaId>)
    requires a <= b
    ensures |a| <= |b|
    decreases |a|
  {
    if a != {} {
      var x :| x in a;
      SubsetSize(a - {x}, b - {x});
    }
  }

  predicate FastQuorumsOverlap(n: nat) {
    n > 0 && 2 * FastQuorum(n) > n
  }

  /** The group sizes for which dependencies are covered: fast quorums meet, or there is nobody to ask. */
  predicate SafeSize(n: nat) {
    n == 1 || FastQuorumsOverlap(n)
  }

  /** The safe sizes are the odd ones, and the even ones from eight on. */
  lemma SafeSizes(n: nat)
    ensures SafeSize(n) <==> n % 2 == 1 || n >= 8
  {
    var f := (n - 1) / 2;
    assert n == 2 * f + 1 || n == 2 * f + 2;
    assert f + 1 == 2 * ((f + 1) / 2) || f + 1 == 2 * ((f + 1) / 2) + 1;
  }

  /** The group sizes that keep real-time order: in a group of two, besides, everybody has seen what is decided. */
  predicate PromptSize(n: nat) {
    SafeSize(n) || n == 2
  }

  // ---- a group of one ----

  /** A lone replica has nobody to ask, so it never commits. */
  ghost predicate Idle(replicas: seq<ReplicaId>, v: ReplicaId, n: Replica) {
    && n.id == v && v in replicas && n.replicas == Sorted(replicas) && n.executed == []
    && forall i {:trigger n.cmds[i]} :: i in n.cmds ==> n.cmds[i].status == PreAccepted
  }

  ghost predicate AllIdle(replicas: seq<ReplicaId>, c: Cluster) {
    c.sent == [] && forall v {:trigger Idle(replicas, v, c.nodes[v])} :: v in c.nodes ==> Idle(replicas, v, c.nodes[v])
  }

  lemma NobodyElse(replicas: seq<ReplicaId>, v: ReplicaId)
    requires |Elements(replicas)| == 1 && v in replicas
    ensures Without(Sorted(replicas), v) == []
  {
    var ps := Without(Sorted(replicas), v);
    assert ps != [] ==> ps[0] in ps;
    assert v in Elements(replicas);
    forall u | u in replicas ensures u == v {
      assert u in Elements(replicas);
      SubsetSize({u, v}, Elements(replicas));
    }
  }

  lemma AloneStep(conflict: Interference, replicas: seq<ReplicaId>, c: Cluster, s: Step, d: Cluster)
    requires |Elements(replicas)| == 1 && AllIdle(replicas, c) && Next(conflict, c, s, d)
    ensures AllIdle(replicas, d)
  {
    if Enabled(c, s) {
      var n := c.nodes[s.id];
      assert Idle(replicas, s.id, n);
      AlonePropose(conflict, replicas, s.id, n, s.command);
      forall v | v in d.nodes ensures Idle(replicas, v, d.nodes[v]) {
        assert v != s.id ==> v in c.nodes && Idle(replicas, v, c.nodes[v]);
      }
    }
  }

  lemma AlonePropose(conflict: Interference, replicas: seq<ReplicaId>, id: ReplicaId, n: Replica, command: Bytes)
    requires |Elements(replicas)| == 1 && Idle(replicas, id, n)
    ensures var o := Propose(conflict, n, command); o.outs == [] && !o.executes && Idle(replicas, id, o.replica)
  {
    NobodyElse(replicas, id);
  }

  lemma {:induction false} AloneIdle(conflict: Interference, replicas: seq<ReplicaId>, steps: seq<Step>,
                                     cs: seq<Cluster>, x: nat)
    requires IsRun(conflict, replicas, steps, cs) && |Elements(replicas)| == 1 && x < |cs|
    ensures AllIdle(replicas, cs[x])
  {
    if x == 0 {
      forall v | v in cs[0].nodes ensures Idle(replicas, v, cs[0].nodes[v]) {
        assert v in Elements(replicas);
      }
    } else {
      AloneIdle(conflict, replicas, steps, cs, x - 1);
      assert Next(conflict, cs[x - 1], steps[x - 1], cs[x]);
      AloneStep(conflict, replicas, cs[x - 1], steps[x - 1], cs[x]);
    }
  }

  /** Where anything is committed or executed, the group is not of one, so its fast quorums meet. */
  lemma ActiveOverlap(conflict: Interference, replicas: seq<ReplicaId>, steps: seq<Step>, cs: seq<Cluster>, x: nat,
                      v: ReplicaId)
    requires IsRun(conflict, replicas, steps, cs) && x < |cs| && SafeSize(|Elements(replicas)|) && v in cs[x].nodes
    requires cs[x].nodes[v].executed != [] || exists i :: CommittedAt(cs[x].nodes[v], i)
    ensures FastQuorumsOverlap(|Elements(replicas)|)
  {
    if |Elements(replicas)| == 1 { AloneNothing(conflict, replicas, steps, cs, x, v); }
  }

  lemma AloneNothing(conflict: Interference, replicas: seq<ReplicaId>, steps: seq<Step>, cs: seq<Cluster>, x: nat,
                     v: ReplicaId)
    requires IsRun(conflict, replicas, steps, cs) && |Elements(replicas)| == 1 && x < |cs| && v in cs[x].nodes
    ensures cs[x].nodes[v].executed == [] && forall i :: !CommittedAt(cs[x].nodes[v], i)
  {
    AloneIdle(conflict, replicas, steps, cs, x);
    assert Idle(replicas, v, cs[x].nodes[v]);
  }

  // ---- consequences of the invariant ----

  ghost predicate Symmetric(conflict: Interference) {
    forall a, b :: conflict(a, b) == conflict(b, a)
  }

  predicate CommittedAt(n: Replica, i: Instance) {
    i in n.cmds && Rank(n.cmds[i].status) >= 2
  }

  lemma CommittedIsDecided(conflict: Interference, h: History, c: Cluster, v: ReplicaId, i: Instance)
    requires ClusterOk(conflict, h, c) && v in c.nodes && CommittedAt(c.nodes[v], i)
    ensures i in h.decided && i in h.proposed && c.nodes[v].cmds[i].command == h.proposed[i]
    ensures c.nodes[v].cmds[i].seqNo == h.decided[i].seqNo && c.nodes[v].cmds[i].deps == h.decided[i].deps
  {
    assert NodeOk(h, v, c.nodes[v]);
    assert CmdOk(h, v, i, c.nodes[v].cmds[i]);
  }

  /** Of two decided conflicting commands, one depends on the other. */
  lemma DecidedRelated(conflict: Interference, h: History, a: Instance, b: Instance)
    requires HistoryOk(conflict, h) && a in h.decided && b in h.decided && a != b && a in h.proposed && b in h.proposed
    requires conflict(h.proposed[a], h.proposed[b]) && conflict(h.proposed[b], h.proposed[a])
    requires FastQuorumsOverlap(|h.reps|)
    ensures a in h.decided[b].deps || b in h.decided[a].deps
  {
    assert DecidedOk(h, a) && DecidedOk(h, b);
    SetsMeet(h.reps, h.decided[a].quorum, h.decided[b].quorum);
    var v :| v in h.decided[a].quorum && v in h.decided[b].quorum;
    assert SawInOrder(conflict, h, v, a, b);
  }

  /** What was decided before a conflicting command was proposed is among its dependencies, with a smaller
      sequence number. */
  lemma DecidedEarlier(conflict: Interference, h: History, a: Instance, b: Instance)
    requires HistoryOk(conflict, h) && b in h.decided && b in h.before && a in h.before[b] && a in h.decided
    requires a in h.proposed && b in h.proposed && conflict(h.proposed[b], h.proposed[a])
    requires FastQuorumsOverlap(|h.reps|) || |h.reps| == 2
    ensures a in h.decided[b].deps && h.decided[a].seqNo < h.decided[b].seqNo
  {
    assert DecidedOk(h, a) && DecidedOk(h, b);
    SetsMeet(h.reps, h.decided[a].holders, h.decided[b].quorum);
    var v :| v in h.decided[a].holders && v in h.decided[b].quorum;
    assert SawDecided(conflict, h, v, a, b);
    assert Covered(h, b, v, h.decided[b].seqNo, h.decided[b].deps);
  }

  /** A list in decision order never has the two related commands the other way round. */
  lemma OrderedOnce(h: History, a: Instance, b: Instance)
    requires Ordered(h, a, b) && Ordered(h, b, a) && a in h.decided && b in h.decided
    ensures a !in h.decided[b].deps && b !in h.decided[a].deps
  {
    var g := DecidedGraph(h);
    if a in h.decided[b].deps {
      assert Edge(g, b, a);
      ReachEdge(g, b, a);
    } else if b in h.decided[a].deps {
      assert Edge(g, a, b);
      ReachEdge(g, a, b);
    }
  }

  // ---- the theorems ----

  /** Agreement: whoever commits an instance, whenever, commits the same command, sequence number and dependencies. */
  lemma Agreement(conflict: Interference, replicas: seq<ReplicaId>, steps: seq<Step>, cs: seq<Cluster>, x: nat, y: nat,
                  u: ReplicaId, v: ReplicaId, i: Instance)
    requires IsRun(conflict, replicas, steps, cs) && replicas != [] && x <= y < |cs|
    requires u in cs[x].nodes && CommittedAt(cs[x].nodes[u], i) && v in cs[y].nodes && CommittedAt(cs[y].nodes[v], i)
    ensures var st, tt := cs[x].nodes[u].cmds[i], cs[y].nodes[v].cmds[i];
            st.command == tt.command && st.seqNo == tt.seqNo && st.deps == tt.deps
  {
    var h, g := RunHistories(conflict, replicas, steps, cs, x, y);
    CommittedIsDecided(conflict, h, cs[x], u, i);
    CommittedIsDecided(conflict, g, cs[y], v, i);
  }

  /** Dependency coverage: of two committed conflicting commands, one depends on the other. */
  lemma DependencyCoverage(conflict: Interference, replicas: seq<ReplicaId>, steps: seq<Step>, cs: seq<Cluster>,
                           x: nat, y: nat, u: ReplicaId, v: ReplicaId, a: Instance, b: Instance)
    requires IsRun(conflict, replicas, steps, cs) && replicas != [] && x <= y < |cs| && Symmetric(conflict)
    requires SafeSize(|Elements(replicas)|)
    requires u in cs[x].nodes && CommittedAt(cs[x].nodes[u], a) && v in cs[y].nodes && CommittedAt(cs[y].nodes[v], b)
    requires a != b && conflict(cs[x].nodes[u].cmds[a].command, cs[y].nodes[v].cmds[b].command)
    ensures a in cs[y].nodes[v].cmds[b].deps || b in cs[x].nodes[u].cmds[a].deps
  {
    ActiveOverlap(conflict, replicas, steps, cs, x, u);
    var h, g := RunHistories(conflict, replicas, steps, cs, x, y);
    CommittedIsDecided(conflict, h, cs[x], u, a);
    CommittedIsDecided(conflict, g, cs[y], v, b);
    DecidedRelated(conflict, g, a, b);
  }

  /** Real-time order: if `a` was committed anywhere before conflicting `b` was proposed, then
      `b` depends on `a` with a larger sequence number, and whoever executes `b` has executed `a` first. */
  lemma RealTimeOrder(conflict: Interference, replicas: seq<ReplicaId>, steps: seq<Step>, cs: seq<Cluster>, x: nat,
                      y: nat, u: ReplicaId, v: ReplicaId, a: Instance, b: Instance)
    requires IsRun(conflict, replicas, steps, cs) && replicas != [] && x <= y < |cs|
    requires PromptSize(|Elements(replicas)|)
    requires u in cs[x].nodes && CommittedAt(cs[x].nodes[u], a)
    requires b.replica in cs[x].nodes && cs[x].nodes[b.replica].nextSlot <= b.slot
    requires v in cs[y].nodes && CommittedAt(cs[y].nodes[v], b)
    requires conflict(cs[y].nodes[v].cmds[b].command, cs[x].nodes[u].cmds[a].command)
    ensures a in cs[y].nodes[v].cmds[b].deps && cs[x].nodes[u].cmds[a].seqNo < cs[y].nodes[v].cmds[b].seqNo
    ensures forall k :: 0 <= k < |cs[y].nodes[v].executed| && cs[y].nodes[v].executed[k] == b ==>
              a in cs[y].nodes[v].executed[..k]
  {
    if SafeSize(|Elements(replicas)|) { ActiveOverlap(conflict, replicas, steps, cs, x, u); }
    var h, g := RunHistories(conflict, replicas, steps, cs, x, y);
    CommittedIsDecided(conflict, h, cs[x], u, a);
    CommittedIsDecided(conflict, g, cs[y], v, b);
    NotYetProposed(conflict, h, cs[x], b);
    assert b in g.before && b !in h.before && a in g.before[b];
    DecidedEarlier(conflict, g, a, b);
    assert NodeOk(g, v, cs[y].nodes[v]);
    forall k | 0 <= k < |cs[y].nodes[v].executed| && cs[y].nodes[v].executed[k] == b
      ensures a in cs[y].nodes[v].executed[..k]
    {
      DependencyFirst(g, cs[y].nodes[v].cmds, cs[y].nodes[v].executed, a, k);
    }
  }

  lemma NotYetProposed(conflict: Interference, h: History, c: Cluster, b: Instance)
    requires ClusterOk(conflict, h, c) && b.replica in c.nodes && c.nodes[b.replica].nextSlot <= b.slot
    ensures b !in h.proposed && b !in h.before
  {
    assert NodeOk(h, b.replica, c.nodes[b.replica]);
    assert Instance(b.replica, b.slot) in h.proposed <==> b.slot < c.nodes[b.replica].nextSlot;
  }

  /** A dependency with a smaller sequence number is executed first. */
  lemma DependencyFirst(h: History, cmds: Commands, executed: seq<Instance>, a: Instance, k: nat)
    requires ExecOk(h, cmds, executed) && k < |executed| && executed[k] in h.decided && a in h.decided
    requires a in h.decided[executed[k]].deps && h.decided[a].seqNo < h.decided[executed[k]].seqNo
    ensures a in executed[..k]
  {
    var g, b := DecidedGraph(h), executed[k];
    assert Edge(g, b, a);
    assert b in Listed(executed);
    var j :| 0 <= j < |executed| && executed[j] == a;
    if k < j {
      assert Ordered(h, executed[k], executed[j]);
      ReachEdge(g, b, a);
    }
  }

  /** Execution consistency: any two replicas run two conflicting commands in the same order,
      whenever and in whatever batches each of them executes. */
  lemma ExecutionConsistent(conflict: Interference, replicas: seq<ReplicaId>, steps: seq<Step>, cs: seq<Cluster>,
                            x: nat, y: nat, u: ReplicaId, v: ReplicaId, j: nat, k: nat, p: nat, q: nat)
    requires IsRun(conflict, replicas, steps, cs) && replicas != [] && x <= y < |cs| && Symmetric(conflict)
    requires SafeSize(|Elements(replicas)|)
    requires u in cs[x].nodes && v in cs[y].nodes
    requires var e, f := cs[x].nodes[u].executed, cs[y].nodes[v].executed;
             && j < |e| && k < |e| && p < |f| && q < |f| && e[j] == f[p] && e[k] == f[q]
             && e[j] in cs[x].nodes[u].cmds && e[k] in cs[x].nodes[u].cmds
             && conflict(cs[x].nodes[u].cmds[e[j]].command, cs[x].nodes[u].cmds[e[k]].command)
    ensures j < k <==> p < q
  {
    ActiveOverlap(conflict, replicas, steps, cs, x, u);
    var h, g := RunHistories(conflict, replicas, steps, cs, x, y);
    var n, m := cs[x].nodes[u], cs[y].nodes[v];
    assert NodeOk(h, u, n) && NodeOk(g, v, m);
    NodesOrder(conflict, h, g, u, n, v, m, j, k, p, q);
  }

  lemma NodesOrder(conflict: Interference, h: History, g: History, u: ReplicaId, n: Replica, v: ReplicaId, m: Replica,
                   j: nat, k: nat, p: nat, q: nat)
    requires HistoryOk(conflict, g) && Later(h, g) && NodeOk(h, u, n) && NodeOk(g, v, m)
    requires Symmetric(conflict) && FastQuorumsOverlap(|g.reps|)
    requires var e, f := n.executed, m.executed;
             && j < |e| && k < |e| && p < |f| && q < |f| && e[j] == f[p] && e[k] == f[q]
             && e[j] in n.cmds && e[k] in n.cmds && conflict(n.cmds[e[j]].command, n.cmds[e[k]].command)
    ensures j < k <==> p < q
  {
    assert CmdOk(h, u, n.executed[j], n.cmds[n.executed[j]]) && CmdOk(h, u, n.executed[k], n.cmds[n.executed[k]]);
    ExecStable(h, g, n.cmds, n.executed);
    assert n.executed[j] in Listed(n.executed) && n.executed[k] in Listed(n.executed);
    if n.executed[j] != n.executed[k] {
      DecidedRelated(conflict, g, n.executed[j], n.executed[k]);
      SameOrder(g, n.cmds, n.executed, m.cmds, m.executed, j, k, p, q);
    }
  }

  lemma SameOrder(h: History, c: Commands, e: seq<Instance>, d: Commands, f: seq<Instance>, j: nat, k: nat, p: nat,
                  q: nat)
    requires ExecOk(h, c, e) && ExecOk(h, d, f) && j < |e| && k < |e| && p < |f| && q < |f| && e[j] == f[p]
             && e[k] == f[q]
    requires e[j] != e[k] && e[j] in h.decided && e[k] in h.decided
    requires e[j] in h.decided[e[k]].deps || e[k] in h.decided[e[j]].deps
    ensures j < k <==> p < q
  {
    if j < k && q < p {
      assert Ordered(h, e[j], e[k]) && Ordered(h, f[q], f[p]);
      OrderedOnce(h, e[j], e[k]);
    } else if k < j && p < q {
      assert Ordered(h, e[k], e[j]) && Ordered(h, f[p], f[q]);
      OrderedOnce(h, e[k], e[j]);
    }
  }
}
