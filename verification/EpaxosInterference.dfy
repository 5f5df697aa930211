/** Dependencies are no larger than they have to be: whatever a replica records about a command,
    in any run of a group of any size, its dependencies are other proposed commands it conflicts
    with, and its sequence number is 1 or one more than one recorded for such a dependency. */
module EpaxosInterference {
  import opened EpaxosModel
  import opened EpaxosCluster
  import opened EpaxosHistory
  import EpaxosSteps
  import opened EpaxosTheorems

  /** Sequence numbers ever recorded for an instance. */
  type Records = iset<(Instance, nat)>

  // ---- attributes that are justified ----

  /** `d` is another proposed instance, led by a member, whose command `i`'s command conflicts with. */
  ghost predicate Interferes(conflict: Interference, h: History, i: Instance, d: Instance) {
    && i in h.proposed && d in h.proposed && d != i && d.replica in h.reps
    && conflict(h.proposed[i], h.proposed[d])
  }

  ghost predicate OneAbove(held: Records, deps: Deps, seqNo: nat, d: Instance) {
    d in deps && seqNo > 0 && (d, seqNo - 1) in held
  }

  ghost predicate Justified(conflict: Interference, h: History, held: Records, i: Instance, seqNo: nat, deps: Deps) {
    && i in h.proposed && (forall d {:trigger d in deps} :: d in deps ==> Interferes(conflict, h, i, d))
    && (seqNo == 1 || exists d :: OneAbove(held, deps, seqNo, d))
  }

  lemma JustifiedLater(conflict: Interference, h: History, held: Records, g: History, more: Records, i: Instance,
                       seqNo: nat, deps: Deps)
    requires Justified(conflict, h, held, i, seqNo, deps) && Later(h, g) && held <= more
    ensures Justified(conflict, g, more, i, seqNo, deps)
  {
    forall d | d in deps ensures Interferes(conflict, g, i, d) { assert Interferes(conflict, h, i, d); }
    if seqNo != 1 {
      var d :| OneAbove(held, deps, seqNo, d);
      assert OneAbove(more, deps, seqNo, d);
    }
  }

  /** The larger sequence number and both sets of dependencies. */
  lemma JustifiedTogether(conflict: Interference, h: History, held: Records, i: Instance, s: nat, deps: Deps, t: nat,
                          more: Deps)
    requires Justified(conflict, h, held, i, s, deps) && Justified(conflict, h, held, i, t, more)
    ensures Justified(conflict, h, held, i, Max(s, t), deps + more)
  {
    forall d | d in deps + more ensures Interferes(conflict, h, i, d) {
      assert d in deps || d in more;
    }
    if Max(s, t) != 1 {
      if s >= t {
        var d :| OneAbove(held, deps, s, d);
        assert OneAbove(held, deps + more, s, d);
      } else {
        var d :| OneAbove(held, more, t, d);
        assert OneAbove(held, deps + more, t, d);
      }
    }
  }

  // ---- replicas and messages ----

  ghost predicate CmdsFit(conflict: Interference, h: History, held: Records, cmds: Commands) {
    forall i {:trigger cmds[i]} :: i in cmds ==>
      i.replica in h.reps && Justified(conflict, h, held, i, cmds[i].seqNo, cmds[i].deps)
  }

  ghost predicate CollectFits(conflict: Interference, h: History, held: Records, i: Instance, c: Collect) {
    Justified(conflict, h, held, i, c.initSeq, c.initDeps) && Justified(conflict, h, held, i, c.unionSeq, c.unionDeps)
  }

  /** A replica knows the commands it leads. */
  ghost predicate OwnKnown(n: Replica) {
    forall s: nat {:trigger Instance(n.id, s)} :: s < n.nextSlot ==> Instance(n.id, s) in n.cmds
  }

  ghost predicate NodeFits(conflict: Interference, h: History, held: Records, n: Replica) {
    && CmdsFit(conflict, h, held, n.cmds) && OwnKnown(n)
    && (forall i {:trigger n.collects[i]} :: i in n.collects ==> CollectFits(conflict, h, held, i, n.collects[i]))
  }

  ghost predicate MsgFits(conflict: Interference, h: History, held: Records, m: Message) {
    m.AcceptReply? || Justified(conflict, h, held, m.instance, m.seqNo, m.deps)
  }

  /** The recorded commands are the proposed ones. */
  ghost predicate Named(h: History, cmds: Commands) {
    forall i {:trigger cmds[i]} :: i in cmds ==> i in h.proposed && cmds[i].command == h.proposed[i]
  }

  /** Everything recorded in `cmds` is among the records. */
  ghost predicate AmongRecords(held: Records, cmds: Commands) {
    forall i {:trigger cmds[i]} :: i in cmds ==> (i, cmds[i].seqNo) in held
  }

  ghost predicate GroupFits(conflict: Interference, h: History, held: Records, c: Cluster) {
    && (forall v {:trigger c.nodes[v]} :: v in c.nodes ==>
          NodeFits(conflict, h, held, c.nodes[v]) && AmongRecords(held, c.nodes[v].cmds))
    && (forall k {:trigger c.sent[k]} :: 0 <= k < |c.sent| ==> MsgFits(conflict, h, held, c.sent[k].msg))
  }

  lemma NodeLater(conflict: Interference, h: History, held: Records, g: History, more: Records, n: Replica)
    requires NodeFits(conflict, h, held, n) && Later(h, g) && held <= more
    ensures NodeFits(conflict, g, more, n)
  {
    forall i | i in n.cmds ensures Justified(conflict, g, more, i, n.cmds[i].seqNo, n.cmds[i].deps) {
      JustifiedLater(conflict, h, held, g, more, i, n.cmds[i].seqNo, n.cmds[i].deps);
    }
    forall i | i in n.collects ensures CollectFits(conflict, g, more, i, n.collects[i]) {
      var c := n.collects[i];
      JustifiedLater(conflict, h, held, g, more, i, c.initSeq, c.initDeps);
      JustifiedLater(conflict, h, held, g, more, i, c.unionSeq, c.unionDeps);
    }
  }

  lemma MsgLater(conflict: Interference, h: History, held: Records, g: History, more: Records, m: Message)
    requires MsgFits(conflict, h, held, m) && Later(h, g) && held <= more
    ensures MsgFits(conflict, g, more, m)
  {
    if !m.AcceptReply? { JustifiedLater(conflict, h, held, g, more, m.instance, m.seqNo, m.deps); }
  }

  // ---- handlers ----

  /** What a replica works out itself is justified. */
  lemma LocalJustified(conflict: Interference, h: History, held: Records, cmds: Commands, i: Instance)
    requires i in h.proposed && CmdsFit(conflict, h, held, cmds) && AmongRecords(held, cmds)
    requires Named(h, cmds)
    ensures Justified(conflict, h, held, i, LocalSeq(conflict, cmds, h.proposed[i], i),
                      LocalDeps(conflict, cmds, h.proposed[i], i))
  {
    var deps := LocalDeps(conflict, cmds, h.proposed[i], i);
    assert forall d :: d in deps ==> Interferes(conflict, h, i, d);
    var q := MaxSeq(cmds, deps);
    if q > 0 {
      var d :| d in deps && cmds[d].seqNo == q;
      assert OneAbove(held, deps, q + 1, d);
    }
  }

  ghost predicate OutcomeFits(conflict: Interference, h: History, held: Records, o: Outcome) {
    NodeFits(conflict, h, held, o.replica)
    && forall k {:trigger o.outs[k]} :: 0 <= k < |o.outs| ==> MsgFits(conflict, h, held, o.outs[k].msg)
  }

  /** Recording something justified about an instance led by a member. */
  lemma RecordFits(conflict: Interference, h: History, held: Records, n: Replica, i: Instance, st: InstanceState)
    requires NodeFits(conflict, h, held, n) && i.replica in h.reps
    requires Justified(conflict, h, held, i, st.seqNo, st.deps)
    ensures NodeFits(conflict, h, held, n.(cmds := Record(n.cmds, i, st)))
  {
  }

  lemma CollectKept(conflict: Interference, h: History, held: Records, n: Replica, i: Instance, c: Collect)
    requires NodeFits(conflict, h, held, n) && CollectFits(conflict, h, held, i, c)
    ensures NodeFits(conflict, h, held, n.(collects := n.collects[i := c]))
  {
  }

  lemma ProposeFits(conflict: Interference, h: History, held: Records, v: ReplicaId, n: Replica, command: Bytes)
    requires NodeFits(conflict, h, held, n) && AmongRecords(held, n.cmds) && n.id == v && v in h.reps
    requires Instance(v, n.nextSlot) in h.proposed && h.proposed[Instance(v, n.nextSlot)] == command
    requires Named(h, n.cmds)
    ensures OutcomeFits(conflict, h, held, Propose(conflict, n, command))
  {
    var i := Instance(v, n.nextSlot);
    LocalJustified(conflict, h, held, n.cmds, i);
    var deps, seqNo := LocalDeps(conflict, n.cmds, command, i), LocalSeq(conflict, n.cmds, command, i);
    RecordFits(conflict, h, held, n, i, InstanceState(command, seqNo, deps, PreAccepted, 0));
    var n1 := n.(cmds := Record(n.cmds, i, InstanceState(command, seqNo, deps, PreAccepted, 0)));
    CollectKept(conflict, h, held, n1, i, Collect(command, seqNo, deps, 1, 1, seqNo, deps, false, 1));
    var r := Propose(conflict, n, command).replica;
    forall s: nat | s < r.nextSlot ensures Instance(r.id, s) in r.cmds {
      if s < n.nextSlot { assert Instance(n.id, s) in n.cmds; }
    }
  }

  lemma PreAcceptFits(conflict: Interference, h: History, held: Records, n: Replica, from: ReplicaId,
                      m: Message)
    requires NodeFits(conflict, h, held, n) && AmongRecords(held, n.cmds) && m.PreAccept?
    requires MsgFits(conflict, h, held, m) && m.instance.replica in h.reps && m.command == h.proposed[m.instance]
    requires Named(h, n.cmds)
    ensures OutcomeFits(conflict, h, held,
                        OnPreAccept(conflict, n, from, m.instance, m.ballot, m.command, m.seqNo, m.deps))
  {
    var i := m.instance;
    var deps, seqNo := LocalDeps(conflict, n.cmds, m.command, i), LocalSeq(conflict, n.cmds, m.command, i);
    LocalJustified(conflict, h, held, n.cmds, i);
    JustifiedTogether(conflict, h, held, i, m.seqNo, m.deps, seqNo, deps);
    RecordFits(conflict, h, held, n, i,
               InstanceState(m.command, Max(m.seqNo, seqNo), m.deps + deps, PreAccepted, m.ballot));
  }

  lemma TallyFits(conflict: Interference, h: History, held: Records, i: Instance, c: Collect, seqNo: nat, deps: Deps)
    requires CollectFits(conflict, h, held, i, c) && Justified(conflict, h, held, i, seqNo, deps)
    ensures CollectFits(conflict, h, held, i, Tally(c, seqNo, deps))
  {
    JustifiedTogether(conflict, h, held, i, c.unionSeq, c.unionDeps, seqNo, deps);
  }

  lemma CommitFits(conflict: Interference, h: History, held: Records, n: Replica, i: Instance, command: Bytes,
                   seqNo: nat, deps: Deps)
    requires NodeFits(conflict, h, held, n) && i.replica in h.reps && Justified(conflict, h, held, i, seqNo, deps)
    ensures OutcomeFits(conflict, h, held, CommitAsLeader(n, i, command, seqNo, deps))
  {
    RecordFits(conflict, h, held, n, i, InstanceState(command, seqNo, deps, Committed, 0));
  }

  lemma DecideFits(conflict: Interference, h: History, held: Records, n: Replica, i: Instance)
    requires NodeFits(conflict, h, held, n) && n.replicas != [] && i in n.collects && i.replica in h.reps
    ensures OutcomeFits(conflict, h, held, Decide(n, i))
  {
    var c := n.collects[i];
    assert CollectFits(conflict, h, held, i, c);
    CommitFits(conflict, h, held, n, i, c.command, c.initSeq, c.initDeps);
    RecordFits(conflict, h, held, n, i, InstanceState(c.command, c.unionSeq, c.unionDeps, Accepted, 0));
    CollectKept(conflict, h, held, n.(cmds := StartAccept(n, i, c).replica.cmds), i,
                c.(accepting := true, acceptOks := 1));
  }

  lemma ReplyFits(conflict: Interference, h: History, held: Records, n: Replica, m: Message)
    requires NodeFits(conflict, h, held, n) && n.replicas != [] && m.PreAcceptReply? && MsgFits(conflict, h, held, m)
    requires m.instance.replica in h.reps
    ensures OutcomeFits(conflict, h, held, OnPreAcceptReply(n, m.instance, m.seqNo, m.deps))
  {
    var i := m.instance;
    if i in n.collects && !n.collects[i].accepting {
      var c := Tally(n.collects[i], m.seqNo, m.deps);
      TallyFits(conflict, h, held, i, n.collects[i], m.seqNo, m.deps);
      CollectKept(conflict, h, held, n, i, c);
      DecideFits(conflict, h, held, n.(collects := n.collects[i := c]), i);
    }
  }

  lemma AcceptReplyFits(conflict: Interference, h: History, held: Records, n: Replica, i: Instance)
    requires NodeFits(conflict, h, held, n) && i.replica in h.reps
    ensures OutcomeFits(conflict, h, held, OnAcceptReply(n, i))
  {
    if i in n.collects && n.collects[i].accepting {
      var c := n.collects[i].(acceptOks := n.collects[i].acceptOks + 1);
      assert CollectFits(conflict, h, held, i, n.collects[i]);
      CollectKept(conflict, h, held, n, i, c);
      CommitFits(conflict, h, held, n.(collects := n.collects[i := c]), i, c.command, c.unionSeq, c.unionDeps);
    }
  }

  lemma MessageFits(conflict: Interference, h: History, held: Records, n: Replica, p: Packet)
    requires NodeFits(conflict, h, held, n) && AmongRecords(held, n.cmds) && n.replicas != []
    requires PacketOk(h, p) && MsgFits(conflict, h, held, p.msg)
    requires Named(h, n.cmds)
    ensures OutcomeFits(conflict, h, held, OnMessage(conflict, n, p.src, p.msg))
  {
    var m := p.msg;
    match m
    case PreAccept(_, _, _, _, _) => PreAcceptFits(conflict, h, held, n, p.src, m);
    case PreAcceptReply(_, _, _, _) => ReplyFits(conflict, h, held, n, m);
    case Accept(i, ballot, command, seqNo, deps) =>
      RecordFits(conflict, h, held, n, i, InstanceState(command, seqNo, deps, Accepted, ballot));
    case AcceptReply(i, _) => AcceptReplyFits(conflict, h, held, n, i);
    case Commit(i, command, seqNo, deps) =>
      RecordFits(conflict, h, held, n, i, InstanceState(command, seqNo, deps, Committed, 0));
  }

  /** Executing changes nothing of this. */
  lemma FinishFits(conflict: Interference, h: History, held: Records, o: Outcome, r: Replica)
    requires NodeFits(conflict, h, held, o.replica) && Finishes(o, r)
    ensures NodeFits(conflict, h, held, r)
  {
    if o.executes {
      var s, batch :| ExecutesBatch(o.replica, r, s, batch);
      assert forall i :: i in r.cmds ==> i in o.replica.cmds && r.cmds[i].seqNo == o.replica.cmds[i].seqNo
                                         && r.cmds[i].deps == o.replica.cmds[i].deps;
    }
  }

  // ---- whole runs ----

  lemma NodeNamed(h: History, v: ReplicaId, n: Replica)
    requires h.reps != {} && NodeOk(h, v, n)
    ensures Named(h, n.cmds)
  {
    forall i | i in n.cmds ensures i in h.proposed && n.cmds[i].command == h.proposed[i] {
      assert CmdOk(h, v, i, n.cmds[i]);
    }
  }

  /** The acting replica and its messages, in the history after the step. */
  lemma ActorFits(conflict: Interference, h: History, held: Records, c: Cluster, s: Step, g: History, d: Cluster)
    requires ClusterOk(conflict, h, c) && GroupFits(conflict, h, held, c) && Enabled(c, s)
    requires Next(conflict, c, s, d) && ClusterOk(conflict, g, d) && Later(h, g)
    ensures OutcomeFits(conflict, g, held, Act(conflict, c, s))
  {
    var id, n := Actor(c, s), c.nodes[Actor(c, s)];
    assert NodeOk(h, id, n) && NodeFits(conflict, h, held, n);
    NodeNamed(h, id, n);
    if s.Submit? {
      NewlyNamed(conflict, h, c, s, g, d);
      NodeLater(conflict, h, held, g, held, n);
      ProposeFits(conflict, g, held, id, n, s.command);
    } else {
      assert PacketOk(h, c.sent[s.k]);
      MessageFits(conflict, h, held, n, c.sent[s.k]);
      OutcomeLater(conflict, h, g, held, Act(conflict, c, s));
    }
  }

  lemma OutcomeLater(conflict: Interference, h: History, g: History, held: Records, o: Outcome)
    requires OutcomeFits(conflict, h, held, o) && Later(h, g)
    ensures OutcomeFits(conflict, g, held, o)
  {
    NodeLater(conflict, h, held, g, held, o.replica);
    forall k | 0 <= k < |o.outs| ensures MsgFits(conflict, g, held, o.outs[k].msg) {
      MsgLater(conflict, h, held, g, held, o.outs[k].msg);
    }
  }

  lemma NewlyNamed(conflict: Interference, h: History, c: Cluster, s: Step, g: History, d: Cluster)
    requires ClusterOk(conflict, h, c) && Enabled(c, s) && s.Submit? && Next(conflict, c, s, d)
    requires ClusterOk(conflict, g, d)
    ensures var i := Instance(s.id, c.nodes[s.id].nextSlot); i in g.proposed && g.proposed[i] == s.command
  {
    var n, i := c.nodes[s.id], Instance(s.id, c.nodes[s.id].nextSlot);
    assert NodeOk(h, s.id, n) && NodeOk(g, s.id, d.nodes[s.id]);
    EpaxosSteps.NewInstance(conflict, h, s.id, n);
    assert i in d.nodes[s.id].cmds && d.nodes[s.id].cmds[i].command == s.command;
    assert CmdOk(g, s.id, i, d.nodes[s.id].cmds[i]);
  }

  /** The records after a state. */
  ghost function WithRecords(held: Records, c: Cluster): Records {
    held + iset i: Instance, q: nat | RecordedIn(c, i, q) :: (i, q)
  }

  ghost predicate RecordedIn(c: Cluster, i: Instance, q: nat) {
    exists v :: v in c.nodes && i in c.nodes[v].cmds && c.nodes[v].cmds[i].seqNo == q
  }

  lemma StateRecorded(held: Records, c: Cluster, v: ReplicaId)
    requires v in c.nodes
    ensures AmongRecords(WithRecords(held, c), c.nodes[v].cmds)
  {
    forall i | i in c.nodes[v].cmds ensures (i, c.nodes[v].cmds[i].seqNo) in WithRecords(held, c) {
      assert RecordedIn(c, i, c.nodes[v].cmds[i].seqNo);
    }
  }

  lemma NodeAfter(conflict: Interference, h: History, held: Records, c: Cluster, s: Step, g: History, d: Cluster,
                  more: Records, v: ReplicaId)
    requires ClusterOk(conflict, h, c) && GroupFits(conflict, h, held, c) && Next(conflict, c, s, d)
    requires Later(h, g) && held <= more && v in d.nodes
    requires Enabled(c, s) ==> OutcomeFits(conflict, g, held, Act(conflict, c, s))
    ensures NodeFits(conflict, g, more, d.nodes[v])
  {
    if Enabled(c, s) && v == Actor(c, s) {
      LaterSelf(g);
      FinishFits(conflict, g, held, Act(conflict, c, s), d.nodes[v]);
      NodeLater(conflict, g, held, g, more, d.nodes[v]);
    } else {
      NodeLater(conflict, h, held, g, more, c.nodes[v]);
    }
  }

  lemma PacketAfter(conflict: Interference, h: History, held: Records, sent: seq<Packet>, g: History, more: Records,
                    id: ReplicaId, outs: seq<Addressed>, k: nat)
    requires k < |sent| ==> MsgFits(conflict, h, held, sent[k].msg)
    requires forall j :: 0 <= j < |outs| ==> MsgFits(conflict, g, held, outs[j].msg)
    requires Later(h, g) && held <= more && k < |sent| + |outs|
    ensures MsgFits(conflict, g, more, (sent + Packets(id, outs))[k].msg)
  {
    if k < |sent| {
      MsgLater(conflict, h, held, g, more, sent[k].msg);
    } else {
      LaterSelf(g);
      MsgLater(conflict, g, held, g, more, outs[k - |sent|].msg);
    }
  }

  lemma NextFits(conflict: Interference, h: History, held: Records, c: Cluster, s: Step, g: History, d: Cluster)
    requires ClusterOk(conflict, h, c) && GroupFits(conflict, h, held, c) && Next(conflict, c, s, d)
    requires ClusterOk(conflict, g, d) && Later(h, g)
    ensures GroupFits(conflict, g, WithRecords(held, d), d)
  {
    var more := WithRecords(held, d);
    if Enabled(c, s) { ActorFits(conflict, h, held, c, s, g, d); }
    forall v | v in d.nodes ensures NodeFits(conflict, g, more, d.nodes[v]) && AmongRecords(more, d.nodes[v].cmds) {
      StateRecorded(held, d, v);
      NodeAfter(conflict, h, held, c, s, g, d, more, v);
    }
    forall k | 0 <= k < |d.sent| ensures MsgFits(conflict, g, more, d.sent[k].msg) {
      var o := if Enabled(c, s) then Act(conflict, c, s).outs else [];
      assert k < |c.sent| ==> MsgFits(conflict, h, held, c.sent[k].msg);
      PacketAfter(conflict, h, held, c.sent, g, more, if Enabled(c, s) then Actor(c, s) else 0, o, k);
    }
  }

  /** Every record is from a state of the run up to `y`. */
  ghost predicate FromRun(cs: seq<Cluster>, y: int, held: Records) {
    forall i, q {:trigger (i, q) in held} :: (i, q) in held ==>
      exists x :: 0 <= x <= y < |cs| && RecordedIn(cs[x], i, q)
  }

  lemma FromRunNext(cs: seq<Cluster>, y: nat, held: Records)
    requires 0 < y < |cs| && FromRun(cs, y - 1, held)
    ensures FromRun(cs, y, WithRecords(held, cs[y]))
  {
    forall i, q | (i, q) in WithRecords(held, cs[y]) ensures exists x :: 0 <= x <= y < |cs| && RecordedIn(cs[x], i, q) {
      if (i, q) in held {
        var x :| 0 <= x <= y - 1 < |cs| && RecordedIn(cs[x], i, q);
      } else {
        assert RecordedIn(cs[y], i, q);
      }
    }
  }

  lemma InitFits(conflict: Interference, replicas: seq<ReplicaId>, c: Cluster)
    requires Init(c, replicas)
    ensures GroupFits(conflict, NoHistory(replicas), iset{}, c)
  {
  }

  lemma {:induction false} RunFits(conflict: Interference, replicas: seq<ReplicaId>, steps: seq<Step>,
                                   cs: seq<Cluster>, y: nat) returns (h: History, held: Records)
    requires IsRun(conflict, replicas, steps, cs) && replicas != [] && y < |cs|
    ensures ClusterOk(conflict, h, cs[y]) && GroupFits(conflict, h, held, cs[y]) && FromRun(cs, y, held)
  {
    if y == 0 {
      h, held := NoHistory(replicas), iset{};
      InitOk(conflict, replicas, cs[0]);
      InitFits(conflict, replicas, cs[0]);
    } else {
      var f, past := RunFits(conflict, replicas, steps, cs, y - 1);
      assert Next(conflict, cs[y - 1], steps[y - 1], cs[y - 1 + 1]);
      h := NextOk(conflict, f, cs[y - 1], steps[y - 1], cs[y]);
      held := WithRecords(past, cs[y]);
      NextFits(conflict, f, past, cs[y - 1], steps[y - 1], h, cs[y]);
      FromRunNext(cs, y, past);
    }
  }

  // ---- the theorems ----

  /** Whatever is known about `b`, committed or not, its dependencies are other commands, known to their leaders, that
      its own command conflicts with. */
  lemma DependenciesInterfere(conflict: Interference, replicas: seq<ReplicaId>, steps: seq<Step>, cs: seq<Cluster>,
                              y: nat, v: ReplicaId, b: Instance, d: Instance)
    requires IsRun(conflict, replicas, steps, cs) && replicas != [] && y < |cs|
    requires v in cs[y].nodes && b in cs[y].nodes[v].cmds && d in cs[y].nodes[v].cmds[b].deps
    ensures d != b && d.replica in cs[y].nodes && d in cs[y].nodes[d.replica].cmds
    ensures conflict(cs[y].nodes[v].cmds[b].command, cs[y].nodes[d.replica].cmds[d].command)
  {
    var h, held := RunFits(conflict, replicas, steps, cs, y);
    var n, l := cs[y].nodes[v], cs[y].nodes[d.replica];
    assert NodeFits(conflict, h, held, n) && NodeOk(h, v, n);
    assert Justified(conflict, h, held, b, n.cmds[b].seqNo, n.cmds[b].deps);
    assert Interferes(conflict, h, b, d);
    NodeNamed(h, v, n);
    LeaderKnows(conflict, h, held, cs[y], d);
  }

  lemma LeaderKnows(conflict: Interference, h: History, held: Records, c: Cluster, d: Instance)
    requires ClusterOk(conflict, h, c) && GroupFits(conflict, h, held, c) && d in h.proposed && d.replica in h.reps
    ensures d.replica in c.nodes && d in c.nodes[d.replica].cmds && c.nodes[d.replica].cmds[d].command == h.proposed[d]
  {
    var l := c.nodes[d.replica];
    assert NodeOk(h, d.replica, l) && NodeFits(conflict, h, held, l);
    assert Instance(d.replica, d.slot) in h.proposed <==> d.slot < l.nextSlot;
    assert Instance(l.id, d.slot) in l.cmds;
    NodeNamed(h, d.replica, l);
  }

  /** Its sequence number is 1, or one more than what some replica had recorded for one of its dependencies. */
  lemma SequenceJustified(conflict: Interference, replicas: seq<ReplicaId>, steps: seq<Step>, cs: seq<Cluster>,
                          y: nat, v: ReplicaId, b: Instance)
    returns (x: nat, d: Instance)
    requires IsRun(conflict, replicas, steps, cs) && replicas != [] && y < |cs|
    requires v in cs[y].nodes && b in cs[y].nodes[v].cmds
    ensures x <= y && (cs[y].nodes[v].cmds[b].seqNo == 1
                       || (d in cs[y].nodes[v].cmds[b].deps && cs[y].nodes[v].cmds[b].seqNo > 0
                           && RecordedIn(cs[x], d, cs[y].nodes[v].cmds[b].seqNo - 1)))
  {
    var h, held := RunFits(conflict, replicas, steps, cs, y);
    var st := cs[y].nodes[v].cmds[b];
    assert NodeFits(conflict, h, held, cs[y].nodes[v]);
    assert Justified(conflict, h, held, b, st.seqNo, st.deps);
    x, d := 0, b;
    if st.seqNo != 1 {
      d :| OneAbove(held, st.deps, st.seqNo, d);
      x :| 0 <= x <= y < |cs| && RecordedIn(cs[x], d, st.seqNo - 1);
    }
  }
}
