/** A whole Raft group over a network that may lose, duplicate, delay and reorder
    messages, with crashes and restarts at any point, and client commands, reads
    and membership changes at any replica. A run is any sequence of steps.
    Compaction is off. */
module RaftCluster {
  import opened RaftTypes
  import opened Membership
  import opened LogStore
  import opened RaftModel
  import opened RaftHistory
  import opened RaftSteps
  import opened RaftInvariant
  import opened RaftHandlers

  /** `net` holds every message ever sent: delivering one again is duplication,
      never delivering it is loss (or a partition). */
  datatype Cluster<S> = Cluster(nodes: map<ReplicaId, Node<S>>, net: set<Packet>)

  datatype Step =
    | Tick(id: ReplicaId, due: bool)
    | Deliver(p: Packet)
    | SubmitCommand(id: ReplicaId, command: Bytes)
    | SubmitConf(id: ReplicaId, voters: seq<ReplicaId>)
    | SubmitRead(id: ReplicaId, reqId: nat, query: Bytes)
    | Drain(id: ReplicaId)
    | Restart(id: ReplicaId)

  function Init<S>(m: StateMachine<S>, ids: set<ReplicaId>, voters: seq<ReplicaId>): Cluster<S> {
    Cluster(map id | id in ids :: NewWithStore(m, id, voters, 0, EmptyStore), {})
  }

  function Packets(id: ReplicaId, outs: seq<Out>): set<Packet> {
    set i | 0 <= i < |outs| :: Packet(id, outs[i].dest, outs[i].msg)
  }

  function Route<S>(c: Cluster<S>, id: ReplicaId, res: (Node<S>, seq<Out>)): Cluster<S> {
    Cluster(c.nodes[id := res.0], c.net + Packets(id, res.1))
  }

  function Actor(s: Step): ReplicaId {
    match s
    case Tick(id, _) => id
    case Deliver(p) => p.dst
    case SubmitCommand(id, _) => id
    case SubmitConf(id, _) => id
    case SubmitRead(id, _, _) => id
    case Drain(id) => id
    case Restart(id) => id
  }

  predicate Enabled<S>(c: Cluster<S>, s: Step) {
    Actor(s) in c.nodes && (s.Deliver? ==> s.p in c.net)
  }

  function Act<S>(m: StateMachine<S>, voters: seq<ReplicaId>, n: Node<S>, s: Step): (Node<S>, seq<Out>) {
    match s
    case Tick(_, due) => OnTick(m, n, due)
    case Deliver(p) => OnMessage(m, n, p.src, p.msg)
    case SubmitCommand(_, command) => Propose(m, n, command)
    case SubmitConf(_, newVoters) => ProposeConf(n, newVoters)
    case SubmitRead(_, reqId, query) => Read(m, n, reqId, query)
    case Drain(_) => (n.(ready := [], outbox := []), [])
    case Restart(id) => (RestoreFrom(m, id, voters, n.snapshotThreshold, n.store), [])
  }

  /** One step; a step that is not enabled changes nothing. */
  function Next<S>(m: StateMachine<S>, voters: seq<ReplicaId>, c: Cluster<S>, s: Step): Cluster<S> {
    if Enabled(c, s) then Route(c, Actor(s), Act(m, voters, c.nodes[Actor(s)], s)) else c
  }

  function Run<S>(m: StateMachine<S>, ids: set<ReplicaId>, voters: seq<ReplicaId>, steps: seq<Step>): Cluster<S>
    decreases |steps|
  {
    if steps == [] then Init(m, ids, voters)
    else Next(m, voters, Run(m, ids, voters, steps[..|steps| - 1]), steps[|steps| - 1])
  }

  // ---- the invariant holds in every run ----

  ghost predicate ClusterOk<S>(h: History, c: Cluster<S>) {
    && Valid(h)
    && (forall id {:trigger NodeOk(h, id, c.nodes[id])} :: id in c.nodes ==> NodeOk(h, id, c.nodes[id]))
    && (forall p {:trigger MsgOk(h, p)} :: p in c.net ==> MsgOk(h, p))
  }

  /** What earlier states can still rely on later. */
  ghost predicate Later(h: History, g: History) {
    g.base == h.base && Grows(h.reigns, g.reigns) && h.certs <= g.certs
  }

  function EmptyHistory(voters: seq<ReplicaId>): History {
    History(Simple(Sorted(voters)), map[], map[], map[], map[], {})
  }

  lemma InitOk<S>(m: StateMachine<S>, ids: set<ReplicaId>, voters: seq<ReplicaId>)
    ensures ClusterOk(EmptyHistory(voters), Init(m, ids, voters))
  {
  }

  lemma ActOk<S>(m: StateMachine<S>, voters: seq<ReplicaId>, h: History, id: ReplicaId, n: Node<S>, s: Step)
    returns (g: History)
    requires Valid(h) && NodeOk(h, id, n) && h.base == Simple(Sorted(voters)) && Actor(s) == id
    requires s.Deliver? ==> MsgOk(h, s.p)
    ensures StepOk(m, h, g, id, n, Act(m, voters, n, s))
  {
    match s
    case Tick(_, due) => g := OnTickOk(m, h, id, n, due);
    case Deliver(p) => g := OnMessageOk(m, h, id, n, p);
    case SubmitCommand(_, command) => g := ProposeOk(m, h, id, n, command);
    case SubmitConf(_, newVoters) => g := ProposeConfOk(m, h, id, n, newVoters);
    case SubmitRead(_, reqId, query) => g := ReadOk(m, h, id, n, reqId, query);
    case Drain(_) =>
      g := h;
      DrainOk(m, voters, h, id, n);
    case Restart(_) =>
      g := h;
      RestartOk(m, voters, h, id, n);
  }

  lemma DrainOk<S>(m: StateMachine<S>, voters: seq<ReplicaId>, h: History, id: ReplicaId, n: Node<S>)
    requires Valid(h) && NodeOk(h, id, n)
    ensures StepOk(m, h, h, id, n, Act(m, voters, n, Drain(id)))
  {
    ExtendsRefl(h, id);
    SameProtocolOk(h, id, n, n.(ready := [], outbox := []));
  }

  lemma RestartOk<S>(m: StateMachine<S>, voters: seq<ReplicaId>, h: History, id: ReplicaId, n: Node<S>)
    requires Valid(h) && NodeOk(h, id, n) && h.base == Simple(Sorted(voters))
    ensures StepOk(m, h, h, id, n, Act(m, voters, n, Restart(id)))
  {
    ExtendsRefl(h, id);
    RestoreOk(m, h, id, n, voters);
    CoherentIndexed(h.reigns, n.store.log);
    RestoreKeeps(m, h, id, n, voters);
  }

  /** From `c` to `d` no replica's term or commit index goes back, and each keeps
      reflecting exactly its applied entries. */
  ghost predicate Onward<S>(m: StateMachine<S>, c: Cluster<S>, d: Cluster<S>) {
    && d.nodes.Keys == c.nodes.Keys
    && forall id {:trigger Advances(m, c.nodes[id], d.nodes[id])} :: id in c.nodes ==>
         Advances(m, c.nodes[id], d.nodes[id])
  }

  lemma NextOk<S>(m: StateMachine<S>, voters: seq<ReplicaId>, h: History, c: Cluster<S>, s: Step) returns (g: History)
    requires ClusterOk(h, c) && h.base == Simple(Sorted(voters))
    ensures ClusterOk(g, Next(m, voters, c, s)) && Later(h, g) && Onward(m, c, Next(m, voters, c, s))
  {
    if Enabled(c, s) {
      var id := Actor(s);
      var n := c.nodes[id];
      assert NodeOk(h, id, n) && (s.Deliver? ==> MsgOk(h, s.p));
      g := ActOk(m, voters, h, id, n, s);
      RouteOk(m, h, g, c, id, Act(m, voters, n, s));
    } else {
      g := h;
    }
  }

  lemma RouteOk<S>(m: StateMachine<S>, h: History, g: History, c: Cluster<S>, id: ReplicaId, res: (Node<S>, seq<Out>))
    requires ClusterOk(h, c) && id in c.nodes && StepOk(m, h, g, id, c.nodes[id], res)
    ensures ClusterOk(g, Route(c, id, res)) && Later(h, g) && Onward(m, c, Route(c, id, res))
  {
    var d := Route(c, id, res);
    OthersOk(h, g, c, id);
    forall v | v in d.nodes ensures NodeOk(g, v, d.nodes[v]) {
      assert v != id ==> NodeOk(g, v, c.nodes[v]);
    }
    NetOk(h, g, c, id);
    forall x | x in h.certs ensures x in g.certs { assert CertBy(h, g, id, x); }
  }

  lemma OthersOk<S>(h: History, g: History, c: Cluster<S>, id: ReplicaId)
    requires ClusterOk(h, c) && Extends(h, g, id)
    ensures forall v {:trigger NodeOk(g, v, c.nodes[v])} :: v in c.nodes && v != id ==> NodeOk(g, v, c.nodes[v])
  {
    forall v | v in c.nodes && v != id ensures NodeOk(g, v, c.nodes[v]) {
      assert NodeOk(h, v, c.nodes[v]);
      NodeStable(h, g, id, v, c.nodes[v]);
    }
  }

  lemma NetOk<S>(h: History, g: History, c: Cluster<S>, id: ReplicaId)
    requires ClusterOk(h, c) && Extends(h, g, id)
    ensures forall p {:trigger MsgOk(g, p)} :: p in c.net ==> MsgOk(g, p)
  {
    forall p | p in c.net ensures MsgOk(g, p) {
      assert MsgOk(h, p);
      MsgStable(h, g, id, p);
    }
  }

  /** Every replica's state machine reflects exactly its applied entries. */
  ghost predicate AllApplied<S>(m: StateMachine<S>, c: Cluster<S>) {
    forall id {:trigger AppliedOk(m, c.nodes[id])} :: id in c.nodes ==> AppliedOk(m, c.nodes[id])
  }

  lemma OnwardTrans<S>(m: StateMachine<S>, c: Cluster<S>, d: Cluster<S>, e: Cluster<S>)
    requires Onward(m, c, d) && Onward(m, d, e)
    ensures Onward(m, c, e) && (AllApplied(m, d) ==> AllApplied(m, e))
  {
    forall id | id in c.nodes ensures Advances(m, c.nodes[id], e.nodes[id]) {
      assert Advances(m, c.nodes[id], d.nodes[id]) && Advances(m, d.nodes[id], e.nodes[id]);
    }
    if AllApplied(m, d) {
      forall id | id in e.nodes ensures AppliedOk(m, e.nodes[id]) {
        assert AppliedOk(m, d.nodes[id]) && Advances(m, d.nodes[id], e.nodes[id]);
      }
    }
  }

  lemma OnwardRefl<S>(m: StateMachine<S>, c: Cluster<S>)
    ensures Onward(m, c, c)
  {
  }

  /** Every run is in good standing with some history. */
  lemma {:induction false} RunOk<S>(m: StateMachine<S>, ids: set<ReplicaId>, voters: seq<ReplicaId>, steps: seq<Step>)
    returns (h: History)
    ensures ClusterOk(h, Run(m, ids, voters, steps)) && h.base == Simple(Sorted(voters))
    ensures AllApplied(m, Run(m, ids, voters, steps))
    decreases |steps|
  {
    if steps == [] {
      InitOk(m, ids, voters);
      h := EmptyHistory(voters);
    } else {
      var k := |steps| - 1;
      var c := Run(m, ids, voters, steps[..k]);
      var f := RunOk(m, ids, voters, steps[..k]);
      h := NextOk(m, voters, f, c, steps[k]);
      OnwardRefl(m, c);
      OnwardTrans(m, c, c, Next(m, voters, c, steps[k]));
    }
  }

  /** A history of the first `i` steps grows into one of the whole run. */
  lemma {:induction false} RunFrom<S>(m: StateMachine<S>, ids: set<ReplicaId>, voters: seq<ReplicaId>, steps: seq<Step>,
                                      i: nat, h: History) returns (g: History)
    requires i <= |steps| && ClusterOk(h, Run(m, ids, voters, steps[..i])) && h.base == Simple(Sorted(voters))
    ensures ClusterOk(g, Run(m, ids, voters, steps)) && Later(h, g)
    ensures Onward(m, Run(m, ids, voters, steps[..i]), Run(m, ids, voters, steps))
    decreases |steps|
  {
    if i == |steps| {
      assert steps[..i] == steps;
      g := h;
      OnwardRefl(m, Run(m, ids, voters, steps));
    } else {
      var k := |steps| - 1;
      assert steps[..k][..i] == steps[..i];
      var c := Run(m, ids, voters, steps[..k]);
      var f := RunFrom(m, ids, voters, steps[..k], i, h);
      g := NextOk(m, voters, f, c, steps[k]);
      LaterTrans(h, f, g);
      OnwardTrans(m, Run(m, ids, voters, steps[..i]), c, Next(m, voters, c, steps[k]));
    }
  }

  lemma LaterTrans(h: History, f: History, g: History)
    requires Later(h, f) && Later(f, g)
    ensures Later(h, g)
  {
    forall t | t in h.reigns ensures GrowsAt(h.reigns, g.reigns, t) {
      assert GrowsAt(h.reigns, f.reigns, t) && GrowsAt(f.reigns, g.reigns, t);
    }
  }
}
