/** What has happened in an EPaxos run, and the invariant that ties every
    replica and every message to it. */
module EpaxosHistory {
  import opened Wrappers
  import opened Membership
  import opened Digraph
  import opened EpaxosModel
  import opened EpaxosCluster

  /** Attributes of a command as one replica saw them. */
  datatype Opinion = Opinion(seqNo: nat, deps: Deps)

  /** What was decided; `quorum` are replicas whose opinions it covers, `holders` replicas
      that let it count against later commands. */
  datatype Decision = Decision(seqNo: nat, deps: Deps, quorum: set<ReplicaId>, holders: set<ReplicaId>)

  datatype History = History(
    reps: set<ReplicaId>,
    proposed: map<Instance, Bytes>,
    opinions: map<(Instance, ReplicaId), Opinion>,
    heard: map<Instance, set<ReplicaId>>,          // whose opinion the leader has counted
    accepts: map<Instance, Opinion>,               // what a slow-path leader asks to accept
    accepted: set<(Instance, ReplicaId)>,
    oks: map<Instance, set<ReplicaId>>,            // whose acceptance the leader has counted
    decided: map<Instance, Decision>,
    before: map<Instance, set<Instance>>)          // what was decided when an instance was proposed

  // ---- the history itself ----

  /** Of two conflicting commands a replica has opinions on, one depends on the other there. */
  ghost predicate SawInOrder(conflict: Interference, h: History, v: ReplicaId, a: Instance, b: Instance) {
    a != b && (a, v) in h.opinions && (b, v) in h.opinions && a in h.proposed && b in h.proposed
    && conflict(h.proposed[a], h.proposed[b]) && conflict(h.proposed[b], h.proposed[a])
    ==> a in h.opinions[(b, v)].deps || b in h.opinions[(a, v)].deps
  }

  /** A replica that holds the decision on `a` lets it count against anything proposed later. */
  ghost predicate SawDecided(conflict: Interference, h: History, v: ReplicaId, a: Instance, b: Instance) {
    (b, v) in h.opinions && b in h.before && a in h.before[b] && a in h.decided && v in h.decided[a].holders
    && a in h.proposed && b in h.proposed && conflict(h.proposed[b], h.proposed[a])
    ==> a in h.opinions[(b, v)].deps && h.decided[a].seqNo < h.opinions[(b, v)].seqNo
  }

  ghost predicate Covered(h: History, i: Instance, u: ReplicaId, seqNo: nat, deps: Deps) {
    (i, u) in h.opinions && h.opinions[(i, u)].deps <= deps && h.opinions[(i, u)].seqNo <= seqNo
  }

  /** Nobody's sequence number for a command is below its leader's. */
  ghost predicate AboveLeader(h: History, i: Instance, v: ReplicaId) {
    (i, v) in h.opinions ==>
      (i, i.replica) in h.opinions && h.opinions[(i, i.replica)].seqNo <= h.opinions[(i, v)].seqNo
  }

  /** `u` lets the decision on `i` count: it accepted it, or (fast path) saw it with no smaller a sequence number. */
  ghost predicate Holds(h: History, i: Instance, u: ReplicaId, value: Opinion) {
    if i in h.accepts then h.accepts[i] == value && (i, u) in h.accepted
    else (i, u) in h.opinions && value.seqNo <= h.opinions[(i, u)].seqNo
  }

  ghost predicate DecidedOk(h: History, i: Instance)
    requires i in h.decided && h.reps != {}
  {
    var d := h.decided[i];
    && i in h.proposed
    && d.quorum != {} && d.quorum <= h.reps && |d.quorum| >= FastQuorum(|h.reps|)
    && (forall u {:trigger u in d.quorum} :: u in d.quorum ==> Covered(h, i, u, d.seqNo, d.deps))
    && d.holders <= h.reps
    && |d.holders| >= (if i in h.accepts then SlowQuorum(|h.reps|) else Max(2, FastQuorum(|h.reps|)))
    && (forall u {:trigger u in d.holders} :: u in d.holders ==> Holds(h, i, u, Opinion(d.seqNo, d.deps)))
  }

  ghost predicate BeforeOk(h: History, b: Instance)
    requires b in h.before
  {
    b in h.proposed && h.before[b] <= h.decided.Keys && b !in h.before[b]
  }

  /** Leaders count only replicas that have answered. */
  ghost predicate CountsOk(h: History) {
    && h.heard.Keys == h.proposed.Keys && h.oks.Keys == h.accepts.Keys
    && (forall i, u {:trigger u in h.heard[i]} :: i in h.heard && u in h.heard[i] ==> (i, u) in h.opinions)
    && (forall i, u {:trigger u in h.oks[i]} :: i in h.oks && u in h.oks[i] ==> (i, u) in h.accepted)
    && (forall i, u {:trigger (i, u) in h.accepted} :: (i, u) in h.accepted ==> i in h.accepts)
    && (forall i {:trigger i in h.accepts} :: i in h.accepts ==> i in h.proposed)
  }

  ghost predicate HistoryOk(conflict: Interference, h: History) {
    && h.reps != {} && CountsOk(h)
    && (forall i, v {:trigger (i, v) in h.opinions} :: (i, v) in h.opinions ==> v in h.reps && i in h.proposed)
    && (forall i, v {:trigger AboveLeader(h, i, v)} :: AboveLeader(h, i, v))
    && (forall v, a, b {:trigger SawInOrder(conflict, h, v, a, b)} :: SawInOrder(conflict, h, v, a, b))
    && (forall v, a, b {:trigger SawDecided(conflict, h, v, a, b)} :: SawDecided(conflict, h, v, a, b))
    && (forall i {:trigger DecidedOk(h, i)} :: i in h.decided ==> DecidedOk(h, i))
    && h.before.Keys == h.proposed.Keys
    && (forall b {:trigger BeforeOk(h, b)} :: b in h.before ==> BeforeOk(h, b))
  }

  // ---- replicas ----

  ghost predicate CmdOk(h: History, v: ReplicaId, i: Instance, st: InstanceState) {
    && i in h.proposed && st.command == h.proposed[i]
    && match st.status
       case PreAccepted => (i, v) in h.opinions && h.opinions[(i, v)] == Opinion(st.seqNo, st.deps)
       case Accepted => i in h.accepts && h.accepts[i] == Opinion(st.seqNo, st.deps)
       case _ => i in h.decided && h.decided[i].seqNo == st.seqNo && h.decided[i].deps == st.deps
  }

  ghost function Agreeing(h: History, i: Instance, c: Collect): set<ReplicaId>
    requires i in h.heard
  {
    set u | u in h.heard[i] && (i, u) in h.opinions && h.opinions[(i, u)] == Opinion(c.initSeq, c.initDeps)
  }

  ghost predicate HeardOk(h: History, i: Instance, c: Collect) {
    && i in h.heard && h.heard[i] <= h.reps && |h.heard[i]| == c.replies && i.replica in h.heard[i]
    && (i, i.replica) in h.opinions && h.opinions[(i, i.replica)] == Opinion(c.initSeq, c.initDeps)
    && (forall u {:trigger u in h.heard[i]} :: u in h.heard[i] ==> Covered(h, i, u, c.unionSeq, c.unionDeps))
    && |Agreeing(h, i, c)| == c.agreed
  }

  ghost predicate AcceptingOk(h: History, i: Instance, c: Collect)
    requires h.reps != {}
  {
    && i in h.accepts && h.accepts[i] == Opinion(c.unionSeq, c.unionDeps)
    && c.replies >= FastQuorum(|h.reps|)
    && i in h.oks && h.oks[i] <= h.reps && |h.oks[i]| == c.acceptOks
    && (forall u {:trigger u in h.oks[i]} :: u in h.oks[i] ==> (i, u) in h.accepted)
  }

  ghost predicate CollectOk(h: History, v: ReplicaId, i: Instance, c: Collect)
    requires h.reps != {}
  {
    && i.replica == v && i in h.proposed && c.command == h.proposed[i] && i !in h.decided
    && HeardOk(h, i, c)
    && (if c.accepting then AcceptingOk(h, i, c) else i !in h.accepts)
  }

  ghost predicate Keeps(h: History, v: ReplicaId, cmds: Commands, i: Instance) {
    && ((i, v) in h.opinions ==> i in cmds)
    && ((i, v) in h.accepted ==> i in cmds && Rank(cmds[i].status) >= 1)
  }

  ghost function DecidedGraph(h: History): map<Instance, Deps> {
    map i | i in h.decided :: h.decided[i].deps
  }

  ghost predicate DecidedKeyLess(h: History, a: Instance, b: Instance) {
    a in h.decided && b in h.decided
    && (h.decided[a].seqNo < h.decided[b].seqNo || (h.decided[a].seqNo == h.decided[b].seqNo && InstanceLess(a, b)))
  }

  /** The order every replica keeps: dependencies first, cycles by key. */
  ghost predicate Ordered(h: History, a: Instance, b: Instance) {
    Reach(DecidedGraph(h), a, b) ==> Reach(DecidedGraph(h), b, a) && DecidedKeyLess(h, a, b)
  }

  ghost function Listed(q: seq<Instance>): set<Instance> {
    set i | i in q
  }

  ghost predicate ExecOk(h: History, cmds: Commands, executed: seq<Instance>) {
    && Distinct(executed)
    && (forall i {:trigger IsExecuted(cmds, i)} :: i in executed <==> IsExecuted(cmds, i))
    && Listed(executed) <= h.decided.Keys
    && Closed(DecidedGraph(h), Listed(executed))
    && (forall j, k {:trigger executed[j], executed[k]} :: 0 <= j < k < |executed| ==>
          Ordered(h, executed[j], executed[k]))
  }

  ghost predicate Shape(h: History, v: ReplicaId, n: Replica) {
    && n.id == v && v in h.reps && Elements(n.replicas) == h.reps && |n.replicas| == |h.reps|
       && StrictlyIncreasing(n.replicas)
    && (forall s: nat {:trigger Instance(v, s)} :: Instance(v, s) in h.proposed <==> s < n.nextSlot)
  }

  ghost predicate NodeOk(h: History, v: ReplicaId, n: Replica)
    requires h.reps != {}
  {
    && Shape(h, v, n)
    && (forall i {:trigger n.cmds[i]} :: i in n.cmds ==> CmdOk(h, v, i, n.cmds[i]))
    && (forall i {:trigger Keeps(h, v, n.cmds, i)} :: Keeps(h, v, n.cmds, i))
    && (forall i {:trigger n.collects[i]} :: i in n.collects ==> CollectOk(h, v, i, n.collects[i]))
    && ExecOk(h, n.cmds, n.executed)
  }

  // ---- messages ----

  ghost predicate PacketOk(h: History, p: Packet) {
    && p.src in h.reps && p.dst in h.reps && p.src != p.dst && p.msg.instance in h.proposed
    && match p.msg
       case PreAccept(i, _, command, seqNo, _) =>
         && p.src == i.replica && command == h.proposed[i]
         && (i, p.src) in h.opinions && h.opinions[(i, p.src)].seqNo == seqNo
       case PreAcceptReply(i, _, seqNo, deps) =>
         p.dst == i.replica && (i, p.src) in h.opinions && h.opinions[(i, p.src)] == Opinion(seqNo, deps)
       case Accept(i, _, command, seqNo, deps) =>
         p.src == i.replica && command == h.proposed[i] && i in h.accepts && h.accepts[i] == Opinion(seqNo, deps)
       case AcceptReply(i, _) => p.dst == i.replica && (i, p.src) in h.accepted
       case Commit(i, command, seqNo, deps) =>
         && p.src == i.replica && command == h.proposed[i]
         && i in h.decided && h.decided[i].seqNo == seqNo && h.decided[i].deps == deps
  }

  /** A message not yet delivered has not yet had its effect. */
  ghost predicate Pending(h: History, p: Packet) {
    match p.msg
    case PreAccept(i, _, _, _, _) => (i, p.dst) !in h.opinions
    case PreAcceptReply(i, _, _, _) => i in h.heard && p.src !in h.heard[i]
    case Accept(i, _, _, _, _) => (i, p.dst) !in h.accepted
    case AcceptReply(i, _) => i in h.oks && p.src !in h.oks[i]
    case Commit(_, _, _, _) => true
  }

  function Kind(m: Message): nat {
    match m
    case PreAccept(_, _, _, _, _) => 0
    case PreAcceptReply(_, _, _, _) => 1
    case Accept(_, _, _, _, _) => 2
    case AcceptReply(_, _) => 3
    case Commit(_, _, _, _) => 4
  }

  /** Same kind of message about the same instance between the same replicas. */
  predicate SameKey(p: Packet, q: Packet) {
    Kind(p.msg) == Kind(q.msg) && p.msg.instance == q.msg.instance && p.src == q.src && p.dst == q.dst
  }

  ghost predicate NoRepeats(sent: seq<Packet>) {
    forall j, k {:trigger sent[j], sent[k]} :: 0 <= j < k < |sent| ==> !SameKey(sent[j], sent[k])
  }

  ghost predicate NetOk(h: History, sent: seq<Packet>, delivered: set<nat>) {
    && NoRepeats(sent) && (forall k :: k in delivered ==> k < |sent|)
    && forall k {:trigger sent[k]} :: 0 <= k < |sent| ==>
         PacketOk(h, sent[k]) && (k !in delivered ==> Pending(h, sent[k]))
  }

  ghost predicate ClusterOk(conflict: Interference, h: History, c: Cluster) {
    && HistoryOk(conflict, h)
    && c.nodes.Keys == h.reps
    && (forall v {:trigger NodeOk(h, v, c.nodes[v])} :: v in c.nodes ==> NodeOk(h, v, c.nodes[v]))
    && NetOk(h, c.sent, c.delivered)
  }

  // ---- growth ----

  ghost predicate MapGrows<K(!new), V>(m: map<K, V>, g: map<K, V>) {
    forall k {:trigger k in m} {:trigger g[k]} :: k in m ==> k in g && g[k] == m[k]
  }

  /** `g` adds to `h` only what replica `id` can have done about instance `i`. */
  ghost predicate Grows(h: History, g: History, id: ReplicaId, i: Instance) {
    && g.reps == h.reps
    && MapGrows(h.proposed, g.proposed) && MapGrows(h.opinions, g.opinions) && MapGrows(h.accepts, g.accepts)
    && MapGrows(h.decided, g.decided) && MapGrows(h.before, g.before) && h.accepted <= g.accepted
    && (forall j, v {:trigger (j, v) in g.opinions} :: (j, v) in g.opinions && (j, v) !in h.opinions ==>
          j == i && v == id)
    && (forall j, v {:trigger (j, v) in g.accepted} :: (j, v) in g.accepted && (j, v) !in h.accepted ==>
          j == i && v == id)
    && (forall j {:trigger j in g.proposed} :: j in g.proposed && j !in h.proposed ==> j == i && i.replica == id)
    && (forall j {:trigger j in g.accepts} :: j in g.accepts && j !in h.accepts ==> j == i && i.replica == id)
    && (forall j {:trigger j in g.decided} :: j in g.decided && j !in h.decided ==> j == i && i.replica == id)
    && (forall j {:trigger g.heard[j]} {:trigger h.heard[j]} :: j in h.heard && (j != i || i.replica != id) ==>
          j in g.heard && g.heard[j] == h.heard[j])
    && (forall j {:trigger g.oks[j]} {:trigger h.oks[j]} :: j in h.oks && (j != i || i.replica != id) ==>
          j in g.oks && g.oks[j] == h.oks[j])
  }

  lemma PacketStable(h: History, g: History, id: ReplicaId, i: Instance, p: Packet)
    requires Grows(h, g, id, i) && PacketOk(h, p)
    ensures PacketOk(g, p)
  {
  }

  lemma ExecStable(h: History, g: History, cmds: Commands, executed: seq<Instance>)
    requires MapGrows(h.decided, g.decided) && ExecOk(h, cmds, executed)
    ensures ExecOk(g, cmds, executed)
  {
    var d, e, s := DecidedGraph(h), DecidedGraph(g), Listed(executed);
    assert Within(e, d, s) && Closed(e, s) && Within(d, e, s);
    forall j, k | 0 <= j < k < |executed| ensures Ordered(g, executed[j], executed[k]) {
      var a, b := executed[j], executed[k];
      assert Ordered(h, a, b);
      if Reach(e, a, b) {
        ReachWithin(e, d, s, a, b);
        ReachWithin(d, e, s, b, a);
      }
    }
  }

  lemma CollectStable(h: History, g: History, id: ReplicaId, i: Instance, v: ReplicaId, j: Instance, c: Collect)
    requires h.reps != {} && Grows(h, g, id, i) && CollectOk(h, v, j, c) && (j != i || v != id)
    ensures CollectOk(g, v, j, c)
  {
    assert Agreeing(g, j, c) == Agreeing(h, j, c);
  }

  lemma NodeStable(h: History, g: History, id: ReplicaId, i: Instance, v: ReplicaId, n: Replica)
    requires h.reps != {} && Grows(h, g, id, i) && NodeOk(h, v, n) && v != id
    ensures NodeOk(g, v, n)
  {
    forall j | j in n.collects ensures CollectOk(g, v, j, n.collects[j]) {
      CollectStable(h, g, id, i, v, j, n.collects[j]);
    }
    forall j ensures Keeps(g, v, n.cmds, j) { assert Keeps(h, v, n.cmds, j); }
    ExecStable(h, g, n.cmds, n.executed);
  }
}
