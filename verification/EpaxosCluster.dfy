/** A group of EPaxos replicas over a network that may lose and reorder messages
    but delivers each one at most once (replies are counted, not keyed by sender). */
module EpaxosCluster {
  import opened Membership
  import opened EpaxosModel

  datatype Packet = Packet(src: ReplicaId, dst: ReplicaId, msg: Message)

  /** `sent` lists every message ever sent, `delivered` the positions already delivered. */
  datatype Cluster = Cluster(nodes: map<ReplicaId, Replica>, sent: seq<Packet>, delivered: set<nat>)

  datatype Step = Submit(id: ReplicaId, command: Bytes) | Deliver(k: nat)

  ghost predicate Init(c: Cluster, replicas: seq<ReplicaId>) {
    c == Cluster(map id | id in Elements(replicas) :: NewReplica(id, replicas), [], {})
  }

  predicate Enabled(c: Cluster, s: Step) {
    match s
    case Submit(id, _) => id in c.nodes
    case Deliver(k) =>
      k < |c.sent| && k !in c.delivered && c.sent[k].dst in c.nodes && c.nodes[c.sent[k].dst].replicas != []
  }

  function Actor(c: Cluster, s: Step): ReplicaId
    requires Enabled(c, s)
  {
    match s
    case Submit(id, _) => id
    case Deliver(k) => c.sent[k].dst
  }

  ghost function Act(conflict: Interference, c: Cluster, s: Step): Outcome
    requires Enabled(c, s)
  {
    match s
    case Submit(id, command) => Propose(conflict, c.nodes[id], command)
    case Deliver(k) => OnMessage(conflict, c.nodes[c.sent[k].dst], c.sent[k].src, c.sent[k].msg)
  }

  function Packets(id: ReplicaId, outs: seq<Addressed>): (r: seq<Packet>)
    ensures |r| == |outs|
    ensures forall i :: 0 <= i < |r| ==> r[i] == Packet(id, outs[i].dest, outs[i].msg)
  {
    seq(|outs|, i requires 0 <= i < |outs| => Packet(id, outs[i].dest, outs[i].msg))
  }

  ghost predicate Finishes(o: Outcome, r: Replica) {
    if o.executes then Executes(o.replica, r) else r == o.replica
  }

  /** One step; a step that is not enabled changes nothing. */
  ghost predicate Next(conflict: Interference, c: Cluster, s: Step, d: Cluster) {
    if !Enabled(c, s) then d == c
    else
      var id, o := Actor(c, s), Act(conflict, c, s);
      && id in d.nodes && Finishes(o, d.nodes[id])
      && d == Cluster(c.nodes[id := d.nodes[id]], c.sent + Packets(id, o.outs),
                      if s.Deliver? then c.delivered + {s.k} else c.delivered)
  }

  /** `cs` are the states of a run that takes `steps`. */
  ghost predicate IsRun(conflict: Interference, replicas: seq<ReplicaId>, steps: seq<Step>, cs: seq<Cluster>) {
    && |cs| == |steps| + 1 && Init(cs[0], replicas)
    && forall i {:trigger steps[i]} :: 0 <= i < |steps| ==> Next(conflict, cs[i], steps[i], cs[i + 1])
  }
}
