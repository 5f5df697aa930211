/** The EPaxos replica: one function per handler, from a replica state and an
    input to a new state and addressed messages. Execution of committed
    commands is a relation (`ExecutesBatch`), which fixes everything about the
    order that the source's comments promise and leaves open the rest. */
module EpaxosModel {
  import opened Wrappers
  import RaftTypes
  import opened Membership
  import opened Digraph

  type ReplicaId = RaftTypes.ReplicaId
  type Bytes = RaftTypes.Bytes

  /** The `slot`-th command led by `replica`. */
  datatype Instance = Instance(replica: ReplicaId, slot: nat)

  predicate InstanceLess(a: Instance, b: Instance) {
    a.replica < b.replica || (a.replica == b.replica && a.slot < b.slot)
  }

  datatype Status = PreAccepted | Accepted | Committed | Executed

  function Rank(s: Status): nat {
    match s
    case PreAccepted => 0
    case Accepted => 1
    case Committed => 2
    case Executed => 3
  }

  type Deps = set<Instance>

  datatype InstanceState = InstanceState(command: Bytes, seqNo: nat, deps: Deps, status: Status, ballot: nat)

  type Commands = map<Instance, InstanceState>

  datatype Message =
    | PreAccept(instance: Instance, ballot: nat, command: Bytes, seqNo: nat, deps: Deps)
    | PreAcceptReply(instance: Instance, ballot: nat, seqNo: nat, deps: Deps)
    | Accept(instance: Instance, ballot: nat, command: Bytes, seqNo: nat, deps: Deps)
    | AcceptReply(instance: Instance, ballot: nat)
    | Commit(instance: Instance, command: Bytes, seqNo: nat, deps: Deps)

  datatype Addressed = To(dest: ReplicaId, msg: Message)

  /** A command leader's bookkeeping; `replies`, `agreed` and `acceptOks` count the leader itself. */
  datatype Collect = Collect(command: Bytes, initSeq: nat, initDeps: Deps, replies: nat, agreed: nat,
                             unionSeq: nat, unionDeps: Deps, accepting: bool, acceptOks: nat)

  /** `executed` lists the instances handed to the state machine, in order. */
  datatype Replica = Replica(id: ReplicaId, replicas: seq<ReplicaId>, nextSlot: nat, cmds: Commands,
                             collects: map<Instance, Collect>, executed: seq<Instance>)

  /** Which commands conflict. */
  type Interference = (Bytes, Bytes) -> bool

  function NewReplica(id: ReplicaId, replicas: seq<ReplicaId>): Replica {
    Replica(id, Sorted(replicas), 0, map[], map[], [])
  }

  // ---- quorums ----

  function SlowQuorum(n: nat): nat {
    n / 2 + 1
  }

  /** F + ceil(F/2) for F = (n - 1) / 2. */
  function FastQuorum(n: nat): nat
    requires n > 0
  {
    var f := (n - 1) / 2;
    f + (f + 1) / 2
  }

  // ---- attributes of a command ----

  function LocalDeps(conflict: Interference, cmds: Commands, command: Bytes, exclude: Instance): (r: Deps) {
    set i | i in cmds && i != exclude && conflict(command, cmds[i].command)
  }

  /** The largest sequence number among the instances in `s`, 0 if there are none. */
  ghost function MaxSeq(cmds: Commands, s: Deps): (r: nat)
    requires s <= cmds.Keys
    ensures forall i :: i in s ==> cmds[i].seqNo <= r
    ensures r == 0 || exists i :: i in s && cmds[i].seqNo == r
  {
    if s == {} then 0
    else
      var i :| i in s;
      Max(cmds[i].seqNo, MaxSeq(cmds, s - {i}))
  }

  function Max(a: nat, b: nat): nat {
    if a >= b then a else b
  }

  ghost function LocalSeq(conflict: Interference, cmds: Commands, command: Bytes, exclude: Instance): nat {
    MaxSeq(cmds, LocalDeps(conflict, cmds, command, exclude)) + 1
  }

  /** Insert or overwrite, unless what is there is further along. */
  function Record(cmds: Commands, inst: Instance, st: InstanceState): Commands {
    if inst in cmds && Rank(st.status) < Rank(cmds[inst].status) then cmds else cmds[inst := st]
  }

  function ToPeers(n: Replica, msg: Message): seq<Addressed> {
    var ps := Without(n.replicas, n.id);
    seq(|ps|, i requires 0 <= i < |ps| => To(ps[i], msg))
  }

  // ---- handlers ----

  /** A handler's new state and messages; `executes` says that it goes on to execute what it can. */
  datatype Outcome = Outcome(replica: Replica, outs: seq<Addressed>, executes: bool)

  ghost function Propose(conflict: Interference, n: Replica, command: Bytes): Outcome {
    var inst := Instance(n.id, n.nextSlot);
    var deps := LocalDeps(conflict, n.cmds, command, inst);
    var seqNo := LocalSeq(conflict, n.cmds, command, inst);
    Outcome(n.(nextSlot := n.nextSlot + 1,
               cmds := Record(n.cmds, inst, InstanceState(command, seqNo, deps, PreAccepted, 0)),
               collects := n.collects[inst := Collect(command, seqNo, deps, 1, 1, seqNo, deps, false, 1)]),
            ToPeers(n, PreAccept(inst, 0, command, seqNo, deps)), false)
  }

  ghost function OnPreAccept(conflict: Interference, n: Replica, from: ReplicaId, inst: Instance, ballot: nat,
                             command: Bytes, seqNo: nat, deps: Deps): Outcome {
    var mergedSeq := Max(seqNo, LocalSeq(conflict, n.cmds, command, inst));
    var mergedDeps := deps + LocalDeps(conflict, n.cmds, command, inst);
    Outcome(n.(cmds := Record(n.cmds, inst, InstanceState(command, mergedSeq, mergedDeps, PreAccepted, ballot))),
            [To(from, PreAcceptReply(inst, ballot, mergedSeq, mergedDeps))], false)
  }

  /** The tally after one more reply. */
  function Tally(c: Collect, seqNo: nat, deps: Deps): Collect {
    c.(replies := c.replies + 1,
       agreed := if seqNo == c.initSeq && deps == c.initDeps then c.agreed + 1 else c.agreed,
       unionSeq := Max(c.unionSeq, seqNo), unionDeps := c.unionDeps + deps)
  }

  function OnPreAcceptReply(n: Replica, inst: Instance, seqNo: nat, deps: Deps): Outcome
    requires n.replicas != []
  {
    if inst !in n.collects || n.collects[inst].accepting then Outcome(n, [], false)
    else
      Decide(n.(collects := n.collects[inst := Tally(n.collects[inst], seqNo, deps)]), inst)
  }

  /** Fast path, slow path, or keep collecting. */
  function Decide(n: Replica, inst: Instance): Outcome
    requires n.replicas != [] && inst in n.collects
  {
    var c, fq, sq := n.collects[inst], FastQuorum(|n.replicas|), SlowQuorum(|n.replicas|);
    if c.replies < fq then Outcome(n, [], false)
    else if c.agreed >= fq then CommitAsLeader(n, inst, c.command, c.initSeq, c.initDeps)
    else if c.replies >= sq then StartAccept(n, inst, c)
    else Outcome(n, [], false)
  }

  function StartAccept(n: Replica, inst: Instance, c: Collect): Outcome {
    Outcome(n.(collects := n.collects[inst := c.(accepting := true, acceptOks := 1)],
               cmds := Record(n.cmds, inst, InstanceState(c.command, c.unionSeq, c.unionDeps, Accepted, 0))),
            ToPeers(n, Accept(inst, 0, c.command, c.unionSeq, c.unionDeps)), false)
  }

  function CommitAsLeader(n: Replica, inst: Instance, command: Bytes, seqNo: nat, deps: Deps): Outcome {
    Outcome(n.(collects := n.collects - {inst},
               cmds := Record(n.cmds, inst, InstanceState(command, seqNo, deps, Committed, 0))),
            ToPeers(n, Commit(inst, command, seqNo, deps)), true)
  }

  function OnAccept(n: Replica, from: ReplicaId, inst: Instance, ballot: nat, command: Bytes, seqNo: nat,
                    deps: Deps): Outcome {
    Outcome(n.(cmds := Record(n.cmds, inst, InstanceState(command, seqNo, deps, Accepted, ballot))),
            [To(from, AcceptReply(inst, ballot))], false)
  }

  function OnAcceptReply(n: Replica, inst: Instance): Outcome {
    if inst !in n.collects || !n.collects[inst].accepting then Outcome(n, [], false)
    else
      var c := n.collects[inst].(acceptOks := n.collects[inst].acceptOks + 1);
      var n1 := n.(collects := n.collects[inst := c]);
      if c.acceptOks < SlowQuorum(|n.replicas|) then Outcome(n1, [], false)
      else CommitAsLeader(n1, inst, c.command, c.unionSeq, c.unionDeps)
  }

  function OnCommit(n: Replica, inst: Instance, command: Bytes, seqNo: nat, deps: Deps): Outcome {
    Outcome(n.(cmds := Record(n.cmds, inst, InstanceState(command, seqNo, deps, Committed, 0))), [], true)
  }

  ghost function OnMessage(conflict: Interference, n: Replica, from: ReplicaId, msg: Message): Outcome
    requires n.replicas != []
  {
    match msg
    case PreAccept(inst, ballot, command, seqNo, deps) =>
      OnPreAccept(conflict, n, from, inst, ballot, command, seqNo, deps)
    case PreAcceptReply(inst, _, seqNo, deps) => OnPreAcceptReply(n, inst, seqNo, deps)
    case Accept(inst, ballot, command, seqNo, deps) => OnAccept(n, from, inst, ballot, command, seqNo, deps)
    case AcceptReply(inst, _) => OnAcceptReply(n, inst)
    case Commit(inst, command, seqNo, deps) => OnCommit(n, inst, command, seqNo, deps)
  }

  // ---- execution ----

  predicate IsCommitted(cmds: Commands, i: Instance) {
    i in cmds && cmds[i].status == Committed
  }

  predicate IsExecuted(cmds: Commands, i: Instance) {
    i in cmds && cmds[i].status == Executed
  }

  /** Committed instances whose dependencies are executed or among them. */
  ghost predicate Executable(cmds: Commands, s: Deps) {
    forall i {:trigger i in s} :: i in s ==>
      IsCommitted(cmds, i) && forall d {:trigger IsExecuted(cmds, d)} {:trigger d in s} :: d in cmds[i].deps ==>
            IsExecuted(cmds, d) || d in s
  }

  /** The largest executable set: everything committed with all transitive dependencies committed. */
  ghost predicate Eligible(cmds: Commands, s: Deps) {
    Executable(cmds, s) && forall t {:trigger Executable(cmds, t)} :: Executable(cmds, t) ==> t <= s
  }

  /** Order inside a dependency cycle: by sequence number, then instance. */
  predicate KeyLess(cmds: Commands, a: Instance, b: Instance)
    requires a in cmds && b in cmds
  {
    cmds[a].seqNo < cmds[b].seqNo || (cmds[a].seqNo == cmds[b].seqNo && InstanceLess(a, b))
  }

  /** What is known of each instance's dependencies. */
  function Graph(cmds: Commands): map<Instance, Deps> {
    map i | i in cmds :: cmds[i].deps
  }

  /** Mark everything in the batch executed. */
  function MarkExecuted(cmds: Commands, batch: seq<Instance>): Commands {
    map i | i in cmds :: if i in batch then cmds[i].(status := Executed) else cmds[i]
  }

  /** `x` may run before `y`: if it depends on `y` they depend on each other and it has the smaller key. */
  ghost predicate MayPrecede(cmds: Commands, g: map<Instance, Deps>, x: Instance, y: Instance)
    requires x in cmds && y in cmds
  {
    Reach(g, x, y) ==> Reach(g, y, x) && KeyLess(cmds, x, y)
  }

  /** `batch` lists `s` once each, dependencies first and cycles by key. */
  ghost predicate InExecutionOrder(cmds: Commands, s: Deps, batch: seq<Instance>)
    requires s <= cmds.Keys
  {
    && Distinct(batch)
    && (forall i :: i in batch <==> i in s)
    && forall j, k {:trigger batch[j], batch[k]} :: 0 <= j < k < |batch| ==>
         MayPrecede(cmds, Restrict(Graph(cmds), s), batch[j], batch[k])
  }

  /** From `n` to `r`, everything eligible is executed, in execution order. */
  ghost predicate ExecutesBatch(n: Replica, r: Replica, s: Deps, batch: seq<Instance>) {
    && Eligible(n.cmds, s) && s <= n.cmds.Keys
    && InExecutionOrder(n.cmds, s, batch)
    && r == n.(cmds := MarkExecuted(n.cmds, batch), executed := n.executed + batch)
  }

  ghost predicate Executes(n: Replica, r: Replica) {
    exists s, batch :: ExecutesBatch(n, r, s, batch)
  }
}
