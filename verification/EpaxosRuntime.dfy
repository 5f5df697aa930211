/** The EPaxos replica as the source runs it: fields updated in place, a fixpoint
    loop for what can be executed, Tarjan's algorithm for the order. Every method is
    tied to the corresponding handler of `EpaxosModel`, about which the theorems are. */
module EpaxosRuntime {
  import opened Wrappers
  import opened Membership
  import opened Digraph
  import opened Tarjan
  import opened EpaxosModel
  import opened EpaxosCluster
  import opened EpaxosConvergence

  // ---- lists of instances ----

  method Listing(s: Deps) returns (q: seq<Instance>)
    ensures Distinct(q) && forall i :: i in q <==> i in s
  {
    q := [];
    var rest := s;
    while rest != {}
      invariant rest <= s && Distinct(q) && forall i :: i in q <==> i in s && i !in rest
      decreases |rest|
    {
      var i :| i in rest;
      q := q + [i];
      rest := rest - {i};
    }
  }

  /** Strictly increasing by sequence number, then instance. */
  ghost predicate ByKey(cmds: Commands, q: seq<Instance>) {
    && (forall k {:trigger q[k]} :: 0 <= k < |q| ==> q[k] in cmds)
    && forall j, k {:trigger q[j], q[k]} :: 0 <= j < k < |q| ==> KeyLess(cmds, q[j], q[k])
  }

  method InsertByKey(cmds: Commands, q: seq<Instance>, x: Instance) returns (r: seq<Instance>)
    requires ByKey(cmds, q) && x in cmds && x !in q
    ensures ByKey(cmds, r) && forall i :: i in r <==> i in q || i == x
  {
    var k := 0;
    while k < |q| && KeyLess(cmds, q[k], x)
      invariant 0 <= k <= |q| && forall j :: 0 <= j < k ==> KeyLess(cmds, q[j], x)
    {
      k := k + 1;
    }
    r := q[..k] + [x] + q[k..];
    assert q == q[..k] + q[k..];
    forall j | k <= j < |q| ensures KeyLess(cmds, x, q[j]) {
      assert q[k] in q && KeyLess(cmds, x, q[k]);
    }
    Inserted(cmds, q, k, x);
  }

  lemma Inserted(cmds: Commands, q: seq<Instance>, k: nat, x: Instance)
    requires ByKey(cmds, q) && x in cmds && k <= |q|
    requires forall j :: 0 <= j < k ==> KeyLess(cmds, q[j], x)
    requires forall j :: k <= j < |q| ==> KeyLess(cmds, x, q[j])
    ensures ByKey(cmds, q[..k] + [x] + q[k..])
  {
    var r := q[..k] + [x] + q[k..];
    assert forall i :: 0 <= i < |r| ==> r[i] == if i < k then q[i] else if i == k then x else q[i - 1];
    forall i, j | 0 <= i < j < |r| ensures KeyLess(cmds, r[i], r[j]) {
      var a, b := if i < k then i else i - 1, if j < k then j else j - 1;
      if i != k && j != k { assert KeyLess(cmds, q[a], q[b]); }
    }
  }

  method SortByKey(cmds: Commands, q: seq<Instance>) returns (r: seq<Instance>)
    requires Distinct(q) && forall k :: 0 <= k < |q| ==> q[k] in cmds
    ensures ByKey(cmds, r) && forall i :: i in r <==> i in q
  {
    r := [];
    for k := 0 to |q|
      invariant ByKey(cmds, r) && forall i :: i in r <==> i in q[..k]
    {
      assert q[k] !in q[..k];
      r := InsertByKey(cmds, r, q[k]);
      assert q[..k + 1] == q[..k] + [q[k]];
    }
    assert q[..|q|] == q;
  }

  // ---- what can be executed ----

  method Blocked(cmds: Commands, eligible: Deps, inst: Instance) returns (blocked: bool)
    requires inst in cmds
    ensures blocked <==> exists d :: d in cmds[inst].deps && !IsExecuted(cmds, d) && d !in eligible
  {
    blocked := exists d :: d in cmds[inst].deps && !IsExecuted(cmds, d) && d !in eligible;
  }

  /** Drop blocked instances until nothing changes. */
  method FindEligible(cmds: Commands) returns (eligible: Deps)
    ensures Eligible(cmds, eligible) && eligible <= cmds.Keys
  {
    eligible := set i | i in cmds && cmds[i].status == Committed;
    var removed := true;
    while removed
      invariant eligible <= cmds.Keys && forall i :: i in eligible ==> IsCommitted(cmds, i)
      invariant forall t {:trigger Executable(cmds, t)} :: Executable(cmds, t) ==> t <= eligible
      invariant !removed ==> Executable(cmds, eligible)
      decreases |eligible|, removed
    {
      removed := false;
      var snapshot := Listing(eligible);
      ghost var before := eligible;
      for k := 0 to |snapshot|
        invariant eligible <= before && (!removed ==> eligible == before) && (removed ==> |eligible| < |before|)
        invariant forall t {:trigger Executable(cmds, t)} :: Executable(cmds, t) ==> t <= eligible
        invariant !removed ==> forall j :: 0 <= j < k ==> Unblocked(cmds, eligible, snapshot[j])
      {
        var blocked := Blocked(cmds, eligible, snapshot[k]);
        if blocked {
          StaysOut(cmds, eligible, snapshot[k]);
          var smaller := eligible - {snapshot[k]};
          eligible := smaller;
          removed := true;
        }
      }
    }
  }

  ghost predicate Unblocked(cmds: Commands, s: Deps, i: Instance) {
    i in cmds && forall d {:trigger IsExecuted(cmds, d)} {:trigger d in s} :: d in cmds[i].deps ==>
          IsExecuted(cmds, d) || d in s
  }

  /** A blocked instance is in no executable set. */
  lemma StaysOut(cmds: Commands, s: Deps, i: Instance)
    requires i in cmds && exists d :: d in cmds[i].deps && !IsExecuted(cmds, d) && d !in s
    requires forall t {:trigger Executable(cmds, t)} :: Executable(cmds, t) ==> t <= s
    ensures forall t {:trigger Executable(cmds, t)} :: Executable(cmds, t) ==> t <= s - {i}
  {
    forall t | Executable(cmds, t) ensures t <= s - {i} {
      assert t <= s;
      assert i !in t;
    }
  }

  // ---- the order of execution ----

  /** `batch` lists the first `k` components, one after the other, each by key. */
  ghost predicate Planned(cmds: Commands, g: map<Instance, Deps>, sccs: seq<seq<Instance>>, k: nat,
                          batch: seq<Instance>)
    requires k <= |sccs|
  {
    && Distinct(batch)
    && (forall j {:trigger batch[j]} :: 0 <= j < |batch| ==> batch[j] in cmds)
    && (forall i {:trigger Among(sccs, k, i)} :: i in batch <==> Among(sccs, k, i))
    && forall i, j {:trigger batch[i], batch[j]} :: 0 <= i < j < |batch| ==> MayPrecede(cmds, g, batch[i], batch[j])
  }

  lemma SortedComponent(cmds: Commands, g: map<Instance, Deps>, comp: seq<Instance>, sorted: seq<Instance>, i: int,
                        j: int)
    requires IsComponent(g, comp) && ByKey(cmds, sorted) && (forall x :: x in sorted <==> x in comp)
             && 0 <= i < j < |sorted|
    requires forall x :: x in comp ==> x in g
    ensures sorted[i] != sorted[j] && MayPrecede(cmds, g, sorted[i], sorted[j])
  {
    assert sorted[i] in sorted && sorted[j] in sorted;
    assert KeyLess(cmds, sorted[i], sorted[j]);
    assert Mutual(g, sorted[i], sorted[j]);
  }

  lemma AcrossComponents(g: map<Instance, Deps>, sccs: seq<seq<Instance>>, done: Deps, k: nat, x: Instance, y: Instance)
    requires Components(g, done, sccs) && k < |sccs| && Among(sccs, k, x) && y in sccs[k]
    ensures !Reach(g, x, y) && x != y
  {
    var c :| 0 <= c < k && x in sccs[c];
    assert NoReachBetween(g, sccs[c], sccs[k]);
    ReachSelf(g, x);
  }

  lemma PlanMore(cmds: Commands, g: map<Instance, Deps>, sccs: seq<seq<Instance>>, k: nat, batch: seq<Instance>,
                 sorted: seq<Instance>)
    requires Components(g, g.Keys, sccs) && k < |sccs| && Planned(cmds, g, sccs, k, batch)
    requires ByKey(cmds, sorted) && forall x :: x in sorted <==> x in sccs[k]
    ensures Planned(cmds, g, sccs, k + 1, batch + sorted)
  {
    var all := batch + sorted;
    forall x | x in sccs[k] ensures x in g { assert Among(sccs, |sccs|, x); }
    forall i, j | 0 <= i < j < |all|
      ensures all[i] in cmds && all[j] in cmds && all[i] != all[j] && MayPrecede(cmds, g, all[i], all[j])
    {
      if j < |batch| {
        assert all[i] == batch[i] && all[j] == batch[j];
      } else if i < |batch| {
        assert all[i] == batch[i] && sorted[j - |batch|] in sorted;
        assert batch[i] in batch && Among(sccs, k, batch[i]);
        AcrossComponents(g, sccs, g.Keys, k, all[i], all[j]);
      } else {
        SortedComponent(cmds, g, sccs[k], sorted, i - |batch|, j - |batch|);
      }
    }
    forall x ensures x in all <==> Among(sccs, k + 1, x) {
      assert Among(sccs, k + 1, x) <==> Among(sccs, k, x) || x in sccs[k] by { AmongNext(sccs, k, x); }
      assert x in all <==> x in batch || x in sorted;
    }
  }

  lemma AmongNext(sccs: seq<seq<Instance>>, k: nat, x: Instance)
    requires k < |sccs|
    ensures Among(sccs, k + 1, x) <==> Among(sccs, k, x) || x in sccs[k]
  {
  }

  lemma PlanDone(cmds: Commands, s: Deps, sccs: seq<seq<Instance>>, batch: seq<Instance>)
    requires s <= cmds.Keys && Components(Restrict(Graph(cmds), s), s, sccs)
    requires Planned(cmds, Restrict(Graph(cmds), s), sccs, |sccs|, batch)
    ensures InExecutionOrder(cmds, s, batch)
  {
    forall i ensures i in batch <==> i in s {
      assert i in s <==> Among(sccs, |sccs|, i);
    }
  }

  /** The dependencies of each eligible instance that are themselves eligible, as lists. */
  method Successors(cmds: Commands, eligible: Deps, nodes: seq<Instance>) returns (succ: map<Instance, seq<Instance>>)
    requires eligible <= cmds.Keys && forall i :: i in nodes <==> i in eligible
    ensures Total(succ) && succ.Keys == eligible && SameEdges(Adj(succ), Restrict(Graph(cmds), eligible))
  {
    succ := map[];
    for k := 0 to |nodes|
      invariant succ.Keys == (set i | i in nodes[..k])
      invariant forall i {:trigger succ[i]} :: i in succ ==> i in cmds && forall d :: d in succ[i] <==>
                  d in cmds[i].deps && d in eligible
    {
      var deps := Listing(cmds[nodes[k]].deps * eligible);
      succ := succ[nodes[k] := deps];
      assert nodes[..k + 1] == nodes[..k] + [nodes[k]];
    }
    assert nodes[..|nodes|] == nodes;
    SuccessorsAdj(cmds, eligible, succ);
  }

  lemma SuccessorsAdj(cmds: Commands, eligible: Deps, succ: map<Instance, seq<Instance>>)
    requires eligible <= cmds.Keys && succ.Keys == eligible
    requires forall i {:trigger succ[i]} :: i in succ ==> i in cmds && forall d :: d in succ[i] <==>
               d in cmds[i].deps && d in eligible
    ensures Total(succ) && SameEdges(Adj(succ), Restrict(Graph(cmds), eligible))
  {
    var a, b := Adj(succ), Restrict(Graph(cmds), eligible);
    forall i, d ensures Edge(a, i, d) <==> Edge(b, i, d) {
      assert i in succ ==> (d in succ[i] <==> d in cmds[i].deps && d in eligible);
    }
    forall i, k | i in succ && 0 <= k < |succ[i]| ensures succ[i][k] in succ { assert succ[i][k] in succ[i]; }
  }

  /** Graphs with the same edges have the same components. */
  lemma SameComponents(g: map<Instance, Deps>, h: map<Instance, Deps>, done: Deps, sccs: seq<seq<Instance>>)
    requires SameEdges(g, h) && g.Keys == h.Keys && Components(g, done, sccs)
    ensures Components(h, done, sccs)
  {
    forall a, b ensures Reach(g, a, b) <==> Reach(h, a, b) { ReachSame(g, h, a, b); }
    forall k | 0 <= k < |sccs| ensures IsComponent(h, sccs[k]) && Distinct(sccs[k]) {
      assert IsComponent(g, sccs[k]) && Distinct(sccs[k]);
      forall a, b | a in sccs[k] && b in h ensures b in sccs[k] <==> Mutual(h, a, b) {
        assert b in g;
      }
    }
    forall j, k | 0 <= j < k < |sccs| ensures NoReachBetween(h, sccs[j], sccs[k]) {
      assert NoReachBetween(g, sccs[j], sccs[k]);
    }
  }

  // ---- the replica ----

  ghost predicate AllExecuted(cmds: Commands, q: seq<Instance>) {
    forall k {:trigger q[k]} :: 0 <= k < |q| ==> IsExecuted(cmds, q[k])
  }

  /** Recording never touches a command that has been executed. */
  lemma RecordTexts(cmds: Commands, inst: Instance, st: InstanceState, q: seq<Instance>)
    requires AllExecuted(cmds, q) && st.status != Executed
    ensures AllExecuted(Record(cmds, inst, st), q) && AllIn(CommandTexts(cmds), q)
            && AllIn(CommandTexts(Record(cmds, inst, st)), q)
    ensures Texts(CommandTexts(Record(cmds, inst, st)), q) == Texts(CommandTexts(cmds), q)
  {
    forall k | 0 <= k < |q| ensures q[k] in cmds && Record(cmds, inst, st)[q[k]] == cmds[q[k]] {
      assert IsExecuted(cmds, q[k]);
    }
  }

  /** Components list eligible instances. */
  lemma ComponentKnown(cmds: Commands, s: Deps, g: map<Instance, Deps>, sccs: seq<seq<Instance>>, k: nat)
    requires Components(g, s, sccs) && k < |sccs| && s <= cmds.Keys
    ensures Distinct(sccs[k]) && forall j {:trigger sccs[k][j]} :: 0 <= j < |sccs[k]| ==> sccs[k][j] in s
  {
    assert IsComponent(g, sccs[k]) && Distinct(sccs[k]);
    forall j | 0 <= j < |sccs[k]| ensures sccs[k][j] in s {
      assert sccs[k][j] in sccs[k];
      assert Among(sccs, |sccs|, sccs[k][j]);
    }
  }

  /** Marking instances executed does not change their keys. */
  lemma SortedBefore(cmds: Commands, batch: seq<Instance>, q: seq<Instance>)
    requires ByKey(MarkExecuted(cmds, batch), q)
    ensures ByKey(cmds, q)
  {
    forall j, k | 0 <= j < k < |q| ensures q[j] in cmds && q[k] in cmds && KeyLess(cmds, q[j], q[k]) {
      assert KeyLess(MarkExecuted(cmds, batch), q[j], q[k]);
    }
    forall k | 0 <= k < |q| ensures q[k] in cmds { assert q[k] in MarkExecuted(cmds, batch); }
  }

  /** Committed, not executed, each listed once. */
  ghost predicate Waiting(cmds: Commands, q: seq<Instance>) {
    Distinct(q) && forall j {:trigger q[j]} :: 0 <= j < |q| ==> q[j] in cmds && cmds[q[j]].status == Committed
  }

  /** The next component is waiting. */
  lemma ComponentWaits(cmds: Commands, s: Deps, g: map<Instance, Deps>, sccs: seq<seq<Instance>>, k: nat,
                       batch: seq<Instance>)
    requires Executable(cmds, s) && s <= cmds.Keys && Components(g, s, sccs) && k < |sccs|
             && Planned(cmds, g, sccs, k, batch)
    ensures Waiting(MarkExecuted(cmds, batch), sccs[k])
  {
    ComponentKnown(cmds, s, g, sccs, k);
    forall j | 0 <= j < |sccs[k]|
      ensures sccs[k][j] in cmds && MarkExecuted(cmds, batch)[sccs[k][j]].status == Committed
    {
      var x := sccs[k][j];
      assert x in sccs[k] && IsCommitted(cmds, x);
      forall i | 0 <= i < |batch| ensures batch[i] != x {
        assert batch[i] in batch && Among(sccs, k, batch[i]);
        AcrossComponents(g, sccs, s, k, batch[i], x);
      }
    }
  }

  /** Sorted, it continues the plan. */
  lemma NextComponent(cmds: Commands, s: Deps, g: map<Instance, Deps>, sccs: seq<seq<Instance>>, k: nat,
                      batch: seq<Instance>, scc: seq<Instance>)
    requires s <= cmds.Keys && g == Restrict(Graph(cmds), s) && Components(g, s, sccs)
    requires k < |sccs| && Planned(cmds, g, sccs, k, batch)
    requires ByKey(MarkExecuted(cmds, batch), scc) && forall i :: i in scc <==> i in sccs[k]
    ensures Planned(cmds, g, sccs, k + 1, batch + scc)
    ensures MarkExecuted(MarkExecuted(cmds, batch), scc) == MarkExecuted(cmds, batch + scc)
  {
    SortedBefore(cmds, batch, scc);
    PlanMore(cmds, g, sccs, k, batch, scc);
  }

  lemma Advance(before: Commands, past: seq<Instance>, s: Deps, g: map<Instance, Deps>, sccs: seq<seq<Instance>>,
                k: nat, batch: seq<Instance>, scc: seq<Instance>, cmds0: Commands, cmds: Commands,
                executed: seq<Instance>)
    requires s <= before.Keys && g == Restrict(Graph(before), s) && Components(g, s, sccs)
    requires k < |sccs| && Planned(before, g, sccs, k, batch) && cmds0 == MarkExecuted(before, batch)
    requires ByKey(cmds0, scc) && (forall i :: i in scc <==> i in sccs[k]) && cmds == MarkExecuted(cmds0, scc)
    requires executed == past + batch + scc
    ensures cmds == MarkExecuted(before, batch + scc) && executed == past + (batch + scc)
    ensures Planned(before, g, sccs, k + 1, batch + scc)
  {
    NextComponent(before, s, g, sccs, k, batch, scc);
  }

  lemma SortedWaiting(cmds: Commands, comp: seq<Instance>, scc: seq<Instance>)
    requires Waiting(cmds, comp) && ByKey(cmds, scc) && forall i :: i in scc <==> i in comp
    ensures Waiting(cmds, scc)
  {
    forall j | 0 <= j < |scc| ensures scc[j] in cmds && cmds[scc[j]].status == Committed {
      assert scc[j] in comp;
    }
    forall i, j | 0 <= i < j < |scc| ensures scc[i] != scc[j] { assert KeyLess(cmds, scc[i], scc[j]); }
  }

  lemma MarkMore(cmds: Commands, q: seq<Instance>, j: nat)
    requires j < |q| && q[j] in cmds
    ensures var c := MarkExecuted(cmds, q[..j]);
            c[q[j] := c[q[j]].(status := Executed)] == MarkExecuted(cmds, q[..j + 1])
  {
    assert q[..j + 1] == q[..j] + [q[j]];
  }

  /** Executing one more command. */
  lemma ExecuteText<S>(execute: (S, Bytes) -> S, s: S, cmds: Commands, inst: Instance, q: seq<Instance>)
    requires AllExecuted(cmds, q) && inst in cmds
    ensures var after := cmds[inst := cmds[inst].(status := Executed)];
            && AllExecuted(after, q + [inst]) && AllIn(CommandTexts(cmds), q) && AllIn(CommandTexts(after), q + [inst])
            && RunAll(execute, s, Texts(CommandTexts(after), q + [inst]))
            == execute(RunAll(execute, s, Texts(CommandTexts(cmds), q)), cmds[inst].command)
  {
    var after := cmds[inst := cmds[inst].(status := Executed)];
    forall k | 0 <= k < |q| ensures q[k] in cmds { assert IsExecuted(cmds, q[k]); }
    assert (q + [inst])[..|q|] == q;
    RunLast(execute, CommandTexts(after), s, q + [inst]);
    assert Texts(CommandTexts(after), q) == Texts(CommandTexts(cmds), q);
  }

  class EpaxosReplica<S(!new)> {
    const id: ReplicaId
    const replicas: seq<ReplicaId>
    const conflict: Interference
    const execute: (S, Bytes) -> S
    ghost const initial: S
    var nextSlot: nat
    var cmds: Commands
    var collects: map<Instance, Collect>
    var sm: S
    ghost var executed: seq<Instance>

    ghost function State(): Replica
      reads this
    {
      Replica(id, replicas, nextSlot, cmds, collects, executed)
    }

    /** The state machine has executed exactly the commands listed, in order. */
    ghost predicate Valid()
      reads this
    {
      && replicas != []
      && AllExecuted(cmds, executed)
      && AllIn(CommandTexts(cmds), executed)
      && sm == RunAll(execute, initial, Texts(CommandTexts(cmds), executed))
    }

    constructor (id: ReplicaId, replicas: seq<ReplicaId>, sm: S, conflict: Interference, execute: (S, Bytes) -> S)
      requires id in replicas
      ensures Valid() && State() == NewReplica(id, replicas) && this.sm == sm && initial == sm
      ensures this.conflict == conflict && this.execute == execute
    {
      this.id := id;
      this.replicas := Sorted(replicas);
      this.nextSlot := 0;
      this.cmds := map[];
      this.collects := map[];
      this.sm := sm;
      this.conflict := conflict;
      this.execute := execute;
      this.initial := sm;
      this.executed := [];
      assert id in Sorted(replicas);
    }

    method DepsAndSeq(command: Bytes, exclude: Instance) returns (seqNo: nat, deps: Deps)
      ensures deps == LocalDeps(conflict, cmds, command, exclude) && seqNo == LocalSeq(conflict, cmds, command, exclude)
      ensures forall i :: i in deps <==> i in cmds && i != exclude && conflict(command, cmds[i].command)
      ensures forall i :: i in deps ==> cmds[i].seqNo < seqNo
      ensures seqNo == 1 || exists i :: i in deps && cmds[i].seqNo + 1 == seqNo
    {
      deps := {};
      var maxSeq := 0;
      var known := Listing(cmds.Keys);
      for k := 0 to |known|
        invariant deps == set i | i in known[..k] && i in cmds && i != exclude && conflict(command, cmds[i].command)
        invariant forall i :: i in deps ==> i in cmds && cmds[i].seqNo <= maxSeq
        invariant maxSeq == 0 || exists i :: i in deps && i in cmds && cmds[i].seqNo == maxSeq
      {
        var inst := known[k];
        assert inst in known;
        assert known[..k + 1] == known[..k] + [inst];
        if inst != exclude && conflict(command, cmds[inst].command) {
          deps := deps + {inst};
          maxSeq := EpaxosModel.Max(maxSeq, cmds[inst].seqNo);
        }
      }
      assert known[..|known|] == known;
      assert deps == LocalDeps(conflict, cmds, command, exclude);
      seqNo := maxSeq + 1;
    }

    /** Insert or overwrite an instance's record, unless what is there is further along. */
    method RecordState(inst: Instance, st: InstanceState)
      requires Valid() && st.status != Executed
      modifies this`cmds
      ensures Valid() && cmds == Record(old(cmds), inst, st)
    {
      RecordTexts(cmds, inst, st, executed);
      if inst !in cmds || Rank(st.status) >= Rank(cmds[inst].status) {
        cmds := cmds[inst := st];
      }
    }

    method SendToPeers(msg: Message) returns (outs: seq<Addressed>)
      ensures outs == ToPeers(State(), msg)
    {
      outs := [];
      var ps := Without(replicas, id);
      for k := 0 to |ps|
        invariant |outs| == k && forall j :: 0 <= j < k ==> outs[j] == To(ps[j], msg)
      {
        outs := outs + [To(ps[k], msg)];
      }
    }

    method ProposeCommand(command: Bytes) returns (outs: seq<Addressed>)
      requires Valid()
      modifies this
      ensures Valid()
      ensures var o := Propose(conflict, old(State()), command); State() == o.replica && outs == o.outs
    {
      var inst := Instance(id, nextSlot);
      nextSlot := nextSlot + 1;
      var seqNo, deps := DepsAndSeq(command, inst);
      RecordState(inst, InstanceState(command, seqNo, deps, PreAccepted, 0));
      collects := collects[inst := Collect(command, seqNo, deps, 1, 1, seqNo, deps, false, 1)];
      outs := SendToPeers(PreAccept(inst, 0, command, seqNo, deps));
    }

    method HandlePreAccept(from: ReplicaId, inst: Instance, ballot: nat, command: Bytes, seqNo: nat, deps: Deps)
      returns (outs: seq<Addressed>)
      requires Valid()
      modifies this`cmds
      ensures Valid()
      ensures var o := OnPreAccept(conflict, old(State()), from, inst, ballot, command, seqNo, deps);
              State() == o.replica && outs == o.outs
    {
      var localSeq, localDeps := DepsAndSeq(command, inst);
      var mergedSeq, mergedDeps := EpaxosModel.Max(seqNo, localSeq), deps + localDeps;
      RecordState(inst, InstanceState(command, mergedSeq, mergedDeps, PreAccepted, ballot));
      outs := [To(from, PreAcceptReply(inst, ballot, mergedSeq, mergedDeps))];
    }

    method HandlePreAcceptReply(inst: Instance, seqNo: nat, deps: Deps) returns (outs: seq<Addressed>)
      requires Valid()
      modifies this
      ensures Valid()
      ensures var o := OnPreAcceptReply(old(State()), inst, seqNo, deps); outs == o.outs && Finishes(o, State())
    {
      if inst !in collects || collects[inst].accepting {
        return [];
      }
      collects := collects[inst := Tally(collects[inst], seqNo, deps)];
      var c, fq, sq := collects[inst], FastQuorum(|replicas|), SlowQuorum(|replicas|);
      if c.replies < fq {
        outs := [];
      } else if c.agreed >= fq {
        outs := CommitLeading(inst, c.command, c.initSeq, c.initDeps);
      } else if c.replies >= sq {
        collects := collects[inst := c.(accepting := true, acceptOks := 1)];
        RecordState(inst, InstanceState(c.command, c.unionSeq, c.unionDeps, Accepted, 0));
        outs := SendToPeers(Accept(inst, 0, c.command, c.unionSeq, c.unionDeps));
      } else {
        outs := [];
      }
    }

    method HandleAccept(from: ReplicaId, inst: Instance, ballot: nat, command: Bytes, seqNo: nat, deps: Deps)
      returns (outs: seq<Addressed>)
      requires Valid()
      modifies this`cmds
      ensures Valid()
      ensures var o := OnAccept(old(State()), from, inst, ballot, command, seqNo, deps);
              State() == o.replica && outs == o.outs
    {
      RecordState(inst, InstanceState(command, seqNo, deps, Accepted, ballot));
      outs := [To(from, AcceptReply(inst, ballot))];
    }

    method HandleAcceptReply(inst: Instance) returns (outs: seq<Addressed>)
      requires Valid()
      modifies this
      ensures Valid()
      ensures var o := OnAcceptReply(old(State()), inst); outs == o.outs && Finishes(o, State())
    {
      if inst !in collects || !collects[inst].accepting {
        return [];
      }
      var c := collects[inst].(acceptOks := collects[inst].acceptOks + 1);
      collects := collects[inst := c];
      if c.acceptOks < SlowQuorum(|replicas|) {
        return [];
      }
      outs := CommitLeading(inst, c.command, c.unionSeq, c.unionDeps);
    }

    method CommitLeading(inst: Instance, command: Bytes, seqNo: nat, deps: Deps) returns (outs: seq<Addressed>)
      requires Valid()
      modifies this
      ensures Valid()
      ensures var o := CommitAsLeader(old(State()), inst, command, seqNo, deps); outs == o.outs && Finishes(o, State())
    {
      collects := collects - {inst};
      RecordState(inst, InstanceState(command, seqNo, deps, Committed, 0));
      ExecuteCommitted();
      outs := SendToPeers(Commit(inst, command, seqNo, deps));
    }

    method HandleCommit(inst: Instance, command: Bytes, seqNo: nat, deps: Deps) returns (outs: seq<Addressed>)
      requires Valid()
      modifies this
      ensures Valid()
      ensures var o := OnCommit(old(State()), inst, command, seqNo, deps); outs == o.outs && Finishes(o, State())
    {
      RecordState(inst, InstanceState(command, seqNo, deps, Committed, 0));
      ExecuteCommitted();
      outs := [];
    }

    method HandleMessage(from: ReplicaId, msg: Message) returns (outs: seq<Addressed>)
      requires Valid()
      modifies this
      ensures Valid()
      ensures var o := OnMessage(conflict, old(State()), from, msg); outs == o.outs && Finishes(o, State())
    {
      match msg
      case PreAccept(inst, ballot, command, seqNo, deps) =>
        outs := HandlePreAccept(from, inst, ballot, command, seqNo, deps);
      case PreAcceptReply(inst, _, seqNo, deps) => outs := HandlePreAcceptReply(inst, seqNo, deps);
      case Accept(inst, ballot, command, seqNo, deps) => outs := HandleAccept(from, inst, ballot, command, seqNo, deps);
      case AcceptReply(inst, _) => outs := HandleAcceptReply(inst);
      case Commit(inst, command, seqNo, deps) => outs := HandleCommit(inst, command, seqNo, deps);
    }

    /** Execute everything that is committed with all its transitive dependencies. */
    method ExecuteCommitted()
      requires Valid()
      modifies this`cmds, this`sm, this`executed
      ensures Valid() && Executes(old(State()), State())
    {
      var eligible := FindEligible(cmds);
      var nodes := Listing(eligible);
      var succ := Successors(cmds, eligible, nodes);
      var order := TarjanScc(nodes, succ);
      SameComponents(Adj(succ), Restrict(Graph(cmds), eligible), eligible, order);
      ghost var batch := ExecuteComponents(eligible, order);
      PlanDone(old(cmds), eligible, order, batch);
      assert ExecutesBatch(old(State()), State(), eligible, batch);
    }

    /** Execute the components in the order given, each by key. */
    method ExecuteComponents(ghost eligible: Deps, order: seq<seq<Instance>>) returns (ghost batch: seq<Instance>)
      requires Valid() && eligible <= cmds.Keys && Executable(cmds, eligible)
      requires Components(Restrict(Graph(cmds), eligible), eligible, order)
      modifies this`cmds, this`sm, this`executed
      ensures Valid() && Planned(old(cmds), Restrict(Graph(old(cmds)), eligible), order, |order|, batch)
      ensures cmds == MarkExecuted(old(cmds), batch) && executed == old(executed) + batch
    {
      ghost var before, past := cmds, executed;
      batch := [];
      for k := 0 to |order|
        invariant Underway(before, past, eligible, order, k, batch)
      {
        batch := ExecuteNext(before, past, eligible, order, k, batch);
      }
    }

    /** The first `k` components of `order` have been executed, as listed in `batch`. */
    ghost predicate Underway(before: Commands, past: seq<Instance>, eligible: Deps, order: seq<seq<Instance>>, k: nat,
                             batch: seq<Instance>)
      requires k <= |order|
      reads this
    {
      && Valid() && cmds == MarkExecuted(before, batch) && executed == past + batch
      && Planned(before, Restrict(Graph(before), eligible), order, k, batch)
    }

    method ExecuteNext(ghost before: Commands, ghost past: seq<Instance>, ghost eligible: Deps,
                       order: seq<seq<Instance>>, k: nat, ghost batch: seq<Instance>)
      returns (ghost more: seq<Instance>)
      requires k < |order| && eligible <= before.Keys && Executable(before, eligible)
      requires Components(Restrict(Graph(before), eligible), eligible, order)
      requires Underway(before, past, eligible, order, k, batch)
      modifies this`cmds, this`sm, this`executed
      ensures Underway(before, past, eligible, order, k + 1, more)
    {
      ghost var g := Restrict(Graph(before), eligible);
      ComponentWaits(before, eligible, g, order, k, batch);
      ghost var scc := ExecuteComponent(order[k]);
      more := batch + scc;
      Advance(before, past, eligible, g, order, k, batch, scc, old(cmds), cmds, executed);
    }

    /** Hand the commands of a component to the state machine, by key. */
    method ExecuteComponent(comp: seq<Instance>) returns (scc: seq<Instance>)
      requires Valid() && Waiting(cmds, comp)
      modifies this`cmds, this`sm, this`executed
      ensures ByKey(old(cmds), scc) && forall i :: i in scc <==> i in comp
      ensures Valid() && executed == old(executed) + scc && cmds == MarkExecuted(old(cmds), scc)
    {
      scc := SortByKey(cmds, comp);
      SortedWaiting(cmds, comp, scc);
      ExecuteAll(scc);
    }

    method ExecuteAll(scc: seq<Instance>)
      requires Valid() && Waiting(cmds, scc)
      modifies this`cmds, this`sm, this`executed
      ensures Valid() && executed == old(executed) + scc && cmds == MarkExecuted(old(cmds), scc)
    {
      for j := 0 to |scc|
        invariant Through(old(cmds), old(executed), scc, j)
      {
        ExecuteWaiting(old(cmds), old(executed), scc, j);
      }
      assert scc[..|scc|] == scc;
    }

    /** The first `j` of `scc` have been executed. */
    ghost predicate Through(before: Commands, past: seq<Instance>, scc: seq<Instance>, j: nat)
      requires j <= |scc|
      reads this
    {
      Valid() && executed == past + scc[..j] && cmds == MarkExecuted(before, scc[..j])
    }

    method ExecuteWaiting(ghost before: Commands, ghost past: seq<Instance>, scc: seq<Instance>, j: nat)
      requires Waiting(before, scc) && j < |scc| && Through(before, past, scc, j)
      modifies this`cmds, this`sm, this`executed
      ensures Through(before, past, scc, j + 1)
    {
      assert scc[j] !in scc[..j];
      MarkMore(before, scc, j);
      if cmds[scc[j]].status != Executed {
        ExecuteOne(scc[j]);
      }
      assert past + scc[..j] + [scc[j]] == past + scc[..j + 1];
    }

    method ExecuteOne(inst: Instance)
      requires Valid() && inst in cmds
      modifies this`cmds, this`sm, this`executed
      ensures Valid() && executed == old(executed) + [inst]
              && cmds == old(cmds)[inst := old(cmds)[inst].(status := Executed)]
    {
      ExecuteText(execute, initial, cmds, inst, executed);
      sm := execute(sm, cmds[inst].command);
      cmds := cmds[inst := cmds[inst].(status := Executed)];
      executed := executed + [inst];
    }
  }
}
