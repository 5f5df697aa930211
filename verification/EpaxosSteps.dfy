/** Every EPaxos handler keeps the invariant: one lemma per handler, each giving
    the history after the step. */
module EpaxosSteps {
  import opened Wrappers
  import opened Membership
  import opened Digraph
  import opened EpaxosModel
  import opened EpaxosCluster
  import opened EpaxosHistory

  // ---- recording ----

  ghost predicate CmdsOk(h: History, v: ReplicaId, cmds: Commands) {
    forall i {:trigger cmds[i]} :: i in cmds ==> CmdOk(h, v, i, cmds[i])
  }

  /** The records of `v` are true and it keeps what it has answered. */
  ghost predicate Recorded(h: History, v: ReplicaId, cmds: Commands) {
    CmdsOk(h, v, cmds) && forall i {:trigger Keeps(h, v, cmds, i)} :: Keeps(h, v, cmds, i)
  }

  /** Whoever is counted as holding a decision has it recorded. */
  lemma HolderRecords(conflict: Interference, h: History, v: ReplicaId, cmds: Commands, a: Instance)
    requires HistoryOk(conflict, h) && Recorded(h, v, cmds) && a in h.decided && v in h.decided[a].holders
    ensures a in cmds && h.decided[a].seqNo <= cmds[a].seqNo && a in h.proposed && cmds[a].command == h.proposed[a]
  {
    assert DecidedOk(h, a) && Keeps(h, v, cmds, a);
    assert Holds(h, a, v, Opinion(h.decided[a].seqNo, h.decided[a].deps));
    assert CmdOk(h, v, a, cmds[a]);
  }

  lemma DecidedProposed(conflict: Interference, h: History)
    requires HistoryOk(conflict, h)
    ensures h.decided.Keys <= h.proposed.Keys
  {
    forall i | i in h.decided ensures i in h.proposed { assert DecidedOk(h, i); }
  }

  /** Recording something true keeps records true and execution undisturbed. */
  lemma RecordKeeps(h: History, v: ReplicaId, cmds: Commands, executed: seq<Instance>, i: Instance, st: InstanceState)
    requires CmdsOk(h, v, cmds) && CmdOk(h, v, i, st) && st.status != Executed && ExecOk(h, cmds, executed)
    ensures CmdsOk(h, v, Record(cmds, i, st)) && ExecOk(h, Record(cmds, i, st), executed)
    ensures forall j {:trigger Keeps(h, v, Record(cmds, i, st), j)} :: Keeps(h, v, cmds, j) ==>
              Keeps(h, v, Record(cmds, i, st), j)
  {
    var r := Record(cmds, i, st);
    assert forall j :: IsExecuted(r, j) <==> IsExecuted(cmds, j);
    assert forall j :: j in cmds ==> j in r && Rank(r[j].status) >= Rank(cmds[j].status);
  }

  // ---- attributes ----

  ghost function AddOpinion(h: History, i: Instance, v: ReplicaId, op: Opinion): History {
    h.(opinions := h.opinions[(i, v) := op])
  }

  ghost function AddProposal(h: History, i: Instance, command: Bytes): History {
    h.(proposed := h.proposed[i := command], heard := h.heard[i := {}], before := h.before[i := h.decided.Keys])
  }

  lemma AddProposalOk(conflict: Interference, h: History, i: Instance, command: Bytes)
    requires HistoryOk(conflict, h) && i !in h.proposed
    ensures HistoryOk(conflict, AddProposal(h, i, command))
  {
    var g := AddProposal(h, i, command);
    DecidedProposed(conflict, h);
    forall j, u ensures AboveLeader(g, j, u) { assert AboveLeader(h, j, u); }
    forall v, a, b ensures SawInOrder(conflict, g, v, a, b) { assert SawInOrder(conflict, h, v, a, b); }
    forall v, a, b ensures SawDecided(conflict, g, v, a, b) { assert SawDecided(conflict, h, v, a, b); }
    forall j | j in g.decided ensures DecidedOk(g, j) { assert DecidedOk(h, j); }
    forall b | b in g.before ensures BeforeOk(g, b) { if b != i { assert BeforeOk(h, b); } }
  }

  /** A replica's first opinion on `i` respects everything it has recorded. */
  lemma AddOpinionOk(conflict: Interference, h: History, v: ReplicaId, cmds: Commands, i: Instance, op: Opinion)
    requires HistoryOk(conflict, h) && Recorded(h, v, cmds) && v in h.reps && i in h.proposed && (i, v) !in h.opinions
    requires LocalDeps(conflict, cmds, h.proposed[i], i) <= op.deps
    requires LocalSeq(conflict, cmds, h.proposed[i], i) <= op.seqNo
    requires i.replica == v || ((i, i.replica) in h.opinions && h.opinions[(i, i.replica)].seqNo <= op.seqNo)
    ensures HistoryOk(conflict, AddOpinion(h, i, v, op))
  {
    var g := AddOpinion(h, i, v, op);
    forall j, u ensures AboveLeader(g, j, u) { assert AboveLeader(h, j, u); }
    forall u, a, b ensures SawInOrder(conflict, g, u, a, b) {
      assert SawInOrder(conflict, h, u, a, b);
      if u == v { OpinionSees(conflict, h, v, cmds, i, op, a); OpinionSees(conflict, h, v, cmds, i, op, b); }
    }
    forall u, a, b ensures SawDecided(conflict, g, u, a, b) {
      assert SawDecided(conflict, h, u, a, b);
      if u == v && b == i { OpinionCounts(conflict, h, v, cmds, i, op, a); }
    }
    forall j | j in g.decided ensures DecidedOk(g, j) { assert DecidedOk(h, j); }
    forall b | b in g.before ensures BeforeOk(g, b) { assert BeforeOk(h, b); }
  }

  lemma OpinionCounts(conflict: Interference, h: History, v: ReplicaId, cmds: Commands, i: Instance, op: Opinion,
                      a: Instance)
    requires HistoryOk(conflict, h) && Recorded(h, v, cmds) && i in h.proposed
    requires LocalDeps(conflict, cmds, h.proposed[i], i) <= op.deps
    requires LocalSeq(conflict, cmds, h.proposed[i], i) <= op.seqNo
    ensures a in h.before[i] && a in h.decided && v in h.decided[a].holders && a in h.proposed
            && conflict(h.proposed[i], h.proposed[a]) ==>
              a in op.deps && h.decided[a].seqNo < op.seqNo
  {
    if a in h.decided && v in h.decided[a].holders {
      assert BeforeOk(h, i);
      HolderRecords(conflict, h, v, cmds, a);
    }
  }

  lemma OpinionSees(conflict: Interference, h: History, v: ReplicaId, cmds: Commands, i: Instance, op: Opinion,
                    a: Instance)
    requires HistoryOk(conflict, h) && Recorded(h, v, cmds) && i in h.proposed
    requires LocalDeps(conflict, cmds, h.proposed[i], i) <= op.deps
    ensures a != i && (a, v) in h.opinions && conflict(h.proposed[i], h.proposed[a]) ==> a in op.deps
  {
    assert Keeps(h, v, cmds, a);
    assert a in cmds ==> CmdOk(h, v, a, cmds[a]);
  }

  // ---- decisions ----

  /** An instance gets decided once; nothing proposed so far was proposed after that. */
  lemma AddDecisionOk(conflict: Interference, h: History, i: Instance, d: Decision)
    requires HistoryOk(conflict, h) && i !in h.decided
    requires DecidedOk(h.(decided := h.decided[i := d]), i)
    ensures HistoryOk(conflict, h.(decided := h.decided[i := d]))
  {
    var g := h.(decided := h.decided[i := d]);
    forall j, u ensures AboveLeader(g, j, u) { assert AboveLeader(h, j, u); }
    forall v, a, b ensures SawInOrder(conflict, g, v, a, b) { assert SawInOrder(conflict, h, v, a, b); }
    forall v, a, b ensures SawDecided(conflict, g, v, a, b) {
      assert SawDecided(conflict, h, v, a, b);
      assert b in h.before ==> BeforeOk(h, b);
    }
    forall j | j in g.decided ensures DecidedOk(g, j) { if j != i { assert DecidedOk(h, j); } }
    forall b | b in g.before ensures BeforeOk(g, b) { assert BeforeOk(h, b); }
  }

  /** Changes to the leaders' tallies do not touch what is known. */
  lemma AddCountsOk(conflict: Interference, h: History, g: History)
    requires HistoryOk(conflict, h) && CountsOk(g)
    requires g == h.(heard := g.heard, accepts := g.accepts, accepted := g.accepted, oks := g.oks)
    requires MapGrows(h.accepts, g.accepts) && h.accepted <= g.accepted
    requires forall i :: i in g.accepts && i !in h.accepts ==> i !in h.decided
    ensures HistoryOk(conflict, g)
  {
    forall j, u ensures AboveLeader(g, j, u) { assert AboveLeader(h, j, u); }
    forall v, a, b ensures SawInOrder(conflict, g, v, a, b) { assert SawInOrder(conflict, h, v, a, b); }
    forall v, a, b ensures SawDecided(conflict, g, v, a, b) { assert SawDecided(conflict, h, v, a, b); }
    forall j | j in g.decided ensures DecidedOk(g, j) { assert DecidedOk(h, j); }
    forall b | b in g.before ensures BeforeOk(g, b) { assert BeforeOk(h, b); }
  }

  // ---- what a handler must establish ----

  /** Handler outcome `o` of replica `id`, about instance `i`, with history growing from `h` to `g`. */
  ghost predicate Handled(conflict: Interference, h: History, g: History, id: ReplicaId, i: Instance, o: Outcome) {
    && HistoryOk(conflict, g) && Grows(h, g, id, i) && NodeOk(g, id, o.replica)
    && OutsOk(g, id, o.outs) && OutsNew(h, id, o.outs)
  }

  /** Messages of replica `id` that are true and have not had their effect. */
  ghost predicate OutsOk(g: History, id: ReplicaId, outs: seq<Addressed>) {
    forall k {:trigger outs[k]} :: 0 <= k < |outs| ==>
      PacketOk(g, Packet(id, outs[k].dest, outs[k].msg)) && Pending(g, Packet(id, outs[k].dest, outs[k].msg))
  }

  /** Nothing like `p` can have been sent by the time of `h`. */
  ghost predicate Novel(h: History, p: Packet) {
    match p.msg
    case PreAccept(i, _, _, _, _) => i !in h.proposed
    case PreAcceptReply(i, _, _, _) => (i, p.src) !in h.opinions
    case Accept(i, _, _, _, _) => i !in h.accepts
    case AcceptReply(i, _) => (i, p.src) !in h.accepted
    case Commit(i, _, _, _) => i !in h.decided
  }

  ghost predicate OutsNew(h: History, id: ReplicaId, outs: seq<Addressed>) {
    && (forall k {:trigger outs[k]} :: 0 <= k < |outs| ==> Novel(h, Packet(id, outs[k].dest, outs[k].msg)))
    && (forall j, k {:trigger outs[j], outs[k]} :: 0 <= j < k < |outs| ==> outs[j].dest != outs[k].dest)
  }

  lemma NovelIsNew(h: History, p: Packet, q: Packet)
    requires PacketOk(h, p) && Novel(h, q)
    ensures !SameKey(p, q)
  {
  }

  /** From `h` to `g`, the only answers counted are those that delivering `p` accounts for. */
  ghost predicate Effects(h: History, g: History, p: Packet) {
    var i := p.msg.instance;
    && (forall j, v {:trigger (j, v) in g.opinions} :: (j, v) in g.opinions ==>
          (j, v) in h.opinions || (p.msg.PreAccept? && j == i && v == p.dst))
    && (forall j, u {:trigger u in g.heard[j]} :: j in g.heard && u in g.heard[j] ==>
          (j in h.heard && u in h.heard[j]) || (p.msg.PreAcceptReply? && j == i && u == p.src))
    && (forall j, v {:trigger (j, v) in g.accepted} :: (j, v) in g.accepted ==>
          (j, v) in h.accepted || (p.msg.Accept? && j == i && v == p.dst) || j !in h.accepts)
    && (forall j, u {:trigger u in g.oks[j]} :: j in g.oks && u in g.oks[j] ==>
          (j in h.oks && u in h.oks[j]) || (p.msg.AcceptReply? && j == i && u == p.src) || j !in h.accepts)
    && h.heard.Keys <= g.heard.Keys && h.oks.Keys <= g.oks.Keys && h.accepts.Keys <= g.accepts.Keys
  }

  lemma PendingKept(conflict: Interference, h: History, g: History, p: Packet, q: Packet)
    requires HistoryOk(conflict, h) && Effects(h, g, p) && PacketOk(h, p) && PacketOk(h, q) && Pending(h, q)
             && !SameKey(p, q)
    ensures Pending(g, q)
  {
  }

  lemma EffectsTrans(h: History, f: History, g: History, p: Packet)
    requires Effects(h, f, p) && Effects(f, g, p)
    ensures Effects(h, g, p)
  {
  }

  ghost predicate Undisturbed(g: History, sent: seq<Packet>, delivered: set<nat>) {
    forall k {:trigger sent[k]} :: 0 <= k < |sent| && k !in delivered ==> Pending(g, sent[k])
  }

  lemma NetGrows(conflict: Interference, h: History, g: History, id: ReplicaId, i: Instance, o: Outcome,
                 sent: seq<Packet>, delivered: set<nat>, after: set<nat>)
    requires NetOk(h, sent, delivered) && Handled(conflict, h, g, id, i, o)
    requires Undisturbed(g, sent, after) && forall k :: k in after ==> k < |sent|
    ensures NetOk(g, sent + Packets(id, o.outs), after)
  {
    var all := sent + Packets(id, o.outs);
    forall k | 0 <= k < |all| ensures PacketOk(g, all[k]) && (k !in after ==> Pending(g, all[k])) {
      if k < |sent| {
        assert all[k] == sent[k];
        PacketStable(h, g, id, i, sent[k]);
      } else {
        assert all[k] == Packet(id, o.outs[k - |sent|].dest, o.outs[k - |sent|].msg);
      }
    }
    forall j, k | 0 <= j < k < |all| ensures !SameKey(all[j], all[k]) {
      if k >= |sent| {
        assert all[k] == Packet(id, o.outs[k - |sent|].dest, o.outs[k - |sent|].msg);
        if j < |sent| {
          NovelIsNew(h, sent[j], all[k]);
        } else {
          assert all[j].dst == o.outs[j - |sent|].dest;
        }
      }
    }
  }

  // ---- propose ----

  lemma ToPeersParts(h: History, v: ReplicaId, n: Replica, msg: Message)
    requires Shape(h, v, n)
    ensures var outs := ToPeers(n, msg);
            && (forall k {:trigger outs[k]} :: 0 <= k < |outs| ==>
                  outs[k].msg == msg && outs[k].dest in h.reps && outs[k].dest != v)
            && forall j, k {:trigger outs[j], outs[k]} :: 0 <= j < k < |outs| ==> outs[j].dest != outs[k].dest
  {
    var ps := Without(n.replicas, n.id);
    WithoutIncreasing(n.replicas, n.id);
    assert forall k :: 0 <= k < |ps| ==> ps[k] in ps;
  }

  ghost function Proposed(conflict: Interference, h: History, n: Replica, command: Bytes): History {
    var i := Instance(n.id, n.nextSlot);
    var op := Opinion(LocalSeq(conflict, n.cmds, command, i), LocalDeps(conflict, n.cmds, command, i));
    var g := AddOpinion(AddProposal(h, i, command), i, n.id, op);
    g.(heard := g.heard[i := {n.id}])
  }

  lemma RecordedProposal(h: History, v: ReplicaId, cmds: Commands, i: Instance, command: Bytes)
    requires Recorded(h, v, cmds) && i !in h.proposed
    ensures Recorded(AddProposal(h, i, command), v, cmds)
  {
    var g := AddProposal(h, i, command);
    forall j | j in cmds ensures CmdOk(g, v, j, cmds[j]) { assert CmdOk(h, v, j, cmds[j]); }
    forall j ensures Keeps(g, v, cmds, j) { assert Keeps(h, v, cmds, j); }
  }

  lemma ProposedGrows(conflict: Interference, h: History, v: ReplicaId, n: Replica, command: Bytes)
    requires CountsOk(h) && n.id == v && Instance(v, n.nextSlot) !in h.proposed && h.before.Keys == h.proposed.Keys
    requires (Instance(v, n.nextSlot), v) !in h.opinions
    ensures Grows(h, Proposed(conflict, h, n, command), v, Instance(v, n.nextSlot))
  {
  }

  lemma ProposedOk(conflict: Interference, h: History, v: ReplicaId, n: Replica, command: Bytes)
    requires HistoryOk(conflict, h) && Recorded(h, v, n.cmds) && n.id == v && v in h.reps
             && Instance(v, n.nextSlot) !in h.proposed
    ensures HistoryOk(conflict, Proposed(conflict, h, n, command))
  {
    var i := Instance(v, n.nextSlot);
    var op := Opinion(LocalSeq(conflict, n.cmds, command, i), LocalDeps(conflict, n.cmds, command, i));
    var f := AddProposal(h, i, command);
    AddProposalOk(conflict, h, i, command);
    RecordedProposal(h, v, n.cmds, i, command);
    AddOpinionOk(conflict, f, v, n.cmds, i, op);
    var e := AddOpinion(f, i, v, op);
    HearSelfOk(conflict, e, i, v);
  }

  lemma HearSelfOk(conflict: Interference, h: History, i: Instance, v: ReplicaId)
    requires HistoryOk(conflict, h) && i in h.proposed && (i, v) in h.opinions
    ensures HistoryOk(conflict, h.(heard := h.heard[i := {v}]))
  {
    AddCountsOk(conflict, h, h.(heard := h.heard[i := {v}]));
  }

  // ---- the acting replica ----

  lemma CmdGrows(h: History, g: History, id: ReplicaId, i: Instance, v: ReplicaId, cmds: Commands)
    requires Grows(h, g, id, i) && CmdsOk(h, v, cmds)
    ensures CmdsOk(g, v, cmds)
  {
  }

  /** Recording about instance `i` what is true after the step. */
  lemma NodeRecords(h: History, g: History, v: ReplicaId, i: Instance, n: Replica, st: InstanceState)
    requires h.reps != {} && NodeOk(h, v, n) && Grows(h, g, v, i) && CmdOk(g, v, i, st) && st.status != Executed
    requires (i, v) in g.accepted ==> Rank(Record(n.cmds, i, st)[i].status) >= 1
    ensures Recorded(g, v, Record(n.cmds, i, st)) && ExecOk(g, Record(n.cmds, i, st), n.executed)
  {
    CmdGrows(h, g, v, i, v, n.cmds);
    ExecStable(h, g, n.cmds, n.executed);
    RecordKeeps(g, v, n.cmds, n.executed, i, st);
    forall j ensures Keeps(g, v, Record(n.cmds, i, st), j) {
      assert Keeps(h, v, n.cmds, j);
      if j != i { assert Keeps(g, v, n.cmds, j); }
    }
  }

  /** The leader's other tallies are as they were. */
  lemma CollectsKeep(h: History, g: History, v: ReplicaId, i: Instance, n: Replica)
    requires h.reps != {} && NodeOk(h, v, n) && Grows(h, g, v, i)
    ensures forall j {:trigger n.collects[j]} :: j in n.collects && j != i ==> CollectOk(g, v, j, n.collects[j])
  {
    forall j | j in n.collects && j != i ensures CollectOk(g, v, j, n.collects[j]) {
      CollectStable(h, g, v, i, v, j, n.collects[j]);
    }
  }

  lemma ShapeKeeps(h: History, g: History, v: ReplicaId, i: Instance, n: Replica)
    requires Shape(h, v, n) && Grows(h, g, v, i) && i in h.proposed
    ensures Shape(g, v, n)
  {
  }

  lemma NewInstance(conflict: Interference, h: History, v: ReplicaId, n: Replica)
    requires HistoryOk(conflict, h) && NodeOk(h, v, n)
    ensures Instance(v, n.nextSlot) !in h.proposed && Instance(v, n.nextSlot) !in n.cmds
    ensures (Instance(v, n.nextSlot), v) !in h.opinions && (Instance(v, n.nextSlot), v) !in h.accepted
    ensures Instance(v, n.nextSlot) !in h.decided && Instance(v, n.nextSlot) !in h.accepts
  {
    DecidedProposed(conflict, h);
  }

  lemma PreAcceptsOk(h: History, g: History, v: ReplicaId, n: Replica, i: Instance, command: Bytes, op: Opinion)
    requires i !in h.proposed
    requires Shape(g, v, n.(nextSlot := n.nextSlot + 1)) && i.replica == v && i in g.proposed
             && g.proposed[i] == command
    requires forall u {:trigger (i, u) in g.opinions} :: (i, u) in g.opinions <==> u == v
    requires (i, v) in g.opinions && g.opinions[(i, v)] == op
    ensures OutsOk(g, v, ToPeers(n, PreAccept(i, 0, command, op.seqNo, op.deps)))
    ensures OutsNew(h, v, ToPeers(n, PreAccept(i, 0, command, op.seqNo, op.deps)))
  {
    var n1, msg := n.(nextSlot := n.nextSlot + 1), PreAccept(i, 0, command, op.seqNo, op.deps);
    ToPeersParts(g, v, n1, msg);
    assert ToPeers(n, msg) == ToPeers(n1, msg);
  }

  lemma ProposeParts(conflict: Interference, h: History, v: ReplicaId, n: Replica, command: Bytes, i: Instance,
                     op: Opinion)
    requires n.id == v && i == Instance(v, n.nextSlot)
    requires op == Opinion(LocalSeq(conflict, n.cmds, command, i), LocalDeps(conflict, n.cmds, command, i))
    ensures var g := Proposed(conflict, h, n, command);
            && i in g.proposed && g.proposed[i] == command && i in g.heard && g.heard[i] == {v}
            && (i, v) in g.opinions && g.opinions[(i, v)] == op
            && g.decided == h.decided && g.accepts == h.accepts && g.accepted == h.accepted
    ensures Propose(conflict, n, command)
         == Outcome(n.(nextSlot := n.nextSlot + 1,
                       cmds := Record(n.cmds, i, InstanceState(command, op.seqNo, op.deps, PreAccepted, 0)),
                       collects := n.collects[i := Collect(command, op.seqNo, op.deps, 1, 1, op.seqNo, op.deps, false,
                                                           1)]),
                    ToPeers(n, PreAccept(i, 0, command, op.seqNo, op.deps)), false)
  {
  }

  lemma ProposeHandled(conflict: Interference, h: History, v: ReplicaId, n: Replica, command: Bytes)
    requires HistoryOk(conflict, h) && NodeOk(h, v, n)
    ensures Handled(conflict, h, Proposed(conflict, h, n, command), v, Instance(v, n.nextSlot),
                    Propose(conflict, n, command))
  {
    var i, g := Instance(v, n.nextSlot), Proposed(conflict, h, n, command);
    var op := Opinion(LocalSeq(conflict, n.cmds, command, i), LocalDeps(conflict, n.cmds, command, i));
    NewInstance(conflict, h, v, n);
    ProposedOk(conflict, h, v, n, command);
    ProposedGrows(conflict, h, v, n, command);
    ProposeParts(conflict, h, v, n, command, i, op);
    ProposedNode(h, g, v, n, i, command, op);
    PreAcceptsOk(h, g, v, n, i, command, op);
  }

  lemma ProposedNode(h: History, g: History, v: ReplicaId, n: Replica, i: Instance, command: Bytes, op: Opinion)
    requires h.reps != {} && NodeOk(h, v, n) && i == Instance(v, n.nextSlot) && Grows(h, g, v, i)
    requires i in g.proposed && g.proposed[i] == command && i !in g.decided && i !in g.accepts && (i, v) !in g.accepted
    requires i in g.heard && g.heard[i] == {v} && (i, v) in g.opinions && g.opinions[(i, v)] == op
    ensures NodeOk(g, v, n.(nextSlot := n.nextSlot + 1,
                            cmds := Record(n.cmds, i, InstanceState(command, op.seqNo, op.deps, PreAccepted, 0)),
                            collects := n.collects[i := Collect(command, op.seqNo, op.deps, 1, 1, op.seqNo, op.deps,
                                                                false, 1)]))
  {
    NodeRecords(h, g, v, i, n, InstanceState(command, op.seqNo, op.deps, PreAccepted, 0));
    CollectsKeep(h, g, v, i, n);
    FirstCollect(g, v, i, command, op);
    assert Shape(g, v, n.(nextSlot := n.nextSlot + 1));
  }

  lemma FirstCollect(g: History, v: ReplicaId, i: Instance, command: Bytes, op: Opinion)
    requires i.replica == v && v in g.reps && i in g.proposed && g.proposed[i] == command && i !in g.decided
             && i !in g.accepts
    requires i in g.heard && g.heard[i] == {v} && (i, v) in g.opinions && g.opinions[(i, v)] == op
    ensures CollectOk(g, v, i, Collect(command, op.seqNo, op.deps, 1, 1, op.seqNo, op.deps, false, 1))
  {
    assert Agreeing(g, i, Collect(command, op.seqNo, op.deps, 1, 1, op.seqNo, op.deps, false, 1)) == {v};
  }

  // ---- PreAccept ----

  lemma OpinionGrows(h: History, i: Instance, v: ReplicaId, op: Opinion)
    requires (i, v) !in h.opinions
    ensures Grows(h, AddOpinion(h, i, v, op), v, i)
  {
  }

  lemma PreAcceptHandled(conflict: Interference, h: History, v: ReplicaId, n: Replica, p: Packet, op: Opinion)
    requires HistoryOk(conflict, h) && NodeOk(h, v, n)
    requires p.msg.PreAccept? && PacketOk(h, p) && Pending(h, p) && p.dst == v
    requires op == Opinion(Max(p.msg.seqNo, LocalSeq(conflict, n.cmds, p.msg.command, p.msg.instance)),
                           p.msg.deps + LocalDeps(conflict, n.cmds, p.msg.command, p.msg.instance))
    ensures var g := AddOpinion(h, p.msg.instance, v, op);
            Handled(conflict, h, g, v, p.msg.instance, OnMessage(conflict, n, p.src, p.msg)) && Effects(h, g, p)
  {
    var i, g := p.msg.instance, AddOpinion(h, p.msg.instance, v, op);
    OpinionGrows(h, i, v, op);
    AddOpinionOk(conflict, h, v, n.cmds, i, op);
    PreAcceptNode(h, g, v, i, n, InstanceState(p.msg.command, op.seqNo, op.deps, PreAccepted, p.msg.ballot));
    PreAcceptParts(conflict, n, p, op);
    PreAcceptAnswer(h, v, p, op);
  }

  lemma PreAcceptAnswer(h: History, v: ReplicaId, p: Packet, op: Opinion)
    requires p.msg.PreAccept? && PacketOk(h, p) && Pending(h, p) && p.dst == v
    requires h.heard.Keys == h.proposed.Keys && forall i, u {:trigger u in h.heard[i]} ::
               i in h.heard && u in h.heard[i] ==> (i, u) in h.opinions
    ensures var i := p.msg.instance;
            var g, outs := AddOpinion(h, i, v, op), [To(p.src, PreAcceptReply(i, p.msg.ballot, op.seqNo, op.deps))];
            OutsOk(g, v, outs) && OutsNew(h, v, outs) && Effects(h, g, p)
  {
  }

  lemma PreAcceptParts(conflict: Interference, n: Replica, p: Packet, op: Opinion)
    requires p.msg.PreAccept? && n.replicas != []
    requires op == Opinion(Max(p.msg.seqNo, LocalSeq(conflict, n.cmds, p.msg.command, p.msg.instance)),
                           p.msg.deps + LocalDeps(conflict, n.cmds, p.msg.command, p.msg.instance))
    ensures OnMessage(conflict, n, p.src, p.msg)
         == Outcome(n.(cmds := Record(n.cmds, p.msg.instance,
                                      InstanceState(p.msg.command, op.seqNo, op.deps, PreAccepted, p.msg.ballot))),
                    [To(p.src, PreAcceptReply(p.msg.instance, p.msg.ballot, op.seqNo, op.deps))], false)
  {
  }

  /** A first opinion does not overwrite anything further along. */
  lemma PreAcceptNode(h: History, g: History, v: ReplicaId, i: Instance, n: Replica, st: InstanceState)
    requires h.reps != {} && NodeOk(h, v, n) && Grows(h, g, v, i) && i in h.proposed && i.replica != v
    requires (i, v) !in h.opinions && st.status == PreAccepted && CmdOk(g, v, i, st) && g.accepted == h.accepted
    ensures NodeOk(g, v, n.(cmds := Record(n.cmds, i, st)))
  {
    assert Keeps(h, v, n.cmds, i);
    assert i in n.cmds ==> CmdOk(h, v, i, n.cmds[i]);
    NodeRecords(h, g, v, i, n, st);
    CollectsKeep(h, g, v, i, n);
    ShapeKeeps(h, g, v, i, n);
  }

  // ---- Accept and Commit ----

  ghost function AddAccepted(h: History, i: Instance, v: ReplicaId): History {
    h.(accepted := h.accepted + {(i, v)})
  }

  lemma AcceptedGrows(h: History, i: Instance, v: ReplicaId)
    ensures Grows(h, AddAccepted(h, i, v), v, i)
  {
  }

  lemma AcceptedOk(conflict: Interference, h: History, i: Instance, v: ReplicaId)
    requires HistoryOk(conflict, h) && i in h.accepts
    ensures HistoryOk(conflict, AddAccepted(h, i, v))
  {
    AddCountsOk(conflict, h, AddAccepted(h, i, v));
  }

  lemma RecordNode(h: History, g: History, v: ReplicaId, i: Instance, n: Replica, st: InstanceState)
    requires h.reps != {} && NodeOk(h, v, n) && Grows(h, g, v, i) && i in h.proposed && i.replica != v
    requires 1 <= Rank(st.status) <= 2 && CmdOk(g, v, i, st)
    ensures NodeOk(g, v, n.(cmds := Record(n.cmds, i, st)))
  {
    NodeRecords(h, g, v, i, n, st);
    CollectsKeep(h, g, v, i, n);
    ShapeKeeps(h, g, v, i, n);
  }

  lemma AcceptHandled(conflict: Interference, h: History, v: ReplicaId, n: Replica, p: Packet)
    requires HistoryOk(conflict, h) && NodeOk(h, v, n)
    requires p.msg.Accept? && PacketOk(h, p) && Pending(h, p) && p.dst == v
    ensures var g := AddAccepted(h, p.msg.instance, v);
            Handled(conflict, h, g, v, p.msg.instance, OnMessage(conflict, n, p.src, p.msg)) && Effects(h, g, p)
  {
    var g := AddAccepted(h, p.msg.instance, v);
    AcceptedGrows(h, p.msg.instance, v);
    AcceptedOk(conflict, h, p.msg.instance, v);
    AcceptedNode(h, v, n, p);
    AcceptedAnswer(h, v, p);
  }

  lemma AcceptedNode(h: History, v: ReplicaId, n: Replica, p: Packet)
    requires h.reps != {} && NodeOk(h, v, n) && p.msg.Accept? && PacketOk(h, p) && p.dst == v
    ensures NodeOk(AddAccepted(h, p.msg.instance, v), v,
                   OnAccept(n, p.src, p.msg.instance, p.msg.ballot, p.msg.command, p.msg.seqNo, p.msg.deps).replica)
  {
    AcceptedGrows(h, p.msg.instance, v);
    RecordNode(h, AddAccepted(h, p.msg.instance, v), v, p.msg.instance, n,
               InstanceState(p.msg.command, p.msg.seqNo, p.msg.deps, Accepted, p.msg.ballot));
  }

  lemma AcceptedAnswer(h: History, v: ReplicaId, p: Packet)
    requires p.msg.Accept? && PacketOk(h, p) && Pending(h, p) && p.dst == v
    requires h.oks.Keys == h.accepts.Keys && forall i, u {:trigger u in h.oks[i]} :: i in h.oks && u in h.oks[i] ==>
               (i, u) in h.accepted
    ensures var g, outs := AddAccepted(h, p.msg.instance, v), [To(p.src, AcceptReply(p.msg.instance, p.msg.ballot))];
            OutsOk(g, v, outs) && OutsNew(h, v, outs) && Effects(h, g, p)
  {
  }

  lemma GrowsSelf(h: History, id: ReplicaId, i: Instance)
    ensures Grows(h, h, id, i)
  {
  }

  lemma CommitHandled(conflict: Interference, h: History, v: ReplicaId, n: Replica, p: Packet)
    requires HistoryOk(conflict, h) && NodeOk(h, v, n) && p.msg.Commit? && PacketOk(h, p) && p.dst == v
    ensures Handled(conflict, h, h, v, p.msg.instance, OnMessage(conflict, n, p.src, p.msg)) && Effects(h, h, p)
  {
    GrowsSelf(h, v, p.msg.instance);
    RecordNode(h, h, v, p.msg.instance, n, InstanceState(p.msg.command, p.msg.seqNo, p.msg.deps, Committed, 0));
  }

  // ---- the leader's decisions ----

  lemma GrowsTrans(h: History, f: History, g: History, id: ReplicaId, i: Instance)
    requires Grows(h, f, id, i) && Grows(f, g, id, i)
    ensures Grows(h, g, id, i)
  {
  }

  ghost function AddDecision(h: History, i: Instance, d: Decision): History {
    h.(decided := h.decided[i := d])
  }

  lemma DecisionGrows(h: History, i: Instance, d: Decision)
    requires i !in h.decided
    ensures Grows(h, AddDecision(h, i, d), i.replica, i)
  {
  }

  lemma CommittedNode(h: History, g: History, v: ReplicaId, n: Replica, i: Instance, command: Bytes, d: Decision)
    requires h.reps != {} && NodeOk(h, v, n) && Grows(h, g, v, i) && i in h.proposed && h.proposed[i] == command
    requires i in g.decided && g.decided[i] == d
    ensures NodeOk(g, v, CommitAsLeader(n, i, command, d.seqNo, d.deps).replica)
  {
    NodeRecords(h, g, v, i, n, InstanceState(command, d.seqNo, d.deps, Committed, 0));
    CollectsKeep(h, g, v, i, n);
    ShapeKeeps(h, g, v, i, n);
  }

  /** Committing what the leader has found decided. */
  lemma LeaderCommits(conflict: Interference, h: History, v: ReplicaId, n: Replica, i: Instance, command: Bytes,
                      d: Decision)
    requires HistoryOk(conflict, h) && NodeOk(h, v, n) && i !in h.decided && i.replica == v
    requires i in h.proposed && h.proposed[i] == command && DecidedOk(AddDecision(h, i, d), i)
    ensures Handled(conflict, h, AddDecision(h, i, d), v, i, CommitAsLeader(n, i, command, d.seqNo, d.deps))
  {
    AddDecisionOk(conflict, h, i, d);
    DecisionGrows(h, i, d);
    CommittedNode(h, AddDecision(h, i, d), v, n, i, command, d);
    CommitOuts(h, AddDecision(h, i, d), v, n, i, command, d);
  }

  lemma CommitOuts(h: History, g: History, v: ReplicaId, n: Replica, i: Instance, command: Bytes, d: Decision)
    requires Shape(h, v, n) && i !in h.decided && i.replica == v
    requires i in h.proposed && h.proposed[i] == command && g == AddDecision(h, i, d)
    ensures var outs := ToPeers(n, Commit(i, command, d.seqNo, d.deps)); OutsOk(g, v, outs) && OutsNew(h, v, outs)
  {
    ToPeersParts(h, v, n, Commit(i, command, d.seqNo, d.deps));
  }

  // ---- PreAcceptReply ----

  ghost function Hear(h: History, i: Instance, u: ReplicaId): History
    requires i in h.heard
  {
    h.(heard := h.heard[i := h.heard[i] + {u}])
  }

  lemma HearOk(conflict: Interference, h: History, i: Instance, u: ReplicaId)
    requires HistoryOk(conflict, h) && i in h.heard && (i, u) in h.opinions
    ensures HistoryOk(conflict, Hear(h, i, u)) && Grows(h, Hear(h, i, u), i.replica, i)
  {
    AddCountsOk(conflict, h, Hear(h, i, u));
  }

  /** Counting one more replica's opinion. */
  lemma TallyOk(h: History, v: ReplicaId, i: Instance, c: Collect, u: ReplicaId, op: Opinion)
    requires h.reps != {} && CollectOk(h, v, i, c) && !c.accepting && u in h.reps && u !in h.heard[i]
    requires (i, u) in h.opinions && h.opinions[(i, u)] == op
    ensures CollectOk(Hear(h, i, u), v, i, Tally(c, op.seqNo, op.deps))
  {
    TallyAgreeing(h, i, c, u, op);
    TallyCovers(h, i, c, u, op);
  }

  lemma TallyAgreeing(h: History, i: Instance, c: Collect, u: ReplicaId, op: Opinion)
    requires HeardOk(h, i, c) && u !in h.heard[i] && (i, u) in h.opinions && h.opinions[(i, u)] == op
    ensures var d := Tally(c, op.seqNo, op.deps); |Agreeing(Hear(h, i, u), i, d)| == d.agreed
  {
    var before := Agreeing(h, i, c);
    HearAgreeing(h, i, c, u);
    assert u !in before;
    assert |before + {u}| == |before| + 1;
  }

  lemma HearAgreeing(h: History, i: Instance, c: Collect, u: ReplicaId)
    requires i in h.heard && (i, u) in h.opinions
    ensures Agreeing(Hear(h, i, u), i, c)
         == Agreeing(h, i, c) + (if h.opinions[(i, u)] == Opinion(c.initSeq, c.initDeps) then {u} else {})
  {
  }

  lemma TallyCovers(h: History, i: Instance, c: Collect, u: ReplicaId, op: Opinion)
    requires HeardOk(h, i, c) && (i, u) in h.opinions && h.opinions[(i, u)] == op
    ensures var g, d := Hear(h, i, u), Tally(c, op.seqNo, op.deps);
            forall w {:trigger w in g.heard[i]} :: w in g.heard[i] ==> Covered(g, i, w, d.unionSeq, d.unionDeps)
  {
    var g, d := Hear(h, i, u), Tally(c, op.seqNo, op.deps);
    forall w | w in g.heard[i] ensures Covered(g, i, w, d.unionSeq, d.unionDeps) {
      if w != u { assert Covered(h, i, w, c.unionSeq, c.unionDeps); }
    }
  }

  lemma TalliedNode(h: History, g: History, v: ReplicaId, n: Replica, i: Instance, c: Collect)
    requires h.reps != {} && NodeOk(h, v, n) && Grows(h, g, v, i) && i in h.proposed && CollectOk(g, v, i, c)
    requires g.opinions == h.opinions && g.accepted == h.accepted
    ensures NodeOk(g, v, n.(collects := n.collects[i := c]))
  {
    CmdGrows(h, g, v, i, v, n.cmds);
    ExecStable(h, g, n.cmds, n.executed);
    forall j ensures Keeps(g, v, n.cmds, j) { assert Keeps(h, v, n.cmds, j); }
    CollectsKeep(h, g, v, i, n);
    ShapeKeeps(h, g, v, i, n);
  }

  ghost function AddAccept(h: History, i: Instance, v: ReplicaId, op: Opinion): History {
    h.(accepts := h.accepts[i := op], accepted := h.accepted + {(i, v)}, oks := h.oks[i := {v}])
  }

  lemma AddAcceptOk(conflict: Interference, h: History, i: Instance, v: ReplicaId, op: Opinion)
    requires HistoryOk(conflict, h) && i in h.proposed && i !in h.accepts && i !in h.decided
    ensures HistoryOk(conflict, AddAccept(h, i, v, op))
  {
    AddCountsOk(conflict, h, AddAccept(h, i, v, op));
  }

  lemma AddAcceptGrows(h: History, i: Instance, op: Opinion)
    requires i !in h.accepts
    ensures Grows(h, AddAccept(h, i, i.replica, op), i.replica, i)
  {
  }

  lemma AcceptingNode(h: History, g: History, v: ReplicaId, n: Replica, i: Instance, c: Collect)
    requires h.reps != {} && NodeOk(h, v, n) && Grows(h, g, v, i) && CollectOk(h, v, i, c) && !c.accepting
    requires c.replies >= FastQuorum(|h.reps|) && g == AddAccept(h, i, v, Opinion(c.unionSeq, c.unionDeps))
    ensures NodeOk(g, v, StartAccept(n, i, c).replica)
  {
    assert i in n.cmds ==> CmdOk(h, v, i, n.cmds[i]);
    AcceptingCollect(h, g, v, i, c);
    NodeRecords(h, g, v, i, n, InstanceState(c.command, c.unionSeq, c.unionDeps, Accepted, 0));
    CollectsKeep(h, g, v, i, n);
    ShapeKeeps(h, g, v, i, n);
  }

  lemma AcceptingCollect(h: History, g: History, v: ReplicaId, i: Instance, c: Collect)
    requires h.reps != {} && CollectOk(h, v, i, c) && !c.accepting && v in h.reps
    requires c.replies >= FastQuorum(|h.reps|) && g == AddAccept(h, i, v, Opinion(c.unionSeq, c.unionDeps))
    ensures CollectOk(g, v, i, c.(accepting := true, acceptOks := 1))
  {
    var d := c.(accepting := true, acceptOks := 1);
    assert Agreeing(g, i, d) == Agreeing(h, i, c);
    assert HeardOk(g, i, d);
    assert AcceptingOk(g, i, d);
  }

  lemma LeaderAsks(conflict: Interference, h: History, v: ReplicaId, n: Replica, i: Instance, c: Collect)
    requires HistoryOk(conflict, h) && NodeOk(h, v, n) && CollectOk(h, v, i, c) && !c.accepting
    requires c.replies >= FastQuorum(|h.reps|)
    ensures Handled(conflict, h, AddAccept(h, i, v, Opinion(c.unionSeq, c.unionDeps)), v, i, StartAccept(n, i, c))
  {
    var op := Opinion(c.unionSeq, c.unionDeps);
    AddAcceptOk(conflict, h, i, v, op);
    AddAcceptGrows(h, i, op);
    AcceptingNode(h, AddAccept(h, i, v, op), v, n, i, c);
    AcceptOuts(h, AddAccept(h, i, v, op), v, n, i, c);
  }

  lemma AcceptOuts(h: History, g: History, v: ReplicaId, n: Replica, i: Instance, c: Collect)
    requires Shape(h, v, n) && i.replica == v && i in h.proposed && c.command == h.proposed[i]
    requires i !in h.accepts && forall u {:trigger (i, u) in h.accepted} :: (i, u) !in h.accepted
    requires g == AddAccept(h, i, v, Opinion(c.unionSeq, c.unionDeps))
    ensures var outs := ToPeers(n, Accept(i, 0, c.command, c.unionSeq, c.unionDeps));
            OutsOk(g, v, outs) && OutsNew(h, v, outs)
  {
    ToPeersParts(h, v, n, Accept(i, 0, c.command, c.unionSeq, c.unionDeps));
  }

  /** What a fast quorum that agrees with the leader decides. */
  lemma FastDecision(conflict: Interference, h: History, v: ReplicaId, i: Instance, c: Collect, d: Decision)
    requires HistoryOk(conflict, h) && CollectOk(h, v, i, c) && !c.accepting && c.agreed >= FastQuorum(|h.reps|)
    requires c.replies >= Max(2, FastQuorum(|h.reps|))
    requires d == Decision(c.initSeq, c.initDeps, Agreeing(h, i, c), h.heard[i])
    ensures DecidedOk(AddDecision(h, i, d), i)
  {
    assert i.replica in Agreeing(h, i, c);
    forall u | u in d.holders ensures Holds(AddDecision(h, i, d), i, u, Opinion(d.seqNo, d.deps)) {
      assert AboveLeader(h, i, u);
    }
  }

  lemma AskEffects(h: History, i: Instance, v: ReplicaId, op: Opinion, p: Packet)
    requires i !in h.accepts
    ensures Effects(h, AddAccept(h, i, v, op), p)
  {
  }

  lemma QuietEffects(h: History, g: History, p: Packet)
    requires g == h.(decided := g.decided)
    ensures Effects(h, g, p)
  {
  }

  lemma FastHandled(conflict: Interference, h: History, v: ReplicaId, n: Replica, i: Instance, c: Collect)
    returns (g: History)
    requires HistoryOk(conflict, h) && NodeOk(h, v, n) && CollectOk(h, v, i, c) && !c.accepting
    requires c.agreed >= FastQuorum(|h.reps|) && c.replies >= Max(2, FastQuorum(|h.reps|))
    ensures Handled(conflict, h, g, v, i, CommitAsLeader(n, i, c.command, c.initSeq, c.initDeps))
    ensures g == h.(decided := g.decided)
  {
    var d := Decision(c.initSeq, c.initDeps, Agreeing(h, i, c), h.heard[i]);
    FastDecision(conflict, h, v, i, c, d);
    LeaderCommits(conflict, h, v, n, i, c.command, d);
    g := AddDecision(h, i, d);
  }

  lemma DecideHandled(conflict: Interference, h: History, v: ReplicaId, n: Replica, i: Instance, p: Packet)
    returns (g: History)
    requires HistoryOk(conflict, h) && NodeOk(h, v, n) && i in n.collects && !n.collects[i].accepting
             && n.replicas != [] && n.collects[i].replies >= 2
    ensures Handled(conflict, h, g, v, i, Decide(n, i))
    ensures Effects(h, g, p)
  {
    var c := n.collects[i];
    assert CollectOk(h, v, i, c);
    g := h;
    GrowsSelf(h, v, i);
    QuietEffects(h, h, p);
    if c.replies >= FastQuorum(|n.replicas|) {
      if c.agreed >= FastQuorum(|n.replicas|) {
        g := FastHandled(conflict, h, v, n, i, c);
        QuietEffects(h, g, p);
      } else if c.replies >= SlowQuorum(|n.replicas|) {
        LeaderAsks(conflict, h, v, n, i, c);
        g := AddAccept(h, i, v, Opinion(c.unionSeq, c.unionDeps));
        AskEffects(h, i, v, Opinion(c.unionSeq, c.unionDeps), p);
      }
    }
  }

  lemma HandledTrans(conflict: Interference, h: History, f: History, g: History, id: ReplicaId, i: Instance, o: Outcome)
    requires Grows(h, f, id, i) && Handled(conflict, f, g, id, i, o)
    ensures Handled(conflict, h, g, id, i, o)
  {
    GrowsTrans(h, f, g, id, i);
  }

  lemma HearEffects(h: History, i: Instance, p: Packet)
    requires i in h.heard && p.msg.PreAcceptReply? && p.msg.instance == i
    ensures Effects(h, Hear(h, i, p.src), p)
  {
  }

  lemma ReplyHandled(conflict: Interference, h: History, v: ReplicaId, n: Replica, p: Packet) returns (g: History)
    requires HistoryOk(conflict, h) && NodeOk(h, v, n) && n.replicas != []
    requires p.msg.PreAcceptReply? && PacketOk(h, p) && Pending(h, p) && p.dst == v
    ensures Handled(conflict, h, g, v, p.msg.instance, OnMessage(conflict, n, p.src, p.msg)) && Effects(h, g, p)
  {
    var i := p.msg.instance;
    if i !in n.collects || n.collects[i].accepting {
      g := h;
      GrowsSelf(h, v, i);
    } else {
      var n1 := n.(collects := n.collects[i := Tally(n.collects[i], p.msg.seqNo, p.msg.deps)]);
      ReplyTallied(conflict, h, v, n, p);
      g := TalliedHandled(conflict, h, v, n1, p);
    }
  }

  /** One more opinion, counted. */
  lemma ReplyTallied(conflict: Interference, h: History, v: ReplicaId, n: Replica, p: Packet)
    requires HistoryOk(conflict, h) && NodeOk(h, v, n) && p.msg.PreAcceptReply? && PacketOk(h, p) && Pending(h, p)
             && p.dst == v
    requires p.msg.instance in n.collects && !n.collects[p.msg.instance].accepting
    ensures var i := p.msg.instance;
            var c := Tally(n.collects[i], p.msg.seqNo, p.msg.deps);
            && i in h.heard && HistoryOk(conflict, Hear(h, i, p.src)) && Grows(h, Hear(h, i, p.src), v, i)
            && NodeOk(Hear(h, i, p.src), v, n.(collects := n.collects[i := c])) && c.replies >= 2
  {
    var i := p.msg.instance;
    assert CollectOk(h, v, i, n.collects[i]);
    assert v in h.heard[i];
    HearOk(conflict, h, i, p.src);
    TallyOk(h, v, i, n.collects[i], p.src, Opinion(p.msg.seqNo, p.msg.deps));
    TalliedNode(h, Hear(h, i, p.src), v, n, i, Tally(n.collects[i], p.msg.seqNo, p.msg.deps));
  }

  /** What the leader does once an opinion is counted. */
  lemma TalliedHandled(conflict: Interference, h: History, v: ReplicaId, n: Replica, p: Packet) returns (g: History)
    requires p.msg.PreAcceptReply? && p.msg.instance in h.heard && n.replicas != []
    requires var i := p.msg.instance;
             var f := Hear(h, i, p.src);
             && HistoryOk(conflict, f) && Grows(h, f, v, i) && NodeOk(f, v, n)
             && i in n.collects && !n.collects[i].accepting && n.collects[i].replies >= 2
    ensures Handled(conflict, h, g, v, p.msg.instance, Decide(n, p.msg.instance)) && Effects(h, g, p)
  {
    var i := p.msg.instance;
    var f := Hear(h, i, p.src);
    g := DecideHandled(conflict, f, v, n, i, p);
    HearEffects(h, i, p);
    EffectsTrans(h, f, g, p);
    HandledTrans(conflict, h, f, g, v, i, Decide(n, i));
  }

  // ---- AcceptReply ----

  ghost function AddOk(h: History, i: Instance, u: ReplicaId): History
    requires i in h.oks
  {
    h.(oks := h.oks[i := h.oks[i] + {u}])
  }

  lemma AddOkOk(conflict: Interference, h: History, i: Instance, u: ReplicaId)
    requires HistoryOk(conflict, h) && i in h.oks && (i, u) in h.accepted
    ensures HistoryOk(conflict, AddOk(h, i, u)) && Grows(h, AddOk(h, i, u), i.replica, i)
  {
    AddCountsOk(conflict, h, AddOk(h, i, u));
  }

  lemma AcceptCounted(h: History, v: ReplicaId, i: Instance, c: Collect, u: ReplicaId)
    requires h.reps != {} && CollectOk(h, v, i, c) && c.accepting && u in h.reps && u !in h.oks[i]
             && (i, u) in h.accepted
    ensures CollectOk(AddOk(h, i, u), v, i, c.(acceptOks := c.acceptOks + 1))
  {
    assert Agreeing(AddOk(h, i, u), i, c.(acceptOks := c.acceptOks + 1)) == Agreeing(h, i, c);
  }

  /** What a majority that accepted decides. */
  lemma SlowDecision(conflict: Interference, h: History, v: ReplicaId, i: Instance, c: Collect, d: Decision)
    requires HistoryOk(conflict, h) && CollectOk(h, v, i, c) && c.accepting && c.acceptOks >= SlowQuorum(|h.reps|)
    requires d == Decision(c.unionSeq, c.unionDeps, h.heard[i], h.oks[i])
    ensures DecidedOk(AddDecision(h, i, d), i)
  {
  }

  lemma AcceptReplyHandled(conflict: Interference, h: History, v: ReplicaId, n: Replica, p: Packet) returns (g: History)
    requires HistoryOk(conflict, h) && NodeOk(h, v, n) && n.replicas != []
    requires p.msg.AcceptReply? && PacketOk(h, p) && Pending(h, p) && p.dst == v
    ensures Handled(conflict, h, g, v, p.msg.instance, OnMessage(conflict, n, p.src, p.msg)) && Effects(h, g, p)
  {
    var i := p.msg.instance;
    if i !in n.collects || !n.collects[i].accepting {
      g := h;
      GrowsSelf(h, v, i);
    } else {
      g := OkHandled(conflict, h, v, n, i, p.src);
      OkEffects(h, g, i, p);
    }
  }

  lemma OkEffects(h: History, g: History, i: Instance, p: Packet)
    requires i in h.oks && p.msg.AcceptReply? && p.msg.instance == i
    requires g == AddOk(h, i, p.src).(decided := g.decided)
    ensures Effects(h, g, p)
  {
  }

  lemma OkHandled(conflict: Interference, h: History, v: ReplicaId, n: Replica, i: Instance, u: ReplicaId)
    returns (g: History)
    requires HistoryOk(conflict, h) && NodeOk(h, v, n) && n.replicas != [] && i in n.collects && n.collects[i].accepting
    requires (i, u) in h.accepted && i in h.oks && u !in h.oks[i] && u in h.reps
    ensures Handled(conflict, h, g, v, i, OnAcceptReply(n, i)) && g == AddOk(h, i, u).(decided := g.decided)
  {
    var c := n.collects[i].(acceptOks := n.collects[i].acceptOks + 1);
    OkTallied(conflict, h, v, n, i, u);
    g := OkConcludes(conflict, h, AddOk(h, i, u), v, n.(collects := n.collects[i := c]), i);
    OkOutcome(n, i);
  }

  /** What the leader does once an acceptance is counted. */
  ghost function OkCounted(n: Replica, i: Instance): Outcome
    requires i in n.collects
  {
    var c := n.collects[i];
    if c.acceptOks < SlowQuorum(|n.replicas|) then Outcome(n, [], false)
    else CommitAsLeader(n, i, c.command, c.unionSeq, c.unionDeps)
  }

  lemma OkOutcome(n: Replica, i: Instance)
    requires i in n.collects && n.collects[i].accepting
    ensures var c := n.collects[i].(acceptOks := n.collects[i].acceptOks + 1);
            OnAcceptReply(n, i) == OkCounted(n.(collects := n.collects[i := c]), i)
  {
  }

  lemma OkConcludes(conflict: Interference, h: History, f: History, v: ReplicaId, n: Replica, i: Instance)
    returns (g: History)
    requires HistoryOk(conflict, f) && Grows(h, f, v, i) && NodeOk(f, v, n) && n.replicas != []
    requires i in n.collects && n.collects[i].accepting
    ensures Handled(conflict, h, g, v, i, OkCounted(n, i)) && g == f.(decided := g.decided)
  {
    g := f;
    var c := n.collects[i];
    if c.acceptOks >= SlowQuorum(|n.replicas|) {
      g := OkDecides(conflict, f, v, n, i);
      HandledTrans(conflict, h, f, g, v, i, CommitAsLeader(n, i, c.command, c.unionSeq, c.unionDeps));
    }
  }

  /** One more acceptance, counted. */
  lemma OkTallied(conflict: Interference, h: History, v: ReplicaId, n: Replica, i: Instance, u: ReplicaId)
    requires HistoryOk(conflict, h) && NodeOk(h, v, n) && i in n.collects && n.collects[i].accepting
    requires (i, u) in h.accepted && i in h.oks && u !in h.oks[i] && u in h.reps
    ensures var c := n.collects[i].(acceptOks := n.collects[i].acceptOks + 1);
            var f := AddOk(h, i, u);
            HistoryOk(conflict, f) && Grows(h, f, v, i) && NodeOk(f, v, n.(collects := n.collects[i := c]))
  {
    assert CollectOk(h, v, i, n.collects[i]);
    AddOkOk(conflict, h, i, u);
    AcceptCounted(h, v, i, n.collects[i], u);
    TalliedNode(h, AddOk(h, i, u), v, n, i, n.collects[i].(acceptOks := n.collects[i].acceptOks + 1));
  }

  /** Enough acceptances: the leader decides what it asked for. */
  lemma OkDecides(conflict: Interference, f: History, v: ReplicaId, n: Replica, i: Instance) returns (g: History)
    requires HistoryOk(conflict, f) && NodeOk(f, v, n) && n.replicas != [] && i in n.collects
    requires n.collects[i].accepting && n.collects[i].acceptOks >= SlowQuorum(|n.replicas|)
    ensures var c := n.collects[i];
            && i in f.heard && i in f.oks
            && g == AddDecision(f, i, Decision(c.unionSeq, c.unionDeps, f.heard[i], f.oks[i]))
            && Handled(conflict, f, g, v, i, CommitAsLeader(n, i, c.command, c.unionSeq, c.unionDeps))
  {
    var c := n.collects[i];
    assert CollectOk(f, v, i, c);
    var d := Decision(c.unionSeq, c.unionDeps, f.heard[i], f.oks[i]);
    SlowDecision(conflict, f, v, i, c, d);
    LeaderCommits(conflict, f, v, n, i, c.command, d);
    g := AddDecision(f, i, d);
  }

  // ---- execution ----

  /** Executing a batch keeps the replica's execution order the one the decisions dictate. */
  lemma BatchOk(h: History, cmds: Commands, executed: seq<Instance>, s: Deps, batch: seq<Instance>, v: ReplicaId)
    requires CmdsOk(h, v, cmds) && ExecOk(h, cmds, executed)
    requires Executable(cmds, s) && s <= cmds.Keys && InExecutionOrder(cmds, s, batch)
    ensures ExecOk(h, MarkExecuted(cmds, batch), executed + batch)
  {
    var g, past := DecidedGraph(h), Listed(executed);
    forall i | i in s ensures i in h.decided && g[i] == cmds[i].deps && i !in past {
      assert CmdOk(h, v, i, cmds[i]);
      assert IsCommitted(cmds, i) && !IsExecuted(cmds, i);
    }
    assert Closed(g, s + past) by { BatchCloses(h, cmds, executed, s, v); }
    assert Listed(executed + batch) == s + past;
    BatchListed(h, cmds, executed, s, batch);
    assert SameEdges(Restrict(Graph(cmds), s), Restrict(g, s));
    forall j, k | 0 <= j < k < |executed + batch| ensures Ordered(h, (executed + batch)[j], (executed + batch)[k]) {
      var x, y := (executed + batch)[j], (executed + batch)[k];
      if k < |executed| {
        assert Ordered(h, executed[j], executed[k]);
      } else if j < |executed| {
        if Reach(g, x, y) { ReachStays(g, past, x, y); }
      } else {
        assert MayPrecede(cmds, Restrict(Graph(cmds), s), batch[j - |executed|], batch[k - |executed|]);
        ReachSame(Restrict(Graph(cmds), s), Restrict(g, s), x, y);
        ReachSame(Restrict(Graph(cmds), s), Restrict(g, s), y, x);
        ReachRestrict(g, s, past, x, y);
        ReachRestrict(g, s, past, y, x);
        assert CmdOk(h, v, x, cmds[x]) && CmdOk(h, v, y, cmds[y]);
      }
    }
  }

  lemma BatchListed(h: History, cmds: Commands, executed: seq<Instance>, s: Deps, batch: seq<Instance>)
    requires ExecOk(h, cmds, executed) && Executable(cmds, s) && s <= cmds.Keys && InExecutionOrder(cmds, s, batch)
    ensures Distinct(executed + batch)
    ensures forall i {:trigger IsExecuted(MarkExecuted(cmds, batch), i)} ::
              i in executed + batch <==> IsExecuted(MarkExecuted(cmds, batch), i)
  {
    forall i | i in s ensures i !in executed { assert IsCommitted(cmds, i) && !IsExecuted(cmds, i); }
    forall i ensures i in executed + batch <==> IsExecuted(MarkExecuted(cmds, batch), i) {
      assert i in executed <==> IsExecuted(cmds, i);
    }
    forall j, k | 0 <= j < k < |executed + batch| ensures (executed + batch)[j] != (executed + batch)[k] {
      if j < |executed| <= k { assert executed[j] in executed && batch[k - |executed|] in batch; }
    }
  }

  lemma BatchCloses(h: History, cmds: Commands, executed: seq<Instance>, s: Deps, v: ReplicaId)
    requires CmdsOk(h, v, cmds) && ExecOk(h, cmds, executed) && Executable(cmds, s) && s <= cmds.Keys
    ensures Closed(DecidedGraph(h), s + Listed(executed))
  {
    var g, past := DecidedGraph(h), Listed(executed);
    forall a, b | a in s + past && Edge(g, a, b) ensures b in s + past {
      if a in s {
        assert CmdOk(h, v, a, cmds[a]) && IsCommitted(cmds, a);
        assert IsExecuted(cmds, b) || b in s;
      }
    }
  }

  lemma ExecutedOk(h: History, v: ReplicaId, n: Replica, r: Replica)
    requires h.reps != {} && NodeOk(h, v, n) && Executes(n, r)
    ensures NodeOk(h, v, r) && n.executed <= r.executed
  {
    var s, batch :| ExecutesBatch(n, r, s, batch);
    BatchOk(h, n.cmds, n.executed, s, batch, v);
    forall i | i in r.cmds ensures CmdOk(h, v, i, r.cmds[i]) {
      assert CmdOk(h, v, i, n.cmds[i]);
      assert i in s ==> IsCommitted(n.cmds, i);
    }
    forall i ensures Keeps(h, v, r.cmds, i) { assert Keeps(h, v, n.cmds, i); }
  }
}
