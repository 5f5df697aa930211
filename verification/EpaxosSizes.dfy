/** For which group sizes EPaxos covers dependencies and keeps real-time order. The fast
    quorum is computed for odd groups; for groups of two, four and six there are runs in
    which two conflicting commands are committed and neither depends on the other, and for
    four and six one of them is proposed only after the other has been committed. */
module EpaxosSizes {
  import opened Membership
  import opened EpaxosModel
  import opened EpaxosCluster
  import opened EpaxosTheorems

  // ---- fast quorums as sets ----

  lemma {:induction false} Pick(s: set<ReplicaId>, k: nat) returns (t: set<ReplicaId>)
    requires k <= |s|
    ensures t <= s && |t| == k
  {
    if k == 0 {
      t := {};
    } else {
      var x :| x in s;
      var rest := Pick(s - {x}, k - 1);
      t := rest + {x};
    }
  }

  ghost predicate IsFastQuorum(reps: set<ReplicaId>, q: set<ReplicaId>) {
    reps != {} && q <= reps && |q| == FastQuorum(|reps|)
  }

  ghost predicate Disjoint(a: set<ReplicaId>, b: set<ReplicaId>) {
    a * b == {}
  }

  /** Any two fast quorums of a group meet exactly if the inequality holds. */
  lemma FastQuorumsMeetExactly(reps: set<ReplicaId>)
    requires reps != {}
    ensures FastQuorumsOverlap(|reps|)
       <==> forall a, b :: IsFastQuorum(reps, a) && IsFastQuorum(reps, b) ==> !Disjoint(a, b)
  {
    var k := FastQuorum(|reps|);
    if FastQuorumsOverlap(|reps|) {
      forall a, b | IsFastQuorum(reps, a) && IsFastQuorum(reps, b) ensures !Disjoint(a, b) {
        SetsMeet(reps, a, b);
        var x :| x in a && x in b;
        assert x in a * b;
      }
    } else {
      var a := Pick(reps, k);
      assert |reps - a| == |reps| - k;
      var b := Pick(reps - a, k);
      assert IsFastQuorum(reps, a) && IsFastQuorum(reps, b) && Disjoint(a, b);
    }
  }

  // ---- extending a run ----

  ghost predicate IsPath(conflict: Interference, b: Cluster, c: Cluster, steps: seq<Step>, cs: seq<Cluster>) {
    && |cs| == |steps| + 1 && cs[0] == b && cs[|cs| - 1] == c
    && forall i {:trigger steps[i]} :: 0 <= i < |steps| ==> Next(conflict, cs[i], steps[i], cs[i + 1])
  }

  ghost predicate Leads(conflict: Interference, b: Cluster, c: Cluster) {
    exists steps, cs :: IsPath(conflict, b, c, steps, cs)
  }

  lemma LeadsSelf(conflict: Interference, c: Cluster)
    ensures Leads(conflict, c, c)
  {
    assert IsPath(conflict, c, c, [], [c]);
  }

  lemma LeadsNext(conflict: Interference, b: Cluster, c: Cluster, s: Step, d: Cluster)
    requires Leads(conflict, b, c) && Next(conflict, c, s, d)
    ensures Leads(conflict, b, d)
  {
    var steps, cs :| IsPath(conflict, b, c, steps, cs);
    var more, ds := steps + [s], cs + [d];
    forall i | 0 <= i < |more| ensures Next(conflict, ds[i], more[i], ds[i + 1]) {
      if i < |steps| { assert steps[i] == more[i]; }
    }
    assert IsPath(conflict, b, d, more, ds);
  }

  /** A run through `c` to `d`. */
  lemma RunThrough(conflict: Interference, replicas: seq<ReplicaId>, b: Cluster, c: Cluster, d: Cluster)
    returns (steps: seq<Step>, cs: seq<Cluster>, x: nat)
    requires Init(b, replicas) && Leads(conflict, b, c) && Leads(conflict, c, d)
    ensures IsRun(conflict, replicas, steps, cs) && x < |cs| && cs[x] == c && cs[|cs| - 1] == d
  {
    var first, bs :| IsPath(conflict, b, c, first, bs);
    var second, ds :| IsPath(conflict, c, d, second, ds);
    steps, cs, x := first + second, bs + ds[1..], |first|;
    forall i | 0 <= i < |steps| ensures Next(conflict, cs[i], steps[i], cs[i + 1]) {
      if i < x {
        assert steps[i] == first[i];
      } else {
        assert steps[i] == second[i - x] && cs[i] == ds[i - x];
      }
    }
  }

  /** `p` has been sent and not delivered. */
  ghost predicate InFlight(c: Cluster, p: Packet) {
    exists k :: 0 <= k < |c.sent| && k !in c.delivered && c.sent[k] == p
  }

  ghost predicate InOrder(c: Cluster) {
    forall k :: k in c.delivered ==> k < |c.sent|
  }

  /** A state that `b` leads to, with its bookkeeping. */
  ghost predicate At(conflict: Interference, b: Cluster, c: Cluster) {
    Leads(conflict, b, c) && InOrder(c)
  }

  /** What a step by `id` with outcome `o`, ending in `r`, leaves in flight besides what was. */
  ghost predicate Moves(c: Cluster, d: Cluster, id: ReplicaId, r: Replica, o: Outcome) {
    && d.nodes == c.nodes[id := r]
    && forall k :: 0 <= k < |o.outs| ==> InFlight(d, Packet(id, o.outs[k].dest, o.outs[k].msg))
  }

  lemma SentInFlight(c: Cluster, d: Cluster, id: ReplicaId, outs: seq<Addressed>)
    requires InOrder(c) && d.sent == c.sent + Packets(id, outs)
    requires forall k :: k in d.delivered ==> k < |c.sent|
    ensures InOrder(d)
    ensures forall k :: 0 <= k < |outs| ==> InFlight(d, Packet(id, outs[k].dest, outs[k].msg))
  {
    forall k | 0 <= k < |outs| ensures InFlight(d, Packet(id, outs[k].dest, outs[k].msg)) {
      assert d.sent[|c.sent| + k] == Packet(id, outs[k].dest, outs[k].msg);
    }
  }

  lemma SubmitStep(conflict: Interference, b: Cluster, c: Cluster, id: ReplicaId, command: Bytes)
    returns (d: Cluster)
    requires At(conflict, b, c) && id in c.nodes
    ensures At(conflict, b, d)
    ensures var o := Propose(conflict, c.nodes[id], command); Moves(c, d, id, o.replica, o)
    ensures forall p :: InFlight(c, p) ==> InFlight(d, p)
  {
    var o := Propose(conflict, c.nodes[id], command);
    d := Cluster(c.nodes[id := o.replica], c.sent + Packets(id, o.outs), c.delivered);
    SentInFlight(c, d, id, o.outs);
    LeadsNext(conflict, b, c, Submit(id, command), d);
    forall p | InFlight(c, p) ensures InFlight(d, p) {
      var k :| 0 <= k < |c.sent| && k !in c.delivered && c.sent[k] == p;
      assert d.sent[k] == p;
    }
  }

  lemma DeliverStep(conflict: Interference, b: Cluster, c: Cluster, p: Packet, r: Replica)
    returns (d: Cluster)
    requires At(conflict, b, c) && InFlight(c, p) && p.dst in c.nodes && c.nodes[p.dst].replicas != []
    requires Finishes(OnMessage(conflict, c.nodes[p.dst], p.src, p.msg), r)
    ensures At(conflict, b, d)
    ensures Moves(c, d, p.dst, r, OnMessage(conflict, c.nodes[p.dst], p.src, p.msg))
    ensures forall q :: InFlight(c, q) && q != p ==> InFlight(d, q)
  {
    var o := OnMessage(conflict, c.nodes[p.dst], p.src, p.msg);
    var k :| 0 <= k < |c.sent| && k !in c.delivered && c.sent[k] == p;
    d := Cluster(c.nodes[p.dst := r], c.sent + Packets(p.dst, o.outs), c.delivered + {k});
    SentInFlight(c, d, p.dst, o.outs);
    assert d.nodes[p.dst] == r;
    LeadsNext(conflict, b, c, Deliver(k), d);
    forall q | InFlight(c, q) && q != p ensures InFlight(d, q) {
      var j :| 0 <= j < |c.sent| && j !in c.delivered && c.sent[j] == q;
      assert d.sent[j] == q;
    }
  }

  // ---- the players ----

  /** Every two commands conflict. */
  const Always: Interference := (a, b) => true

  function Group(n: nat): (g: seq<ReplicaId>)
    ensures |g| == n && forall i :: 0 <= i < n ==> g[i] == i
  {
    seq(n, i => i)
  }

  lemma {:induction false} SortedSame(v: seq<nat>)
    requires StrictlyIncreasing(v)
    ensures Sorted(v) == v
  {
    if v != [] { SortedSame(v[1..]); }
  }

  lemma GroupFacts(n: nat)
    ensures Sorted(Group(n)) == Group(n) && |Elements(Group(n))| == n && forall i: nat :: i < n <==>
              i in Elements(Group(n))
  {
    SortedSame(Group(n));
    ElementsCount(Group(n));
    forall i: nat ensures i < n <==> i in Elements(Group(n)) {
      if i < n { assert Group(n)[i] == i; }
    }
  }

  /** The one command replica `i` leads. */
  function Led(i: ReplicaId): Instance {
    Instance(i, 0)
  }

  const Text: Bytes := []

  ghost function Fresh(n: nat, i: ReplicaId): Replica {
    Replica(i, Group(n), 0, map[], map[], [])
  }

  ghost function State(i: ReplicaId, status: Status): InstanceState {
    InstanceState(Text, 1, {}, status, 0)
  }

  /** The leader, with `r` replies that agree, its own included. */
  ghost function Collecting(n: nat, i: ReplicaId, r: nat): Replica {
    Replica(i, Group(n), 1, map[Led(i) := State(i, PreAccepted)],
            map[Led(i) := Collect(Text, 1, {}, r, r, 1, {}, false, 1)], [])
  }

  ghost function Heard(n: nat, j: ReplicaId, i: ReplicaId): Replica {
    Replica(j, Group(n), 0, map[Led(i) := State(i, PreAccepted)], map[], [])
  }

  ghost function Done(n: nat, i: ReplicaId): Replica {
    Replica(i, Group(n), 1, map[Led(i) := State(i, Executed)], map[], [Led(i)])
  }

  ghost function Pre(i: ReplicaId): Message {
    PreAccept(Led(i), 0, Text, 1, {})
  }

  ghost function Reply(i: ReplicaId): Message {
    PreAcceptReply(Led(i), 0, 1, {})
  }

  ghost function Announce(i: ReplicaId): Message {
    Commit(Led(i), Text, 1, {})
  }

  /** Replica `i`'s decision is on its way to everybody else. */
  ghost predicate Announced(c: Cluster, n: nat, i: ReplicaId) {
    forall j: ReplicaId {:trigger Packet(i, j, Announce(i))} :: j < n && j != i ==>
          InFlight(c, Packet(i, j, Announce(i)))
  }

  lemma NothingLocal(command: Bytes, exclude: Instance, cmds: Commands)
    requires cmds.Keys <= {exclude}
    ensures LocalDeps(Always, cmds, command, exclude) == {} && LocalSeq(Always, cmds, command, exclude) == 1
  {
  }

  lemma ProposeFresh(n: nat, i: ReplicaId)
    ensures Propose(Always, Fresh(n, i), Text) == Outcome(Collecting(n, i, 1), ToPeers(Fresh(n, i), Pre(i)), false)
  {
    NothingLocal(Text, Led(i), map[]);
  }

  lemma HearFresh(n: nat, j: ReplicaId, i: ReplicaId)
    requires n > 0
    ensures OnMessage(Always, Fresh(n, j), i, Pre(i)) == Outcome(Heard(n, j, i), [To(i, Reply(i))], false)
  {
    NothingLocal(Text, Led(i), map[]);
    assert {} + LocalDeps(Always, map[], Text, Led(i)) == {};
  }

  /** A leader's only committed command, without dependencies, is what it executes. */
  lemma OneEligible(cmds: Commands, i: Instance)
    requires IsCommitted(cmds, i) && cmds[i].deps == {} && forall j :: IsCommitted(cmds, j) ==> j == i
    ensures Eligible(cmds, {i}) && InExecutionOrder(cmds, {i}, [i])
  {
    forall t | Executable(cmds, t) ensures t <= {i} {
      forall j | j in t ensures j == i { assert IsCommitted(cmds, j); }
    }
  }

  lemma OneExecutes(n: Replica, i: Instance, r: Replica)
    requires IsCommitted(n.cmds, i) && n.cmds[i].deps == {} && forall j :: IsCommitted(n.cmds, j) ==> j == i
    requires r == n.(cmds := n.cmds[i := n.cmds[i].(status := Executed)], executed := n.executed + [i])
    ensures Executes(n, r)
  {
    OneEligible(n.cmds, i);
    assert MarkExecuted(n.cmds, [i]) == n.cmds[i := n.cmds[i].(status := Executed)];
    assert ExecutesBatch(n, r, {i}, [i]);
  }

  lemma ReplyCounts(n: nat, i: ReplicaId, j: ReplicaId, r: nat)
    requires n > 0 && 1 <= r && r + 1 < FastQuorum(n)
    ensures Finishes(OnMessage(Always, Collecting(n, i, r), j, Reply(i)), Collecting(n, i, r + 1))
  {
    var c, none: Deps := Collecting(n, i, r).collects, {};
    assert none + none == none;
    assert c[Led(i) := Tally(c[Led(i)], 1, none)] == Collecting(n, i, r + 1).collects;
  }

  lemma ReplyDecides(n: nat, i: ReplicaId, j: ReplicaId, r: nat)
    requires n > 0 && 1 <= r && r + 1 == FastQuorum(n)
    ensures var o := OnMessage(Always, Collecting(n, i, r), j, Reply(i));
            Finishes(o, Done(n, i)) && o.outs == ToPeers(Fresh(n, i), Announce(i))
  {
    var o := OnMessage(Always, Collecting(n, i, r), j, Reply(i));
    assert o.executes && o.replica.cmds == map[Led(i) := State(i, Committed)];
    assert o.replica.collects == map[];
    OneExecutes(o.replica, Led(i), Done(n, i));
  }

  /** What is sent to every peer is on its way to every other replica. */
  lemma PeersReached(n: nat, c: Cluster, i: ReplicaId, msg: Message, outs: seq<Addressed>)
    requires i < n && outs == ToPeers(Fresh(n, i), msg)
    requires forall k :: 0 <= k < |outs| ==> InFlight(c, Packet(i, outs[k].dest, outs[k].msg))
    ensures forall j: ReplicaId {:trigger Packet(i, j, msg)} :: j < n && j != i ==> InFlight(c, Packet(i, j, msg))
  {
    var ps := Without(Group(n), i);
    forall j: ReplicaId | j < n && j != i ensures InFlight(c, Packet(i, j, msg)) {
      assert Group(n)[j] == j && j in ps;
      var k :| 0 <= k < |ps| && ps[k] == j;
      assert outs[k] == To(j, msg);
    }
  }

  /** Hearing of another's decision, with its own command done: that one comes second. */
  lemma SecondExecutes(n: Replica, i: ReplicaId, k: ReplicaId) returns (r: Replica)
    requires i != k && n.replicas != [] && n.executed == [Led(i)] && Led(i) in n.cmds
             && n.cmds[Led(i)] == State(i, Executed)
    requires forall j :: j in n.cmds && j != Led(i) ==> n.cmds[j].status == PreAccepted
    ensures Finishes(OnMessage(Always, n, k, Announce(k)), r) && Crossed(r, i, k)
  {
    var o := OnMessage(Always, n, k, Announce(k));
    r := o.replica.(cmds := o.replica.cmds[Led(k) := State(k, Executed)], executed := [Led(i), Led(k)]);
    OneExecutes(o.replica, Led(k), r);
  }

  /** Both commands executed, `i`'s first, neither depending on the other. */
  ghost predicate Crossed(n: Replica, i: ReplicaId, k: ReplicaId) {
    && n.executed == [Led(i), Led(k)]
    && Led(i) in n.cmds && n.cmds[Led(i)] == State(i, Executed)
    && Led(k) in n.cmds && n.cmds[Led(k)] == State(k, Executed)
  }

  /** Its own command done, nothing else decided. */
  ghost predicate OwnDone(c: Cluster, i: ReplicaId) {
    && i in c.nodes
    && var n := c.nodes[i];
    && n.replicas != [] && n.executed == [Led(i)] && Led(i) in n.cmds && n.cmds[Led(i)] == State(i, Executed)
    && forall j :: j in n.cmds && j != Led(i) ==> n.cmds[j].status == PreAccepted
  }

  /** Two leaders that have decided alone hear of each other. */
  lemma DecisionsCross(n: nat, b: Cluster, c: Cluster, i: ReplicaId, k: ReplicaId) returns (d: Cluster)
    requires i < n && k < n && i != k && At(Always, b, c) && OwnDone(c, i) && OwnDone(c, k)
    requires InFlight(c, Packet(k, i, Announce(k))) && InFlight(c, Packet(i, k, Announce(i)))
    ensures Leads(Always, b, d) && i in d.nodes && k in d.nodes
    ensures Crossed(d.nodes[i], i, k) && Crossed(d.nodes[k], k, i)
  {
    var r := SecondExecutes(c.nodes[i], i, k);
    var e := DeliverStep(Always, b, c, Packet(k, i, Announce(k)), r);
    var s := SecondExecutes(e.nodes[k], k, i);
    d := DeliverStep(Always, b, e, Packet(i, k, Announce(i)), s);
  }

  // ---- groups of four and six: two halves that never hear of each other ----

  ghost predicate IsFresh(c: Cluster, n: nat, j: ReplicaId) {
    j in c.nodes && c.nodes[j] == Fresh(n, j)
  }

  /** `j` has heard nothing, and leader `i`'s request is on its way. */
  ghost predicate Asked(c: Cluster, n: nat, i: ReplicaId, j: ReplicaId) {
    IsFresh(c, n, j) && InFlight(c, Packet(i, j, Pre(i)))
  }

  /** Replicas from `i + r` up to the size of a fast quorum are asked. */
  ghost predicate AllAsked(c: Cluster, n: nat, i: ReplicaId, r: nat)
    requires n > 0
  {
    forall j: ReplicaId {:trigger Asked(c, n, i, j)} :: i + r <= j < i + FastQuorum(n) ==> Asked(c, n, i, j)
  }

  /** One more replica answers its leader; the last answer needed decides. */
  lemma OneAnswers(n: nat, b: Cluster, c: Cluster, i: ReplicaId, r: nat) returns (d: Cluster)
    requires n > 0 && 1 <= r < FastQuorum(n) && At(Always, b, c) && AllAsked(c, n, i, r)
    requires i in c.nodes && c.nodes[i] == Collecting(n, i, r)
    ensures At(Always, b, d)
    ensures d.nodes
         == c.nodes[i + r := Heard(n, i + r, i)][i := if r + 1 < FastQuorum(n) then Collecting(n, i, r + 1)
                                                 else Done(n, i)]
    ensures forall p :: InFlight(c, p) && p.src == i && p.dst > i + r ==> InFlight(d, p)
    ensures forall p :: InFlight(c, p) && p.msg.instance != Led(i) ==> InFlight(d, p)
    ensures r + 1 == FastQuorum(n) && i < n ==> Announced(d, n, i)
  {
    var j := i + r;
    var ask, answer := Packet(i, j, Pre(i)), Packet(j, i, Reply(i));
    assert Asked(c, n, i, j);
    HearFresh(n, j, i);
    var e := DeliverStep(Always, b, c, ask, Heard(n, j, i));
    assert OnMessage(Always, Fresh(n, j), i, Pre(i)).outs[0] == To(i, Reply(i));
    assert InFlight(e, answer);
    assert e.nodes[i] == Collecting(n, i, r);
    var after := if r + 1 < FastQuorum(n) then Collecting(n, i, r + 1) else Done(n, i);
    if r + 1 < FastQuorum(n) { ReplyCounts(n, i, j, r); } else { ReplyDecides(n, i, j, r); }
    d := DeliverStep(Always, b, e, answer, after);
    if r + 1 == FastQuorum(n) && i < n {
      PeersReached(n, d, i, Announce(i), OnMessage(Always, Collecting(n, i, r), j, Reply(i)).outs);
    }
  }

  /** The leader collects a fast quorum from the replicas after it. */
  lemma {:induction false} HalfDecides(n: nat, b: Cluster, c: Cluster, i: ReplicaId, r: nat) returns (d: Cluster)
    requires i < n && 1 <= r < FastQuorum(n) && At(Always, b, c) && AllAsked(c, n, i, r)
    requires i in c.nodes && c.nodes[i] == Collecting(n, i, r)
    ensures At(Always, b, d) && i in d.nodes && d.nodes[i] == Done(n, i) && Announced(d, n, i)
    ensures forall v :: v in c.nodes && !(i <= v < i + FastQuorum(n)) ==> v in d.nodes && d.nodes[v] == c.nodes[v]
    ensures forall p :: InFlight(c, p) && p.msg.instance != Led(i) ==> InFlight(d, p)
    decreases FastQuorum(n) - r
  {
    d := OneAnswers(n, b, c, i, r);
    if r + 1 < FastQuorum(n) {
      forall j: ReplicaId | i + r + 1 <= j < i + FastQuorum(n) ensures Asked(d, n, i, j) {
        assert Asked(c, n, i, j);
      }
      var e := HalfDecides(n, b, d, i, r + 1);
      d := e;
    }
  }

  /** A fresh replica proposes, and asks everybody else. */
  lemma ProposeStep(n: nat, b: Cluster, c: Cluster, i: ReplicaId) returns (d: Cluster)
    requires At(Always, b, c) && i < n && i in c.nodes && c.nodes[i] == Fresh(n, i)
    ensures At(Always, b, d) && d.nodes == c.nodes[i := Collecting(n, i, 1)]
    ensures forall j: ReplicaId {:trigger Packet(i, j, Pre(i))} :: j < n && j != i ==> InFlight(d, Packet(i, j, Pre(i)))
    ensures forall p :: InFlight(c, p) ==> InFlight(d, p)
  {
    ProposeFresh(n, i);
    d := SubmitStep(Always, b, c, i, Text);
    PeersReached(n, d, i, Pre(i), ToPeers(Fresh(n, i), Pre(i)));
  }

  ghost predicate AllFresh(c: Cluster, n: nat) {
    forall i: ReplicaId {:trigger IsFresh(c, n, i)} :: i < n ==> IsFresh(c, n, i)
  }

  lemma StartState(n: nat) returns (b: Cluster)
    requires n > 0
    ensures Init(b, Group(n)) && At(Always, b, b)
    ensures AllFresh(b, n)
  {
    b := Cluster(map id | id in Elements(Group(n)) :: NewReplica(id, Group(n)), [], {});
    LeadsSelf(Always, b);
    forall i: ReplicaId | i < n ensures IsFresh(b, n, i) { NewIsFresh(n, i); }
  }

  lemma NewIsFresh(n: nat, i: ReplicaId)
    requires i < n
    ensures i in Elements(Group(n)) && NewReplica(i, Group(n)) == Fresh(n, i)
  {
    GroupFacts(n);
  }

  /** A fresh replica proposes, and decides with the fresh replicas after it. */
  lemma Half(n: nat, b: Cluster, c: Cluster, i: ReplicaId) returns (d: Cluster)
    requires n > 0 && 2 <= FastQuorum(n) && i + FastQuorum(n) <= n && At(Always, b, c)
    requires forall j: ReplicaId {:trigger IsFresh(c, n, j)} :: i <= j < i + FastQuorum(n) ==> IsFresh(c, n, j)
    ensures At(Always, b, d) && i in d.nodes && d.nodes[i] == Done(n, i) && Announced(d, n, i)
    ensures forall v :: v in c.nodes && !(i <= v < i + FastQuorum(n)) ==> v in d.nodes && d.nodes[v] == c.nodes[v]
    ensures forall p :: InFlight(c, p) && p.msg.instance != Led(i) ==> InFlight(d, p)
  {
    assert IsFresh(c, n, i);
    var e := ProposeStep(n, b, c, i);
    forall j: ReplicaId | i + 1 <= j < i + FastQuorum(n) ensures Asked(e, n, i, j) { assert IsFresh(c, n, j); }
    d := HalfDecides(n, b, e, i, 1);
  }

  /** Replica 0 decides with the first half; only then replica n/2 proposes, and decides with the second. */
  lemma HalvesDecide(n: nat, b: Cluster) returns (c: Cluster, d: Cluster)
    requires n == 4 || n == 6
    requires At(Always, b, b) && AllFresh(b, n)
    ensures Leads(Always, b, c) && At(Always, c, d)
    ensures 0 in c.nodes && c.nodes[0] == Done(n, 0) && IsFresh(c, n, n / 2)
    ensures OwnDone(d, 0) && OwnDone(d, n / 2) && Announced(d, n, 0) && Announced(d, n, n / 2)
  {
    var k := n / 2;
    assert FastQuorum(n) == k;
    c := Half(n, b, b, 0);
    LeadsSelf(Always, c);
    forall j: ReplicaId | k <= j < k + k ensures IsFresh(c, n, j) { assert IsFresh(b, n, j); }
    d := Half(n, c, c, k);
    forall j: ReplicaId | j < n && j != 0 ensures InFlight(d, Packet(0, j, Announce(0))) {
      assert InFlight(c, Packet(0, j, Announce(0)));
    }
  }

  // ---- a group of two: one answer decides, whatever it says ----

  /** Another's request reaches a replica that knows only its own command. */
  lemma PairHears(n: Replica, i: ReplicaId, j: ReplicaId)
    requires i != j && n.replicas != [] && n.cmds.Keys == {Led(j)} && n.cmds[Led(j)].seqNo == 1
    ensures OnMessage(Always, n, i, Pre(i))
         == Outcome(n.(cmds := n.cmds[Led(i) := InstanceState(Text, 2, {Led(j)}, PreAccepted, 0)]),
                    [To(i, PreAcceptReply(Led(i), 0, 2, {Led(j)}))], false)
  {
    assert LocalDeps(Always, n.cmds, Text, Led(i)) == {Led(j)};
    assert {} + LocalDeps(Always, n.cmds, Text, Led(i)) == {Led(j)};
  }

  /** The answer disagrees, and the leader decides what it proposed. */
  lemma PairDecides(n: Replica, i: ReplicaId, j: ReplicaId) returns (r: Replica)
    requires n.id == i < 2 && n.replicas == Group(2) && n.executed == []
    requires n.collects == map[Led(i) := Collect(Text, 1, {}, 1, 1, 1, {}, false, 1)]
    requires Led(i) in n.cmds && forall k :: k in n.cmds ==> n.cmds[k].status == PreAccepted
    ensures var o := OnMessage(Always, n, j, PreAcceptReply(Led(i), 0, 2, {Led(j)}));
            Finishes(o, r) && o.outs == ToPeers(Fresh(2, i), Announce(i))
    ensures r == n.(cmds := n.cmds[Led(i) := State(i, Executed)], collects := r.collects, executed := [Led(i)])
  {
    var o := OnMessage(Always, n, j, PreAcceptReply(Led(i), 0, 2, {Led(j)}));
    r := o.replica.(cmds := n.cmds[Led(i) := State(i, Executed)], executed := [Led(i)]);
    OneExecutes(o.replica, Led(i), r);
  }

  /** Leader `i` asks `j`, which knows only its own command, and decides with the answer. */
  lemma PairRound(b: Cluster, c: Cluster, i: ReplicaId, j: ReplicaId) returns (d: Cluster)
    requires At(Always, b, c) && i < 2 && j < 2 && i != j && i in c.nodes && j in c.nodes
    requires InFlight(c, Packet(i, j, Pre(i)))
    requires var n := c.nodes[j]; n.replicas != [] && n.cmds.Keys == {Led(j)} && n.cmds[Led(j)].seqNo == 1
    requires var n := c.nodes[i];
             && n.id == i && n.replicas == Group(2) && n.executed == [] && Led(i) in n.cmds
             && n.collects == map[Led(i) := Collect(Text, 1, {}, 1, 1, 1, {}, false, 1)]
             && forall k :: k in n.cmds ==> n.cmds[k].status == PreAccepted
    ensures At(Always, b, d) && i in d.nodes && j in d.nodes && Announced(d, 2, i)
    ensures var n, r := c.nodes[i], d.nodes[i];
            r == n.(cmds := n.cmds[Led(i) := State(i, Executed)], collects := r.collects, executed := [Led(i)])
    ensures var n := c.nodes[j];
            d.nodes[j] == n.(cmds := n.cmds[Led(i) := InstanceState(Text, 2, {Led(j)}, PreAccepted, 0)])
    ensures forall p :: InFlight(c, p) && p.msg.instance != Led(i) ==> InFlight(d, p)
  {
    var n := c.nodes[j];
    PairHears(n, i, j);
    var answer := PreAcceptReply(Led(i), 0, 2, {Led(j)});
    var o := OnMessage(Always, n, i, Pre(i));
    var e := DeliverStep(Always, b, c, Packet(i, j, Pre(i)), o.replica);
    assert o.outs[0] == To(i, answer);
    assert InFlight(e, Packet(j, i, answer));
    var r := PairDecides(e.nodes[i], i, j);
    d := DeliverStep(Always, b, e, Packet(j, i, answer), r);
    PeersReached(2, d, i, Announce(i), OnMessage(Always, e.nodes[i], j, answer).outs);
  }

  lemma PairDecide(b: Cluster) returns (c: Cluster)
    requires At(Always, b, b) && AllFresh(b, 2)
    ensures At(Always, b, c)
    ensures OwnDone(c, 0) && OwnDone(c, 1) && Announced(c, 2, 0) && Announced(c, 2, 1)
  {
    assert IsFresh(b, 2, 0) && IsFresh(b, 2, 1);
    var c1 := ProposeStep(2, b, b, 0);
    var c2 := ProposeStep(2, b, c1, 1);
    assert InFlight(c1, Packet(0, 1, Pre(0))) && InFlight(c2, Packet(1, 0, Pre(1)));
    var c3 := PairRound(b, c2, 0, 1);
    c := PairRound(b, c3, 1, 0);
    forall j: ReplicaId | j < 2 && j != 0 ensures InFlight(c, Packet(0, j, Announce(0))) {
      assert InFlight(c3, Packet(0, j, Announce(0)));
    }
  }

  // ---- exactly the safe sizes ----

  /** In states `x` and `y` of a run, replicas `u` and `v` have committed conflicting commands of which neither
      depends on the other. */
  ghost predicate Uncovered(conflict: Interference, replicas: seq<ReplicaId>, steps: seq<Step>, cs: seq<Cluster>,
                            x: nat, y: nat, u: ReplicaId, v: ReplicaId, a: Instance, b: Instance) {
    && IsRun(conflict, replicas, steps, cs) && x <= y < |cs|
    && u in cs[x].nodes && CommittedAt(cs[x].nodes[u], a) && v in cs[y].nodes && CommittedAt(cs[y].nodes[v], b)
    && a != b && conflict(cs[x].nodes[u].cmds[a].command, cs[y].nodes[v].cmds[b].command)
    && a !in cs[y].nodes[v].cmds[b].deps && b !in cs[x].nodes[u].cmds[a].deps
  }

  /** In states `x` and `y` of a run, replicas `u` and `v` have executed two conflicting commands, `u` in the
      opposite order to `v`. */
  ghost predicate Opposed(conflict: Interference, replicas: seq<ReplicaId>, steps: seq<Step>, cs: seq<Cluster>, x: nat,
                          y: nat, u: ReplicaId, v: ReplicaId, j: nat, k: nat, p: nat, q: nat) {
    && IsRun(conflict, replicas, steps, cs) && x <= y < |cs| && u in cs[x].nodes && v in cs[y].nodes
    && var e, f := cs[x].nodes[u].executed, cs[y].nodes[v].executed;
    && j < k < |e| && q < p < |f| && e[j] == f[p] && e[k] == f[q]
    && e[j] in cs[x].nodes[u].cmds && e[k] in cs[x].nodes[u].cmds
    && conflict(cs[x].nodes[u].cmds[e[j]].command, cs[x].nodes[u].cmds[e[k]].command)
  }

  ghost predicate Reachable(conflict: Interference, replicas: seq<ReplicaId>, c: Cluster) {
    exists steps, cs :: IsRun(conflict, replicas, steps, cs) && cs[|cs| - 1] == c
  }

  lemma OutsideSafe(n: nat) returns (c: Cluster, k: ReplicaId)
    requires n > 0 && !SafeSize(n)
    ensures Reachable(Always, Group(n), c) && k != 0 && 0 in c.nodes && k in c.nodes
    ensures Crossed(c.nodes[0], 0, k) && Crossed(c.nodes[k], k, 0)
  {
    SafeSizes(n);
    k := n / 2;
    var b := StartState(n);
    var mid, e := b, b;
    if n == 2 { e := PairDecide(b); } else { mid, e := HalvesDecide(n, b); }
    assert InFlight(e, Packet(k, 0, Announce(k))) && InFlight(e, Packet(0, k, Announce(0)));
    c := DecisionsCross(n, mid, e, 0, k);
    var steps, cs, x := RunThrough(Always, Group(n), b, mid, c);
  }

  lemma CrossedBad(n: nat, c: Cluster, k: ReplicaId) returns (steps: seq<Step>, cs: seq<Cluster>)
    requires Reachable(Always, Group(n), c) && k != 0 && 0 in c.nodes && k in c.nodes
    requires Crossed(c.nodes[0], 0, k) && Crossed(c.nodes[k], k, 0)
    ensures cs != [] && Uncovered(Always, Group(n), steps, cs, |cs| - 1, |cs| - 1, 0, k, Led(0), Led(k))
    ensures cs != [] && Opposed(Always, Group(n), steps, cs, |cs| - 1, |cs| - 1, 0, k, 0, 1, 1, 0)
  {
    steps, cs :| IsRun(Always, Group(n), steps, cs) && cs[|cs| - 1] == c;
  }

  /** A group size covers dependencies in every run exactly if it is safe. */
  lemma CoverageExactly(n: nat)
    requires n > 0
    ensures SafeSize(n) <==>
      !exists conflict, replicas, steps, cs, x, y, u, v, a, b ::
        Symmetric(conflict) && |Elements(replicas)| == n && Uncovered(conflict, replicas, steps, cs, x, y, u, v, a, b)
  {
    if SafeSize(n) {
      forall conflict, replicas, steps, cs, x: nat, y: nat, u, v, a, b | Symmetric(conflict)
          && |Elements(replicas)| == n
        ensures !Uncovered(conflict, replicas, steps, cs, x, y, u, v, a, b)
      {
        CoveredOne(conflict, replicas, steps, cs, x, y, u, v, a, b);
      }
    } else {
      var c, k := OutsideSafe(n);
      var steps, cs := CrossedBad(n, c, k);
      GroupFacts(n);
      assert Symmetric(Always);
    }
  }

  lemma CoveredOne(conflict: Interference, replicas: seq<ReplicaId>, steps: seq<Step>, cs: seq<Cluster>, x: nat, y: nat,
                   u: ReplicaId, v: ReplicaId, a: Instance, b: Instance)
    requires Symmetric(conflict) && SafeSize(|Elements(replicas)|)
    ensures !Uncovered(conflict, replicas, steps, cs, x, y, u, v, a, b)
  {
    if IsRun(conflict, replicas, steps, cs) && x <= y < |cs|
       && u in cs[x].nodes && CommittedAt(cs[x].nodes[u], a) && v in cs[y].nodes && CommittedAt(cs[y].nodes[v], b)
       && a != b && conflict(cs[x].nodes[u].cmds[a].command, cs[y].nodes[v].cmds[b].command)
    {
      assert replicas == [] ==> Elements(replicas) == {};
      DependencyCoverage(conflict, replicas, steps, cs, x, y, u, v, a, b);
    }
  }

  /** A group size keeps conflicting commands in one order in every run exactly if it is safe. */
  lemma OrderExactly(n: nat)
    requires n > 0
    ensures SafeSize(n) <==>
      !exists conflict, replicas, steps, cs, x, y, u, v, j, k, p, q ::
        Symmetric(conflict) && |Elements(replicas)| == n
            && Opposed(conflict, replicas, steps, cs, x, y, u, v, j, k, p, q)
  {
    if SafeSize(n) {
      forall conflict, replicas, steps, cs, x: nat, y: nat, u, v, j: nat, k: nat, p: nat, q: nat | Symmetric(conflict)
          && |Elements(replicas)| == n
        ensures !Opposed(conflict, replicas, steps, cs, x, y, u, v, j, k, p, q)
      {
        NotOpposed(conflict, replicas, steps, cs, x, y, u, v, j, k, p, q);
      }
    } else {
      var c, k := OutsideSafe(n);
      var steps, cs := CrossedBad(n, c, k);
      GroupFacts(n);
      assert Symmetric(Always);
    }
  }

  lemma NotOpposed(conflict: Interference, replicas: seq<ReplicaId>, steps: seq<Step>, cs: seq<Cluster>, x: nat, y: nat,
                   u: ReplicaId, v: ReplicaId, j: nat, k: nat, p: nat, q: nat)
    requires Symmetric(conflict) && SafeSize(|Elements(replicas)|)
    ensures !Opposed(conflict, replicas, steps, cs, x, y, u, v, j, k, p, q)
  {
    if IsRun(conflict, replicas, steps, cs) && x <= y < |cs| && u in cs[x].nodes && v in cs[y].nodes {
      var e, f := cs[x].nodes[u].executed, cs[y].nodes[v].executed;
      if j < |e| && k < |e| && p < |f| && q < |f| && e[j] == f[p] && e[k] == f[q]
         && e[j] in cs[x].nodes[u].cmds && e[k] in cs[x].nodes[u].cmds
         && conflict(cs[x].nodes[u].cmds[e[j]].command, cs[x].nodes[u].cmds[e[k]].command)
      {
        assert replicas == [] ==> Elements(replicas) == {};
        ExecutionConsistent(conflict, replicas, steps, cs, x, y, u, v, j, k, p, q);
      }
    }
  }

  /** `u` has committed `a` in state `x` of a run, before `b` is proposed; `v` has committed conflicting `b` in
      state `y`, and `b` does not depend on `a` with a larger sequence number or `v` ran it before `a`. */
  ghost predicate Overtaken(conflict: Interference, replicas: seq<ReplicaId>, steps: seq<Step>, cs: seq<Cluster>,
                            x: nat, y: nat, u: ReplicaId, v: ReplicaId, a: Instance, b: Instance) {
    && IsRun(conflict, replicas, steps, cs) && x <= y < |cs|
    && u in cs[x].nodes && CommittedAt(cs[x].nodes[u], a)
    && b.replica in cs[x].nodes && cs[x].nodes[b.replica].nextSlot <= b.slot
    && v in cs[y].nodes && CommittedAt(cs[y].nodes[v], b)
    && conflict(cs[y].nodes[v].cmds[b].command, cs[x].nodes[u].cmds[a].command)
    && var s, t := cs[x].nodes[u].cmds[a], cs[y].nodes[v].cmds[b];
    !(a in t.deps && s.seqNo < t.seqNo && Follows(cs[y].nodes[v].executed, a, b))
  }

  /** Wherever `b` occurs, `a` occurs before it. */
  ghost predicate Follows(executed: seq<Instance>, a: Instance, b: Instance) {
    forall k :: 0 <= k < |executed| && executed[k] == b ==> a in executed[..k]
  }

  /** A run in which what is proposed later ignores what was committed before. */
  lemma LateRun(n: nat) returns (steps: seq<Step>, cs: seq<Cluster>, x: nat)
    requires n == 4 || n == 6
    ensures cs != [] && Overtaken(Always, Group(n), steps, cs, x, |cs| - 1, 0, n / 2, Led(0), Led(n / 2))
  {
    var b := StartState(n);
    var c, d := HalvesDecide(n, b);
    steps, cs, x := RunThrough(Always, Group(n), b, c, d);
  }

  /** A group size keeps real-time order in every run exactly if it is one of the safe sizes or two. */
  lemma RealTimeExactly(n: nat)
    requires n > 0
    ensures PromptSize(n) <==>
      !exists conflict, replicas, steps, cs, x, y, u, v, a, b ::
        |Elements(replicas)| == n && Overtaken(conflict, replicas, steps, cs, x, y, u, v, a, b)
  {
    if PromptSize(n) {
      forall conflict, replicas, steps, cs, x: nat, y: nat, u, v, a, b | |Elements(replicas)| == n
        ensures !Overtaken(conflict, replicas, steps, cs, x, y, u, v, a, b)
      {
        NotOvertaken(conflict, replicas, steps, cs, x, y, u, v, a, b);
      }
    } else {
      SafeSizes(n);
      var steps, cs, x := LateRun(n);
      GroupFacts(n);
    }
  }

  lemma NotOvertaken(conflict: Interference, replicas: seq<ReplicaId>, steps: seq<Step>, cs: seq<Cluster>, x: nat,
                     y: nat, u: ReplicaId, v: ReplicaId, a: Instance, b: Instance)
    requires PromptSize(|Elements(replicas)|)
    ensures !Overtaken(conflict, replicas, steps, cs, x, y, u, v, a, b)
  {
    if IsRun(conflict, replicas, steps, cs) && x <= y < |cs|
       && u in cs[x].nodes && CommittedAt(cs[x].nodes[u], a)
       && b.replica in cs[x].nodes && cs[x].nodes[b.replica].nextSlot <= b.slot
       && v in cs[y].nodes && CommittedAt(cs[y].nodes[v], b)
       && conflict(cs[y].nodes[v].cmds[b].command, cs[x].nodes[u].cmds[a].command)
    {
      assert replicas == [] ==> Elements(replicas) == {};
      RealTimeOrder(conflict, replicas, steps, cs, x, y, u, v, a, b);
    }
  }
}
