/** Replicas that have executed the same instances are in the same state, although
    they may have run commuting commands in different orders. */
module EpaxosConvergence {
  import opened Wrappers
  import opened Membership
  import opened EpaxosModel
  import opened EpaxosCluster
  import opened EpaxosHistory
  import opened EpaxosTheorems

  /** The state machine after executing `cmds` in order. */
  function RunAll<S>(execute: (S, Bytes) -> S, s: S, cmds: seq<Bytes>): S {
    if cmds == [] then s else execute(RunAll(execute, s, cmds[..|cmds| - 1]), cmds[|cmds| - 1])
  }

  /** Commands that do not conflict commute. */
  ghost predicate Commutes<S(!new)>(execute: (S, Bytes) -> S, conflict: Interference) {
    forall s, a, b {:trigger execute(execute(s, a), b)} :: !conflict(a, b) ==>
      execute(execute(s, a), b) == execute(execute(s, b), a)
  }

  lemma {:induction false} RunMore<S>(execute: (S, Bytes) -> S, s: S, xs: seq<Bytes>, ys: seq<Bytes>)
    ensures RunAll(execute, s, xs + ys) == RunAll(execute, RunAll(execute, s, xs), ys)
    decreases |ys|
  {
    if ys == [] {
      assert xs + ys == xs;
    } else {
      var k := |ys| - 1;
      assert (xs + ys)[..|xs| + k] == xs + ys[..k];
      RunMore(execute, s, xs, ys[..k]);
    }
  }

  /** A command can move past everything it does not conflict with. */
  lemma {:induction false} MoveLast<S(!new)>(execute: (S, Bytes) -> S, conflict: Interference, s: S, x: Bytes,
                                             ys: seq<Bytes>)
    requires Commutes(execute, conflict) && forall k :: 0 <= k < |ys| ==> !conflict(x, ys[k])
    ensures RunAll(execute, execute(s, x), ys) == execute(RunAll(execute, s, ys), x)
    decreases |ys|
  {
    if ys != [] {
      var k := |ys| - 1;
      MoveLast(execute, conflict, s, x, ys[..k]);
      var t := RunAll(execute, s, ys[..k]);
      assert execute(execute(t, x), ys[k]) == execute(execute(t, ys[k]), x);
    }
  }

  lemma MoveOut<S(!new)>(execute: (S, Bytes) -> S, conflict: Interference, s: S, t: seq<Bytes>, a: nat)
    requires Commutes(execute, conflict) && a < |t| && forall k :: a < k < |t| ==> !conflict(t[a], t[k])
    ensures RunAll(execute, s, t) == execute(RunAll(execute, s, t[..a] + t[a + 1..]), t[a])
  {
    var u := RunAll(execute, s, t[..a]);
    assert t == (t[..a] + [t[a]]) + t[a + 1..];
    RunMore(execute, s, t[..a] + [t[a]], t[a + 1..]);
    assert (t[..a] + [t[a]])[..a] == t[..a];
    MoveLast(execute, conflict, u, t[a], t[a + 1..]);
    RunMore(execute, s, t[..a], t[a + 1..]);
  }

  /** The commands of a list of instances. */
  function Texts(f: map<Instance, Bytes>, q: seq<Instance>): (r: seq<Bytes>)
    requires forall k :: 0 <= k < |q| ==> q[k] in f
    ensures |r| == |q| && forall k :: 0 <= k < |q| ==> r[k] == f[q[k]]
  {
    seq(|q|, k requires 0 <= k < |q| => f[q[k]])
  }

  ghost predicate At(q: seq<Instance>, a: int, b: int, x: Instance, y: Instance) {
    0 <= a < b < |q| && q[a] == x && q[b] == y
  }

  ghost predicate Precedes(q: seq<Instance>, x: Instance, y: Instance) {
    exists a, b :: At(q, a, b, x, y)
  }

  /** Both lists hold the same instances, conflicting ones in the same order. */
  ghost predicate Shuffles(conflict: Interference, f: map<Instance, Bytes>, p: seq<Instance>, q: seq<Instance>) {
    && Distinct(p) && Distinct(q) && SameMembers(p, q) && (forall i :: i in p ==> i in f)
    && forall x, y {:trigger Precedes(p, x, y)} :: Precedes(p, x, y) && x in f && y in f && conflict(f[y], f[x]) ==>
         Precedes(q, x, y)
  }

  ghost predicate SameMembers(p: seq<Instance>, q: seq<Instance>) {
    forall i :: i in p <==> i in q
  }

  ghost function Drop(q: seq<Instance>, a: nat): seq<Instance>
    requires a < |q|
  {
    q[..a] + q[a + 1..]
  }

  lemma DropBoth(p: seq<Instance>, q: seq<Instance>, a: nat)
    requires Distinct(p) && Distinct(q) && SameMembers(p, q) && p != [] && a < |q| && q[a] == p[|p| - 1]
    ensures SameMembers(p[..|p| - 1], Drop(q, a)) && Distinct(Drop(q, a))
  {
    var n, r := |p| - 1, Drop(q, a);
    forall i ensures i in p[..n] <==> i in r {
      if i in p[..n] {
        assert i in q;
        var k :| 0 <= k < |q| && q[k] == i;
        assert if k < a then r[k] == i else r[k - 1] == i;
      }
      if i in r {
        assert i in q;
        var j :| 0 <= j < |p| && p[j] == i;
        assert p[..n][j] == i;
      }
    }
  }

  lemma DropKeepsOrder(q: seq<Instance>, a: nat, x: Instance, y: Instance)
    requires a < |q| && Precedes(q, x, y) && x != q[a] && y != q[a]
    ensures Precedes(Drop(q, a), x, y)
  {
    var j, k :| At(q, j, k, x, y);
    assert At(Drop(q, a), if j < a then j else j - 1, if k < a then k else k - 1, x, y);
  }

  lemma PrefixPrecedes(p: seq<Instance>, n: nat, x: Instance, y: Instance)
    requires n < |p| && Distinct(p) && Precedes(p[..n], x, y)
    ensures Precedes(p, x, y) && x != p[n] && y != p[n]
  {
    var j, k :| At(p[..n], j, k, x, y);
    assert At(p, j, k, x, y);
  }

  lemma ShuffleDrop(conflict: Interference, f: map<Instance, Bytes>, p: seq<Instance>, q: seq<Instance>, a: nat)
    requires Shuffles(conflict, f, p, q) && p != [] && a < |q| && q[a] == p[|p| - 1]
    ensures Shuffles(conflict, f, p[..|p| - 1], Drop(q, a))
  {
    var n := |p| - 1;
    DropBoth(p, q, a);
    forall x, y | Precedes(p[..n], x, y) && x in f && y in f && conflict(f[y], f[x])
      ensures Precedes(Drop(q, a), x, y)
    {
      PrefixPrecedes(p, n, x, y);
      DropKeepsOrder(q, a, x, y);
    }
  }

  /** Whatever one list runs last conflicts with nothing after it in the other. */
  lemma LastIsFree(conflict: Interference, f: map<Instance, Bytes>, p: seq<Instance>, q: seq<Instance>, a: nat, k: nat)
    requires Shuffles(conflict, f, p, q) && p != [] && a < k < |q| && q[a] == p[|p| - 1]
    ensures q[a] in f && q[k] in f && !conflict(f[q[a]], f[q[k]])
  {
    assert q[a] in q && q[k] in p;
    var j :| 0 <= j < |p| && p[j] == q[k];
    assert At(p, j, |p| - 1, q[k], q[a]);
    assert Precedes(p, q[k], q[a]);
  }

  ghost predicate AllIn(f: map<Instance, Bytes>, q: seq<Instance>) {
    forall k :: 0 <= k < |q| ==> q[k] in f
  }

  lemma RunLast<S>(execute: (S, Bytes) -> S, f: map<Instance, Bytes>, s: S, p: seq<Instance>)
    requires AllIn(f, p) && p != []
    ensures RunAll(execute, s, Texts(f, p)) == execute(RunAll(execute, s, Texts(f, p[..|p| - 1])), f[p[|p| - 1]])
  {
    assert Texts(f, p)[..|p| - 1] == Texts(f, p[..|p| - 1]);
  }

  lemma RunDrop<S(!new)>(execute: (S, Bytes) -> S, conflict: Interference, f: map<Instance, Bytes>, s: S,
                         q: seq<Instance>, a: nat)
    requires Commutes(execute, conflict) && AllIn(f, q) && a < |q|
    requires forall k :: a < k < |q| ==> !conflict(f[q[a]], f[q[k]])
    ensures AllIn(f, Drop(q, a))
    ensures RunAll(execute, s, Texts(f, q)) == execute(RunAll(execute, s, Texts(f, Drop(q, a))), f[q[a]])
  {
    var t := Texts(f, q);
    assert Texts(f, Drop(q, a)) == t[..a] + t[a + 1..];
    MoveOut(execute, conflict, s, t, a);
  }

  lemma ShuffledIn(conflict: Interference, f: map<Instance, Bytes>, p: seq<Instance>, q: seq<Instance>)
    requires Shuffles(conflict, f, p, q)
    ensures AllIn(f, p) && AllIn(f, q) && (p == [] <==> q == [])
  {
    forall k | 0 <= k < |p| ensures p[k] in f && p[k] in q { assert p[k] in p; }
    forall k | 0 <= k < |q| ensures q[k] in f && q[k] in p { assert q[k] in q; }
    assert (p != [] ==> p[0] in q) && (q != [] ==> q[0] in p);
  }

  /** Shuffling commuting commands does not change the outcome. */
  lemma {:induction false} ShuffleRuns<S(!new)>(execute: (S, Bytes) -> S, conflict: Interference,
                                                f: map<Instance, Bytes>, s: S, p: seq<Instance>, q: seq<Instance>)
    requires Commutes(execute, conflict) && Shuffles(conflict, f, p, q)
    ensures AllIn(f, p) && AllIn(f, q) && RunAll(execute, s, Texts(f, p)) == RunAll(execute, s, Texts(f, q))
    decreases |p|
  {
    ShuffledIn(conflict, f, p, q);
    if p != [] {
      var n := |p| - 1;
      assert p[n] in q;
      var a :| 0 <= a < |q| && q[a] == p[n];
      ShuffleDrop(conflict, f, p, q, a);
      ShuffleRuns(execute, conflict, f, s, p[..n], Drop(q, a));
      RunLast(execute, f, s, p);
      forall k | a < k < |q| ensures !conflict(f[q[a]], f[q[k]]) { LastIsFree(conflict, f, p, q, a, k); }
      RunDrop(execute, conflict, f, s, q, a);
    }
  }

  function CommandTexts(cmds: Commands): map<Instance, Bytes> {
    map i | i in cmds :: cmds[i].command
  }

  /** A replica's state machine: everything it has executed, in order. */
  ghost function StateOf<S>(execute: (S, Bytes) -> S, s: S, n: Replica): S
    requires AllIn(CommandTexts(n.cmds), n.executed)
  {
    RunAll(execute, s, Texts(CommandTexts(n.cmds), n.executed))
  }

  lemma ExecutedTexts(h: History, v: ReplicaId, n: Replica)
    requires h.reps != {} && NodeOk(h, v, n)
    ensures AllIn(CommandTexts(n.cmds), n.executed) && AllIn(h.proposed, n.executed)
    ensures Texts(CommandTexts(n.cmds), n.executed) == Texts(h.proposed, n.executed)
  {
    forall k | 0 <= k < |n.executed|
      ensures n.executed[k] in n.cmds && n.executed[k] in h.proposed
              && n.cmds[n.executed[k]].command == h.proposed[n.executed[k]]
    {
      assert n.executed[k] in n.executed && IsExecuted(n.cmds, n.executed[k]);
      assert CmdOk(h, v, n.executed[k], n.cmds[n.executed[k]]);
    }
  }

  /** Two execution orders dictated by the same decisions shuffle only commuting commands. */
  lemma OrdersShuffle(conflict: Interference, h: History, c: Commands, e: seq<Instance>, d: Commands, f: seq<Instance>)
    requires HistoryOk(conflict, h) && Symmetric(conflict) && FastQuorumsOverlap(|h.reps|)
    requires ExecOk(h, c, e) && ExecOk(h, d, f) && SameMembers(e, f) && AllIn(h.proposed, e)
    ensures Shuffles(conflict, h.proposed, e, f)
  {
    forall x, y | Precedes(e, x, y) && x in h.proposed && y in h.proposed && conflict(h.proposed[y], h.proposed[x])
      ensures Precedes(f, x, y)
    {
      var j, k :| At(e, j, k, x, y);
      assert x in e && y in e && x in Listed(e) && y in Listed(e);
      var p :| 0 <= p < |f| && f[p] == x;
      var q :| 0 <= q < |f| && f[q] == y;
      DecidedRelated(conflict, h, x, y);
      SameOrder(h, c, e, d, f, j, k, p, q);
      assert At(f, p, q, x, y);
    }
  }

  /** Convergence: replicas that have executed the same instances have the same state. */
  lemma ReplicasConverge<S(!new)>(execute: (S, Bytes) -> S, s: S, conflict: Interference, replicas: seq<ReplicaId>,
                                  steps: seq<Step>, cs: seq<Cluster>, x: nat, y: nat, u: ReplicaId, v: ReplicaId)
    requires IsRun(conflict, replicas, steps, cs) && replicas != [] && x <= y < |cs| && Symmetric(conflict)
    requires SafeSize(|Elements(replicas)|) && Commutes(execute, conflict)
    requires u in cs[x].nodes && v in cs[y].nodes && SameMembers(cs[x].nodes[u].executed, cs[y].nodes[v].executed)
    ensures var n, m := cs[x].nodes[u], cs[y].nodes[v];
            && AllIn(CommandTexts(n.cmds), n.executed) && AllIn(CommandTexts(m.cmds), m.executed)
            && StateOf(execute, s, n) == StateOf(execute, s, m)
  {
    var h, g := RunHistories(conflict, replicas, steps, cs, x, y);
    var n, m := cs[x].nodes[u], cs[y].nodes[v];
    assert NodeOk(h, u, n) && NodeOk(g, v, m);
    if n.executed != [] { ActiveOverlap(conflict, replicas, steps, cs, x, u); }
    NodesConverge(execute, s, conflict, h, g, u, n, v, m);
  }

  lemma NodesConverge<S(!new)>(execute: (S, Bytes) -> S, s: S, conflict: Interference, h: History, g: History,
                               u: ReplicaId, n: Replica, v: ReplicaId, m: Replica)
    requires HistoryOk(conflict, g) && Later(h, g) && NodeOk(h, u, n) && NodeOk(g, v, m)
    requires Symmetric(conflict) && Commutes(execute, conflict) && SameMembers(n.executed, m.executed)
    requires n.executed != [] ==> FastQuorumsOverlap(|g.reps|)
    ensures AllIn(CommandTexts(n.cmds), n.executed) && AllIn(CommandTexts(m.cmds), m.executed)
    ensures StateOf(execute, s, n) == StateOf(execute, s, m)
  {
    ExecutedTexts(h, u, n);
    ExecutedTexts(g, v, m);
    ExecStable(h, g, n.cmds, n.executed);
    assert AllIn(g.proposed, n.executed);
    assert Texts(h.proposed, n.executed) == Texts(g.proposed, n.executed);
    if n.executed != [] { OrdersShuffle(conflict, g, n.cmds, n.executed, m.cmds, m.executed); }
    ShuffleRuns(execute, conflict, g.proposed, s, n.executed, m.executed);
  }
}
