/** Iterative Tarjan: strongly connected components, dependencies first. */
module Tarjan {
  import opened Wrappers
  import opened Digraph

  datatype NodeInfo = NodeInfo(index: nat, lowlink: nat, onStack: bool)

  /** A suspended visit: the node, how many successors were taken, and the successor list. */
  datatype Frame<T> = Frame(node: T, cursor: nat, succs: seq<T>)

  /** The search's variables. */
  datatype Search<T> = Search(info: map<T, NodeInfo>, stack: seq<T>, sccs: seq<seq<T>>, nextIndex: nat,
                              call: seq<Frame<T>>)

  /** Adjacency lists as a graph. */
  function Adj<T(==)>(succ: map<T, seq<T>>): map<T, set<T>> {
    map a | a in succ :: set b | b in succ[a]
  }

  /** Every successor is itself a node. */
  ghost predicate Total<T(!new)>(succ: map<T, seq<T>>) {
    forall a, k {:trigger succ[a][k]} :: a in succ && 0 <= k < |succ[a]| ==> succ[a][k] in succ
  }

  ghost predicate Mutual<T(!new)>(g: map<T, set<T>>, a: T, b: T) {
    Reach(g, a, b) && Reach(g, b, a)
  }

  // ---- what the output must be ----

  /** A component is a whole class of mutually reachable nodes. */
  ghost predicate IsComponent<T(!new)>(g: map<T, set<T>>, comp: seq<T>) {
    comp != [] && forall a, b {:trigger a in comp, b in g} :: a in comp && b in g ==> (b in comp <==> Mutual(g, a, b))
  }

  ghost predicate NoReachBetween<T(!new)>(g: map<T, set<T>>, c: seq<T>, d: seq<T>) {
    forall a, b {:trigger Reach(g, a, b)} :: a in c && b in d ==> !Reach(g, a, b)
  }

  /** In one of the first `k` components. */
  ghost predicate Among<T(!new)>(sccs: seq<seq<T>>, k: nat, x: T)
    requires k <= |sccs|
  {
    exists c :: 0 <= c < k && x in sccs[c]
  }

  /** Components of the nodes in `done`, each listed after every component it can reach. */
  ghost predicate Components<T(!new)>(g: map<T, set<T>>, done: set<T>, sccs: seq<seq<T>>) {
    && (forall k {:trigger sccs[k]} :: 0 <= k < |sccs| ==> IsComponent(g, sccs[k]) && Distinct(sccs[k]))
    && (forall x {:trigger Among(sccs, |sccs|, x)} :: x in done <==> Among(sccs, |sccs|, x))
    && (forall j, k {:trigger sccs[j], sccs[k]} :: 0 <= j < k < |sccs| ==> NoReachBetween(g, sccs[j], sccs[k]))
  }

  // ---- the invariant ----

  ghost function Emitted<T(!new)>(st: Search<T>): set<T> {
    set x | x in st.info && !st.info[x].onStack
  }

  ghost predicate OnStack<T>(st: Search<T>, x: T) {
    x in st.info && st.info[x].onStack
  }

  ghost predicate Gray<T>(st: Search<T>, x: T) {
    exists k :: 0 <= k < |st.call| && st.call[k].node == x
  }

  /** The stack lists exactly the nodes flagged so, by increasing index. */
  ghost predicate StackOk<T(!new)>(st: Search<T>) {
    && (forall x {:trigger OnStack(st, x)} :: OnStack(st, x) <==> x in st.stack)
    && (forall k {:trigger st.stack[k]} :: 0 <= k < |st.stack| ==> st.stack[k] in st.info)
    && (forall j, k {:trigger st.stack[j], st.stack[k]} :: 0 <= j < k < |st.stack| ==>
          st.info[st.stack[j]].index < st.info[st.stack[k]].index)
    && (forall x {:trigger st.info[x]} :: x in st.info ==> st.info[x].lowlink <= st.info[x].index < st.nextIndex)
  }

  ghost predicate FrameOk<T(!new)>(succ: map<T, seq<T>>, st: Search<T>, k: nat)
    requires k < |st.call|
  {
    var f := st.call[k];
    && OnStack(st, f.node) && f.node in succ && f.succs == succ[f.node] && f.cursor <= |f.succs|
    && (forall j {:trigger f.succs[j]} :: 0 <= j < f.cursor ==> f.succs[j] in st.info)
    && (k + 1 < |st.call| ==> f.cursor > 0 && f.succs[f.cursor - 1] == st.call[k + 1].node)
  }

  ghost predicate CallOk<T(!new)>(succ: map<T, seq<T>>, st: Search<T>) {
    && (forall k {:trigger FrameOk(succ, st, k)} :: 0 <= k < |st.call| ==> FrameOk(succ, st, k))
    && (forall j, k {:trigger st.call[j], st.call[k]} :: 0 <= j < k < |st.call| ==>
          st.call[j].node in st.info && st.call[k].node in st.info
          && st.info[st.call[j].node].index < st.info[st.call[k].node].index)
  }

  /** Finished nodes have no unvisited successor, emitted ones none outside what is emitted. */
  ghost predicate FinishedOk<T(!new)>(succ: map<T, seq<T>>, st: Search<T>) {
    && st.info.Keys <= succ.Keys
    && (forall x, j {:trigger succ[x][j]} :: x in st.info && !Gray(st, x) && 0 <= j < |succ[x]| ==>
          succ[x][j] in st.info)
    && Closed(Adj(succ), Emitted(st))
  }

  /** Earlier on the stack reaches later. */
  ghost predicate StackReaches<T(!new)>(g: map<T, set<T>>, st: Search<T>) {
    forall j, k {:trigger st.stack[j], st.stack[k]} :: 0 <= j < k < |st.stack| ==> Reach(g, st.stack[j], st.stack[k])
  }

  ghost predicate BackTo<T(!new)>(g: map<T, set<T>>, st: Search<T>, y: T, k: int) {
    0 <= k < |st.call| && y in st.info && st.call[k].node in st.info
    && st.info[st.call[k].node].index <= st.info[y].index && Reach(g, y, st.call[k].node)
  }

  /** Everything on the stack reaches a node under visit that is not later. */
  ghost predicate StackReturns<T(!new)>(g: map<T, set<T>>, st: Search<T>) {
    forall y {:trigger OnStack(st, y)} :: OnStack(st, y) ==> exists k :: BackTo(g, st, y, k)
  }

  /** A lowlink is the index of something on the stack that can be reached. */
  ghost predicate LowReached<T(!new)>(g: map<T, set<T>>, st: Search<T>, v: T) {
    v in st.info && exists w :: OnStack(st, w) && st.info[w].index == st.info[v].lowlink && Reach(g, v, w)
  }

  /** Where the part of the stack that frame `k` answers for ends. */
  ghost function Bound<T>(st: Search<T>, k: nat): nat
    requires k < |st.call|
  {
    if k + 1 < |st.call| && st.call[k + 1].node in st.info then st.info[st.call[k + 1].node].index else st.nextIndex
  }

  /** No explored edge from that part leads below the frame's lowlink. */
  ghost predicate LowBounds<T(!new)>(succ: map<T, seq<T>>, st: Search<T>, k: nat)
    requires k < |st.call|
  {
    var v := st.call[k].node;
    v in st.info &&
    forall x, j {:trigger succ[x][j]} :: x in succ && 0 <= j < |succ[x]| && OnStack(st, x)
      && st.info[v].index <= st.info[x].index < Bound(st, k) && (x == v ==> j < st.call[k].cursor)
         && OnStack(st, succ[x][j])
      ==> st.info[v].lowlink <= st.info[succ[x][j]].index
  }

  ghost predicate LowOk<T(!new)>(succ: map<T, seq<T>>, st: Search<T>) {
    forall k {:trigger LowBounds(succ, st, k)} :: 0 <= k < |st.call| ==>
          LowReached(Adj(succ), st, st.call[k].node) && LowBounds(succ, st, k)
  }

  ghost predicate Inv<T(!new)>(succ: map<T, seq<T>>, st: Search<T>) {
    && StackOk(st) && CallOk(succ, st) && FinishedOk(succ, st)
    && StackReaches(Adj(succ), st) && StackReturns(Adj(succ), st) && LowOk(succ, st)
    && Components(Adj(succ), Emitted(st), st.sccs)
  }

  // ---- entering a node ----

  function Last<T>(q: seq<T>): T
    requires q != []
  {
    q[|q| - 1]
  }

  /** The top frame's cursor moves on. */
  function Bumped<T>(call: seq<Frame<T>>): seq<Frame<T>> {
    if call == [] then []
    else call[|call| - 1 := Last(call).(cursor := Last(call).cursor + 1)]
  }

  /** A first visit: index, lowlink, stack. */
  function Visit<T>(st: Search<T>, v: T): Search<T> {
    st.(info := st.info[v := NodeInfo(st.nextIndex, st.nextIndex, true)], stack := st.stack + [v],
        nextIndex := st.nextIndex + 1)
  }

  function Entered<T>(succ: map<T, seq<T>>, st: Search<T>, v: T): Search<T>
    requires v in succ
  {
    Visit(st.(call := Bumped(st.call) + [Frame(v, 0, succ[v])]), v)
  }

  /** `v` is where the search goes next. */
  ghost predicate Enters<T(!new)>(succ: map<T, seq<T>>, st: Search<T>, v: T) {
    && Inv(succ, st) && v in succ && v !in st.info
    && (st.call != [] ==>
          Last(st.call).cursor < |Last(st.call).succs| && Last(st.call).succs[Last(st.call).cursor] == v)
  }

  lemma StackOrder<T(!new)>(g: map<T, set<T>>, st: Search<T>, x: T, y: T)
    requires StackOk(st) && StackReaches(g, st) && OnStack(st, x) && OnStack(st, y)
             && st.info[x].index <= st.info[y].index
    ensures Reach(g, x, y)
  {
    var i :| 0 <= i < |st.stack| && st.stack[i] == x;
    var j :| 0 <= j < |st.stack| && st.stack[j] == y;
    if i == j { ReachSelf(g, x); }
  }

  lemma TopIsLast<T(!new)>(succ: map<T, seq<T>>, st: Search<T>, k: nat)
    requires CallOk(succ, st) && k < |st.call|
    ensures OnStack(st, st.call[k].node) && OnStack(st, Last(st.call).node)
    ensures st.info[st.call[k].node].index <= st.info[Last(st.call).node].index
  {
    assert FrameOk(succ, st, k) && FrameOk(succ, st, |st.call| - 1);
  }

  /** Everything on the stack reaches the node under visit. */
  lemma StackReachesTop<T(!new)>(succ: map<T, seq<T>>, st: Search<T>, y: T)
    requires StackOk(st) && CallOk(succ, st) && StackReaches(Adj(succ), st) && StackReturns(Adj(succ), st)
             && OnStack(st, y)
    ensures st.call != [] && Reach(Adj(succ), y, Last(st.call).node)
  {
    var g := Adj(succ);
    var k :| BackTo(g, st, y, k);
    TopIsLast(succ, st, k);
    StackOrder(g, st, st.call[k].node, Last(st.call).node);
    ReachTrans(g, y, st.call[k].node, Last(st.call).node);
  }

  lemma NothingUnderVisit<T(!new)>(succ: map<T, seq<T>>, st: Search<T>)
    requires Inv(succ, st) && st.call == []
    ensures st.stack == [] && Emitted(st) == st.info.Keys
  {
    assert st.stack != [] ==> OnStack(st, st.stack[0]);
    forall x ensures !OnStack(st, x) {
      if OnStack(st, x) { StackReachesTop(succ, st, x); }
    }
    assert forall x :: x in st.info ==> !OnStack(st, x);
  }

  lemma EnterStack<T(!new)>(succ: map<T, seq<T>>, st: Search<T>, v: T)
    requires Enters(succ, st, v)
    ensures var r := Entered(succ, st, v);
            && StackOk(r) && (forall x {:trigger OnStack(r, x)} :: OnStack(r, x) <==> OnStack(st, x) || x == v)
            && Emitted(r) == Emitted(st)
  {
    var r := Entered(succ, st, v);
    forall x ensures OnStack(r, x) <==> x in r.stack { assert OnStack(st, x) <==> x in st.stack; }
  }

  lemma EnterCall<T(!new)>(succ: map<T, seq<T>>, st: Search<T>, v: T)
    requires Enters(succ, st, v)
    ensures CallOk(succ, Entered(succ, st, v))
  {
    var r := Entered(succ, st, v);
    EnterStack(succ, st, v);
    forall k | 0 <= k < |r.call| ensures FrameOk(succ, r, k) {
      if k < |st.call| { assert FrameOk(succ, st, k); }
    }
    forall j, k | 0 <= j < k < |r.call| ensures r.call[j].node in r.info && r.call[k].node in r.info
                                             && r.info[r.call[j].node].index < r.info[r.call[k].node].index {
      assert FrameOk(succ, st, j);
      if k < |st.call| { assert st.call[j].node in st.info && st.call[k].node in st.info; }
    }
  }

  lemma EnterFinished<T(!new)>(succ: map<T, seq<T>>, st: Search<T>, v: T)
    requires Enters(succ, st, v)
    ensures FinishedOk(succ, Entered(succ, st, v))
  {
    var r := Entered(succ, st, v);
    EnterStack(succ, st, v);
    assert r.call[|r.call| - 1].node == v;
    forall x | Gray(st, x) ensures Gray(r, x) {
      var k :| 0 <= k < |st.call| && st.call[k].node == x;
      assert r.call[k].node == x;
    }
  }

  lemma EnterReaches<T(!new)>(succ: map<T, seq<T>>, st: Search<T>, v: T)
    requires Enters(succ, st, v)
    ensures StackReaches(Adj(succ), Entered(succ, st, v)) && StackReturns(Adj(succ), Entered(succ, st, v))
  {
    var r, g := Entered(succ, st, v), Adj(succ);
    EnterStack(succ, st, v);
    forall j, k | 0 <= j < k < |r.stack| ensures Reach(g, r.stack[j], r.stack[k]) {
      if k < |st.stack| {
        assert Reach(g, st.stack[j], st.stack[k]);
      } else {
        EnterReached(succ, st, v, st.stack[j]);
      }
    }
    forall y | OnStack(r, y) ensures exists k :: BackTo(g, r, y, k) {
      if y == v {
        ReachSelf(g, v);
        assert BackTo(g, r, v, |r.call| - 1);
      } else {
        var k :| BackTo(g, st, y, k);
        assert BackTo(g, r, y, k);
      }
    }
  }

  lemma EnterReached<T(!new)>(succ: map<T, seq<T>>, st: Search<T>, v: T, y: T)
    requires Enters(succ, st, v) && y in st.stack
    ensures Reach(Adj(succ), y, v)
  {
    var g := Adj(succ);
    assert OnStack(st, y);
    StackReachesTop(succ, st, y);
    var p := Last(st.call).node;
    assert FrameOk(succ, st, |st.call| - 1);
    assert Edge(g, p, v);
    ReachEdge(g, p, v);
    ReachTrans(g, y, p, v);
  }

  lemma EnterLow<T(!new)>(succ: map<T, seq<T>>, st: Search<T>, v: T)
    requires Enters(succ, st, v)
    ensures LowOk(succ, Entered(succ, st, v))
  {
    var r, g := Entered(succ, st, v), Adj(succ);
    EnterStack(succ, st, v);
    forall k | 0 <= k < |r.call| ensures LowReached(g, r, r.call[k].node) && LowBounds(succ, r, k) {
      if k < |st.call| {
        assert LowBounds(succ, st, k) && FrameOk(succ, st, k);
        EnterLowOld(succ, st, v, k);
      } else {
        ReachSelf(g, v);
        assert OnStack(r, v);
        EnterLowNew(succ, st, v);
      }
    }
  }

  lemma EnterLowNew<T(!new)>(succ: map<T, seq<T>>, st: Search<T>, v: T)
    requires Enters(succ, st, v)
    ensures LowBounds(succ, Entered(succ, st, v), |st.call|)
  {
  }

  lemma EnterLowOld<T(!new)>(succ: map<T, seq<T>>, st: Search<T>, v: T, k: nat)
    requires Enters(succ, st, v) && k < |st.call|
    ensures var r := Entered(succ, st, v); LowReached(Adj(succ), r, r.call[k].node) && LowBounds(succ, r, k)
  {
    var r, g := Entered(succ, st, v), Adj(succ);
    assert LowBounds(succ, st, k) && FrameOk(succ, st, k);
    var u := st.call[k].node;
    var w :| OnStack(st, w) && st.info[w].index == st.info[u].lowlink && Reach(g, u, w);
    assert OnStack(r, w);
    EnterBounds(succ, st, v, k);
  }

  lemma EnterBounds<T(!new)>(succ: map<T, seq<T>>, st: Search<T>, v: T, k: nat)
    requires Enters(succ, st, v) && k < |st.call| && LowBounds(succ, st, k) && FrameOk(succ, st, k)
    ensures LowBounds(succ, Entered(succ, st, v), k)
  {
    var r, u := Entered(succ, st, v), st.call[k].node;
    assert r.call[k].node == u && Bound(r, k) == Bound(st, k);
    forall x, j | x in succ && 0 <= j < |succ[x]| && OnStack(r, x)
      && r.info[u].index <= r.info[x].index < Bound(r, k) && (x == u ==> j < r.call[k].cursor) && OnStack(r, succ[x][j])
      ensures r.info[u].lowlink <= r.info[succ[x][j]].index
    {
      assert OnStack(st, x);
      if succ[x][j] != v { assert OnStack(st, succ[x][j]); }
    }
  }

  lemma EnterOk<T(!new)>(succ: map<T, seq<T>>, st: Search<T>, v: T)
    requires Enters(succ, st, v)
    ensures Inv(succ, Entered(succ, st, v))
  {
    EnterStack(succ, st, v);
    EnterCall(succ, st, v);
    EnterFinished(succ, st, v);
    EnterReaches(succ, st, v);
    EnterLow(succ, st, v);
  }

  // ---- an edge to a visited node ----

  function Min(a: nat, b: nat): nat {
    if a <= b then a else b
  }

  function Lowered<T>(info: map<T, NodeInfo>, v: T, low: nat): map<T, NodeInfo>
    requires v in info
  {
    info[v := info[v].(lowlink := Min(info[v].lowlink, low))]
  }

  /** The top frame looks at a successor `w` that has been visited. */
  function Looked<T>(st: Search<T>, v: T, w: T): Search<T>
    requires v in st.info && w in st.info
  {
    st.(call := Bumped(st.call), info := if st.info[w].onStack then Lowered(st.info, v, st.info[w].index) else st.info)
  }

  ghost predicate Looks<T(!new)>(succ: map<T, seq<T>>, st: Search<T>, v: T, w: T) {
    && Inv(succ, st) && st.call != [] && v == Last(st.call).node && v in st.info && w in st.info
    && Last(st.call).cursor < |Last(st.call).succs| && Last(st.call).succs[Last(st.call).cursor] == w
  }

  lemma LookStack<T(!new)>(succ: map<T, seq<T>>, st: Search<T>, v: T, w: T)
    requires Looks(succ, st, v, w)
    ensures var r := Looked(st, v, w);
            && StackOk(r) && Emitted(r) == Emitted(st) && r.info.Keys == st.info.Keys
            && (forall x {:trigger OnStack(r, x)} :: OnStack(r, x) <==> OnStack(st, x))
            && (forall x {:trigger r.info[x]} :: x in st.info ==> r.info[x].index == st.info[x].index)
            && (forall x {:trigger r.info[x]} :: x in st.info && x != v ==> r.info[x] == st.info[x])
  {
    var r := Looked(st, v, w);
    forall x ensures OnStack(r, x) <==> x in r.stack { assert OnStack(st, x) <==> x in st.stack; }
  }

  lemma LookCall<T(!new)>(succ: map<T, seq<T>>, st: Search<T>, v: T, w: T)
    requires Looks(succ, st, v, w)
    ensures CallOk(succ, Looked(st, v, w)) && FinishedOk(succ, Looked(st, v, w))
  {
    var r := Looked(st, v, w);
    LookStack(succ, st, v, w);
    forall k | 0 <= k < |r.call| ensures FrameOk(succ, r, k) {
      assert FrameOk(succ, st, k) && r.call[k].node == st.call[k].node;
    }
    forall j, k | 0 <= j < k < |r.call| ensures r.call[j].node in r.info && r.call[k].node in r.info
                                             && r.info[r.call[j].node].index < r.info[r.call[k].node].index {
      assert st.call[j].node in st.info && st.call[k].node in st.info;
    }
    forall x | Gray(st, x) ensures Gray(r, x) {
      var k :| 0 <= k < |st.call| && st.call[k].node == x;
      assert r.call[k].node == x;
    }
  }

  lemma LookReaches<T(!new)>(succ: map<T, seq<T>>, st: Search<T>, v: T, w: T)
    requires Looks(succ, st, v, w)
    ensures StackReaches(Adj(succ), Looked(st, v, w)) && StackReturns(Adj(succ), Looked(st, v, w))
  {
    var r, g := Looked(st, v, w), Adj(succ);
    LookStack(succ, st, v, w);
    forall j, k | 0 <= j < k < |r.stack| ensures Reach(g, r.stack[j], r.stack[k]) {
      assert Reach(g, st.stack[j], st.stack[k]);
    }
    forall y | OnStack(r, y) ensures exists k :: BackTo(g, r, y, k) {
      assert OnStack(st, y);
      var k :| BackTo(g, st, y, k);
      assert r.call[k].node == st.call[k].node;
      assert BackTo(g, r, y, k);
    }
  }

  lemma LookLow<T(!new)>(succ: map<T, seq<T>>, st: Search<T>, v: T, w: T, k: nat)
    requires Looks(succ, st, v, w) && k < |st.call|
    ensures var r := Looked(st, v, w); LowReached(Adj(succ), r, r.call[k].node) && LowBounds(succ, r, k)
  {
    var r, g, u := Looked(st, v, w), Adj(succ), st.call[k].node;
    LookStack(succ, st, v, w);
    assert LowBounds(succ, st, k) && FrameOk(succ, st, k) && FrameOk(succ, st, |st.call| - 1);
    assert r.call[k].node == u;
    var z :| OnStack(st, z) && st.info[z].index == st.info[u].lowlink && Reach(g, u, z);
    assert OnStack(r, z);
    if u == v && OnStack(st, w) {
      assert Edge(g, v, w);
      ReachEdge(g, v, w);
      assert OnStack(r, w);
    }
    LookBounds(succ, st, v, w, k);
  }

  lemma TopDiffers<T(!new)>(succ: map<T, seq<T>>, st: Search<T>, k: nat)
    requires CallOk(succ, st) && k < |st.call| - 1
    ensures st.call[k].node != Last(st.call).node
  {
    var a, b := st.call[k], st.call[|st.call| - 1];
    assert a.node in st.info && b.node in st.info;
  }

  lemma LookBounds<T(!new)>(succ: map<T, seq<T>>, st: Search<T>, v: T, w: T, k: nat)
    requires Looks(succ, st, v, w) && k < |st.call| && LowBounds(succ, st, k) && FrameOk(succ, st, k)
    ensures LowBounds(succ, Looked(st, v, w), k)
  {
    var r, u := Looked(st, v, w), st.call[k].node;
    LookStack(succ, st, v, w);
    assert r.call[k].node == u && Bound(r, k) == Bound(st, k);
    if k < |st.call| - 1 { TopDiffers(succ, st, k); }
    forall x, j | x in succ && 0 <= j < |succ[x]| && OnStack(r, x)
      && r.info[u].index <= r.info[x].index < Bound(r, k) && (x == u ==> j < r.call[k].cursor) && OnStack(r, succ[x][j])
      ensures r.info[u].lowlink <= r.info[succ[x][j]].index
    {
      assert OnStack(st, x) && OnStack(st, succ[x][j]);
      LookBound(succ, st, v, w, k, x, j);
    }
  }

  lemma LookBound<T(!new)>(succ: map<T, seq<T>>, st: Search<T>, v: T, w: T, k: nat, x: T, j: nat)
    requires k < |st.call| && LowBounds(succ, st, k) && FrameOk(succ, st, k) && v == Last(st.call).node && v in st.info
             && w in st.info
    requires Last(st.call).cursor < |Last(st.call).succs| && Last(st.call).succs[Last(st.call).cursor] == w
    requires k < |st.call| - 1 ==> st.call[k].node != v
    requires x in succ && j < |succ[x]| && OnStack(st, x) && OnStack(st, succ[x][j])
    requires st.info[st.call[k].node].index <= st.info[x].index < Bound(st, k)
    requires x == st.call[k].node ==> j < Looked(st, v, w).call[k].cursor
    ensures Looked(st, v, w).info[st.call[k].node].lowlink <= st.info[succ[x][j]].index
  {
    if x == st.call[k].node && k == |st.call| - 1 && j == st.call[k].cursor {
      assert succ[x][j] == w;
    } else {
      assert x == st.call[k].node ==> j < st.call[k].cursor;
      assert st.info[st.call[k].node].lowlink <= st.info[succ[x][j]].index;
    }
  }

  lemma LookOk<T(!new)>(succ: map<T, seq<T>>, st: Search<T>, v: T, w: T)
    requires Looks(succ, st, v, w)
    ensures Inv(succ, Looked(st, v, w))
  {
    LookStack(succ, st, v, w);
    LookCall(succ, st, v, w);
    LookReaches(succ, st, v, w);
    var r := Looked(st, v, w);
    forall k | 0 <= k < |r.call| ensures LowReached(Adj(succ), r, r.call[k].node) && LowBounds(succ, r, k) {
      LookLow(succ, st, v, w, k);
    }
  }

  // ---- leaving a node ----

  function Popped<T>(call: seq<Frame<T>>): seq<Frame<T>>
    requires call != []
  {
    call[..|call| - 1]
  }

  /** The caller takes over the lowlink of the node it called. */
  function Informed<T>(info: map<T, NodeInfo>, call: seq<Frame<T>>, low: nat): map<T, NodeInfo> {
    if call != [] && Last(call).node in info then Lowered(info, Last(call).node, low) else info
  }

  ghost predicate Leaves<T(!new)>(succ: map<T, seq<T>>, st: Search<T>, v: T) {
    && Inv(succ, st) && st.call != [] && v == Last(st.call).node && v in st.info
    && Last(st.call).cursor == |Last(st.call).succs|
  }

  /** `v` is not the root of its component: it stays on the stack. */
  function Returned<T>(st: Search<T>, v: T): Search<T>
    requires st.call != [] && v in st.info
  {
    st.(call := Popped(st.call), info := Informed(st.info, Popped(st.call), st.info[v].lowlink))
  }

  lemma ReturnStack<T(!new)>(succ: map<T, seq<T>>, st: Search<T>, v: T)
    requires Leaves(succ, st, v)
    ensures var r := Returned(st, v);
            && StackOk(r) && Emitted(r) == Emitted(st) && r.info.Keys == st.info.Keys
            && (forall x {:trigger OnStack(r, x)} :: OnStack(r, x) <==> OnStack(st, x))
            && (forall x {:trigger r.info[x]} :: x in st.info ==> r.info[x].index == st.info[x].index)
            && (forall x {:trigger r.info[x]} :: x in st.info && (r.call == [] || x != Last(r.call).node) ==>
                  r.info[x] == st.info[x])
            && (r.call != [] && Last(r.call).node in st.info ==>
                  r.info[Last(r.call).node].lowlink == Min(st.info[Last(r.call).node].lowlink, st.info[v].lowlink))
  {
    var r := Returned(st, v);
    forall x ensures OnStack(r, x) <==> x in r.stack { assert OnStack(st, x) <==> x in st.stack; }
  }

  lemma PoppedCall<T(!new)>(succ: map<T, seq<T>>, st: Search<T>, r: Search<T>)
    requires CallOk(succ, st) && st.call != [] && r.call == Popped(st.call) && r.info.Keys == st.info.Keys
    requires forall k {:trigger r.call[k]} :: 0 <= k < |r.call| ==> OnStack(r, r.call[k].node)
    requires forall x {:trigger r.info[x]} :: x in st.info ==> r.info[x].index == st.info[x].index
    ensures CallOk(succ, r)
  {
    forall k | 0 <= k < |r.call| ensures FrameOk(succ, r, k) {
      assert FrameOk(succ, st, k) && r.call[k] == st.call[k];
    }
    forall j, k | 0 <= j < k < |r.call| ensures r.call[j].node in r.info && r.call[k].node in r.info
                                             && r.info[r.call[j].node].index < r.info[r.call[k].node].index {
      var a, b := st.call[j], st.call[k];
      assert a.node in st.info && b.node in st.info;
    }
  }

  /** With `v` done, everything finished has only visited successors. */
  lemma LeaveFinished<T(!new)>(succ: map<T, seq<T>>, st: Search<T>, v: T, x: T, j: nat)
    requires Leaves(succ, st, v) && x in st.info && 0 <= j < |succ[x]|
    requires forall k :: 0 <= k < |st.call| - 1 ==> st.call[k].node != x
    ensures succ[x][j] in st.info
  {
    assert FrameOk(succ, st, |st.call| - 1);
    assert x != v ==> !Gray(st, x);
  }

  lemma ReturnCall<T(!new)>(succ: map<T, seq<T>>, st: Search<T>, v: T)
    requires Leaves(succ, st, v)
    ensures CallOk(succ, Returned(st, v)) && FinishedOk(succ, Returned(st, v))
  {
    var r := Returned(st, v);
    ReturnStack(succ, st, v);
    forall k | 0 <= k < |r.call| ensures OnStack(r, r.call[k].node) { assert FrameOk(succ, st, k); }
    PoppedCall(succ, st, r);
    forall x, j | x in r.info && !Gray(r, x) && 0 <= j < |succ[x]| ensures succ[x][j] in r.info {
      assert forall k :: 0 <= k < |st.call| - 1 ==> r.call[k].node != x;
      LeaveFinished(succ, st, v, x, j);
    }
  }

  /** A node that is not a root reaches one under visit before it. */
  lemma ReturnsBelow<T(!new)>(succ: map<T, seq<T>>, st: Search<T>, v: T, y: T) returns (k: nat)
    requires Leaves(succ, st, v) && st.info[v].lowlink < st.info[v].index && OnStack(st, y)
    ensures k < |st.call| - 1 && BackTo(Adj(succ), st, y, k)
  {
    var g, n := Adj(succ), |st.call| - 1;
    var i :| BackTo(g, st, y, i);
    k := i;
    if k == n {
      k := LowReturns(succ, st, v);
      ReachTrans(g, y, v, st.call[k].node);
    }
  }

  lemma LowReturns<T(!new)>(succ: map<T, seq<T>>, st: Search<T>, v: T) returns (k: nat)
    requires Leaves(succ, st, v) && st.info[v].lowlink < st.info[v].index
    ensures k < |st.call| - 1 && BackTo(Adj(succ), st, v, k)
  {
    var g := Adj(succ);
    assert LowBounds(succ, st, |st.call| - 1) && LowReached(g, st, v);
    var w :| OnStack(st, w) && st.info[w].index == st.info[v].lowlink && Reach(g, v, w);
    var j :| BackTo(g, st, w, j);
    ReachTrans(g, v, w, st.call[j].node);
    k := j;
  }

  lemma ReturnReaches<T(!new)>(succ: map<T, seq<T>>, st: Search<T>, v: T)
    requires Leaves(succ, st, v) && st.info[v].lowlink < st.info[v].index
    ensures StackReaches(Adj(succ), Returned(st, v)) && StackReturns(Adj(succ), Returned(st, v))
  {
    var r, g := Returned(st, v), Adj(succ);
    ReturnStack(succ, st, v);
    forall j, k | 0 <= j < k < |r.stack| ensures Reach(g, r.stack[j], r.stack[k]) {
      assert Reach(g, st.stack[j], st.stack[k]);
    }
    forall y | OnStack(r, y) ensures exists k :: BackTo(g, r, y, k) {
      var k := ReturnsBelow(succ, st, v, y);
      assert r.call[k] == st.call[k];
      assert BackTo(g, r, y, k);
    }
  }

  lemma ReturnLowReached<T(!new)>(succ: map<T, seq<T>>, st: Search<T>, v: T, k: nat)
    requires Leaves(succ, st, v) && k < |st.call| - 1
    ensures LowReached(Adj(succ), Returned(st, v), st.call[k].node)
  {
    var r, g, u, n := Returned(st, v), Adj(succ), st.call[k].node, |st.call| - 1;
    ReturnStack(succ, st, v);
    assert LowBounds(succ, st, k) && FrameOk(succ, st, k) && LowBounds(succ, st, n);
    var z :| OnStack(st, z) && st.info[z].index == st.info[u].lowlink && Reach(g, u, z);
    assert OnStack(r, z);
    if k == n - 1 {
      var w :| OnStack(st, w) && st.info[w].index == st.info[v].lowlink && Reach(g, v, w);
      assert Edge(g, u, v);
      ReachEdge(g, u, v);
      ReachTrans(g, u, v, w);
      assert OnStack(r, w);
    } else {
      TopDiffersBelow(succ, st, k);
    }
  }

  lemma TopDiffersBelow<T(!new)>(succ: map<T, seq<T>>, st: Search<T>, k: nat)
    requires CallOk(succ, st) && k < |st.call| - 2
    ensures st.call[k].node != st.call[|st.call| - 2].node
  {
    var a, b := st.call[k], st.call[|st.call| - 2];
    assert a.node in st.info && b.node in st.info;
  }

  lemma ReturnBounds<T(!new)>(succ: map<T, seq<T>>, st: Search<T>, v: T, k: nat)
    requires Leaves(succ, st, v) && k < |st.call| - 1
    ensures LowBounds(succ, Returned(st, v), k)
  {
    var r, u := Returned(st, v), st.call[k].node;
    ReturnStack(succ, st, v);
    assert FrameOk(succ, st, k) && r.call[k] == st.call[k];
    if k < |st.call| - 2 { TopDiffersBelow(succ, st, k); }
    forall x, j | x in succ && 0 <= j < |succ[x]| && OnStack(r, x)
      && r.info[u].index <= r.info[x].index < Bound(r, k) && (x == u ==> j < r.call[k].cursor) && OnStack(r, succ[x][j])
      ensures r.info[u].lowlink <= r.info[succ[x][j]].index
    {
      assert OnStack(st, x) && OnStack(st, succ[x][j]);
      ReturnBoundAt(succ, st, v, k, x, j);
    }
  }

  lemma ReturnBoundAt<T(!new)>(succ: map<T, seq<T>>, st: Search<T>, v: T, k: nat, x: T, j: nat)
    requires Leaves(succ, st, v) && k < |st.call| - 1
    requires x in succ && j < |succ[x]| && OnStack(st, x) && OnStack(st, succ[x][j])
    requires st.call[k].node in st.info && st.info[st.call[k].node].index <= st.info[x].index
    requires k < |st.call| - 2 ==> st.info[x].index < Bound(st, k)
    requires x == st.call[k].node ==> j < st.call[k].cursor
    ensures if k == |st.call| - 2
            then Min(st.info[st.call[k].node].lowlink, st.info[v].lowlink) <= st.info[succ[x][j]].index
            else st.info[st.call[k].node].lowlink <= st.info[succ[x][j]].index
  {
    assert FrameOk(succ, st, |st.call| - 1);
    ReturnBound(succ, st, v, k, x, j);
  }

  /** The caller answers for what the node it called answered for. */
  lemma ReturnBound<T(!new)>(succ: map<T, seq<T>>, st: Search<T>, v: T, k: nat, x: T, j: nat)
    requires k < |st.call| - 1 && v == Last(st.call).node && v in st.info
             && Last(st.call).cursor == |Last(st.call).succs|
    requires LowBounds(succ, st, k) && LowBounds(succ, st, |st.call| - 1) && v in succ && Last(st.call).succs == succ[v]
    requires OnStack(st, x) && st.info[x].index < st.nextIndex
    requires x in succ && j < |succ[x]| && OnStack(st, x) && OnStack(st, succ[x][j])
    requires st.call[k].node in st.info && st.info[st.call[k].node].index <= st.info[x].index
    requires k < |st.call| - 2 ==> st.info[x].index < Bound(st, k)
    requires x == st.call[k].node ==> j < st.call[k].cursor
    ensures if k == |st.call| - 2
            then Min(st.info[st.call[k].node].lowlink, st.info[v].lowlink) <= st.info[succ[x][j]].index
            else st.info[st.call[k].node].lowlink <= st.info[succ[x][j]].index
  {
    if st.info[x].index >= Bound(st, k) {
      assert x == v ==> j < Last(st.call).cursor;
      assert st.info[v].lowlink <= st.info[succ[x][j]].index;
    } else {
      assert st.info[st.call[k].node].lowlink <= st.info[succ[x][j]].index;
    }
  }

  lemma ReturnOk<T(!new)>(succ: map<T, seq<T>>, st: Search<T>, v: T)
    requires Leaves(succ, st, v) && st.info[v].lowlink < st.info[v].index
    ensures Inv(succ, Returned(st, v))
  {
    ReturnStack(succ, st, v);
    ReturnCall(succ, st, v);
    ReturnReaches(succ, st, v);
    var r := Returned(st, v);
    forall k | 0 <= k < |r.call| ensures LowReached(Adj(succ), r, r.call[k].node) && LowBounds(succ, r, k) {
      ReturnLowReached(succ, st, v, k);
      ReturnBounds(succ, st, v, k);
    }
  }

  // ---- a finished component ----

  function Reversed<T>(q: seq<T>): (r: seq<T>)
    ensures |r| == |q| && forall k :: 0 <= k < |q| ==> r[k] == q[|q| - 1 - k]
  {
    seq(|q|, k requires 0 <= k < |q| => q[|q| - 1 - k])
  }

  function Cleared<T(==)>(info: map<T, NodeInfo>, part: seq<T>): map<T, NodeInfo> {
    map x | x in info :: if x in part then info[x].(onStack := false) else info[x]
  }

  /** `v`, at stack position `pos`, is the root of a component: it and everything above it come off. */
  function Harvested<T(==)>(st: Search<T>, pos: nat): Search<T>
    requires st.call != [] && pos < |st.stack|
  {
    st.(stack := st.stack[..pos], info := Cleared(st.info, st.stack[pos..]),
        sccs := st.sccs + [Reversed(st.stack[pos..])], call := Popped(st.call))
  }

  ghost predicate IsRoot<T(!new)>(succ: map<T, seq<T>>, st: Search<T>, v: T, pos: nat) {
    Leaves(succ, st, v) && st.info[v].lowlink == st.info[v].index && pos < |st.stack| && st.stack[pos] == v
  }

  ghost function Part<T(!new)>(st: Search<T>, pos: nat): set<T>
    requires pos <= |st.stack|
  {
    set x | x in st.stack[pos..]
  }

  lemma PartIndex<T(!new)>(st: Search<T>, pos: nat, x: T)
    requires StackOk(st) && pos < |st.stack| && OnStack(st, x)
    ensures st.stack[pos] in st.info && (x in st.stack[pos..] <==> st.info[st.stack[pos]].index <= st.info[x].index)
  {
    var k :| 0 <= k < |st.stack| && st.stack[k] == x;
    if pos <= k { assert st.stack[pos..][k - pos] == x; }
    if x in st.stack[pos..] {
      var j :| 0 <= j < |st.stack[pos..]| && st.stack[pos..][j] == x;
      assert st.stack[pos + j] == x;
    }
  }

  lemma HarvestStack<T(!new)>(st: Search<T>, pos: nat)
    requires StackOk(st) && st.call != [] && pos < |st.stack|
    ensures var r := Harvested(st, pos);
            && StackOk(r) && Emitted(r) == Emitted(st) + Part(st, pos) && r.info.Keys == st.info.Keys
               && st.stack[pos] in st.info
            && (forall x {:trigger OnStack(r, x)} :: OnStack(r, x) <==>
                  OnStack(st, x) && st.info[x].index < st.info[st.stack[pos]].index)
            && (forall x {:trigger r.info[x]} :: x in st.info ==>
                  r.info[x].index == st.info[x].index && r.info[x].lowlink == st.info[x].lowlink)
  {
    var r := Harvested(st, pos);
    forall x {:trigger OnStack(r, x)} ensures OnStack(r, x) <==> OnStack(st, x) && x !in st.stack[pos..] {}
    forall x | OnStack(st, x) ensures x in st.stack[pos..] <==> st.info[st.stack[pos]].index <= st.info[x].index {
      PartIndex(st, pos, x);
    }
    assert forall x :: x in st.stack[pos..] ==> OnStack(st, x);
    forall x ensures OnStack(r, x) <==> x in r.stack { HarvestStays(st, pos, x); }
  }

  lemma HarvestStays<T(!new)>(st: Search<T>, pos: nat, x: T)
    requires StackOk(st) && st.call != [] && pos < |st.stack|
    ensures OnStack(Harvested(st, pos), x) <==> x in st.stack[..pos]
  {
    assert OnStack(st, x) <==> x in st.stack;
    assert st.stack == st.stack[..pos] + st.stack[pos..];
    if x in st.stack[..pos] {
      var k :| 0 <= k < pos && st.stack[k] == x;
      PartIndex(st, pos, x);
    }
  }

  /** No edge leaves a root's part of the stack except to what has been emitted. */
  lemma PartClosed<T(!new)>(succ: map<T, seq<T>>, st: Search<T>, v: T, pos: nat)
    requires IsRoot(succ, st, v, pos)
    ensures Closed(Adj(succ), Emitted(st) + Part(st, pos))
  {
    forall a, b | a in Emitted(st) + Part(st, pos) && Edge(Adj(succ), a, b) ensures b in Emitted(st) + Part(st, pos) {
      if a in Part(st, pos) {
        assert OnStack(st, a);
        var j :| 0 <= j < |succ[a]| && succ[a][j] == b;
        PartEdge(succ, st, v, pos, a, j);
      }
    }
  }

  lemma PartEdge<T(!new)>(succ: map<T, seq<T>>, st: Search<T>, v: T, pos: nat, a: T, j: nat)
    requires IsRoot(succ, st, v, pos) && OnStack(st, a) && a in st.stack[pos..] && a in succ && j < |succ[a]|
    ensures succ[a][j] in Emitted(st) + Part(st, pos)
  {
    var n := |st.call| - 1;
    PartIndex(st, pos, a);
    assert FrameOk(succ, st, n) && LowBounds(succ, st, n);
    PartNotGray(succ, st, v, pos, a);
    LeaveFinished(succ, st, v, a, j);
    if OnStack(st, succ[a][j]) {
      assert st.info[v].lowlink <= st.info[succ[a][j]].index;
      PartIndex(st, pos, succ[a][j]);
    }
  }

  lemma PartNotGray<T(!new)>(succ: map<T, seq<T>>, st: Search<T>, v: T, pos: nat, a: T)
    requires IsRoot(succ, st, v, pos) && a in st.info && st.info[v].index <= st.info[a].index
    ensures forall k :: 0 <= k < |st.call| - 1 ==> st.call[k].node != a
  {
    forall k | 0 <= k < |st.call| - 1 ensures st.call[k].node != a {
      var f, e := st.call[k], st.call[|st.call| - 1];
      assert f.node in st.info && e.node in st.info;
    }
  }

  /** Everything in a root's part is mutually reachable with the root. */
  lemma PartMutual<T(!new)>(succ: map<T, seq<T>>, st: Search<T>, v: T, pos: nat, y: T)
    requires IsRoot(succ, st, v, pos) && y in Part(st, pos)
    ensures Mutual(Adj(succ), v, y)
  {
    var g := Adj(succ);
    assert OnStack(st, y) && OnStack(st, v);
    PartIndex(st, pos, y);
    StackOrder(g, st, v, y);
    StackReachesTop(succ, st, y);
  }

  /** The part is a whole component. */
  lemma PartIsComponent<T(!new)>(succ: map<T, seq<T>>, st: Search<T>, v: T, pos: nat)
    requires IsRoot(succ, st, v, pos)
    ensures IsComponent(Adj(succ), Reversed(st.stack[pos..])) && Distinct(Reversed(st.stack[pos..]))
  {
    var g, comp := Adj(succ), Reversed(st.stack[pos..]);
    ReversedMembers(st.stack[pos..]);
    forall a, b | a in comp && b in g ensures b in comp <==> Mutual(g, a, b) {
      PartMutual(succ, st, v, pos, a);
      if b in comp {
        PartMutual(succ, st, v, pos, b);
        ReachTrans(g, a, v, b);
        ReachTrans(g, b, v, a);
      }
      if Mutual(g, a, b) { PartHolds(succ, st, v, pos, a, b); }
    }
    forall j, k | 0 <= j < k < |comp| ensures comp[j] != comp[k] {
      var x, y := st.stack[|st.stack| - 1 - k], st.stack[|st.stack| - 1 - j];
      assert st.info[x].index < st.info[y].index;
    }
  }

  lemma PartHolds<T(!new)>(succ: map<T, seq<T>>, st: Search<T>, v: T, pos: nat, a: T, b: T)
    requires IsRoot(succ, st, v, pos) && a in Part(st, pos) && Mutual(Adj(succ), a, b)
    ensures b in Part(st, pos)
  {
    var g := Adj(succ);
    PartClosed(succ, st, v, pos);
    ReachStays(g, Emitted(st) + Part(st, pos), a, b);
    assert OnStack(st, a);
    if b in Emitted(st) { ReachStays(g, Emitted(st), b, a); }
  }

  lemma ReversedMembers<T>(q: seq<T>)
    ensures forall x :: x in q <==> x in Reversed(q)
  {
    var r := Reversed(q);
    forall x ensures x in q <==> x in r {
      if x in q {
        var k :| 0 <= k < |q| && q[k] == x;
        assert r[|q| - 1 - k] == x;
      }
    }
  }

  lemma HarvestComponents<T(!new)>(succ: map<T, seq<T>>, st: Search<T>, v: T, pos: nat)
    requires IsRoot(succ, st, v, pos)
    ensures Components(Adj(succ), Emitted(st) + Part(st, pos), st.sccs + [Reversed(st.stack[pos..])])
  {
    var g, comp := Adj(succ), Reversed(st.stack[pos..]);
    PartIsComponent(succ, st, v, pos);
    ReversedMembers(st.stack[pos..]);
    forall k | 0 <= k < |st.sccs| ensures NoReachBetween(g, st.sccs[k], comp) {
      forall a, b | a in st.sccs[k] && b in comp ensures !Reach(g, a, b) {
        assert Among(st.sccs, |st.sccs|, a);
        assert a in Emitted(st) && OnStack(st, b);
        if Reach(g, a, b) { ReachStays(g, Emitted(st), a, b); }
      }
    }
    AppendComponent(g, Emitted(st), Part(st, pos), st.sccs, comp);
  }

  lemma AppendComponent<T(!new)>(g: map<T, set<T>>, done: set<T>, part: set<T>, sccs: seq<seq<T>>, comp: seq<T>)
    requires Components(g, done, sccs) && IsComponent(g, comp) && Distinct(comp) && forall x :: x in part <==> x in comp
    requires forall k {:trigger sccs[k]} :: 0 <= k < |sccs| ==> NoReachBetween(g, sccs[k], comp)
    ensures Components(g, done + part, sccs + [comp])
  {
    var all := sccs + [comp];
    forall x ensures x in done + part <==> Among(all, |all|, x) {
      assert x in done <==> Among(sccs, |sccs|, x);
      if x in done {
        var k :| 0 <= k < |sccs| && x in sccs[k];
        assert x in all[k];
      }
      if x in part { assert x in all[|sccs|]; }
      if Among(all, |all|, x) && x !in part {
        var k :| 0 <= k < |all| && x in all[k];
        assert x in sccs[k];
      }
    }
  }

  lemma HarvestCall<T(!new)>(succ: map<T, seq<T>>, st: Search<T>, v: T, pos: nat)
    requires IsRoot(succ, st, v, pos)
    ensures CallOk(succ, Harvested(st, pos))
  {
    var r := Harvested(st, pos);
    HarvestStack(st, pos);
    forall k | 0 <= k < |r.call| ensures OnStack(r, r.call[k].node) {
      assert FrameOk(succ, st, k) && r.call[k] == st.call[k];
      var f, e := st.call[k], st.call[|st.call| - 1];
      assert f.node in st.info && e.node in st.info;
    }
    PoppedCall(succ, st, r);
  }

  lemma HarvestFinished<T(!new)>(succ: map<T, seq<T>>, st: Search<T>, v: T, pos: nat)
    requires IsRoot(succ, st, v, pos)
    ensures FinishedOk(succ, Harvested(st, pos))
  {
    var r := Harvested(st, pos);
    HarvestStack(st, pos);
    PartClosed(succ, st, v, pos);
    forall x, j | x in r.info && !Gray(r, x) && 0 <= j < |succ[x]| ensures succ[x][j] in r.info {
      assert forall k :: 0 <= k < |st.call| - 1 ==> r.call[k].node != x;
      LeaveFinished(succ, st, v, x, j);
    }
  }

  lemma HarvestReaches<T(!new)>(succ: map<T, seq<T>>, st: Search<T>, v: T, pos: nat)
    requires IsRoot(succ, st, v, pos)
    ensures StackReaches(Adj(succ), Harvested(st, pos)) && StackReturns(Adj(succ), Harvested(st, pos))
  {
    var r, g := Harvested(st, pos), Adj(succ);
    HarvestStack(st, pos);
    forall j, k | 0 <= j < k < |r.stack| ensures Reach(g, r.stack[j], r.stack[k]) {
      assert Reach(g, st.stack[j], st.stack[k]);
    }
    forall y | OnStack(r, y) ensures exists k :: BackTo(g, r, y, k) {
      assert OnStack(st, y);
      var k :| BackTo(g, st, y, k);
      assert k < |st.call| - 1;
      assert r.call[k] == st.call[k];
      assert BackTo(g, r, y, k);
    }
  }

  lemma HarvestLow<T(!new)>(succ: map<T, seq<T>>, st: Search<T>, v: T, pos: nat, k: nat)
    requires IsRoot(succ, st, v, pos) && k < |st.call| - 1
    ensures var r := Harvested(st, pos); LowReached(Adj(succ), r, r.call[k].node) && LowBounds(succ, r, k)
  {
    var r, g, u := Harvested(st, pos), Adj(succ), st.call[k].node;
    HarvestStack(st, pos);
    assert LowBounds(succ, st, k) && FrameOk(succ, st, k) && r.call[k] == st.call[k];
    var f, e := st.call[k], st.call[|st.call| - 1];
    assert f.node in st.info && e.node in st.info && st.info[u].index < st.info[v].index;
    var w :| OnStack(st, w) && st.info[w].index == st.info[u].lowlink && Reach(g, u, w);
    assert OnStack(r, w);
    HarvestBounds(succ, st, v, pos, k);
  }

  lemma HarvestBounds<T(!new)>(succ: map<T, seq<T>>, st: Search<T>, v: T, pos: nat, k: nat)
    requires StackOk(st) && k < |st.call| - 1 && LowBounds(succ, st, k) && Last(st.call).node == v
    requires v in st.info && pos < |st.stack| && st.stack[pos] == v
    ensures LowBounds(succ, Harvested(st, pos), k)
  {
    var r, u := Harvested(st, pos), st.call[k].node;
    HarvestStack(st, pos);
    assert r.call[k] == st.call[k];
    forall x, j | x in succ && 0 <= j < |succ[x]| && OnStack(r, x)
      && r.info[u].index <= r.info[x].index < Bound(r, k) && (x == u ==> j < r.call[k].cursor) && OnStack(r, succ[x][j])
      ensures r.info[u].lowlink <= r.info[succ[x][j]].index
    {
      assert OnStack(st, x) && OnStack(st, succ[x][j]);
      assert k + 1 < |r.call| ==> r.call[k + 1] == st.call[k + 1];
      assert st.info[x].index < Bound(st, k);
    }
  }

  lemma HarvestOk<T(!new)>(succ: map<T, seq<T>>, st: Search<T>, v: T, pos: nat)
    requires IsRoot(succ, st, v, pos)
    ensures Inv(succ, Harvested(st, pos))
  {
    HarvestStack(st, pos);
    HarvestCall(succ, st, v, pos);
    HarvestFinished(succ, st, v, pos);
    HarvestReaches(succ, st, v, pos);
    HarvestComponents(succ, st, v, pos);
    var r := Harvested(st, pos);
    forall k | 0 <= k < |r.call| ensures LowReached(Adj(succ), r, r.call[k].node) && LowBounds(succ, r, k) {
      HarvestLow(succ, st, v, pos, k);
    }
  }

  // ---- the algorithm ----

  /** At the head of the search loop a frame just pushed has not been visited yet. */
  ghost function Arrived<T>(st: Search<T>): Search<T> {
    if st.call != [] && Last(st.call).cursor == 0 then Visit(st, Last(st.call).node) else st
  }

  ghost predicate Ready<T(!new)>(succ: map<T, seq<T>>, st: Search<T>) {
    Inv(succ, Arrived(st)) && (st.call != [] && Last(st.call).cursor == 0 ==> Last(st.call).node !in st.info)
  }

  /** What is left to do in the frames under visit. */
  ghost function Work<T>(call: seq<Frame<T>>): nat {
    if call == [] then 0
    else
      var f := Last(call);
      Work(Popped(call)) + 1 + (if f.cursor <= |f.succs| then |f.succs| - f.cursor else 0)
  }

  lemma WorkBumped<T>(call: seq<Frame<T>>)
    requires call != [] && Last(call).cursor < |Last(call).succs|
    ensures Work(Bumped(call)) < Work(call)
  {
    assert Popped(Bumped(call)) == Popped(call);
  }

  ghost function Unseen<T(!new)>(succ: map<T, seq<T>>, st: Search<T>): nat {
    |succ.Keys - Arrived(st).info.Keys|
  }

  /** From `st`, with the top frame's node visited, to the next loop head `r`: the search goes on and comes nearer
      its end. */
  ghost predicate Proceeds<T(!new)>(succ: map<T, seq<T>>, st: Search<T>, r: Search<T>) {
    && Ready(succ, r) && st.info.Keys <= Arrived(r).info.Keys
    && (Unseen(succ, r) < |succ.Keys - st.info.Keys|
        || (Unseen(succ, r) == |succ.Keys - st.info.Keys| && Work(r.call) < Work(st.call)))
  }

  lemma EnterProceeds<T(!new)>(succ: map<T, seq<T>>, st: Search<T>, w: T)
    requires Enters(succ, st, w)
    ensures Proceeds(succ, st, st.(call := Bumped(st.call) + [Frame(w, 0, succ[w])]))
  {
    var r := st.(call := Bumped(st.call) + [Frame(w, 0, succ[w])]);
    EnterOk(succ, st, w);
    assert Arrived(r) == Entered(succ, st, w);
    assert Arrived(r).info.Keys == st.info.Keys + {w};
    assert succ.Keys - st.info.Keys == (succ.Keys - (st.info.Keys + {w})) + {w};
  }

  lemma LookProceeds<T(!new)>(succ: map<T, seq<T>>, st: Search<T>, v: T, w: T)
    requires Looks(succ, st, v, w)
    ensures Proceeds(succ, st, Looked(st, v, w))
  {
    var r := Looked(st, v, w);
    LookOk(succ, st, v, w);
    LookStack(succ, st, v, w);
    WorkBumped(st.call);
    assert Arrived(r) == r;
  }

  lemma LeaveProceeds<T(!new)>(succ: map<T, seq<T>>, st: Search<T>, r: Search<T>)
    requires Inv(succ, st) && st.call != [] && Inv(succ, r) && r.call == Popped(st.call) && r.info.Keys == st.info.Keys
    ensures Proceeds(succ, st, r)
  {
    if r.call != [] { assert FrameOk(succ, st, |st.call| - 2); }
    assert Arrived(r) == r;
  }

  lemma HarvestProceeds<T(!new)>(succ: map<T, seq<T>>, st: Search<T>, v: T, pos: nat)
    requires IsRoot(succ, st, v, pos)
    ensures Proceeds(succ, st, Harvested(st, pos))
  {
    HarvestOk(succ, st, v, pos);
    HarvestStack(st, pos);
    LeaveProceeds(succ, st, Harvested(st, pos));
  }

  /** A root has nothing to report: its caller's lowlink is smaller already. */
  lemma RootSilent<T(!new)>(succ: map<T, seq<T>>, st: Search<T>, v: T, pos: nat)
    requires StackOk(st) && CallOk(succ, st) && st.call != [] && v == Last(st.call).node && v in st.info
    requires st.info[v].lowlink == st.info[v].index && pos < |st.stack|
    ensures var r := Harvested(st, pos); r.info == Informed(r.info, r.call, st.info[v].lowlink)
  {
    HarvestStack(st, pos);
    if |st.call| > 1 {
      var f, e := st.call[|st.call| - 2], st.call[|st.call| - 1];
      assert f.node in st.info && e.node in st.info;
    }
  }

  lemma ReturnProceeds<T(!new)>(succ: map<T, seq<T>>, st: Search<T>, v: T)
    requires Leaves(succ, st, v) && st.info[v].lowlink != st.info[v].index
    ensures Proceeds(succ, st, Returned(st, v))
  {
    ReturnOk(succ, st, v);
    ReturnStack(succ, st, v);
    LeaveProceeds(succ, st, Returned(st, v));
  }

  /** Take a component off the stack, down to its root `v`. */
  method PopComponent<T(==)>(stack: seq<T>, info: map<T, NodeInfo>, v: T, ghost pos: nat)
    returns (rest: seq<T>, marks: map<T, NodeInfo>, comp: seq<T>)
    requires pos < |stack| && stack[pos] == v && v !in stack[pos + 1..] && forall k :: 0 <= k < |stack| ==>
               stack[k] in info
    ensures rest == stack[..pos] && marks == Cleared(info, stack[pos..]) && comp == Reversed(stack[pos..])
  {
    rest, marks, comp := stack, info, [];
    ghost var top := |stack|;
    while true
      invariant pos < top <= |stack| && rest == stack[..top]
      invariant marks == Cleared(info, stack[top..]) && comp == Reversed(stack[top..])
      decreases top
    {
      var w := rest[|rest| - 1];
      rest := rest[..|rest| - 1];
      marks := marks[w := marks[w].(onStack := false)];
      comp := comp + [w];
      top := top - 1;
      assert stack[top..] == [w] + stack[top + 1..];
      assert top > pos ==> stack[pos + 1..][top - pos - 1] == w;
      if w == v {
        break;
      }
    }
  }

  method TarjanScc<T(==, !new)>(nodes: seq<T>, succ: map<T, seq<T>>) returns (sccs: seq<seq<T>>)
    requires Total(succ) && forall x :: x in nodes <==> x in succ
    ensures Components(Adj(succ), succ.Keys, sccs)
  {
    var info: map<T, NodeInfo>, stack: seq<T>, nextIndex := map[], [], 0;
    sccs := [];
    for s := 0 to |nodes|
      invariant Inv(succ, Search(info, stack, sccs, nextIndex, [])) && Visited(nodes, s, info.Keys)
    {
      var start := nodes[s];
      assert start in succ;
      if start !in info {
        info, stack, sccs, nextIndex := SearchFrom(succ, start, info, stack, sccs, nextIndex);
      }
    }
    AllVisited(succ, nodes, Search(info, stack, sccs, nextIndex, []));
  }

  ghost predicate Visited<T(!new)>(nodes: seq<T>, s: nat, seen: set<T>)
    requires s <= |nodes|
  {
    forall k {:trigger nodes[k]} :: 0 <= k < s ==> nodes[k] in seen
  }

  lemma AllVisited<T(!new)>(succ: map<T, seq<T>>, nodes: seq<T>, st: Search<T>)
    requires Inv(succ, st) && st.call == [] && (forall x :: x in nodes <==> x in succ)
    requires Visited(nodes, |nodes|, st.info.Keys)
    ensures Components(Adj(succ), succ.Keys, st.sccs)
  {
    NothingUnderVisit(succ, st);
    assert st.info.Keys == succ.Keys;
  }

  /** Visit everything that can be reached from `start` and has not been visited. */
  method SearchFrom<T(==, !new)>(succ: map<T, seq<T>>, start: T, info0: map<T, NodeInfo>, stack0: seq<T>,
                                 sccs0: seq<seq<T>>, nextIndex0: nat)
    returns (info: map<T, NodeInfo>, stack: seq<T>, sccs: seq<seq<T>>, nextIndex: nat)
    requires Total(succ) && start in succ && start !in info0 && Inv(succ, Search(info0, stack0, sccs0, nextIndex0, []))
    ensures Inv(succ, Search(info, stack, sccs, nextIndex, []))
    ensures info0.Keys <= info.Keys && start in info
  {
    info, stack, sccs, nextIndex := info0, stack0, sccs0, nextIndex0;
    var call := [Frame(start, 0, succ[start])];
    EnterProceeds(succ, Search(info, stack, sccs, nextIndex, []), start);
    assert Bumped([]) + [Frame(start, 0, succ[start])] == call;
    while call != []
      invariant Ready(succ, Search(info, stack, sccs, nextIndex, call))
      invariant info0.Keys + {start} <= Arrived(Search(info, stack, sccs, nextIndex, call)).info.Keys
      decreases Unseen(succ, Search(info, stack, sccs, nextIndex, call)), Work(call)
    {
      info, stack, sccs, nextIndex, call := SearchStep(succ, info, stack, sccs, nextIndex, call);
    }
  }

  /** One turn of the search loop: visit the top frame's node if that is new, then take its next
      successor or leave it. */
  method SearchStep<T(==, !new)>(succ: map<T, seq<T>>, info0: map<T, NodeInfo>, stack0: seq<T>, sccs0: seq<seq<T>>,
                                 nextIndex0: nat, call0: seq<Frame<T>>)
    returns (info: map<T, NodeInfo>, stack: seq<T>, sccs: seq<seq<T>>, nextIndex: nat, call: seq<Frame<T>>)
    requires Total(succ) && call0 != [] && Ready(succ, Search(info0, stack0, sccs0, nextIndex0, call0))
    ensures Proceeds(succ, Arrived(Search(info0, stack0, sccs0, nextIndex0, call0)),
                     Search(info, stack, sccs, nextIndex, call))
  {
    info, stack, sccs, nextIndex, call := info0, stack0, sccs0, nextIndex0, call0;
    var top := call[|call| - 1];
    if top.cursor == 0 {
      info := info[top.node := NodeInfo(nextIndex, nextIndex, true)];
      nextIndex := nextIndex + 1;
      stack := stack + [top.node];
    }
    assert Search(info, stack, sccs, nextIndex, call) == Arrived(Search(info0, stack0, sccs0, nextIndex0, call0));
    if top.cursor < |top.succs| {
      info, call := TakeSuccessor(succ, info, stack, sccs, nextIndex, call);
    } else {
      info, stack, sccs, call := LeaveNode(succ, info, stack, sccs, nextIndex, call);
    }
  }

  lemma NextSuccessor<T(!new)>(succ: map<T, seq<T>>, st: Search<T>)
    requires Total(succ) && st.call != [] && Inv(succ, st) && Last(st.call).cursor < |Last(st.call).succs|
    ensures var f := Last(st.call);
            var w := f.succs[f.cursor];
            && f.node in st.info && w in succ
            && (w !in st.info ==> Enters(succ, st, w)) && (w in st.info ==> Looks(succ, st, f.node, w))
  {
    var f := Last(st.call);
    assert FrameOk(succ, st, |st.call| - 1);
    assert succ[f.node][f.cursor] in succ;
  }

  /** The top frame moves on to its next successor. */
  method TakeSuccessor<T(==, !new)>(succ: map<T, seq<T>>, info0: map<T, NodeInfo>, stack: seq<T>, sccs: seq<seq<T>>,
                                    nextIndex: nat, call0: seq<Frame<T>>)
    returns (info: map<T, NodeInfo>, call: seq<Frame<T>>)
    requires Total(succ) && call0 != [] && Inv(succ, Search(info0, stack, sccs, nextIndex, call0))
    requires Last(call0).cursor < |Last(call0).succs|
    ensures Proceeds(succ, Search(info0, stack, sccs, nextIndex, call0), Search(info, stack, sccs, nextIndex, call))
  {
    info := info0;
    var v, i, succs := call0[|call0| - 1].node, call0[|call0| - 1].cursor, call0[|call0| - 1].succs;
    ghost var st := Search(info, stack, sccs, nextIndex, call0);
    NextSuccessor(succ, st);
    call := call0[|call0| - 1 := Frame(v, i + 1, succs)];
    var w := succs[i];
    if w !in info {
      call := call + [Frame(w, 0, succ[w])];
      assert call == Bumped(call0) + [Frame(w, 0, succ[w])];
      EnterProceeds(succ, st, w);
    } else {
      LookProceeds(succ, st, v, w);
      if info[w].onStack {
        info := Lowered(info, v, info[w].index);
      }
      assert Search(info, stack, sccs, nextIndex, call) == Looked(st, v, w);
    }
  }

  /** The top frame's node is done: emit its component if it is the root of one, and report to the caller. */
  method LeaveNode<T(==, !new)>(succ: map<T, seq<T>>, info0: map<T, NodeInfo>, stack0: seq<T>, sccs0: seq<seq<T>>,
                                ghost nextIndex: nat, call0: seq<Frame<T>>)
    returns (info: map<T, NodeInfo>, stack: seq<T>, sccs: seq<seq<T>>, call: seq<Frame<T>>)
    requires call0 != [] && Inv(succ, Search(info0, stack0, sccs0, nextIndex, call0))
    requires Last(call0).cursor >= |Last(call0).succs|
    ensures Proceeds(succ, Search(info0, stack0, sccs0, nextIndex, call0), Search(info, stack, sccs, nextIndex, call))
  {
    info, stack, sccs := info0, stack0, sccs0;
    var v := call0[|call0| - 1].node;
    ghost var st := Search(info, stack, sccs, nextIndex, call0);
    assert FrameOk(succ, st, |call0| - 1) && OnStack(st, v);
    if info[v].lowlink == info[v].index {
      ghost var pos;
      stack, info, sccs, pos := EmitComponent(stack, info, sccs, v, st);
      HarvestProceeds(succ, st, v, pos);
      RootSilent(succ, st, v, pos);
      HarvestStack(st, pos);
    } else {
      ReturnProceeds(succ, st, v);
    }
    call := call0[..|call0| - 1];
    if call != [] {
      assert FrameOk(succ, st, |call0| - 2);
      info := Lowered(info, call[|call| - 1].node, info[v].lowlink);
    }
  }

  method EmitComponent<T(==, !new)>(stack0: seq<T>, info0: map<T, NodeInfo>, sccs0: seq<seq<T>>, v: T,
                                    ghost st: Search<T>)
    returns (stack: seq<T>, info: map<T, NodeInfo>, sccs: seq<seq<T>>, ghost pos: nat)
    requires StackOk(st) && OnStack(st, v) && st.call != []
    requires st.stack == stack0 && st.info == info0 && st.sccs == sccs0
    ensures pos < |st.stack| && st.stack[pos] == v
    ensures Harvested(st, pos) == Search(info, stack, sccs, st.nextIndex, Popped(st.call))
  {
    pos :| 0 <= pos < |stack0| && stack0[pos] == v;
    RootOnce(st, pos);
    var comp;
    stack, info, comp := PopComponent(stack0, info0, v, pos);
    sccs := sccs0 + [comp];
  }

  lemma RootOnce<T(!new)>(st: Search<T>, pos: nat)
    requires StackOk(st) && pos < |st.stack|
    ensures st.stack[pos] !in st.stack[pos + 1..]
  {
    forall k | pos < k < |st.stack| ensures st.stack[k] != st.stack[pos] {
      assert st.info[st.stack[pos]].index < st.info[st.stack[k]].index;
    }
  }
}
