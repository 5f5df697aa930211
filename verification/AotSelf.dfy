/** Which values provably hold the function's own handle: a least fixpoint over copies
    and block parameters, and why it has no false positives. */
module AotSelf {
  import opened Wrappers
  import opened AotIr

  // ---- where values are defined ----

  datatype Site = AtParam(k: int) | AtBlockParam(b: int, k: int) | AtInst(b: int, k: int)

  ghost predicate DefinedAt(f: Function, s: Site, v: Value) {
    match s
    case AtParam(k) => 0 <= k < |f.params| && f.params[k] == v
    case AtBlockParam(b, k) => 0 <= b < |f.blocks| && 0 <= k < |f.blocks[b].params| && f.blocks[b].params[k] == v
    case AtInst(b, k) => 0 <= b < |f.blocks| && 0 <= k < |f.blocks[b].insts| && f.blocks[b].insts[k].dst == v
  }

  /** Static single assignment: every value has one defining site. */
  ghost predicate SingleAssignment(f: Function) {
    forall s, t, v {:trigger DefinedAt(f, s, v), DefinedAt(f, t, v)} :: DefinedAt(f, s, v) && DefinedAt(f, t, v) ==>
          s == t
  }

  // ---- edges ----

  /** Every argument list passed to block `target`, one per edge. */
  function EdgesInto(blocks: seq<Block>, target: BlockId): (r: seq<seq<Value>>)
  {
    if blocks == [] then []
    else EdgesInto(blocks[..|blocks| - 1], target) + EdgeOf(blocks[|blocks| - 1].term, target)
  }

  function EdgeOf(term: Term, target: BlockId): seq<seq<Value>> {
    match term
    case Return(_) => []
    case Jump(t, args) => if t == target then [args] else []
    case Branch(_, t, e, args) => if t == target || e == target then [args] else []
  }

  lemma {:induction false} EdgeCounted(blocks: seq<Block>, target: BlockId, b: nat, args: seq<Value>)
    requires b < |blocks| && args in EdgeOf(blocks[b].term, target)
    ensures args in EdgesInto(blocks, target)
    decreases |blocks|
  {
    if b < |blocks| - 1 { EdgeCounted(blocks[..|blocks| - 1], target, b, args); }
  }

  // ---- the fixpoint ----

  predicate Passes(args: seq<Value>, k: nat, refs: set<Value>) {
    k < |args| && args[k] in refs
  }

  predicate AllPass(edges: seq<seq<Value>>, k: nat, refs: set<Value>) {
    forall e :: 0 <= e < |edges| ==> Passes(edges[e], k, refs)
  }

  predicate IsSelfLookup(f: Function, inst: Inst) {
    inst.EnvLookup? && f.selfSym == Some(inst.sym)
  }

  /** A reason for the value defined at `s` to be the handle, given that those in `refs` are. */
  ghost predicate Reason(f: Function, refs: set<Value>, s: Site, v: Value) {
    && DefinedAt(f, s, v)
    && match s
       case AtParam(_) => false
       case AtBlockParam(b, k) =>
         var edges := EdgesInto(f.blocks, f.blocks[b].id);
         edges != [] && AllPass(edges, k, refs)
       case AtInst(b, k) =>
         var inst := f.blocks[b].insts[k];
         IsSelfLookup(f, inst) || (inst.Move? && inst.src in refs)
  }

  /** Every member has a reason. */
  ghost predicate Justified(f: Function, refs: set<Value>) {
    forall v {:trigger v in refs} :: v in refs ==> exists s :: Reason(f, refs, s, v)
  }

  /** Whatever has a reason is a member. */
  ghost predicate ClosedUnder(f: Function, refs: set<Value>) {
    forall s, v {:trigger Reason(f, refs, s, v)} :: Reason(f, refs, s, v) ==> v in refs
  }

  lemma ReasonGrows(f: Function, refs: set<Value>, more: set<Value>, s: Site, v: Value)
    requires Reason(f, refs, s, v) && refs <= more
    ensures Reason(f, more, s, v)
  {
  }

  lemma JustifiedGrows(f: Function, refs: set<Value>, s: Site, v: Value)
    requires Justified(f, refs) && Reason(f, refs, s, v)
    ensures Justified(f, refs + {v})
  {
    forall u | u in refs + {v} ensures exists t :: Reason(f, refs + {v}, t, u) {
      if u == v {
        ReasonGrows(f, refs, refs + {v}, s, v);
      } else {
        var t :| Reason(f, refs, t, u);
        ReasonGrows(f, refs, refs + {v}, t, u);
      }
    }
  }

  /** Inside every set closed under the rules. */
  ghost predicate Least(f: Function, refs: set<Value>) {
    forall t {:trigger ClosedUnder(f, t)} :: ClosedUnder(f, t) ==> refs <= t
  }

  lemma LeastGrows(f: Function, refs: set<Value>, s: Site, v: Value)
    requires Least(f, refs) && Reason(f, refs, s, v)
    ensures Least(f, refs + {v})
  {
    forall t | ClosedUnder(f, t) ensures refs + {v} <= t {
      ReasonGrows(f, refs, t, s, v);
    }
  }

  // ---- soundness ----

  /** Every member that has a value holds the handle. */
  ghost predicate SelfHeld(refs: set<Value>, ctx: Context, env: Env) {
    forall v {:trigger v in refs} :: v in refs && v in env ==> env[v] == ctx.handle
  }

  ghost predicate SelfNotCaptured(f: Function) {
    f.selfSym.Some? ==> f.selfSym.value !in f.captures
  }

  lemma ParamIsNotSelf(f: Function, refs: set<Value>, k: nat)
    requires SingleAssignment(f) && Justified(f, refs) && k < |f.params|
    ensures f.params[k] !in refs
  {
    assert DefinedAt(f, AtParam(k), f.params[k]);
  }

  lemma {:induction false} BoundIn(env: Env, params: seq<Value>, vals: seq<I64>, v: Value)
    requires |params| == |vals| && v in Bind(env, params, vals)
    ensures v in env || v in params
    decreases |params|
  {
    if params != [] {
      if v != params[|params| - 1] { BoundIn(env, params[..|params| - 1], vals[..|vals| - 1], v); }
    }
  }

  /** At a call no member has a value yet. */
  lemma StartHeld(f: Function, refs: set<Value>, ctx: Context, args: seq<I64>)
    requires SingleAssignment(f) && Justified(f, refs) && |args| == |f.params|
    ensures SelfHeld(refs, ctx, Bind(map[], f.params, args))
  {
    forall v | v in Bind(map[], f.params, args) ensures v !in refs {
      BoundIn(map[], f.params, args, v);
      var k :| 0 <= k < |f.params| && f.params[k] == v;
      ParamIsNotSelf(f, refs, k);
    }
  }

  /** The reason for a member is at its one defining site. */
  lemma ReasonAt(f: Function, refs: set<Value>, s: Site, v: Value)
    requires SingleAssignment(f) && Justified(f, refs) && DefinedAt(f, s, v) && v in refs
    ensures Reason(f, refs, s, v)
  {
    var t :| Reason(f, refs, t, v);
    assert DefinedAt(f, t, v);
  }

  /** An instruction keeps the members' values. */
  lemma InstHeld(f: Function, refs: set<Value>, ctx: Context, env: Env, b: nat, k: nat, fuel: nat)
    requires SingleAssignment(f) && Justified(f, refs) && SelfNotCaptured(f) && SelfHeld(refs, ctx, env)
    requires b < |f.blocks| && k < |f.blocks[b].insts|
    ensures var r := EvalInst(f, ctx, env, f.blocks[b].insts[k], fuel); r.Some? ==> SelfHeld(refs, ctx, r.value)
  {
    var inst := f.blocks[b].insts[k];
    assert DefinedAt(f, AtInst(b, k), inst.dst);
    if inst.dst in refs { ReasonAt(f, refs, AtInst(b, k), inst.dst); }
  }

  lemma {:induction false} InstsHeld(f: Function, refs: set<Value>, ctx: Context, env: Env, b: nat, n: nat, fuel: nat)
    requires SingleAssignment(f) && Justified(f, refs) && SelfNotCaptured(f) && SelfHeld(refs, ctx, env)
    requires b < |f.blocks| && n <= |f.blocks[b].insts|
    ensures var r := EvalInsts(f, ctx, env, f.blocks[b].insts[..n], fuel); r.Some? ==> SelfHeld(refs, ctx, r.value)
    decreases n
  {
    if n > 0 {
      assert f.blocks[b].insts[..n][..n - 1] == f.blocks[b].insts[..n - 1];
      InstsHeld(f, refs, ctx, env, b, n - 1, fuel);
      var r := EvalInsts(f, ctx, env, f.blocks[b].insts[..n - 1], fuel);
      if r.Some? { InstHeld(f, refs, ctx, r.value, b, n - 1, fuel); }
    }
  }

  lemma {:induction false} BoundValue(env: Env, params: seq<Value>, vals: seq<I64>, v: Value)
    requires |params| == |vals| && v in Bind(env, params, vals)
    ensures (v in env && Bind(env, params, vals)[v] == env[v])
         || exists k :: 0 <= k < |params| && params[k] == v && Bind(env, params, vals)[v] == vals[k]
    decreases |params|
  {
    if params != [] {
      var n := |params| - 1;
      if v != params[n] { BoundValue(env, params[..n], vals[..n], v); } else { assert params[n] == v; }
    }
  }

  /** Taking an edge keeps the members' values. */
  lemma EdgeHeld(f: Function, refs: set<Value>, ctx: Context, env: Env, from: nat, to: nat, args: seq<Value>)
    requires SingleAssignment(f) && Justified(f, refs) && SelfHeld(refs, ctx, env)
    requires from < |f.blocks| && to < |f.blocks| && args in EdgeOf(f.blocks[from].term, f.blocks[to].id)
    requires |args| == |f.blocks[to].params| && Defines(env, args)
    ensures SelfHeld(refs, ctx, Bind(env, f.blocks[to].params, Values(env, args)))
  {
    var params := f.blocks[to].params;
    var e := Bind(env, params, Values(env, args));
    EdgeCounted(f.blocks, f.blocks[to].id, from, args);
    forall v | v in refs && v in e ensures e[v] == ctx.handle {
      BoundValue(env, params, Values(env, args), v);
      if !(v in env && e[v] == env[v]) {
        var k :| 0 <= k < |params| && params[k] == v && e[v] == Values(env, args)[k];
        assert DefinedAt(f, AtBlockParam(to, k), v);
        ReasonAt(f, refs, AtBlockParam(to, k), v);
        var edges := EdgesInto(f.blocks, f.blocks[to].id);
        var i :| 0 <= i < |edges| && edges[i] == args;
        assert Passes(edges[i], k, refs);
      }
    }
  }

  // ---- the computation ----

  ghost function BlockDefs(block: Block): set<Value> {
    (set v | v in block.params) + (set i | i in block.insts :: i.dst)
  }

  /** All values the function's blocks define. */
  ghost function AllDefs(blocks: seq<Block>): set<Value> {
    if blocks == [] then {} else AllDefs(blocks[..|blocks| - 1]) + BlockDefs(blocks[|blocks| - 1])
  }

  lemma {:induction false} DefCounted(blocks: seq<Block>, b: nat, v: Value)
    requires b < |blocks| && v in BlockDefs(blocks[b])
    ensures v in AllDefs(blocks)
    decreases |blocks|
  {
    if b < |blocks| - 1 { DefCounted(blocks[..|blocks| - 1], b, v); }
  }

  /** How many values are still outside. */
  ghost function Left(f: Function, refs: set<Value>): nat {
    |AllDefs(f.blocks) - refs|
  }

  lemma LeftShrinks(f: Function, refs: set<Value>, s: Site, v: Value)
    requires Reason(f, refs, s, v) && v !in refs
    ensures Left(f, refs + {v}) < Left(f, refs)
  {
    if s.AtInst? { assert f.blocks[s.b].insts[s.k] in f.blocks[s.b].insts; }
    DefCounted(f.blocks, s.b, v);
    assert AllDefs(f.blocks) - refs == (AllDefs(f.blocks) - (refs + {v})) + {v};
  }

  /** Everything found so far has a reason, and `refs` only grows from `before`. */
  ghost predicate Progress(f: Function, before: set<Value>, refs: set<Value>, changed: bool) {
    && Justified(f, refs) && Least(f, refs) && before <= refs
    && (if changed then Left(f, refs) < Left(f, before) else refs == before)
  }

  lemma Adds(f: Function, before: set<Value>, refs: set<Value>, changed: bool, s: Site, v: Value)
    requires Progress(f, before, refs, changed) && Reason(f, refs, s, v) && v !in refs
    ensures Progress(f, before, refs + {v}, true)
  {
    JustifiedGrows(f, refs, s, v);
    LeastGrows(f, refs, s, v);
    LeftShrinks(f, refs, s, v);
  }

  /** No copy among the first `n` instructions of block `b` is missing. */
  ghost predicate MovesDone(f: Function, refs: set<Value>, b: int, n: int) {
    0 <= b < |f.blocks| && n <= |f.blocks[b].insts| &&
    forall k {:trigger f.blocks[b].insts[k]} :: 0 <= k < n ==>
      var inst := f.blocks[b].insts[k]; (inst.Move? && inst.src in refs ==> inst.dst in refs)
  }

  ghost predicate ParamDone(f: Function, refs: set<Value>, b: int, k: int) {
    0 <= b < |f.blocks| && 0 <= k < |f.blocks[b].params| &&
    var edges := EdgesInto(f.blocks, f.blocks[b].id);
    (edges != [] && AllPass(edges, k, refs) ==> f.blocks[b].params[k] in refs)
  }

  /** No parameter among the first `n` of block `b` is missing. */
  ghost predicate ParamsDone(f: Function, refs: set<Value>, b: int, n: int) {
    forall k {:trigger ParamDone(f, refs, b, k)} :: 0 <= k < n ==> ParamDone(f, refs, b, k)
  }

  ghost predicate BlockDone(f: Function, refs: set<Value>, b: int) {
    0 <= b < |f.blocks| && MovesDone(f, refs, b, |f.blocks[b].insts|) && ParamsDone(f, refs, b, |f.blocks[b].params|)
  }

  /** No lookup among the first `n` instructions of block `b` is missing. */
  ghost predicate SeedsDone(f: Function, refs: set<Value>, b: int, n: int) {
    0 <= b < |f.blocks| && n <= |f.blocks[b].insts| &&
    forall k {:trigger f.blocks[b].insts[k]} :: 0 <= k < n ==>
      (IsSelfLookup(f, f.blocks[b].insts[k]) ==> f.blocks[b].insts[k].dst in refs)
  }

  ghost predicate AllSeeds(f: Function, refs: set<Value>, n: int) {
    forall b {:trigger f.blocks[b]} :: 0 <= b < n && b < |f.blocks| ==> SeedsDone(f, refs, b, |f.blocks[b].insts|)
  }

  lemma ClosedWhenDone(f: Function, refs: set<Value>)
    requires AllSeeds(f, refs, |f.blocks|) && AllDone(f, refs, |f.blocks|)
    ensures ClosedUnder(f, refs)
  {
    forall s, v | Reason(f, refs, s, v) ensures v in refs {
      assert SeedsDone(f, refs, s.b, |f.blocks[s.b].insts|) && BlockDone(f, refs, s.b);
      if s.AtBlockParam? { assert ParamDone(f, refs, s.b, s.k); }
    }
  }

  /** The lookups of the function's own name. */
  method SeedSelfRefs(f: Function) returns (refs: set<Value>)
    ensures Justified(f, refs) && Least(f, refs) && AllSeeds(f, refs, |f.blocks|)
  {
    refs := {};
    for b := 0 to |f.blocks|
      invariant Justified(f, refs) && Least(f, refs) && AllSeeds(f, refs, b)
    {
      ghost var before := refs;
      refs := SeedBlock(f, b, refs);
      SeedsGrow(f, before, refs, b);
    }
  }

  method SeedBlock(f: Function, b: nat, refs0: set<Value>) returns (refs: set<Value>)
    requires b < |f.blocks| && Justified(f, refs0) && Least(f, refs0)
    ensures Justified(f, refs) && Least(f, refs) && refs0 <= refs && SeedsDone(f, refs, b, |f.blocks[b].insts|)
  {
    refs := refs0;
    for k := 0 to |f.blocks[b].insts|
      invariant Justified(f, refs) && Least(f, refs) && refs0 <= refs && SeedsDone(f, refs, b, k)
    {
      var inst := f.blocks[b].insts[k];
      if IsSelfLookup(f, inst) {
        assert Reason(f, refs, AtInst(b, k), inst.dst);
        JustifiedGrows(f, refs, AtInst(b, k), inst.dst);
        LeastGrows(f, refs, AtInst(b, k), inst.dst);
        refs := refs + {inst.dst};
      }
    }
  }

  /** One pass over a block's copies. */
  method PassMoves(f: Function, b: nat, refs0: set<Value>, changed0: bool, ghost before: set<Value>)
    returns (refs: set<Value>, changed: bool)
    requires b < |f.blocks| && Progress(f, before, refs0, changed0)
    ensures Progress(f, before, refs, changed) && refs0 <= refs
    ensures !changed ==> refs == refs0 && MovesDone(f, refs, b, |f.blocks[b].insts|)
  {
    refs, changed := refs0, changed0;
    for k := 0 to |f.blocks[b].insts|
      invariant Progress(f, before, refs, changed) && refs0 <= refs
      invariant !changed ==> refs == refs0 && MovesDone(f, refs, b, k)
    {
      var inst := f.blocks[b].insts[k];
      if inst.Move? && inst.src in refs && inst.dst !in refs {
        assert Reason(f, refs, AtInst(b, k), inst.dst);
        Adds(f, before, refs, changed, AtInst(b, k), inst.dst);
        refs, changed := refs + {inst.dst}, true;
      }
    }
  }

  /** One pass over a block's parameters: those that every edge feeds a member. */
  method PassParams(f: Function, b: nat, refs0: set<Value>, changed0: bool, ghost before: set<Value>)
    returns (refs: set<Value>, changed: bool)
    requires b < |f.blocks| && Progress(f, before, refs0, changed0)
    ensures Progress(f, before, refs, changed) && refs0 <= refs
    ensures !changed ==> refs == refs0 && ParamsDone(f, refs, b, |f.blocks[b].params|)
  {
    refs, changed := refs0, changed0;
    var edges := EdgesInto(f.blocks, f.blocks[b].id);
    for k := 0 to |f.blocks[b].params|
      invariant Progress(f, before, refs, changed) && refs0 <= refs
      invariant !changed ==> refs == refs0 && ParamsDone(f, refs, b, k)
    {
      refs, changed := PassParam(f, b, k, edges, refs, changed, before);
      ParamsMore(f, refs, b, k);
    }
  }

  lemma ParamsMore(f: Function, refs: set<Value>, b: nat, k: nat)
    ensures ParamsDone(f, refs, b, k) && ParamDone(f, refs, b, k) ==> ParamsDone(f, refs, b, k + 1)
  {
  }

  method PassParam(f: Function, b: nat, k: nat, edges: seq<seq<Value>>, refs0: set<Value>, changed0: bool,
                   ghost before: set<Value>)
    returns (refs: set<Value>, changed: bool)
    requires b < |f.blocks| && k < |f.blocks[b].params| && Progress(f, before, refs0, changed0)
    requires edges == EdgesInto(f.blocks, f.blocks[b].id)
    ensures Progress(f, before, refs, changed) && refs0 <= refs
    ensures !changed ==> !changed0 && refs == refs0 && ParamDone(f, refs, b, k)
  {
    refs, changed := refs0, changed0;
    var param := f.blocks[b].params[k];
    if edges != [] && param !in refs && AllPass(edges, k, refs) {
      ParamAdds(f, before, refs, changed, b, k);
      refs, changed := refs + {param}, true;
    }
  }

  lemma ParamAdds(f: Function, before: set<Value>, refs: set<Value>, changed: bool, b: nat, k: nat)
    requires b < |f.blocks| && k < |f.blocks[b].params| && f.blocks[b].params[k] !in refs
    requires var edges := EdgesInto(f.blocks, f.blocks[b].id); edges != [] && AllPass(edges, k, refs)
    requires Progress(f, before, refs, changed)
    ensures Progress(f, before, refs + {f.blocks[b].params[k]}, true)
  {
    assert Reason(f, refs, AtBlockParam(b, k), f.blocks[b].params[k]);
    Adds(f, before, refs, changed, AtBlockParam(b, k), f.blocks[b].params[k]);
  }

  ghost predicate AllDone(f: Function, refs: set<Value>, n: int) {
    forall b {:trigger BlockDone(f, refs, b)} :: 0 <= b < n ==> BlockDone(f, refs, b)
  }

  method PassBlocks(f: Function, refs0: set<Value>) returns (refs: set<Value>, changed: bool)
    requires Justified(f, refs0) && Least(f, refs0)
    ensures Progress(f, refs0, refs, changed) && (!changed ==> AllDone(f, refs, |f.blocks|))
  {
    refs, changed := refs0, false;
    for b := 0 to |f.blocks|
      invariant Progress(f, refs0, refs, changed) && (!changed ==> AllDone(f, refs, b))
    {
      refs, changed := PassBlock(f, b, refs, changed, refs0);
    }
  }

  method PassBlock(f: Function, b: nat, refs0: set<Value>, changed0: bool, ghost before: set<Value>)
    returns (refs: set<Value>, changed: bool)
    requires b < |f.blocks| && Progress(f, before, refs0, changed0) && (!changed0 ==> AllDone(f, refs0, b))
    ensures Progress(f, before, refs, changed) && (!changed ==> AllDone(f, refs, b + 1))
  {
    refs, changed := PassMoves(f, b, refs0, changed0, before);
    refs, changed := PassParams(f, b, refs, changed, before);
    assert !changed ==> BlockDone(f, refs, b);
  }

  lemma SeedsGrow(f: Function, refs: set<Value>, more: set<Value>, n: int)
    requires AllSeeds(f, refs, n) && refs <= more
    ensures AllSeeds(f, more, n)
  {
    forall b | 0 <= b < n && b < |f.blocks| ensures SeedsDone(f, more, b, |f.blocks[b].insts|) {
      assert SeedsDone(f, refs, b, |f.blocks[b].insts|);
    }
  }

  /** The least set closed under the rules; every member has a reason. */
  method ComputeSelfRefs(f: Function) returns (refs: set<Value>)
    ensures Justified(f, refs) && Least(f, refs) && ClosedUnder(f, refs)
  {
    refs := SeedSelfRefs(f);
    var changed := true;
    while changed
      invariant Justified(f, refs) && Least(f, refs) && AllSeeds(f, refs, |f.blocks|)
      invariant !changed ==> AllDone(f, refs, |f.blocks|)
      decreases Left(f, refs), changed
    {
      ghost var before := refs;
      refs, changed := PassBlocks(f, refs);
      SeedsGrow(f, before, refs, |f.blocks|);
    }
    ClosedWhenDone(f, refs);
  }
}
