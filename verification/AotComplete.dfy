/** Which calls become jumps, what can be emitted, and the stack an emitted program needs:
    the detected tail calls are all there are, and a function whose self-calls are all
    tail calls runs without ever calling itself. */
module AotComplete {
  import opened Wrappers
  import opened AotIr
  import opened AotEmit
  import opened AotSelf
  import AotProof

  // ---- tail calls, by what they mean ----

  predicate SelfCall(refs: set<Value>, inst: Inst) {
    inst.CallSelf? || (inst.Call? && inst.callee in refs)
  }

  /** A return, or a jump to a block that does nothing but return its parameter. */
  predicate Relay(f: Function, term: Term) {
    || term.Return?
    || (term.Jump? && var join := FindBlock(f.blocks, term.target);
        join.Some? && |join.value.params| == 1 && join.value.insts == []
        && join.value.term == Return(join.value.params[0]))
  }

  /** Whatever the environment, the value of `v` in it is what the function returns. */
  ghost predicate Returns(f: Function, term: Term, v: Value) {
    forall ctx, env, fuel {:trigger EvalTerm(f, ctx, env, term, fuel)} :: fuel > 0 && v in env ==>
      EvalTerm(f, ctx, env, term, fuel) == Some(env[v])
  }

  ghost predicate TailCall(f: Function, refs: set<Value>, block: Block) {
    && block.insts != []
    && var last := block.insts[|block.insts| - 1];
    SelfCall(refs, last) && Relay(f, block.term) && Returns(f, block.term, last.dst)
  }

  const Anything: Context := Context(0, map[], (h, args) => 0)

  /** No false positive and none missed. */
  lemma DetectsExactly(f: Function, refs: set<Value>, block: Block)
    ensures DetectTailCall(f, block, refs).Some? <==> TailCall(f, refs, block)
    ensures TailCall(f, refs, block) ==>
              DetectTailCall(f, block, refs) == Some(block.insts[|block.insts| - 1].args)
  {
    if block.insts != [] {
      var last := block.insts[|block.insts| - 1];
      if DetectTailCall(f, block, refs).Some? { DetectedReturns(f, refs, block, last); }
      if TailCall(f, refs, block) { ReturnsNamed(f, block.term, last.dst); }
    }
  }

  lemma DetectedReturns(f: Function, refs: set<Value>, block: Block, last: Inst)
    requires block.insts != [] && last == block.insts[|block.insts| - 1] && DetectTailCall(f, block, refs).Some?
    ensures Returns(f, block.term, last.dst)
  {
    forall ctx, env, fuel | fuel > 0 && last.dst in env
      ensures EvalTerm(f, ctx, env, block.term, fuel) == Some(env[last.dst])
    {
      if block.term.Jump? { AotProof.JoinValue(f, ctx, env, block.term.target, last.dst, fuel); }
    }
  }

  /** A relay can only return the value it names. */
  lemma ReturnsNamed(f: Function, term: Term, v: Value)
    requires Relay(f, term) && Returns(f, term, v)
    ensures term == if term.Return? then Return(v) else Jump(term.target, [v])
  {
    var env: Env := map[v := 0];
    assert EvalTerm(f, Anything, env, term, 1) == Some(0);
    if term.Jump? {
      assert Defines(env, term.args) && term.args[0] in env;
      assert term.args == [v];
    }
  }

  // ---- what is emitted ----

  predicate Supported(f: Function, inst: Inst) {
    !inst.Call? && (inst.EnvLookup? ==> inst.sym in f.captures || f.selfSym == Some(inst.sym))
  }

  predicate Fits(f: Function, term: Term) {
    term.Jump? ==> var target := FindBlock(f.blocks, term.target);
      target.Some? && |target.value.params| == |term.args|
  }

  /** Everything but a tail call itself is in the subset. */
  ghost predicate Emittable(f: Function, refs: set<Value>, block: Block) {
    if TailCall(f, refs, block)
    then forall k :: 0 <= k < |block.insts| - 1 ==> Supported(f, block.insts[k])
    else (forall k :: 0 <= k < |block.insts| ==> Supported(f, block.insts[k])) && Fits(f, block.term)
  }

  lemma {:induction false} InstsExactly(f: Function, insts: seq<Inst>)
    ensures EmitInsts(f, insts).Ok? <==> forall k :: 0 <= k < |insts| ==> Supported(f, insts[k])
    decreases |insts|
  {
    if insts != [] {
      var n := |insts| - 1;
      InstsExactly(f, insts[..n]);
      assert EmitInst(f, insts[n]).Ok? <==> Supported(f, insts[n]);
      if EmitInsts(f, insts[..n]).Ok? && Supported(f, insts[n]) {
        forall k | 0 <= k < |insts| ensures Supported(f, insts[k]) {
          assert k < n ==> insts[..n][k] == insts[k];
        }
      }
      if forall k :: 0 <= k < |insts| ==> Supported(f, insts[k]) {
        assert forall k :: 0 <= k < n ==> insts[..n][k] == insts[k];
      }
    }
  }

  lemma BlockExactly(f: Function, refs: set<Value>, block: Block)
    ensures EmitBlock(f, block, refs).Ok? <==> Emittable(f, refs, block)
  {
    DetectsExactly(f, refs, block);
    if TailCall(f, refs, block) {
      var init := block.insts[..|block.insts| - 1];
      InstsExactly(f, init);
      assert forall k :: 0 <= k < |init| ==> init[k] == block.insts[k];
    } else {
      InstsExactly(f, block.insts);
    }
  }

  ghost predicate AllEmittable(f: Function, refs: set<Value>, blocks: seq<Block>) {
    forall k :: 0 <= k < |blocks| ==> Emittable(f, refs, blocks[k])
  }

  lemma AllButLast(f: Function, refs: set<Value>, blocks: seq<Block>, n: nat)
    requires |blocks| == n + 1
    ensures AllEmittable(f, refs, blocks) <==>
            AllEmittable(f, refs, blocks[..n]) && Emittable(f, refs, blocks[n])
  {
    var init := blocks[..n];
    assert forall k :: 0 <= k < n ==> init[k] == blocks[k];
    if AllEmittable(f, refs, init) && Emittable(f, refs, blocks[n]) {
      forall k | 0 <= k < |blocks| ensures Emittable(f, refs, blocks[k]) {
        assert k < n ==> Emittable(f, refs, init[k]);
      }
    }
  }

  lemma {:induction false} BlocksExactly(f: Function, blocks: seq<Block>, refs: set<Value>)
    ensures EmitBlocks(f, blocks, refs).Ok? <==> AllEmittable(f, refs, blocks)
    decreases |blocks|
  {
    if blocks != [] {
      var n := |blocks| - 1;
      BlocksExactly(f, blocks[..n], refs);
      BlockExactly(f, refs, blocks[n]);
      AllButLast(f, refs, blocks, n);
    }
  }

  /** Exactly the functions of the subset are emitted. */
  lemma EmitsExactly(f: Function, refs: set<Value>)
    ensures EmitLoop(f, refs).Ok? <==> f.blocks != [] && AllEmittable(f, refs, f.blocks)
  {
    BlocksExactly(f, f.blocks, refs);
  }

  method EmitLoopMatch(f: Function) returns (r: Result<Program, EmitError>, refs: set<Value>)
    ensures Justified(f, refs) && Least(f, refs) && ClosedUnder(f, refs) && r == EmitLoop(f, refs)
    ensures r.Ok? <==> f.blocks != [] && AllEmittable(f, refs, f.blocks)
  {
    refs := ComputeSelfRefs(f);
    if f.blocks == [] {
      return Err(EmptyFunction), refs;
    }
    var arms := [];
    for k := 0 to |f.blocks|
      invariant EmitBlocks(f, f.blocks[..k], refs) == Ok(arms)
    {
      assert f.blocks[..k + 1][..k] == f.blocks[..k];
      match EmitBlock(f, f.blocks[k], refs)
      case Err(e) =>
        EmitBlocksFails(f, f.blocks, refs, k + 1, e);
        EmitsExactly(f, refs);
        return Err(e), refs;
      case Ok(arm) => arms := arms + [arm];
    }
    assert f.blocks[..|f.blocks|] == f.blocks;
    r := Ok(Program(f.params, f.entry, arms));
    EmitsExactly(f, refs);
  }

  lemma {:induction false} EmitBlocksFails(f: Function, blocks: seq<Block>, refs: set<Value>, n: nat, e: EmitError)
    requires n <= |blocks| && EmitBlocks(f, blocks[..n], refs) == Err(e)
    ensures EmitBlocks(f, blocks, refs) == Err(e)
    decreases |blocks|
  {
    if n < |blocks| {
      assert blocks[..|blocks| - 1][..n] == blocks[..n];
      EmitBlocksFails(f, blocks[..|blocks| - 1], refs, n, e);
    } else {
      assert blocks[..n] == blocks;
    }
  }

  /** A tail call leaves a jump to the entry that rebinds the parameters, and no statement of its own. */
  lemma TailCallIsJump(f: Function, refs: set<Value>, p: Program, b: nat)
    requires EmitLoop(f, refs) == Ok(p) && b < |f.blocks| && TailCall(f, refs, f.blocks[b])
    ensures |p.arms| == |f.blocks| && p.params == f.params && p.entry == f.entry
    ensures var insts, arm := f.blocks[b].insts, p.arms[b];
            && arm.id == f.blocks[b].id && |arm.stmts| == |insts| - 1
            && (forall k :: 0 <= k < |arm.stmts| ==> EmitInst(f, insts[k]) == Ok(arm.stmts[k]))
            && arm.exit == Goto(Copies(f.params, insts[|insts| - 1].args), f.entry)
  {
    var insts := f.blocks[b].insts;
    DetectsExactly(f, refs, f.blocks[b]);
    assert EmitBlock(f, f.blocks[b], refs) == Ok(p.arms[b]);
    assert forall k :: 0 <= k < |insts| - 1 ==> insts[..|insts| - 1][k] == insts[k];
  }

  // ---- stack ----

  /** As the program runs, on a stack with room for `depth` calls of itself. */
  function RunWithin(p: Program, ctx: Context, args: seq<I64>, fuel: nat, depth: nat): Option<I64>
    decreases fuel, 3
  {
    if |args| != |p.params| then None else ArmWithin(p, ctx, p.entry, Bind(map[], p.params, args), fuel, depth)
  }

  function ArmWithin(p: Program, ctx: Context, b: BlockId, vars: Env, fuel: nat, depth: nat): Option<I64>
    decreases fuel, 2
  {
    match FindArm(p.arms, b)
    case None => None
    case Some(arm) =>
      match StmtsWithin(p, ctx, vars, arm.stmts, fuel, depth)
      case None => None
      case Some(e) => ExitWithin(p, ctx, e, arm.exit, fuel, depth)
  }

  function StmtsWithin(p: Program, ctx: Context, vars: Env, stmts: seq<Stmt>, fuel: nat, depth: nat): Option<Env>
    decreases fuel, 1, |stmts|
  {
    if stmts == [] then Some(vars)
    else
      match StmtsWithin(p, ctx, vars, stmts[..|stmts| - 1], fuel, depth)
      case None => None
      case Some(e) =>
        match ExprWithin(p, ctx, e, stmts[|stmts| - 1].rhs, fuel, depth)
        case None => None
        case Some(x) => Some(e[stmts[|stmts| - 1].dst := x])
  }

  /** A call takes one frame; nothing else does. */
  function ExprWithin(p: Program, ctx: Context, vars: Env, rhs: Expr, fuel: nat, depth: nat): Option<I64>
    decreases fuel, 0
  {
    if !rhs.Recurse? then EvalExpr(p, ctx, vars, rhs, fuel)
    else if fuel == 0 || depth == 0 then None
    else
      RunWithin(p, ctx, seq(|rhs.args|, k requires 0 <= k < |rhs.args| => Read(vars, rhs.args[k])), fuel - 1, depth - 1)
  }

  function ExitWithin(p: Program, ctx: Context, vars: Env, exit: Exit, fuel: nat, depth: nat): Option<I64>
    decreases fuel, 1, 0
  {
    match exit
    case Ret(v) => Some(Read(vars, v))
    case Goto(copies, target) =>
      if fuel == 0 then None else ArmWithin(p, ctx, target, DoCopies(vars, copies), fuel - 1, depth)
    case If(cond, tc, t, ec, e) =>
      if fuel == 0 then None
      else if Read(vars, cond) != 0 then ArmWithin(p, ctx, t, DoCopies(vars, tc), fuel - 1, depth)
      else ArmWithin(p, ctx, e, DoCopies(vars, ec), fuel - 1, depth)
  }

  predicate NoCalls(stmts: seq<Stmt>) {
    forall k :: 0 <= k < |stmts| ==> !stmts[k].rhs.Recurse?
  }

  predicate CallFree(p: Program) {
    forall a :: 0 <= a < |p.arms| ==> NoCalls(p.arms[a].stmts)
  }

  /** A frame for every unit of fuel, or no calls at all. */
  predicate Enough(p: Program, fuel: nat, depth: nat) {
    fuel <= depth || CallFree(p)
  }

  /** A bounded stack never changes a result, and enough of it never loses one. */
  lemma WithinStack(p: Program, ctx: Context, args: seq<I64>, fuel: nat, depth: nat)
    ensures RunWithin(p, ctx, args, fuel, depth).Some? || Enough(p, fuel, depth) ==>
              RunWithin(p, ctx, args, fuel, depth) == RunProgram(p, ctx, args, fuel)
    decreases fuel, 3
  {
    if |args| == |p.params| { ArmStack(p, ctx, p.entry, Bind(map[], p.params, args), fuel, depth); }
  }

  lemma ArmStack(p: Program, ctx: Context, b: BlockId, vars: Env, fuel: nat, depth: nat)
    ensures ArmWithin(p, ctx, b, vars, fuel, depth).Some? || Enough(p, fuel, depth) ==>
              ArmWithin(p, ctx, b, vars, fuel, depth) == RunArm(p, ctx, b, vars, fuel)
    decreases fuel, 2
  {
    match FindArm(p.arms, b)
    case None =>
    case Some(arm) =>
      FoundArm(p.arms, b);
      StmtsStack(p, ctx, vars, arm.stmts, fuel, depth);
      match StmtsWithin(p, ctx, vars, arm.stmts, fuel, depth)
      case None =>
      case Some(e) => ExitStack(p, ctx, e, arm.exit, fuel, depth);
  }

  lemma {:induction false} FoundArm(arms: seq<Arm>, b: BlockId)
    ensures FindArm(arms, b).Some? ==> FindArm(arms, b).value in arms
  {
    if arms != [] && arms[0].id != b { FoundArm(arms[1..], b); }
  }

  lemma StmtsStack(p: Program, ctx: Context, vars: Env, stmts: seq<Stmt>, fuel: nat, depth: nat)
    ensures StmtsWithin(p, ctx, vars, stmts, fuel, depth).Some? || fuel <= depth || NoCalls(stmts) ==>
              StmtsWithin(p, ctx, vars, stmts, fuel, depth) == RunStmts(p, ctx, vars, stmts, fuel)
    decreases fuel, 1, |stmts|
  {
    if stmts != [] {
      var n := |stmts| - 1;
      StmtsStack(p, ctx, vars, stmts[..n], fuel, depth);
      if NoCalls(stmts) { assert forall k :: 0 <= k < n ==> stmts[..n][k] == stmts[k]; }
      match StmtsWithin(p, ctx, vars, stmts[..n], fuel, depth)
      case None =>
      case Some(e) => ExprStack(p, ctx, e, stmts[n].rhs, fuel, depth);
    }
  }

  lemma ExprStack(p: Program, ctx: Context, vars: Env, rhs: Expr, fuel: nat, depth: nat)
    ensures ExprWithin(p, ctx, vars, rhs, fuel, depth).Some? || fuel <= depth || !rhs.Recurse? ==>
              ExprWithin(p, ctx, vars, rhs, fuel, depth) == EvalExpr(p, ctx, vars, rhs, fuel)
    decreases fuel, 0
  {
    if rhs.Recurse? && fuel > 0 && depth > 0 {
      var xs := seq(|rhs.args|, k requires 0 <= k < |rhs.args| => Read(vars, rhs.args[k]));
      assert EvalExpr(p, ctx, vars, rhs, fuel) == RunProgram(p, ctx, xs, fuel - 1);
      assert ExprWithin(p, ctx, vars, rhs, fuel, depth) == RunWithin(p, ctx, xs, fuel - 1, depth - 1);
      WithinStack(p, ctx, xs, fuel - 1, depth - 1);
    }
  }

  lemma ExitStack(p: Program, ctx: Context, vars: Env, exit: Exit, fuel: nat, depth: nat)
    ensures ExitWithin(p, ctx, vars, exit, fuel, depth).Some? || Enough(p, fuel, depth) ==>
              ExitWithin(p, ctx, vars, exit, fuel, depth) == RunExit(p, ctx, vars, exit, fuel)
    decreases fuel, 1, 0
  {
    if fuel > 0 {
      match exit
      case Ret(_) =>
      case Goto(copies, target) => ArmStack(p, ctx, target, DoCopies(vars, copies), fuel - 1, depth);
      case If(cond, tc, t, ec, e) =>
        ArmStack(p, ctx, t, DoCopies(vars, tc), fuel - 1, depth);
        ArmStack(p, ctx, e, DoCopies(vars, ec), fuel - 1, depth);
    }
  }

  // ---- functions whose calls are all tail calls ----

  predicate Calls(inst: Inst) {
    inst.CallSelf? || inst.Call?
  }

  /** The only call in the block, if any, is its tail call. */
  ghost predicate CallsLast(f: Function, refs: set<Value>, block: Block) {
    forall k :: 0 <= k < |block.insts| && Calls(block.insts[k]) ==>
      k == |block.insts| - 1 && TailCall(f, refs, block)
  }

  ghost predicate OnlyTailCalls(f: Function, refs: set<Value>) {
    forall b {:trigger f.blocks[b]} :: 0 <= b < |f.blocks| ==> CallsLast(f, refs, f.blocks[b])
  }

  /** An arm calls exactly when its block has a self-call that is not its tail call. */
  lemma ArmCalls(f: Function, refs: set<Value>, block: Block, arm: Arm)
    requires EmitBlock(f, block, refs) == Ok(arm)
    ensures NoCalls(arm.stmts) <==> CallsLast(f, refs, block)
  {
    DetectsExactly(f, refs, block);
    BlockExactly(f, refs, block);
    var insts := if TailCall(f, refs, block) then block.insts[..|block.insts| - 1] else block.insts;
    forall k | 0 <= k < |insts| ensures arm.stmts[k].rhs.Recurse? <==> Calls(block.insts[k]) {
      assert insts[k] == block.insts[k] && EmitInst(f, insts[k]) == Ok(arm.stmts[k]);
    }
  }

  lemma CallFreeExactly(f: Function, refs: set<Value>, p: Program)
    requires EmitLoop(f, refs) == Ok(p)
    ensures CallFree(p) <==> OnlyTailCalls(f, refs)
  {
    forall b | 0 <= b < |f.blocks| ensures NoCalls(p.arms[b].stmts) <==> CallsLast(f, refs, f.blocks[b]) {
      ArmCalls(f, refs, f.blocks[b], p.arms[b]);
    }
  }

  /** Known symbols, known targets, matching arities. */
  ghost predicate InSubset(f: Function) {
    && f.blocks != []
    && forall b {:trigger f.blocks[b]} :: 0 <= b < |f.blocks| ==>
         && Fits(f, f.blocks[b].term)
         && forall k {:trigger f.blocks[b].insts[k]} :: 0 <= k < |f.blocks[b].insts| ==>
              Supported(f, f.blocks[b].insts[k]) || f.blocks[b].insts[k].Call?
  }

  lemma TailCallsEmit(f: Function, refs: set<Value>)
    requires InSubset(f) && OnlyTailCalls(f, refs)
    ensures EmitLoop(f, refs).Ok?
  {
    forall b | 0 <= b < |f.blocks| ensures Emittable(f, refs, f.blocks[b]) {
      var insts := f.blocks[b].insts;
      forall k | 0 <= k < |insts| && (k == |insts| - 1 ==> !TailCall(f, refs, f.blocks[b]))
        ensures Supported(f, insts[k])
      {
        assert f.blocks[b].insts[k] == insts[k];
      }
    }
    EmitsExactly(f, refs);
  }

  /** Self-recursion in tail position is emitted as a loop: it computes what the recursion does, however long that
      runs, without a single call. */
  lemma TailRecursionLoops(f: Function, refs: set<Value>, ctx: Context, args: seq<I64>, fuel: nat)
    requires InSubset(f) && OnlyTailCalls(f, refs)
    ensures EmitLoop(f, refs).Ok?
    ensures var p := EmitLoop(f, refs).value;
            && RunWithin(p, ctx, args, fuel, 0) == RunProgram(p, ctx, args, fuel)
            && (AotProof.WellFormed(f, refs) && EvalFunction(f, ctx, args, fuel).Some? ==>
                  RunWithin(p, ctx, args, fuel, 0) == EvalFunction(f, ctx, args, fuel))
  {
    TailCallsEmit(f, refs);
    var p := EmitLoop(f, refs).value;
    CallFreeExactly(f, refs, p);
    WithinStack(p, ctx, args, fuel, 0);
    if AotProof.WellFormed(f, refs) && EvalFunction(f, ctx, args, fuel).Some? {
      AotProof.EmissionPreservesMeaning(f, refs, p, ctx, args, fuel);
    }
  }
}
