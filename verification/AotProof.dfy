/** Emission preserves meaning: whenever the block graph yields a value, so does the
    emitted loop, provided no assignment list overwrites a parameter it still has to read. */
module AotProof {
  import opened Wrappers
  import opened AotIr
  import opened AotEmit
  import opened AotSelf

  // ---- one assignment after the other, or all at once ----

  /** Among the first `n` pairs, no argument names a parameter that an earlier assignment changes. */
  predicate NoClobberUpTo(params: seq<Value>, args: seq<Value>, n: nat)
    requires n <= |params| == |args|
  {
    forall i, j {:trigger params[i], args[j]} :: 0 <= i < j < n && args[j] == params[i] ==> args[i] == params[i]
  }

  predicate NoClobber(params: seq<Value>, args: seq<Value>) {
    |params| == |args| ==> NoClobberUpTo(params, args, |params|)
  }

  ghost function After(vars: Env, params: seq<Value>, args: seq<Value>, n: nat): Env
    requires n <= |params| == |args|
  {
    DoCopies(vars, Copies(params, args)[..n])
  }

  /** The first `n` assignments give parameters the values their arguments had at the start, and change nothing else. */
  ghost predicate CopiedAll(vars: Env, params: seq<Value>, args: seq<Value>, n: nat)
    requires n <= |params| == |args|
  {
    && (forall k {:trigger params[k]} :: 0 <= k < n ==>
          Read(After(vars, params, args, n), params[k]) == Read(vars, args[k]))
    && (forall v {:trigger Read(After(vars, params, args, n), v)} ::
          (forall k :: 0 <= k < n ==> params[k] != v) ==> Read(After(vars, params, args, n), v) == Read(vars, v))
  }

  lemma DoOne(vars: Env, params: seq<Value>, args: seq<Value>, n: nat)
    requires n < |params| == |args|
    ensures var e := After(vars, params, args, n); After(vars, params, args, n + 1) == e[params[n] := Read(e, args[n])]
  {
    assert Copies(params, args)[..n + 1][..n] == Copies(params, args)[..n];
  }

  /** What the `n`-th assignment reads is still what was there at the start. */
  lemma ReadsOriginal(vars: Env, params: seq<Value>, args: seq<Value>, n: nat)
    requires n < |params| == |args| && CopiedAll(vars, params, args, n) && NoClobberUpTo(params, args, n + 1)
    ensures Read(After(vars, params, args, n), args[n]) == Read(vars, args[n])
  {
    if i :| 0 <= i < n && params[i] == args[n] {
      assert Read(After(vars, params, args, n), params[i]) == Read(vars, args[i]);
    }
  }

  lemma {:induction false} CopiesAgree(vars: Env, params: seq<Value>, args: seq<Value>, n: nat)
    requires n <= |params| == |args| && Distinct(params) && NoClobberUpTo(params, args, n)
    ensures CopiedAll(vars, params, args, n)
    decreases n
  {
    if n > 0 {
      CopiesAgree(vars, params, args, n - 1);
      ReadsOriginal(vars, params, args, n - 1);
      DoOne(vars, params, args, n - 1);
      forall v | forall k :: 0 <= k < n ==> params[k] != v
        ensures Read(After(vars, params, args, n), v) == Read(vars, v)
      {
        assert params[n - 1] != v;
        assert Read(After(vars, params, args, n - 1), v) == Read(vars, v);
      }
    }
  }

  /** Assigning one after the other is as good as all at once, from every state. */
  ghost predicate Faithful(params: seq<Value>, args: seq<Value>)
    requires |params| == |args|
  {
    forall vars, k {:trigger Read(DoCopies(vars, Copies(params, args)), params[k])} :: 0 <= k < |params| ==>
      Read(DoCopies(vars, Copies(params, args)), params[k]) == Read(vars, args[k])
  }

  lemma {:induction false} LaterKeeps(vars: Env, params: seq<Value>, args: seq<Value>, j: nat, n: nat)
    requires j < n <= |params| == |args| && Distinct(params)
    ensures Read(After(vars, params, args, n), params[j]) == Read(After(vars, params, args, j + 1), params[j])
    decreases n
  {
    if j + 1 < n {
      LaterKeeps(vars, params, args, j, n - 1);
      DoOne(vars, params, args, n - 1);
    }
  }

  /** The first clobbered argument goes wrong from a state that tells the two variables apart. */
  lemma ClobberShows(params: seq<Value>, args: seq<Value>, i: nat, j: nat)
    requires |params| == |args| && Distinct(params) && i < j < |params| && NoClobberUpTo(params, args, j)
    requires args[j] == params[i] && args[i] != params[i]
    ensures !Faithful(params, args)
  {
    var vars: Env := map[params[i] := 1];
    CopiesAgree(vars, params, args, j);
    DoOne(vars, params, args, j);
    LaterKeeps(vars, params, args, j, |params|);
    assert Copies(params, args)[..|params|] == Copies(params, args);
    assert Read(After(vars, params, args, j), params[i]) == Read(vars, args[i]);
    assert Read(DoCopies(vars, Copies(params, args)), params[j]) != Read(vars, args[j]);
  }

  lemma {:induction false} FirstClobber(params: seq<Value>, args: seq<Value>, n: nat) returns (i: nat, j: nat)
    requires n <= |params| == |args| && !NoClobberUpTo(params, args, n)
    ensures i < j < n && NoClobberUpTo(params, args, j) && args[j] == params[i] && args[i] != params[i]
    decreases n
  {
    if NoClobberUpTo(params, args, n - 1) {
      j := n - 1;
      i :| 0 <= i < j && args[j] == params[i] && args[i] != params[i];
    } else {
      i, j := FirstClobber(params, args, n - 1);
    }
  }

  /** Sequential assignment of a block's (or the function's) parameters is faithful exactly when nothing is
      clobbered. */
  lemma SequentialIsParallel(params: seq<Value>, args: seq<Value>)
    requires |params| == |args| && Distinct(params)
    ensures Faithful(params, args) <==> NoClobber(params, args)
  {
    if NoClobber(params, args) {
      forall vars, k | 0 <= k < |params|
        ensures Read(DoCopies(vars, Copies(params, args)), params[k]) == Read(vars, args[k])
      {
        CopiesAgree(vars, params, args, |params|);
        assert Copies(params, args)[..|params|] == Copies(params, args);
      }
    } else {
      var i, j := FirstClobber(params, args, |params|);
      ClobberShows(params, args, i, j);
    }
  }

  // ---- well-formed functions ----

  /** Taking any edge out of the block, or its tail call, clobbers nothing. */
  ghost predicate BlockSafe(f: Function, refs: set<Value>, block: Block) {
    && (forall t, args {:trigger args in EdgeOf(block.term, t)} :: args in EdgeOf(block.term, t) ==>
          (FindBlock(f.blocks, t).Some? ==> NoClobber(FindBlock(f.blocks, t).value.params, args)))
    && (DetectTailCall(f, block, refs).Some? ==> NoClobber(f.params, DetectTailCall(f, block, refs).value))
  }

  ghost predicate WellFormed(f: Function, refs: set<Value>) {
    && SingleAssignment(f) && SelfNotCaptured(f) && Justified(f, refs)
    && forall b {:trigger f.blocks[b]} :: 0 <= b < |f.blocks| ==> BlockSafe(f, refs, f.blocks[b])
  }

  lemma ParamsDistinct(f: Function)
    requires SingleAssignment(f)
    ensures Distinct(f.params) && forall b {:trigger f.blocks[b]} :: 0 <= b < |f.blocks| ==>
              Distinct(f.blocks[b].params)
  {
    forall j, k | 0 <= j < k < |f.params| ensures f.params[j] != f.params[k] {
      assert DefinedAt(f, AtParam(j), f.params[j]) && DefinedAt(f, AtParam(k), f.params[k]);
    }
    forall b | 0 <= b < |f.blocks| ensures Distinct(f.blocks[b].params) {
      var ps := f.blocks[b].params;
      forall j, k | 0 <= j < k < |ps| ensures ps[j] != ps[k] {
        assert DefinedAt(f, AtBlockParam(b, j), ps[j]) && DefinedAt(f, AtBlockParam(b, k), ps[k]);
      }
    }
  }

  // ---- what the two sides share ----

  /** Every value the graph evaluation has is in its variable. */
  ghost predicate Agrees(env: Env, vars: Env) {
    forall v {:trigger v in env} :: v in env ==> Read(vars, v) == env[v]
  }

  lemma {:induction false} BindExact(env: Env, params: seq<Value>, vals: seq<I64>, v: Value)
    requires |params| == |vals| && Distinct(params)
    ensures v !in params ==> (v in Bind(env, params, vals) <==> v in env)
    ensures v !in params && v in env ==> Bind(env, params, vals)[v] == env[v]
    ensures forall k {:trigger vals[k]} :: 0 <= k < |params| && params[k] == v ==>
              v in Bind(env, params, vals) && Bind(env, params, vals)[v] == vals[k]
    decreases |params|
  {
    if params != [] {
      var n := |params| - 1;
      BindExact(env, params[..n], vals[..n], v);
      assert v in params <==> v in params[..n] || v == params[n];
      forall k | 0 <= k < |params| && params[k] == v
        ensures v in Bind(env, params, vals) && Bind(env, params, vals)[v] == vals[k]
      {
        if k < n { assert params[..n][k] == v && vals[..n][k] == vals[k]; }
      }
    }
  }

  lemma BindAgrees(env: Env, base: Env, vars: Env, params: seq<Value>, args: seq<Value>)
    requires Agrees(env, vars) && Agrees(base, vars) && Defines(env, args) && |params| == |args|
    requires Distinct(params) && NoClobber(params, args)
    ensures Agrees(Bind(base, params, Values(env, args)), DoCopies(vars, Copies(params, args)))
  {
    var e, after := Bind(base, params, Values(env, args)), DoCopies(vars, Copies(params, args));
    CopiesAgree(vars, params, args, |params|);
    assert Copies(params, args)[..|params|] == Copies(params, args);
    forall v | v in e ensures Read(after, v) == e[v] {
      BindExact(base, params, Values(env, args), v);
      if v in params {
        var k :| 0 <= k < |params| && params[k] == v;
        assert e[v] == Values(env, args)[k];
      } else {
        assert Read(After(vars, params, args, |params|), v) == Read(vars, v);
      }
    }
  }

  lemma {:induction false} FindBlockAt(blocks: seq<Block>, arms: seq<Arm>, id: BlockId) returns (i: nat)
    requires |arms| == |blocks| && (forall k {:trigger arms[k]} :: 0 <= k < |arms| ==> arms[k].id == blocks[k].id)
    requires FindBlock(blocks, id).Some?
    ensures i < |blocks| && FindBlock(blocks, id) == Some(blocks[i]) && FindArm(arms, id) == Some(arms[i])
    decreases |blocks|
  {
    if blocks[0].id == id {
      i := 0;
      assert arms[0].id == id;
    } else {
      assert arms[0].id == blocks[0].id;
      forall k | 0 <= k < |arms| - 1
        ensures arms[1..][k].id == blocks[1..][k].id
      {
        assert arms[k + 1].id == blocks[k + 1].id;
      }
      var j := FindBlockAt(blocks[1..], arms[1..], id);
      i := j + 1;
    }
  }

  // ---- simulation ----

  ghost predicate Emitted(f: Function, refs: set<Value>, p: Program) {
    WellFormed(f, refs) && EmitLoop(f, refs) == Ok(p)
  }

  /** Whenever recursive evaluation of the block graph yields a value, the emitted loop yields the same one. */
  lemma EmissionPreservesMeaning(f: Function, refs: set<Value>, p: Program, ctx: Context, args: seq<I64>, fuel: nat)
    requires Emitted(f, refs, p) && EvalFunction(f, ctx, args, fuel).Some?
    ensures RunProgram(p, ctx, args, fuel) == EvalFunction(f, ctx, args, fuel)
    decreases fuel, 3
  {
    var env := Bind(map[], f.params, args);
    StartHeld(f, refs, ctx, args);
    BlockSim(f, refs, p, ctx, f.entry, env, env, fuel);
  }

  lemma ArmOf(f: Function, refs: set<Value>, p: Program, b: BlockId) returns (i: nat)
    requires Emitted(f, refs, p) && FindBlock(f.blocks, b).Some?
    ensures i < |f.blocks| == |p.arms| && FindBlock(f.blocks, b) == Some(f.blocks[i])
            && FindArm(p.arms, b) == Some(p.arms[i])
    ensures EmitBlock(f, f.blocks[i], refs) == Ok(p.arms[i]) && BlockSafe(f, refs, f.blocks[i])
  {
    forall k | 0 <= k < |p.arms| ensures p.arms[k].id == f.blocks[k].id {
      assert EmitBlock(f, f.blocks[k], refs) == Ok(p.arms[k]);
    }
    i := FindBlockAt(f.blocks, p.arms, b);
  }

  lemma BlockSim(f: Function, refs: set<Value>, p: Program, ctx: Context, b: BlockId, env: Env, vars: Env, fuel: nat)
    requires Emitted(f, refs, p) && Agrees(env, vars) && SelfHeld(refs, ctx, env)
             && EvalBlock(f, ctx, b, env, fuel).Some?
    ensures RunArm(p, ctx, b, vars, fuel) == EvalBlock(f, ctx, b, env, fuel)
    decreases fuel, 2
  {
    var i := ArmOf(f, refs, p, b);
    if DetectTailCall(f, f.blocks[i], refs).Some? {
      TailSim(f, refs, p, ctx, i, env, vars, fuel);
    } else {
      PlainSim(f, refs, p, ctx, i, env, vars, fuel);
    }
  }

  /** What block `i` yields from here. */
  ghost function Outcome(f: Function, ctx: Context, i: nat, env: Env, fuel: nat): Option<I64>
    requires i < |f.blocks|
  {
    match EvalInsts(f, ctx, env, f.blocks[i].insts, fuel)
    case None => None
    case Some(e) => EvalTerm(f, ctx, e, f.blocks[i].term, fuel)
  }

  ghost function ArmOutcome(p: Program, ctx: Context, i: nat, vars: Env, fuel: nat): Option<I64>
    requires i < |p.arms|
  {
    match RunStmts(p, ctx, vars, p.arms[i].stmts, fuel)
    case None => None
    case Some(e) => RunExit(p, ctx, e, p.arms[i].exit, fuel)
  }

  lemma PlainSim(f: Function, refs: set<Value>, p: Program, ctx: Context, i: nat, env: Env, vars: Env, fuel: nat)
    requires Emitted(f, refs, p) && Agrees(env, vars) && SelfHeld(refs, ctx, env) && i < |f.blocks| == |p.arms|
    requires EmitBlock(f, f.blocks[i], refs) == Ok(p.arms[i]) && DetectTailCall(f, f.blocks[i], refs).None?
    requires Outcome(f, ctx, i, env, fuel).Some?
    ensures ArmOutcome(p, ctx, i, vars, fuel) == Outcome(f, ctx, i, env, fuel)
    decreases fuel, 1, |f.blocks[i].insts| + 1
  {
    var insts, stmts := f.blocks[i].insts, p.arms[i].stmts;
    assert insts[..|insts|] == insts && stmts[..|insts|] == stmts;
    var after := InstsSim(f, refs, p, ctx, i, |insts|, env, vars, stmts, fuel);
    InstsHeld(f, refs, ctx, env, i, |insts|, fuel);
    TermSim(f, refs, p, ctx, i, EvalInsts(f, ctx, env, insts, fuel).value, after, fuel);
  }

  /** A tail self-call yields what the function yields for its arguments. */
  lemma TailValue(f: Function, refs: set<Value>, ctx: Context, block: Block, env: Env, fuel: nat)
    requires SelfHeld(refs, ctx, env) && DetectTailCall(f, block, refs).Some?
    requires var r := EvalInst(f, ctx, env, block.insts[|block.insts| - 1], fuel);
             r.Some? && EvalTerm(f, ctx, r.value, block.term, fuel).Some?
    ensures var args := DetectTailCall(f, block, refs).value;
            && fuel > 0 && Defines(env, args)
            && EvalTerm(f, ctx, EvalInst(f, ctx, env, block.insts[|block.insts| - 1], fuel).value, block.term, fuel)
            == EvalFunction(f, ctx, Values(env, args), fuel - 1)
  {
    var last := block.insts[|block.insts| - 1];
    var r := EvalInst(f, ctx, env, last, fuel).value;
    assert EvalInst(f, ctx, env, last, fuel) == EvalSelfCall(f, ctx, env, last.dst, last.args, fuel);
    if block.term.Jump? { JoinValue(f, ctx, r, block.term.target, last.dst, fuel); }
  }

  /** A block that only returns its parameter. */
  lemma JoinValue(f: Function, ctx: Context, env: Env, target: BlockId, v: Value, fuel: nat)
    requires fuel > 0 && v in env && FindBlock(f.blocks, target).Some?
    requires var join := FindBlock(f.blocks, target).value;
             |join.params| == 1 && join.insts == [] && join.term == Return(join.params[0])
    ensures EvalJump(f, ctx, env, target, [v], fuel) == Some(env[v])
  {
    var join := FindBlock(f.blocks, target).value;
    var vals := Values(env, [v]);
    assert join.params[..0] == [] && vals[..0] == [];
    var e := Bind(env, join.params, vals);
    assert Bind(env, [], []) == env && e == env[join.params[0] := env[v]];
    assert EvalInsts(f, ctx, e, join.insts, fuel - 1) == Some(e);
    assert EvalBlock(f, ctx, target, e, fuel - 1) == EvalTerm(f, ctx, e, join.term, fuel - 1);
  }

  lemma TailSim(f: Function, refs: set<Value>, p: Program, ctx: Context, i: nat, env: Env, vars: Env, fuel: nat)
    requires Emitted(f, refs, p) && Agrees(env, vars) && SelfHeld(refs, ctx, env) && i < |f.blocks| == |p.arms|
    requires EmitBlock(f, f.blocks[i], refs) == Ok(p.arms[i]) && DetectTailCall(f, f.blocks[i], refs).Some?
    requires BlockSafe(f, refs, f.blocks[i]) && Outcome(f, ctx, i, env, fuel).Some?
    ensures ArmOutcome(p, ctx, i, vars, fuel) == Outcome(f, ctx, i, env, fuel)
    decreases fuel, 1, |f.blocks[i].insts| + 1
  {
    var insts, stmts, n := f.blocks[i].insts, p.arms[i].stmts, |f.blocks[i].insts| - 1;
    var args := DetectTailCall(f, f.blocks[i], refs).value;
    assert stmts[..n] == stmts && forall k :: 0 <= k < n ==> insts[..n][k] == insts[k];
    var after := InstsSim(f, refs, p, ctx, i, n, env, vars, stmts, fuel);
    InstsHeld(f, refs, ctx, env, i, n, fuel);
    var e := EvalInsts(f, ctx, env, insts[..n], fuel).value;
    TailValue(f, refs, ctx, f.blocks[i], e, fuel);
    TailJump(f, refs, p, ctx, args, e, after, fuel);
  }

  /** Rebinding the parameters and going back to the entry block is a self-call. */
  lemma TailJump(f: Function, refs: set<Value>, p: Program, ctx: Context, args: seq<Value>, env: Env, vars: Env,
                 fuel: nat)
    requires Emitted(f, refs, p) && Agrees(env, vars) && NoClobber(f.params, args) && Defines(env, args) && fuel > 0
    requires EvalFunction(f, ctx, Values(env, args), fuel - 1).Some?
    ensures RunExit(p, ctx, vars, Goto(Copies(f.params, args), f.entry), fuel)
         == EvalFunction(f, ctx, Values(env, args), fuel - 1)
    decreases fuel, 0
  {
    ParamsDistinct(f);
    StartHeld(f, refs, ctx, Values(env, args));
    BindAgrees(env, map[], vars, f.params, args);
    BlockSim(f, refs, p, ctx, f.entry, Bind(map[], f.params, Values(env, args)),
             DoCopies(vars, Copies(f.params, args)), fuel - 1);
  }

  lemma InstsSim(f: Function, refs: set<Value>, p: Program, ctx: Context, i: nat, n: nat, env: Env, vars: Env,
                 stmts: seq<Stmt>, fuel: nat)
    returns (after: Env)
    requires Emitted(f, refs, p) && Agrees(env, vars) && i < |f.blocks| && n <= |f.blocks[i].insts| && n <= |stmts|
    requires forall k {:trigger stmts[k]} :: 0 <= k < n ==> EmitInst(f, f.blocks[i].insts[k]) == Ok(stmts[k])
    requires EvalInsts(f, ctx, env, f.blocks[i].insts[..n], fuel).Some?
    ensures RunStmts(p, ctx, vars, stmts[..n], fuel) == Some(after)
    ensures Agrees(EvalInsts(f, ctx, env, f.blocks[i].insts[..n], fuel).value, after)
    decreases fuel, 1, n
  {
    after := vars;
    if n > 0 {
      var insts := f.blocks[i].insts;
      assert insts[..n][..n - 1] == insts[..n - 1] && stmts[..n][..n - 1] == stmts[..n - 1];
      var e := InstsSim(f, refs, p, ctx, i, n - 1, env, vars, stmts, fuel);
      after := InstSim(f, refs, p, ctx, EvalInsts(f, ctx, env, insts[..n - 1], fuel).value, e, insts[n - 1],
                       stmts[n - 1], fuel);
    }
  }

  lemma InstSim(f: Function, refs: set<Value>, p: Program, ctx: Context, env: Env, vars: Env, inst: Inst, stmt: Stmt,
                fuel: nat)
    returns (after: Env)
    requires Emitted(f, refs, p) && Agrees(env, vars) && EmitInst(f, inst) == Ok(stmt)
             && EvalInst(f, ctx, env, inst, fuel).Some?
    ensures EvalExpr(p, ctx, vars, stmt.rhs, fuel).Some?
            && after == vars[stmt.dst := EvalExpr(p, ctx, vars, stmt.rhs, fuel).value]
    ensures Agrees(EvalInst(f, ctx, env, inst, fuel).value, after)
    decreases fuel, 0
  {
    if inst.CallSelf? {
      EmissionPreservesMeaning(f, refs, p, ctx, Values(env, inst.args), fuel - 1);
      assert seq(|inst.args|, k requires 0 <= k < |inst.args| => Read(vars, inst.args[k])) == Values(env, inst.args);
    } else {
      SimpleInst(f, p, ctx, env, vars, inst, stmt, fuel);
    }
    after := vars[stmt.dst := EvalExpr(p, ctx, vars, stmt.rhs, fuel).value];
  }

  lemma SimpleInst(f: Function, p: Program, ctx: Context, env: Env, vars: Env, inst: Inst, stmt: Stmt, fuel: nat)
    requires Agrees(env, vars) && EmitInst(f, inst) == Ok(stmt) && !inst.CallSelf?
             && EvalInst(f, ctx, env, inst, fuel).Some?
    ensures EvalExpr(p, ctx, vars, stmt.rhs, fuel).Some? && stmt.dst == inst.dst
    ensures EvalInst(f, ctx, env, inst, fuel) == Some(env[inst.dst := EvalExpr(p, ctx, vars, stmt.rhs, fuel).value])
  {
  }

  lemma TermSim(f: Function, refs: set<Value>, p: Program, ctx: Context, i: nat, env: Env, vars: Env, fuel: nat)
    requires Emitted(f, refs, p) && Agrees(env, vars) && SelfHeld(refs, ctx, env) && i < |f.blocks| == |p.arms|
    requires EmitExit(f, f.blocks[i].term) == Ok(p.arms[i].exit) && EvalTerm(f, ctx, env, f.blocks[i].term, fuel).Some?
    ensures RunExit(p, ctx, vars, p.arms[i].exit, fuel) == EvalTerm(f, ctx, env, f.blocks[i].term, fuel)
    decreases fuel, 1, 0
  {
    match f.blocks[i].term
    case Return(_) =>
    case Jump(target, args) =>
      assert args in EdgeOf(f.blocks[i].term, target);
      JumpSim(f, refs, p, ctx, i, target, args, env, vars, fuel);
    case Branch(cond, t, e, args) =>
      var target := if env[cond] != 0 then t else e;
      assert args in EdgeOf(f.blocks[i].term, target);
      JumpSim(f, refs, p, ctx, i, target, args, env, vars, fuel);
  }

  /** Along an edge, sequential copies set the target's parameters as binding them all at once does. */
  lemma EdgeAgrees(f: Function, refs: set<Value>, env: Env, vars: Env, i: nat, j: nat, target: BlockId,
                   args: seq<Value>)
    requires WellFormed(f, refs) && Agrees(env, vars) && i < |f.blocks| && j < |f.blocks|
    requires args in EdgeOf(f.blocks[i].term, target) && FindBlock(f.blocks, target) == Some(f.blocks[j])
    requires |args| == |f.blocks[j].params| && Defines(env, args)
    ensures var params := f.blocks[j].params;
            Agrees(Bind(env, params, Values(env, args)), DoCopies(vars, Copies(params, args)))
  {
    ParamsDistinct(f);
    assert BlockSafe(f, refs, f.blocks[i]) && NoClobber(f.blocks[j].params, args);
    BindAgrees(env, env, vars, f.blocks[j].params, args);
  }

  lemma JumpParts(f: Function, ctx: Context, env: Env, target: BlockId, args: seq<Value>, fuel: nat)
    requires EvalJump(f, ctx, env, target, args, fuel).Some?
    ensures fuel > 0 && FindBlock(f.blocks, target).Some? && Defines(env, args)
    ensures var params := FindBlock(f.blocks, target).value.params;
            && |args| == |params| && BranchCopies(f, target, args) == Copies(params, args)
            && EvalJump(f, ctx, env, target, args, fuel)
               == EvalBlock(f, ctx, target, Bind(env, params, Values(env, args)), fuel - 1)
  {
  }

  lemma JumpSim(f: Function, refs: set<Value>, p: Program, ctx: Context, i: nat, target: BlockId, args: seq<Value>,
                env: Env, vars: Env, fuel: nat)
    requires Emitted(f, refs, p) && Agrees(env, vars) && SelfHeld(refs, ctx, env) && i < |f.blocks|
    requires args in EdgeOf(f.blocks[i].term, target) && EvalJump(f, ctx, env, target, args, fuel).Some?
    ensures fuel > 0 && BranchCopies(f, target, args) == Copies(FindBlock(f.blocks, target).value.params, args)
    ensures RunArm(p, ctx, target, DoCopies(vars, BranchCopies(f, target, args)), fuel - 1)
         == EvalJump(f, ctx, env, target, args, fuel)
    decreases fuel, 0
  {
    JumpParts(f, ctx, env, target, args, fuel);
    var j := ArmOf(f, refs, p, target);
    var params := f.blocks[j].params;
    EdgeAgrees(f, refs, env, vars, i, j, target, args);
    EdgeHeld(f, refs, ctx, env, i, j, args);
    BlockSim(f, refs, p, ctx, target, Bind(env, params, Values(env, args)), DoCopies(vars, Copies(params, args)),
             fuel - 1);
  }

  // ---- why clobbering matters ----

  /** (define (f x y) (if (= x 0) y (f y x))), with the test on x itself. */
  const Swap: Function := Function([0, 1], 0,
    [Block(0, [], [], Branch(0, 1, 2, [])),
     Block(1, [], [CallSelf(2, [1, 0])], Return(2)),
     Block(2, [], [], Return(1))], [], None)

  ghost const SwapProgram: Program := Program([0, 1], 0,
    [Arm(0, [], If(0, [], 1, [], 2)),
     Arm(1, [], Goto([Copy(0, 1), Copy(1, 0)], 0)),
     Arm(2, [], Ret(1))])

  lemma SwapBlocks()
    ensures forall b {:trigger FindBlock(Swap.blocks, b)} :: 0 <= b < 3 ==>
              FindBlock(Swap.blocks, b) == Some(Swap.blocks[b])
    ensures forall b {:trigger FindArm(SwapProgram.arms, b)} :: 0 <= b < 3 ==>
              FindArm(SwapProgram.arms, b) == Some(SwapProgram.arms[b])
  {
    var bs, arms := Swap.blocks, SwapProgram.arms;
    assert bs[1..] == [bs[1], bs[2]] && bs[1..][1..] == [bs[2]];
    assert arms[1..] == [arms[1], arms[2]] && arms[1..][1..] == [arms[2]];
  }

  lemma EmitMore(f: Function, blocks: seq<Block>, refs: set<Value>, arms: seq<Arm>, block: Block, arm: Arm)
    requires EmitBlocks(f, blocks, refs) == Ok(arms) && EmitBlock(f, block, refs) == Ok(arm)
    ensures EmitBlocks(f, blocks + [block], refs) == Ok(arms + [arm])
  {
    assert (blocks + [block])[..|blocks|] == blocks;
  }

  lemma SwapArms()
    ensures EmitBlock(Swap, Swap.blocks[0], {}) == Ok(SwapProgram.arms[0])
    ensures EmitBlock(Swap, Swap.blocks[1], {}) == Ok(SwapProgram.arms[1])
    ensures EmitBlock(Swap, Swap.blocks[2], {}) == Ok(SwapProgram.arms[2])
  {
    var bs := Swap.blocks;
    SwapBlocks();
    assert FindBlock(bs, 1) == Some(bs[1]) && FindBlock(bs, 2) == Some(bs[2]);
    assert Copies([], []) == [] && Copies([0, 1], [1, 0]) == [Copy(0, 1), Copy(1, 0)] && bs[1].insts[..0] == [];
  }

  lemma SwapEmitted()
    ensures EmitLoop(Swap, {}) == Ok(SwapProgram)
  {
    var bs, arms := Swap.blocks, SwapProgram.arms;
    SwapArms();
    EmitMore(Swap, [], {}, [], bs[0], arms[0]);
    EmitMore(Swap, [] + [bs[0]], {}, [] + [arms[0]], bs[1], arms[1]);
    EmitMore(Swap, [] + [bs[0]] + [bs[1]], {}, [] + [arms[0]] + [arms[1]], bs[2], arms[2]);
    assert bs == [] + [bs[0]] + [bs[1]] + [bs[2]] && arms == [] + [arms[0]] + [arms[1]] + [arms[2]];
  }

  lemma BindPair(a: I64, b: I64)
    ensures Bind(map[], [0, 1], [a, b]) == map[0 := a, 1 := b]
  {
    assert [0, 1][..1] == [0] && [a, b][..1] == [a] && [0][..0] == [] && [a][..0] == [];
    assert Bind(map[], [0], [a]) == map[0 := a];
  }

  /** f(0, y) is y. */
  lemma SwapAtZero(ctx: Context, y: I64, fuel: nat)
    requires fuel > 0
    ensures EvalFunction(Swap, ctx, [0, y], fuel) == Some(y)
  {
    var env: Env := map[0 := 0, 1 := y];
    SwapBlocks();
    BindPair(0, y);
    assert EvalBlock(Swap, ctx, 2, env, fuel - 1) == Some(y);
    assert EvalJump(Swap, ctx, env, 2, [], fuel) == Some(y);
    assert EvalInsts(Swap, ctx, env, [], fuel) == Some(env);
    assert EvalBlock(Swap, ctx, 0, env, fuel) == Some(y);
  }

  /** From the entry block with x = 0 the loop returns y. */
  lemma SwapLoopAtZero(ctx: Context, vars: Env, fuel: nat)
    requires fuel > 0 && 0 in vars && 1 in vars && vars[0] == 0
    ensures RunArm(SwapProgram, ctx, 0, vars, fuel) == Some(vars[1])
  {
    SwapBlocks();
    assert RunStmts(SwapProgram, ctx, vars, [], fuel - 1) == Some(vars)
           && RunStmts(SwapProgram, ctx, vars, [], fuel) == Some(vars);
    assert RunArm(SwapProgram, ctx, 2, vars, fuel - 1) == Some(vars[1]);
    assert DoCopies(vars, []) == vars;
  }

  /** The block that calls f(0, 5). */
  lemma SwapCall(ctx: Context)
    ensures EvalBlock(Swap, ctx, 1, map[0 := 5, 1 := 0], 2) == Some(5)
  {
    var env: Env := map[0 := 5, 1 := 0];
    SwapBlocks();
    SwapAtZero(ctx, 5, 1);
    var call := CallSelf(2, [1, 0]);
    assert Values(env, [1, 0]) == [0, 5];
    assert EvalInst(Swap, ctx, env, call, 2) == Some(env[2 := 5]);
    assert [call][..0] == [] && EvalInsts(Swap, ctx, env, [], 2) == Some(env);
    assert EvalInsts(Swap, ctx, env, [call], 2) == Some(env[2 := 5]);
  }

  lemma SwapValue(ctx: Context)
    ensures EvalFunction(Swap, ctx, [5, 0], 3) == Some(5)
  {
    var env: Env := map[0 := 5, 1 := 0];
    SwapBlocks();
    BindPair(5, 0);
    SwapCall(ctx);
    assert EvalJump(Swap, ctx, env, 1, [], 3) == Some(5);
    assert EvalInsts(Swap, ctx, env, [], 3) == Some(env);
  }

  lemma SwapRun(ctx: Context)
    ensures RunProgram(SwapProgram, ctx, [5, 0], 3) == Some(0)
  {
    var env: Env := map[0 := 5, 1 := 0];
    SwapBlocks();
    BindPair(5, 0);
    SwapLoopAtZero(ctx, map[0 := 0, 1 := 0], 1);
    var copies := [Copy(0, 1), Copy(1, 0)];
    assert copies[..1] == [Copy(0, 1)] && [Copy(0, 1)][..0] == [];
    assert DoCopies(env, [Copy(0, 1)]) == map[0 := 0, 1 := 0];
    assert DoCopies(env, copies) == map[0 := 0, 1 := 0];
    assert RunStmts(SwapProgram, ctx, env, [], 2) == Some(env);
    assert RunArm(SwapProgram, ctx, 1, env, 2) == Some(0);
    assert DoCopies(env, []) == env && RunStmts(SwapProgram, ctx, env, [], 3) == Some(env);
  }

  /** The tail call (f y x) assigns x before it reads it: f(5, 0) is 5, the emitted loop returns 0. */
  lemma SwapIsMiscompiled(ctx: Context)
    ensures EmitLoop(Swap, {}).Ok?
    ensures EvalFunction(Swap, ctx, [5, 0], 3) == Some(5)
    ensures RunProgram(EmitLoop(Swap, {}).value, ctx, [5, 0], 3) == Some(0)
    ensures !NoClobber(Swap.params, [1, 0])
  {
    SwapEmitted();
    SwapValue(ctx);
    SwapRun(ctx);
    assert Swap.params[0] == 0 && [1, 0][1] == 0;
  }
}
