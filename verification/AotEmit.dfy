/** Emission: from the block graph to a `loop { match block { ... } }` program whose
    block arguments are plain assignments and whose tail self-calls are jumps; and what
    such a program computes. */
module AotEmit {
  import opened Wrappers
  import opened AotIr

  // ---- emitted programs ----

  datatype Expr =
    | Const(c: I64)
    | Op(inst: Inst)              // wrapping_add, wrapping_sub, wrapping_mul, or a comparison giving 0 or 1
    | Var(v: Value)
    | SelfHandle
    | Captured(sym: Sym)
    | Recurse(args: seq<Value>)

  datatype Stmt = Assign(dst: Value, rhs: Expr)

  /** `dst = src;` */
  datatype Copy = Copy(dst: Value, src: Value)

  datatype Exit =
    | Ret(v: Value)
    | Goto(copies: seq<Copy>, target: BlockId)
    | If(cond: Value, thenCopies: seq<Copy>, thenTarget: BlockId, elseCopies: seq<Copy>, elseTarget: BlockId)

  datatype Arm = Arm(id: BlockId, stmts: seq<Stmt>, exit: Exit)

  datatype Program = Program(params: seq<Value>, entry: BlockId, arms: seq<Arm>)

  datatype EmitError = EmptyFunction | UnsupportedInst | UnknownTarget | ArityMismatch

  // ---- what they compute ----

  /** Variables are declared up front with value 0. */
  function Read(vars: Env, v: Value): I64 {
    if v in vars then vars[v] else 0
  }

  /** One assignment after the other. */
  function DoCopies(vars: Env, copies: seq<Copy>): Env
    decreases |copies|
  {
    if copies == [] then vars
    else
      var e := DoCopies(vars, copies[..|copies| - 1]);
      var c := copies[|copies| - 1];
      e[c.dst := Read(e, c.src)]
  }

  function FindArm(arms: seq<Arm>, id: BlockId): Option<Arm> {
    if arms == [] then None else if arms[0].id == id then Some(arms[0]) else FindArm(arms[1..], id)
  }

  function RunProgram(p: Program, ctx: Context, args: seq<I64>, fuel: nat): Option<I64>
    decreases fuel, 3
  {
    if |args| != |p.params| then None else RunArm(p, ctx, p.entry, Bind(map[], p.params, args), fuel)
  }

  /** One turn of the loop. */
  function RunArm(p: Program, ctx: Context, b: BlockId, vars: Env, fuel: nat): Option<I64>
    decreases fuel, 2
  {
    match FindArm(p.arms, b)
    case None => None
    case Some(arm) =>
      match RunStmts(p, ctx, vars, arm.stmts, fuel)
      case None => None
      case Some(e) => RunExit(p, ctx, e, arm.exit, fuel)
  }

  function RunStmts(p: Program, ctx: Context, vars: Env, stmts: seq<Stmt>, fuel: nat): Option<Env>
    decreases fuel, 1, |stmts|
  {
    if stmts == [] then Some(vars)
    else
      match RunStmts(p, ctx, vars, stmts[..|stmts| - 1], fuel)
      case None => None
      case Some(e) =>
        match EvalExpr(p, ctx, e, stmts[|stmts| - 1].rhs, fuel)
        case None => None
        case Some(x) => Some(e[stmts[|stmts| - 1].dst := x])
  }

  function EvalExpr(p: Program, ctx: Context, vars: Env, rhs: Expr, fuel: nat): Option<I64>
    decreases fuel, 0
  {
    match rhs
    case Const(c) => Some(c)
    case Op(inst) =>
      if inst.Add? || inst.Sub? || inst.Mul? || inst.Lt? || inst.Eq?
      then Some(Arith(inst, Read(vars, inst.lhs), Read(vars, inst.rhs))) else None
    case Var(v) => Some(Read(vars, v))
    case SelfHandle => Some(ctx.handle)
    case Captured(sym) => if sym in ctx.caps then Some(ctx.caps[sym]) else None
    case Recurse(args) =>
      if fuel == 0 then None
      else RunProgram(p, ctx, seq(|args|, k requires 0 <= k < |args| => Read(vars, args[k])), fuel - 1)
  }

  function RunExit(p: Program, ctx: Context, vars: Env, exit: Exit, fuel: nat): Option<I64>
    decreases fuel, 1, 0
  {
    match exit
    case Ret(v) => Some(Read(vars, v))
    case Goto(copies, target) => if fuel == 0 then None else RunArm(p, ctx, target, DoCopies(vars, copies), fuel - 1)
    case If(cond, tc, t, ec, e) =>
      if fuel == 0 then None
      else if Read(vars, cond) != 0 then RunArm(p, ctx, t, DoCopies(vars, tc), fuel - 1)
      else RunArm(p, ctx, e, DoCopies(vars, ec), fuel - 1)
  }

  // ---- emission ----

  function EmitInst(f: Function, inst: Inst): Result<Stmt, EmitError> {
    match inst
    case LoadConst(dst, c) => Ok(Assign(dst, Const(c)))
    case Move(dst, src) => Ok(Assign(dst, Var(src)))
    case CallSelf(dst, args) => Ok(Assign(dst, Recurse(args)))
    case EnvLookup(dst, sym) =>
      if sym in f.captures then Ok(Assign(dst, Captured(sym)))
      else if f.selfSym == Some(sym) then Ok(Assign(dst, SelfHandle))
      else Err(UnsupportedInst)
    case Call(_, _, _) => Err(UnsupportedInst)
    case _ => Ok(Assign(inst.dst, Op(inst)))
  }

  function EmitInsts(f: Function, insts: seq<Inst>): (r: Result<seq<Stmt>, EmitError>)
    ensures r.Ok? ==> |r.value| == |insts|
    ensures r.Ok? ==> forall k :: 0 <= k < |insts| ==> EmitInst(f, insts[k]) == Ok(r.value[k])
  {
    if insts == [] then Ok([])
    else
      match EmitInsts(f, insts[..|insts| - 1])
      case Err(e) => Err(e)
      case Ok(stmts) =>
        match EmitInst(f, insts[|insts| - 1])
        case Err(e) => Err(e)
        case Ok(s) => Ok(stmts + [s])
  }

  /** Pair parameters with arguments, as far as both go. */
  function Copies(params: seq<Value>, args: seq<Value>): (r: seq<Copy>)
    ensures |r| == if |params| <= |args| then |params| else |args|
    ensures forall k :: 0 <= k < |r| ==> r[k] == Copy(params[k], args[k])
  {
    seq(if |params| <= |args| then |params| else |args|, k requires 0 <= k < |params|
        && k < |args| => Copy(params[k], args[k]))
  }

  /** The arguments of a self-call whose result is at once returned, directly or through a block that only returns
      it. */
  function DetectTailCall(f: Function, block: Block, selfRefs: set<Value>): Option<seq<Value>> {
    if block.insts == [] then None
    else
      var last := block.insts[|block.insts| - 1];
      if last.CallSelf? || (last.Call? && last.callee in selfRefs) then
        match block.term
        case Return(v) => if v == last.dst then Some(last.args) else None
        case Jump(target, args) =>
          if args != [last.dst] then None
          else
            (match FindBlock(f.blocks, target)
             case None => None
             case Some(join) =>
               if |join.params| == 1 && join.insts == [] && join.term == Return(join.params[0]) then Some(last.args)
                   else None)
        case Branch(_, _, _, _) => None
      else None
  }

  /** Copies for one side of a branch; nothing if the target or its arity does not fit. */
  function BranchCopies(f: Function, target: BlockId, args: seq<Value>): seq<Copy> {
    match FindBlock(f.blocks, target)
    case None => []
    case Some(block) => if |args| == |block.params| then Copies(block.params, args) else []
  }

  function EmitExit(f: Function, term: Term): Result<Exit, EmitError> {
    match term
    case Return(v) => Ok(Ret(v))
    case Jump(target, args) =>
      (match FindBlock(f.blocks, target)
       case None => Err(UnknownTarget)
       case Some(block) =>
         if |args| != |block.params| then Err(ArityMismatch) else Ok(Goto(Copies(block.params, args), target)))
    case Branch(cond, t, e, args) => Ok(If(cond, BranchCopies(f, t, args), t, BranchCopies(f, e, args), e))
  }

  function EmitBlock(f: Function, block: Block, selfRefs: set<Value>): Result<Arm, EmitError> {
    match DetectTailCall(f, block, selfRefs)
    case Some(args) =>
      (match EmitInsts(f, block.insts[..|block.insts| - 1])
       case Err(e) => Err(e)
       case Ok(stmts) => Ok(Arm(block.id, stmts, Goto(Copies(f.params, args), f.entry))))
    case None =>
      match EmitInsts(f, block.insts)
      case Err(e) => Err(e)
      case Ok(stmts) =>
        match EmitExit(f, block.term)
        case Err(e) => Err(e)
        case Ok(exit) => Ok(Arm(block.id, stmts, exit))
  }

  function EmitBlocks(f: Function, blocks: seq<Block>, selfRefs: set<Value>): (r: Result<seq<Arm>, EmitError>)
    ensures r.Ok? ==> |r.value| == |blocks|
    ensures r.Ok? ==> forall k :: 0 <= k < |blocks| ==> EmitBlock(f, blocks[k], selfRefs) == Ok(r.value[k])
  {
    if blocks == [] then Ok([])
    else
      match EmitBlocks(f, blocks[..|blocks| - 1], selfRefs)
      case Err(e) => Err(e)
      case Ok(arms) =>
        match EmitBlock(f, blocks[|blocks| - 1], selfRefs)
        case Err(e) => Err(e)
        case Ok(arm) => Ok(arms + [arm])
  }

  function EmitLoop(f: Function, selfRefs: set<Value>): Result<Program, EmitError> {
    if f.blocks == [] then Err(EmptyFunction)
    else
      match EmitBlocks(f, f.blocks, selfRefs)
      case Err(e) => Err(e)
      case Ok(arms) => Ok(Program(f.params, f.entry, arms))
  }
}
