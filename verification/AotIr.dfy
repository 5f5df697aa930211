/** The block-graph IR the ahead-of-time compiler consumes (a raw-i64 subset) and its
    meaning: a function is evaluated by walking its blocks, a self-call evaluates the
    function again. `fuel` bounds calls plus jumps; running out is no result. */
module AotIr {
  import opened Wrappers

  type Value = nat
  type BlockId = nat
  type Sym = nat

  type I64 = x: int | -0x8000_0000_0000_0000 <= x < 0x8000_0000_0000_0000

  /** Two's complement wrap-around. */
  function Wrap(x: int): I64 {
    (x + 0x8000_0000_0000_0000) % 0x1_0000_0000_0000_0000 - 0x8000_0000_0000_0000
  }

  datatype Inst =
    | LoadConst(dst: Value, c: I64)
    | Add(dst: Value, lhs: Value, rhs: Value)
    | Sub(dst: Value, lhs: Value, rhs: Value)
    | Mul(dst: Value, lhs: Value, rhs: Value)
    | Lt(dst: Value, lhs: Value, rhs: Value)
    | Eq(dst: Value, lhs: Value, rhs: Value)
    | Move(dst: Value, src: Value)
    | CallSelf(dst: Value, args: seq<Value>)
    | EnvLookup(dst: Value, sym: Sym)
    | Call(dst: Value, callee: Value, args: seq<Value>)

  datatype Term =
    | Return(value: Value)
    | Jump(target: BlockId, args: seq<Value>)
    | Branch(cond: Value, thenTarget: BlockId, elseTarget: BlockId, args: seq<Value>)

  datatype Block = Block(id: BlockId, params: seq<Value>, insts: seq<Inst>, term: Term)

  datatype Function = Function(params: seq<Value>, entry: BlockId, blocks: seq<Block>, captures: seq<Sym>,
                               selfSym: Option<Sym>)

  /** What stays fixed over a closure's self-calls: its own handle, its captured values,
      and what the procedures behind other handles return. */
  datatype Context = Context(handle: I64, caps: map<Sym, I64>, others: (I64, seq<I64>) -> I64)

  type Env = map<Value, I64>

  function FindBlock(blocks: seq<Block>, id: BlockId): (r: Option<Block>)
    ensures r.Some? ==> r.value in blocks && r.value.id == id
    ensures r.None? ==> forall b :: b in blocks ==> b.id != id
  {
    if blocks == [] then None else if blocks[0].id == id then Some(blocks[0]) else FindBlock(blocks[1..], id)
  }

  // ---- environments ----

  predicate Defines(env: Env, vs: seq<Value>) {
    forall k :: 0 <= k < |vs| ==> vs[k] in env
  }

  function Values(env: Env, vs: seq<Value>): (r: seq<I64>)
    requires Defines(env, vs)
    ensures |r| == |vs| && forall k :: 0 <= k < |vs| ==> r[k] == env[vs[k]]
  {
    seq(|vs|, k requires 0 <= k < |vs| => env[vs[k]])
  }

  /** Bind parameters to values, all at once. */
  function Bind(env: Env, params: seq<Value>, vals: seq<I64>): (r: Env)
    requires |params| == |vals|
  {
    if params == [] then env
    else Bind(env, params[..|params| - 1], vals[..|vals| - 1])[params[|params| - 1] := vals[|vals| - 1]]
  }

  // ---- evaluation ----

  function Arith(inst: Inst, a: I64, b: I64): I64
    requires inst.Add? || inst.Sub? || inst.Mul? || inst.Lt? || inst.Eq?
  {
    match inst
    case Add(_, _, _) => Wrap(a + b)
    case Sub(_, _, _) => Wrap(a - b)
    case Mul(_, _, _) => Wrap(a * b)
    case Lt(_, _, _) => if a < b then 1 else 0
    case Eq(_, _, _) => if a == b then 1 else 0
  }

  /** A captured variable, or the function's own handle. */
  function LookUp(f: Function, ctx: Context, sym: Sym): Option<I64> {
    if sym in f.captures then (if sym in ctx.caps then Some(ctx.caps[sym]) else None)
    else if f.selfSym == Some(sym) then Some(ctx.handle)
    else None
  }

  function EvalFunction(f: Function, ctx: Context, args: seq<I64>, fuel: nat): Option<I64>
    decreases fuel, 3
  {
    if |args| != |f.params| then None else EvalBlock(f, ctx, f.entry, Bind(map[], f.params, args), fuel)
  }

  function EvalBlock(f: Function, ctx: Context, b: BlockId, env: Env, fuel: nat): Option<I64>
    decreases fuel, 2
  {
    match FindBlock(f.blocks, b)
    case None => None
    case Some(block) =>
      match EvalInsts(f, ctx, env, block.insts, fuel)
      case None => None
      case Some(e) => EvalTerm(f, ctx, e, block.term, fuel)
  }

  function EvalInsts(f: Function, ctx: Context, env: Env, insts: seq<Inst>, fuel: nat): Option<Env>
    decreases fuel, 1, |insts|
  {
    if insts == [] then Some(env)
    else
      match EvalInsts(f, ctx, env, insts[..|insts| - 1], fuel)
      case None => None
      case Some(e) => EvalInst(f, ctx, e, insts[|insts| - 1], fuel)
  }

  function EvalInst(f: Function, ctx: Context, env: Env, inst: Inst, fuel: nat): Option<Env>
    decreases fuel, 0
  {
    match inst
    case LoadConst(dst, c) => Some(env[dst := c])
    case Move(dst, src) => if src in env then Some(env[dst := env[src]]) else None
    case EnvLookup(dst, sym) =>
      (match LookUp(f, ctx, sym) case None => None case Some(x) => Some(env[dst := x]))
    case CallSelf(dst, args) => EvalSelfCall(f, ctx, env, dst, args, fuel)
    case Call(dst, callee, args) =>
      if callee !in env || !Defines(env, args) then None
      else if env[callee] == ctx.handle then EvalSelfCall(f, ctx, env, dst, args, fuel)
      else Some(env[dst := ctx.others(env[callee], Values(env, args))])
    case _ =>
      if inst.lhs in env && inst.rhs in env then Some(env[inst.dst := Arith(inst, env[inst.lhs], env[inst.rhs])])
          else None
  }

  function EvalSelfCall(f: Function, ctx: Context, env: Env, dst: Value, args: seq<Value>, fuel: nat): Option<Env>
    decreases fuel, 0, 0
  {
    if fuel == 0 || !Defines(env, args) then None
    else
      match EvalFunction(f, ctx, Values(env, args), fuel - 1)
      case None => None
      case Some(x) => Some(env[dst := x])
  }

  function EvalTerm(f: Function, ctx: Context, env: Env, term: Term, fuel: nat): Option<I64>
    decreases fuel, 1, 0
  {
    match term
    case Return(v) => if v in env then Some(env[v]) else None
    case Jump(target, args) => EvalJump(f, ctx, env, target, args, fuel)
    case Branch(cond, t, e, args) =>
      if cond !in env then None else EvalJump(f, ctx, env, if env[cond] != 0 then t else e, args, fuel)
  }

  function EvalJump(f: Function, ctx: Context, env: Env, target: BlockId, args: seq<Value>, fuel: nat): Option<I64>
    decreases fuel, 0
  {
    match FindBlock(f.blocks, target)
    case None => None
    case Some(block) =>
      if fuel == 0 || |args| != |block.params| || !Defines(env, args) then None
      else EvalBlock(f, ctx, target, Bind(env, block.params, Values(env, args)), fuel - 1)
  }
}
