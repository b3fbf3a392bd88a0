/** The kernel language: structured statements over private variables, local
    and global memory, with the constructs that the instrumentor emits.  The
    control state of a work-item is a statement and a continuation, so every
    program point is a purely static object. */
module Kernel {
  import opened Wrappers

  // A private variable: its declaration's address, alignment and size in bytes.
  // Two declarations are the same variable only if they are the same object.
  datatype Var = Var(addr: nat, align: nat, size: nat)

  type Env = map<Var, int>

  // Side-effect-free expressions; `Self` is the work-item's own id.
  datatype Expr =
    | Lit(v: int)
    | Self
    | Ref(x: Var)
    | Bin(f: (int, int) -> int, l: Expr, r: Expr)

  datatype Space = Global | Local

  // Statements that touch data; each makes at most one memory access.
  datatype Prim =
    | Decl(x: Var)
    | Assign(x: Var, e: Expr)
    | Load(x: Var, sp: Space, a: Expr)
    | Store(sp: Space, a: Expr, e: Expr)
    | Atomic(x: Var, f: (int, int) -> int, sp: Space, a: Expr, e: Expr)

  datatype Stmt =
    | Skip
    | Do(p: Prim)
    | Seq(s1: Stmt, s2: Stmt)
    | Block(body: Stmt)
    | If(c: Expr, s1: Stmt, s2: Stmt)
      // while and for (pre) or do (not pre); `inc` is the increment of a for
    | Loop(pre: bool, c: Expr, inc: Stmt, body: Stmt)
    | Break
    | Continue
    | Return
    | Barrier(b: nat)
      // Emitted code: a timer test and a barrier with its stop counter, each
      // followed by the label `n` that restores the variables in `save`
    | Checkpoint(n: nat, save: set<Var>)
    | Stop(b: nat, idx: nat, n: nat, save: set<Var>)

  datatype Cont =
    | KStop
    | KSeq(s: Stmt, k: Cont)
    | KBody(c: Expr, inc: Stmt, body: Stmt, k: Cont)
    | KTest(c: Expr, inc: Stmt, body: Stmt, k: Cont)

  // ---------------------------------------------------------------- values

  function Get(env: Env, x: Var): int {
    if x in env then env[x] else 0
  }

  function Eval(e: Expr, id: int, env: Env): int {
    match e
    case Lit(v) => v
    case Self => id
    case Ref(x) => Get(env, x)
    case Bin(f, l, r) => f(Eval(l, id, env), Eval(r, id, env))
  }

  // Compile-time evaluation of a condition.
  function ConstEval(e: Expr): Option<int> {
    match e
    case Lit(v) => Some(v)
    case Self => None
    case Ref(_) => None
    case Bin(f, l, r) =>
      var a, b := ConstEval(l), ConstEval(r);
      if a.Some? && b.Some? then Some(f(a.value, b.value)) else None
  }

  predicate NeverRepeats(c: Expr) {
    ConstEval(c) == Some(0)
  }

  lemma {:induction false} ConstEvalSound(e: Expr, id: int, env: Env)
    ensures ConstEval(e).Some? ==> Eval(e, id, env) == ConstEval(e).value
  {
    match e
    case Bin(f, l, r) => ConstEvalSound(l, id, env); ConstEvalSound(r, id, env);
    case _ =>
  }

  // An expression without variables and ids.
  predicate Closed(e: Expr) {
    match e
    case Lit(_) => true
    case Self => false
    case Ref(_) => false
    case Bin(_, l, r) => Closed(l) && Closed(r)
  }

  // These, and no others, are evaluated at compile time.
  lemma {:induction false} ConstEvalWhen(e: Expr)
    ensures ConstEval(e).Some? <==> Closed(e)
  {
    match e
    case Bin(_, l, r) => ConstEvalWhen(l); ConstEvalWhen(r);
    case _ =>
  }

  // ------------------------------------------------------------------ data

  datatype Data = Data(env: Env, lm: seq<int>, gm: map<int, int>)

  function Peek(sp: Space, d: Data, a: int): int {
    match sp
    case Local => if 0 <= a < |d.lm| then d.lm[a] else 0
    case Global => if a in d.gm then d.gm[a] else 0
  }

  function Poke(sp: Space, d: Data, a: int, v: int): (r: Data)
    ensures r.env == d.env && |r.lm| == |d.lm|
  {
    match sp
    case Local => if 0 <= a < |d.lm| then d.(lm := d.lm[a := v]) else d
    case Global => d.(gm := d.gm[a := v])
  }

  // `v` is the indeterminate value of a fresh declaration.
  function RunPrim(p: Prim, id: int, d: Data, v: int): (r: Data)
    ensures |r.lm| == |d.lm|
  {
    match p
    case Decl(x) => d.(env := d.env[x := v])
    case Assign(x, e) => d.(env := d.env[x := Eval(e, id, d.env)])
    case Load(x, sp, a) => d.(env := d.env[x := Peek(sp, d, Eval(a, id, d.env))])
    case Store(sp, a, e) => Poke(sp, d, Eval(a, id, d.env), Eval(e, id, d.env))
    case Atomic(x, f, sp, a, e) =>
      var at := Eval(a, id, d.env);
      var was := Peek(sp, d, at);
      var d' := Poke(sp, d, at, f(was, Eval(e, id, d.env)));
      d'.(env := d.env[x := was])
  }

  // A load and an atomic operation give the value from before; a store and an
  // atomic operation change one cell of one memory, if the memory has it.
  lemma PrimEffect(p: Prim, id: int, d: Data, v: int, sp: Space, a: int)
    ensures var r := RunPrim(p, id, d, v);
            && (p.Store? ==> r.env == d.env) && (!p.Store? ==> forall y | y != p.x :: Get(r.env, y) == Get(d.env, y))
            && (p.Decl? ==> Get(r.env, p.x) == v)
            && (p.Assign? ==> Get(r.env, p.x) == Eval(p.e, id, d.env))
            && (p.Load? || p.Atomic? ==> Get(r.env, p.x) == Peek(p.sp, d, Eval(p.a, id, d.env)))
            && var here := (p.Store? || p.Atomic?) && p.sp == sp && Eval(p.a, id, d.env) == a
                           && (sp.Local? ==> 0 <= a < |d.lm|);
               Peek(sp, r, a) ==
                 if !here then Peek(sp, d, a)
                 else if p.Store? then Eval(p.e, id, d.env) else p.f(Peek(sp, d, a), Eval(p.e, id, d.env))
  {
  }

  // --------------------------------------------------------------- control

  // Where `break` goes.  The increment of a for is an expression and holds no
  // jump of its own.
  function BreakTo(k: Cont): Cont {
    match k
    case KStop => KStop
    case KSeq(_, k') => BreakTo(k')
    case KBody(_, _, _, k') => k'
    case KTest(_, _, _, _) => KStop
  }

  // Where `continue` goes: the increment, then the test.
  function ContinueTo(k: Cont): (Stmt, Cont) {
    match k
    case KStop => (Skip, KStop)
    case KSeq(_, k') => ContinueTo(k')
    case KBody(c, inc, body, k') => (inc, KTest(c, inc, body, k'))
    case KTest(_, _, _, _) => (Skip, KStop)
  }

  // Statements whose step moves control only, by the value of a condition.
  predicate Moves(s: Stmt, k: Cont) {
    match s
    case Skip => !k.KStop?
    case Do(_) => false
    case Barrier(_) => false
    case Checkpoint(_, _) => false
    case Stop(_, _, _, _) => false
    case _ => true
  }

  // The condition that decides a control move.
  function Cond(s: Stmt, k: Cont): Expr {
    if s.If? then s.c else if s.Skip? && k.KTest? then k.c else Lit(1)
  }

  function Move(s: Stmt, k: Cont, taken: bool): (Stmt, Cont)
    requires Moves(s, k)
  {
    match s
    case Skip => (
      match k
      case KSeq(s2, k') => (s2, k')
      case KBody(c, inc, body, k') => (inc, KTest(c, inc, body, k'))
      case KTest(c, inc, body, k') => if taken then (body, KBody(c, inc, body, k')) else (Skip, k')
    )
    case Seq(s1, s2) => (s1, KSeq(s2, k))
    case Block(body) => (body, k)
    case If(_, s1, s2) => (if taken then s1 else s2, k)
    case Loop(pre, c, inc, body) =>
      if pre then (Skip, KTest(c, inc, body, k)) else (body, KBody(c, inc, body, k))
    case Break => (Skip, BreakTo(k))
    case Continue => ContinueTo(k)
    case Return => (Skip, KStop)
  }

  // A statement that an item can execute on its own.
  predicate Plain(s: Stmt, k: Cont) {
    s.Do? || Moves(s, k)
  }

  datatype Point = Point(s: Stmt, k: Cont, d: Data)

  function PlainStep(s: Stmt, k: Cont, id: int, d: Data, v: int): (r: Point)
    requires Plain(s, k)
    ensures |r.d.lm| == |d.lm|
  {
    if s.Do? then Point(Skip, k, RunPrim(s.p, id, d, v))
    else
      var (s', k') := Move(s, k, Eval(Cond(s, k), id, d.env) != 0);
      Point(s', k', d)
  }
}
