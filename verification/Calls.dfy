/** A small language of functions, the inlining of calls as statement
    expressions, and why programs mean the same afterwards. */
module Calls {
  import opened Wrappers

  type Var = string
  type Name = string
  type Mem = map<int, int>
  type Env = map<Var, int>

  datatype Expr =
    | Const(n: int)
    | Get(x: Var)
    | Load(addr: Expr)
    | Bin(op: (int, int) -> int, left: Expr, right: Expr)
    | Call(f: Name, args: Args)
    // ({ p1 = a1; p0 = a0; body }): the value is that of the return statement.
    | Block(params: seq<Var>, args: Args, body: Stmt)

  // Arguments, the last one outermost.
  datatype Args = NoArgs | More(front: Args, last: Expr)

  datatype Stmt =
    | Skip
    | Declare(x: Var, e: Expr)
    | Assign(x: Var, e: Expr)
    | Store(addr: Expr, e: Expr)
    | Do(e: Expr)
    | Return(e: Expr)
    | Then(first: Stmt, second: Stmt)
    | If(cond: Expr, yes: Stmt, no: Stmt)
    | While(cond: Expr, body: Stmt)

  datatype Func = Func(params: seq<Var>, body: Stmt)

  // Functions with a body, and what the others do.
  datatype Program = Program(funcs: map<Name, Func>, builtin: (Name, seq<int>, Mem) -> (int, Mem))

  // ---------------------------------------------------------------- meaning

  datatype Outcome = Normal(env: Env, mem: Mem) | Returned(value: int, env: Env, mem: Mem)

  function Lookup(env: Env, x: Var): int {
    if x in env then env[x] else 0
  }

  function Contents(mem: Mem, a: int): int {
    if a in mem then mem[a] else 0
  }

  function Declared(s: Stmt): set<Var> {
    match s
    case Declare(x, _) => {x}
    case Then(s1, s2) => Declared(s1) + Declared(s2)
    case If(_, s1, s2) => Declared(s1) + Declared(s2)
    case While(_, s1) => Declared(s1)
    case _ => {}
  }

  // The variables of a function, or of a block.
  function Own(params: seq<Var>, body: Stmt): set<Var> {
    (set x | x in params) + Declared(body)
  }

  ghost predicate SameOutside(env: Env, env': Env, own: set<Var>) {
    forall x {:trigger Lookup(env, x)} {:trigger Lookup(env', x)} :: x !in own ==> Lookup(env', x) == Lookup(env, x)
  }

  function Bound(params: seq<Var>, values: seq<int>): Env
    requires |params| == |values|
  {
    if params == [] then map[]
    else Bound(params[..|params| - 1], values[..|values| - 1])[params[|params| - 1] := values[|values| - 1]]
  }

  function Result(o: Outcome): (int, Mem) {
    (if o.Returned? then o.value else 0, o.mem)
  }

  // The locals of a block start out without a value.
  function Inside(params: seq<Var>, body: Stmt, env: Env): Env {
    env - (Declared(body) - set x | x in params)
  }

  // The value of a block.  One that changed a variable of the function around
  // it would not be described by a value alone.
  ghost function BlockResult(r: Option<Outcome>, env: Env, own: set<Var>): Option<(int, Mem)> {
    match r
    case None => None
    case Some(o) => if SameOutside(env, o.env, own) then Some(Result(o)) else None
  }

  // The value of an expression and the memory after it; None if the fuel runs
  // out.  A call, an inlined block and a turn of a loop cost one unit each.
  ghost function Eval(p: Program, e: Expr, env: Env, mem: Mem, fuel: nat): Option<(int, Mem)>
    decreases fuel, e
  {
    match e
    case Const(n) => Some((n, mem))
    case Get(x) => Some((Lookup(env, x), mem))
    case Load(a) => (
      match Eval(p, a, env, mem, fuel)
      case None => None
      case Some(r) => Some((Contents(r.1, r.0), r.1)))
    case Bin(op, l, r) => (
      match Eval(p, l, env, mem, fuel)
      case None => None
      case Some(a) =>
        match Eval(p, r, env, a.1, fuel)
        case None => None
        case Some(b) => Some((op(a.0, b.0), b.1)))
    case Call(f, args) => (
      match EvalArgs(p, args, env, mem, fuel)
      case None => None
      case Some(r) => if fuel == 0 then None else Apply(p, f, r.0, r.1, fuel - 1))
    case Block(params, args, body) =>
      match BindArgs(p, params, args, env, mem, fuel)
      case None => None
      case Some(r) =>
        if fuel == 0 then None else
        BlockResult(Exec(p, body, Inside(params, body, r.0), r.1, fuel - 1), env, Own(params, body))
  }

  ghost function Apply(p: Program, f: Name, values: seq<int>, mem: Mem, fuel: nat): Option<(int, Mem)>
    decreases fuel
  {
    if f !in p.funcs then Some(p.builtin(f, values, mem))
    else if |values| != |p.funcs[f].params| then None
    else
      match Exec(p, p.funcs[f].body, Bound(p.funcs[f].params, values), mem, fuel)
      case None => None
      case Some(o) => Some(Result(o))
  }

  // The arguments of a call, first to last.
  ghost function EvalArgs(p: Program, args: Args, env: Env, mem: Mem, fuel: nat): Option<(seq<int>, Mem)>
    decreases fuel, args
  {
    match args
    case NoArgs => Some(([], mem))
    case More(front, last) =>
      match EvalArgs(p, front, env, mem, fuel)
      case None => None
      case Some(a) =>
        match Eval(p, last, env, a.1, fuel)
        case None => None
        case Some(b) => Some((a.0 + [b.0], b.1))
  }

  // The declarations of the parameters of a block: the last one comes first,
  // and each is in scope from its own initialiser on.
  ghost function BindArgs(p: Program, params: seq<Var>, args: Args, env: Env, mem: Mem, fuel: nat): Option<(Env, Mem)>
    decreases fuel, args
  {
    match args
    case NoArgs => if params == [] then Some((env, mem)) else None
    case More(front, last) =>
      if params == [] then None else
      var x := params[|params| - 1];
      match Eval(p, last, env - {x}, mem, fuel)
      case None => None
      case Some(b) => BindArgs(p, params[..|params| - 1], front, env[x := b.0], b.1, fuel)
  }

  ghost function Exec(p: Program, s: Stmt, env: Env, mem: Mem, fuel: nat): Option<Outcome>
    decreases fuel, s
  {
    match s
    case Skip => Some(Normal(env, mem))
    case Declare(x, e) => (
      match Eval(p, e, env, mem, fuel)
      case None => None
      case Some(r) => Some(Normal(env[x := r.0], r.1)))
    case Assign(x, e) => (
      match Eval(p, e, env, mem, fuel)
      case None => None
      case Some(r) => Some(Normal(env[x := r.0], r.1)))
    case Store(a, e) => (
      match Eval(p, a, env, mem, fuel)
      case None => None
      case Some(r) =>
        match Eval(p, e, env, r.1, fuel)
        case None => None
        case Some(v) => Some(Normal(env, v.1[r.0 := v.0])))
    case Do(e) => (
      match Eval(p, e, env, mem, fuel)
      case None => None
      case Some(r) => Some(Normal(env, r.1)))
    case Return(e) => (
      match Eval(p, e, env, mem, fuel)
      case None => None
      case Some(r) => Some(Returned(r.0, env, r.1)))
    case Then(s1, s2) => (
      match Exec(p, s1, env, mem, fuel)
      case None => None
      case Some(o) => if o.Returned? then Some(o) else Exec(p, s2, o.env, o.mem, fuel))
    case If(c, s1, s2) => (
      match Eval(p, c, env, mem, fuel)
      case None => None
      case Some(r) => if r.0 != 0 then Exec(p, s1, env, r.1, fuel) else Exec(p, s2, env, r.1, fuel))
    case While(c, body) =>
      match Eval(p, c, env, mem, fuel)
      case None => None
      case Some(r) =>
        if r.0 == 0 then Some(Normal(env, r.1))
        else
          match Exec(p, body, env, r.1, fuel)
          case None => None
          case Some(o) =>
            if o.Returned? then Some(o) else if fuel == 0 then None else Exec(p, s, o.env, o.mem, fuel - 1)
  }

  // --------------------------------------------------------------- inlining

  // Calls of functions in the map become blocks with the bodies given there.
  function InlineE(p: Program, e: Expr, bodies: map<Name, Stmt>): Expr {
    match e
    case Const(n) => e
    case Get(x) => e
    case Load(a) => Load(InlineE(p, a, bodies))
    case Bin(op, l, r) => Bin(op, InlineE(p, l, bodies), InlineE(p, r, bodies))
    case Call(f, args) =>
      if f in p.funcs && f in bodies then Block(p.funcs[f].params, InlineArgs(p, args, bodies), bodies[f])
      else Call(f, InlineArgs(p, args, bodies))
    case Block(params, args, body) => Block(params, InlineArgs(p, args, bodies), InlineS(p, body, bodies))
  }

  function InlineArgs(p: Program, args: Args, bodies: map<Name, Stmt>): Args {
    match args
    case NoArgs => NoArgs
    case More(front, last) => More(InlineArgs(p, front, bodies), InlineE(p, last, bodies))
  }

  function InlineS(p: Program, s: Stmt, bodies: map<Name, Stmt>): Stmt {
    match s
    case Skip => Skip
    case Declare(x, e) => Declare(x, InlineE(p, e, bodies))
    case Assign(x, e) => Assign(x, InlineE(p, e, bodies))
    case Store(a, e) => Store(InlineE(p, a, bodies), InlineE(p, e, bodies))
    case Do(e) => Do(InlineE(p, e, bodies))
    case Return(e) => Return(InlineE(p, e, bodies))
    case Then(s1, s2) => Then(InlineS(p, s1, bodies), InlineS(p, s2, bodies))
    case If(c, s1, s2) => If(InlineE(p, c, bodies), InlineS(p, s1, bodies), InlineS(p, s2, bodies))
    case While(c, body) => While(InlineE(p, c, bodies), InlineS(p, body, bodies))
  }

  // ------------------------------------------------------ what is called

  function CallsE(e: Expr): set<Name> {
    match e
    case Const(_) => {}
    case Get(_) => {}
    case Load(a) => CallsE(a)
    case Bin(_, l, r) => CallsE(l) + CallsE(r)
    case Call(f, args) => {f} + CallsArgs(args)
    case Block(_, args, body) => CallsArgs(args) + CallsS(body)
  }

  function CallsArgs(args: Args): set<Name> {
    match args
    case NoArgs => {}
    case More(front, last) => CallsArgs(front) + CallsE(last)
  }

  function CallsS(s: Stmt): set<Name> {
    match s
    case Skip => {}
    case Declare(_, e) => CallsE(e)
    case Assign(_, e) => CallsE(e)
    case Store(a, e) => CallsE(a) + CallsE(e)
    case Do(e) => CallsE(e)
    case Return(e) => CallsE(e)
    case Then(s1, s2) => CallsS(s1) + CallsS(s2)
    case If(c, s1, s2) => CallsE(c) + CallsS(s1) + CallsS(s2)
    case While(c, body) => CallsE(c) + CallsS(body)
  }

  // ----------------------------------------------------------- requirements

  // As the user writes them: variables are those of the function, each call
  // has as many arguments as parameters, and arguments only call functions
  // that leave memory alone.
  ghost predicate GoodE(p: Program, quiet: set<Name>, e: Expr, own: set<Var>) {
    match e
    case Const(_) => true
    case Get(x) => x in own
    case Load(a) => GoodE(p, quiet, a, own)
    case Bin(_, l, r) => GoodE(p, quiet, l, own) && GoodE(p, quiet, r, own)
    case Call(f, args) =>
      && GoodArgs(p, quiet, args, own) && CallsArgs(args) <= quiet
      && (f in p.funcs ==> Count(args) == |p.funcs[f].params| && Own(p.funcs[f].params, p.funcs[f].body) !! own)
    case Block(_, _, _) => false
  }

  function Count(args: Args): nat {
    match args
    case NoArgs => 0
    case More(front, _) => Count(front) + 1
  }

  ghost predicate GoodArgs(p: Program, quiet: set<Name>, args: Args, own: set<Var>) {
    match args
    case NoArgs => true
    case More(front, last) => GoodArgs(p, quiet, front, own) && GoodE(p, quiet, last, own)
  }

  ghost predicate GoodS(p: Program, quiet: set<Name>, s: Stmt, own: set<Var>) {
    match s
    case Skip => true
    case Declare(x, e) => x in own && GoodE(p, quiet, e, own)
    case Assign(x, e) => x in own && GoodE(p, quiet, e, own)
    case Store(a, e) => GoodE(p, quiet, a, own) && GoodE(p, quiet, e, own)
    case Do(e) => GoodE(p, quiet, e, own)
    case Return(e) => GoodE(p, quiet, e, own)
    case Then(s1, s2) => GoodS(p, quiet, s1, own) && GoodS(p, quiet, s2, own)
    case If(c, s1, s2) => GoodE(p, quiet, c, own) && GoodS(p, quiet, s1, own) && GoodS(p, quiet, s2, own)
    case While(c, body) => GoodE(p, quiet, c, own) && GoodS(p, quiet, body, own)
  }

  // No statement stores anything.
  predicate StoreFree(s: Stmt) {
    match s
    case Store(_, _) => false
    case Then(s1, s2) => StoreFree(s1) && StoreFree(s2)
    case If(_, s1, s2) => StoreFree(s1) && StoreFree(s2)
    case While(_, body) => StoreFree(body)
    case _ => true
  }

  // A function that leaves memory alone stores nothing and calls only others
  // that do so.
  ghost predicate QuietFunc(p: Program, quiet: set<Name>, f: Name) {
    if f in p.funcs then StoreFree(p.funcs[f].body) && CallsS(p.funcs[f].body) <= quiet
    else forall values, mem :: p.builtin(f, values, mem).1 == mem
  }

  predicate Distinct(params: seq<Var>) {
    forall i, j :: 0 <= i < j < |params| ==> params[i] != params[j]
  }

  ghost predicate GoodFunc(p: Program, quiet: set<Name>, f: Name)
    requires f in p.funcs
  {
    && Distinct(p.funcs[f].params)
    && GoodS(p, quiet, p.funcs[f].body, Own(p.funcs[f].params, p.funcs[f].body))
  }

  ghost predicate GoodProgram(p: Program, quiet: set<Name>) {
    && (forall f {:trigger QuietFunc(p, quiet, f)} :: f in quiet ==> QuietFunc(p, quiet, f))
    && (forall f {:trigger GoodFunc(p, quiet, f)} :: f in p.funcs ==> GoodFunc(p, quiet, f))
  }
}
