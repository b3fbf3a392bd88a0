/** Inlining preserves meaning. */
module Inlining {
  import opened Wrappers
  import opened Calls

  ghost predicate InlinedFunc(p: Program, bodies: map<Name, Stmt>, f: Name)
    requires f in p.funcs && f in bodies
  {
    bodies[f] == InlineS(p, p.funcs[f].body, bodies)
  }

  // Bodies of all functions, calls in them replaced by these very bodies.
  ghost predicate Inlined(p: Program, bodies: map<Name, Stmt>) {
    && bodies.Keys == p.funcs.Keys
    && forall f {:trigger InlinedFunc(p, bodies, f)} :: f in p.funcs ==> InlinedFunc(p, bodies, f)
  }

  ghost predicate Agree(env: Env, env': Env, own: set<Var>) {
    forall x {:trigger Lookup(env, x)} {:trigger Lookup(env', x)} :: x in own ==> Lookup(env, x) == Lookup(env', x)
  }

  // ------------------------------------------------------- quiet functions

  lemma {:induction false} QuietE(p: Program, quiet: set<Name>, e: Expr, env: Env, mem: Mem, fuel: nat, own: set<Var>)
    requires GoodProgram(p, quiet) && GoodE(p, quiet, e, own) && CallsE(e) <= quiet
    ensures var r := Eval(p, e, env, mem, fuel); r.Some? ==> r.value.1 == mem
    decreases fuel, e
  {
    match e
    case Const(n) =>
    case Get(x) =>
    case Load(a) => QuietE(p, quiet, a, env, mem, fuel, own);
    case Bin(op, l, r) =>
      QuietE(p, quiet, l, env, mem, fuel, own);
      QuietE(p, quiet, r, env, mem, fuel, own);
    case Call(f, args) =>
      QuietArgs(p, quiet, args, env, mem, fuel, own);
      var r := EvalArgs(p, args, env, mem, fuel);
      if r.Some? && fuel > 0 { QuietApply(p, quiet, f, r.value.0, mem, fuel - 1); }
    case Block(_, _, _) =>
  }

  lemma {:induction false} QuietApply(p: Program, quiet: set<Name>, f: Name, values: seq<int>, mem: Mem, fuel: nat)
    requires GoodProgram(p, quiet) && f in quiet
    ensures var r := Apply(p, f, values, mem, fuel); r.Some? ==> r.value.1 == mem
    decreases fuel
  {
    assert QuietFunc(p, quiet, f);
    if f in p.funcs && |values| == |p.funcs[f].params| {
      var g := p.funcs[f];
      assert GoodFunc(p, quiet, f);
      QuietS(p, quiet, g.body, Bound(g.params, values), mem, fuel, Own(g.params, g.body));
    }
  }

  lemma {:induction false} QuietArgs(p: Program, quiet: set<Name>, args: Args, env: Env, mem: Mem, fuel: nat,
                                     own: set<Var>)
    requires GoodProgram(p, quiet) && GoodArgs(p, quiet, args, own) && CallsArgs(args) <= quiet
    ensures var r := EvalArgs(p, args, env, mem, fuel); r.Some? ==> r.value.1 == mem && |r.value.0| == Count(args)
    decreases fuel, args
  {
    match args
    case NoArgs =>
    case More(front, last) =>
      QuietArgs(p, quiet, front, env, mem, fuel, own);
      QuietE(p, quiet, last, env, mem, fuel, own);
  }

  lemma {:induction false} QuietS(p: Program, quiet: set<Name>, s: Stmt, env: Env, mem: Mem, fuel: nat, own: set<Var>)
    requires GoodProgram(p, quiet) && GoodS(p, quiet, s, own) && StoreFree(s) && CallsS(s) <= quiet
    ensures var r := Exec(p, s, env, mem, fuel); r.Some? ==> r.value.mem == mem
    decreases fuel, s
  {
    match s
    case Skip =>
    case Declare(x, e) => QuietE(p, quiet, e, env, mem, fuel, own);
    case Assign(x, e) => QuietE(p, quiet, e, env, mem, fuel, own);
    case Store(a, e) =>
    case Do(e) => QuietE(p, quiet, e, env, mem, fuel, own);
    case Return(e) => QuietE(p, quiet, e, env, mem, fuel, own);
    case Then(s1, s2) =>
      QuietS(p, quiet, s1, env, mem, fuel, own);
      var r := Exec(p, s1, env, mem, fuel);
      if r.Some? { QuietS(p, quiet, s2, r.value.env, mem, fuel, own); }
    case If(c, s1, s2) =>
      QuietE(p, quiet, c, env, mem, fuel, own);
      QuietS(p, quiet, s1, env, mem, fuel, own);
      QuietS(p, quiet, s2, env, mem, fuel, own);
    case While(c, body) => QuietWhile(p, quiet, s, env, mem, fuel, own);
  }

  lemma {:induction false} QuietWhile(p: Program, quiet: set<Name>, s: Stmt, env: Env, mem: Mem, fuel: nat,
                                      own: set<Var>)
    requires GoodProgram(p, quiet) && GoodS(p, quiet, s, own) && StoreFree(s) && CallsS(s) <= quiet
    requires s.While?
    ensures var r := Exec(p, s, env, mem, fuel); r.Some? ==> r.value.mem == mem
    decreases fuel, s, 0
  {
    QuietE(p, quiet, s.cond, env, mem, fuel, own);
    QuietS(p, quiet, s.body, env, mem, fuel, own);
    var r := Exec(p, s.body, env, mem, fuel);
    if r.Some? && fuel > 0 { QuietS(p, quiet, s, r.value.env, mem, fuel - 1, own); }
  }

  lemma AssignBoth(env: Env, env': Env, x: Var, v: int, own: set<Var>)
    requires Agree(env, env', own) && x in own
    ensures Agree(env[x := v], env'[x := v], own) && SameOutside(env', env'[x := v], own)
  {
    forall y
      ensures y in own ==> Lookup(env[x := v], y) == Lookup(env'[x := v], y)
      ensures y !in own ==> Lookup(env'[x := v], y) == Lookup(env', y)
    {
      assert y in own ==> Lookup(env, y) == Lookup(env', y);
    }
  }

  // ------------------------------------------------------------ preservation

  // The result of the inlined statement is the same; it only changes
  // variables of its own function.
  ghost predicate SameResult(r: Option<Outcome>, r': Option<Outcome>, env': Env, own: set<Var>) {
    match r
    case None => r' == None
    case Some(o) =>
      && r'.Some? && r'.value.Returned? == o.Returned? && Result(r'.value) == Result(o)
      && Agree(o.env, r'.value.env, own) && SameOutside(env', r'.value.env, own)
  }

  lemma {:induction false} PreserveE(p: Program, quiet: set<Name>, bodies: map<Name, Stmt>, e: Expr, own: set<Var>,
                                     env: Env, env': Env, mem: Mem, fuel: nat)
    requires GoodProgram(p, quiet) && Inlined(p, bodies) && GoodE(p, quiet, e, own) && Agree(env, env', own)
    ensures Eval(p, InlineE(p, e, bodies), env', mem, fuel) == Eval(p, e, env, mem, fuel)
    decreases fuel, e
  {
    match e
    case Const(n) =>
    case Get(x) =>
    case Load(a) => PreserveE(p, quiet, bodies, a, own, env, env', mem, fuel);
    case Bin(op, l, r) =>
      PreserveE(p, quiet, bodies, l, own, env, env', mem, fuel);
      var a := Eval(p, l, env, mem, fuel);
      if a.Some? { PreserveE(p, quiet, bodies, r, own, env, env', a.value.1, fuel); }
    case Call(f, args) =>
      if f in p.funcs {
        PreserveCall(p, quiet, bodies, e, f, args, own, env, env', mem, fuel);
      } else {
        PreserveArgs(p, quiet, bodies, args, own, env, env', mem, fuel);
      }
    case Block(_, _, _) =>
  }

  lemma {:induction false} PreserveArgs(p: Program, quiet: set<Name>, bodies: map<Name, Stmt>, args: Args,
                                        own: set<Var>,
                                        env: Env, env': Env, mem: Mem, fuel: nat)
    requires GoodProgram(p, quiet) && Inlined(p, bodies) && GoodArgs(p, quiet, args, own) && Agree(env, env', own)
    ensures EvalArgs(p, InlineArgs(p, args, bodies), env', mem, fuel) == EvalArgs(p, args, env, mem, fuel)
    decreases fuel, args
  {
    match args
    case NoArgs =>
    case More(front, last) =>
      PreserveArgs(p, quiet, bodies, front, own, env, env', mem, fuel);
      var a := EvalArgs(p, front, env, mem, fuel);
      if a.Some? { PreserveE(p, quiet, bodies, last, own, env, env', a.value.1, fuel); }
  }

  ghost predicate BoundTo(params: seq<Var>, values: seq<int>, env: Env, env': Env) {
    && |values| == |params|
    && (forall i :: 0 <= i < |params| ==> Lookup(env', params[i]) == values[i])
    && (forall x :: x !in params ==> Lookup(env', x) == Lookup(env, x))
  }

  // Declaring the parameters from the last to the first gives each the value
  // of its argument.
  lemma {:induction false} PreserveBinding(p: Program, quiet: set<Name>, bodies: map<Name, Stmt>, params: seq<Var>,
                                           args: Args, own: set<Var>, env: Env, env': Env, mem: Mem, fuel: nat)
    requires GoodProgram(p, quiet) && Inlined(p, bodies) && GoodArgs(p, quiet, args, own) && CallsArgs(args) <= quiet
    requires |params| == Count(args) && Distinct(params) && Agree(env, env', own)
    requires forall x :: x in params ==> x !in own
    ensures
      var r := EvalArgs(p, args, env, mem, fuel);
      var r' := BindArgs(p, params, InlineArgs(p, args, bodies), env', mem, fuel);
      && (r == None ==> r' == None)
      && (r.Some? ==> r'.Some? && r'.value.1 == r.value.1 && BoundTo(params, r.value.0, env', r'.value.0))
    decreases fuel, args
  {
    QuietArgs(p, quiet, args, env, mem, fuel, own);
    match args
    case NoArgs =>
    case More(front, last) =>
      var x := params[|params| - 1];
      QuietArgs(p, quiet, front, env, mem, fuel, own);
      QuietE(p, quiet, last, env, mem, fuel, own);
      PreserveE(p, quiet, bodies, last, own, env, env' - {x}, mem, fuel);
      var b := Eval(p, last, env, mem, fuel);
      if b.Some? {
        var env1 := env'[x := b.value.0];
        PreserveBinding(p, quiet, bodies, params[..|params| - 1], front, own, env, env1, mem, fuel);
        var r := EvalArgs(p, front, env, mem, fuel);
        if r.Some? {
          var r' := BindArgs(p, params[..|params| - 1], InlineArgs(p, front, bodies), env1, mem, fuel);
          BoundOneMore(params, r.value.0, b.value.0, env', r'.value.0);
        }
      }
  }

  lemma BoundOneMore(params: seq<Var>, values: seq<int>, v: int, env: Env, env': Env)
    requires params != [] && Distinct(params)
    requires BoundTo(params[..|params| - 1], values, env[params[|params| - 1] := v], env')
    ensures BoundTo(params, values + [v], env, env')
  {
    var n := |params| - 1;
    assert params[n] !in params[..n];
    forall i | 0 <= i < |params|
      ensures Lookup(env', params[i]) == (values + [v])[i]
    {
      if i < n { assert params[..n][i] == params[i]; }
    }
  }

  // Inside the block the variables of the function look as in a call.
  lemma BlockEntry(params: seq<Var>, body: Stmt, values: seq<int>, env: Env, env': Env, inner: Env)
    requires Distinct(params) && BoundTo(params, values, env, env')
    requires inner == Inside(params, body, env')
    ensures Agree(Bound(params, values), inner, Own(params, body))
    ensures SameOutside(env, inner, Own(params, body))
  {
    forall x | x in Own(params, body)
      ensures Lookup(Bound(params, values), x) == Lookup(inner, x)
    {
      if x in params {
        var i :| 0 <= i < |params| && params[i] == x;
        BoundAt(params, values, i);
        assert Lookup(env', params[i]) == values[i];
      } else {
        BoundElsewhere(params, values, x);
      }
    }
  }

  lemma {:induction false} BoundAt(params: seq<Var>, values: seq<int>, i: nat)
    requires |params| == |values| && Distinct(params) && i < |params|
    ensures Lookup(Bound(params, values), params[i]) == values[i]
  {
    var n := |params| - 1;
    if i < n {
      BoundAt(params[..n], values[..n], i);
      assert params[..n][i] == params[i] && params[i] != params[n];
    }
  }

  lemma {:induction false} BoundElsewhere(params: seq<Var>, values: seq<int>, x: Var)
    requires |params| == |values| && x !in params
    ensures Lookup(Bound(params, values), x) == 0
  {
    if params != [] {
      BoundElsewhere(params[..|params| - 1], values[..|values| - 1], x);
    }
  }

  lemma {:induction false} PreserveCall(p: Program, quiet: set<Name>, bodies: map<Name, Stmt>, e: Expr, f: Name,
                                        args: Args, own: set<Var>, env: Env, env': Env, mem: Mem, fuel: nat)
    requires GoodProgram(p, quiet) && Inlined(p, bodies) && GoodE(p, quiet, e, own) && Agree(env, env', own)
    requires e == Call(f, args) && f in p.funcs
    ensures Eval(p, InlineE(p, e, bodies), env', mem, fuel) == Eval(p, e, env, mem, fuel)
    decreases fuel, e, 0
  {
    var block := Block(p.funcs[f].params, InlineArgs(p, args, bodies), bodies[f]);
    assert GoodFunc(p, quiet, f);
    PreserveBinding(p, quiet, bodies, block.params, args, own, env, env', mem, fuel);
    var r := EvalArgs(p, args, env, mem, fuel);
    var r' := BindArgs(p, block.params, block.args, env', mem, fuel);
    if r.Some? && fuel > 0 {
      PreserveBody(p, quiet, bodies, f, block, r.value.0, env', r'.value.0, r.value.1, fuel - 1);
    }
    CallIsBlock(p, f, args, block, env, env', mem, fuel, r, r');
  }

  // If the arguments and the body agree, the call and the block do.
  lemma CallIsBlock(p: Program, f: Name, args: Args, block: Expr, env: Env, env': Env, mem: Mem, fuel: nat,
                    r: Option<(seq<int>, Mem)>, r': Option<(Env, Mem)>)
    requires block.Block?
    requires r == EvalArgs(p, args, env, mem, fuel) && r' == BindArgs(p, block.params, block.args, env', mem, fuel)
    requires r == None ==> r' == None
    requires r.Some? ==> r'.Some? && r'.value.1 == r.value.1
    requires r.Some? && fuel > 0 ==>
      BlockValue(p, block, env', r'.value.0, r.value.1, fuel - 1) == Apply(p, f, r.value.0, r.value.1, fuel - 1)
    ensures Eval(p, block, env', mem, fuel) == Eval(p, Call(f, args), env, mem, fuel)
  {
  }

  // The value of a block whose parameters have been bound.
  ghost function BlockValue(p: Program, block: Expr, env: Env, bound: Env, mem: Mem, fuel: nat): Option<(int, Mem)>
    requires block.Block?
  {
    BlockResult(Exec(p, block.body, Inside(block.params, block.body, bound), mem, fuel), env,
                Own(block.params, block.body))
  }

  lemma {:induction false} PreserveBody(p: Program, quiet: set<Name>, bodies: map<Name, Stmt>, f: Name, block: Expr,
                                        values: seq<int>, env: Env, bound: Env, mem: Mem, fuel: nat)
    requires GoodProgram(p, quiet) && Inlined(p, bodies) && f in p.funcs
    requires block.Block? && block.params == p.funcs[f].params && block.body == bodies[f]
    requires BoundTo(p.funcs[f].params, values, env, bound)
    ensures BlockValue(p, block, env, bound, mem, fuel) == Apply(p, f, values, mem, fuel)
    decreases fuel
  {
    var g := p.funcs[f];
    var callee := Own(g.params, g.body);
    assert GoodFunc(p, quiet, f) && InlinedFunc(p, bodies, f);
    DeclaredStays(p, g.body, bodies);
    var inner := Inside(g.params, g.body, bound);
    BlockEntry(g.params, g.body, values, env, bound, inner);
    PreserveS(p, quiet, bodies, g.body, callee, Bound(g.params, values), inner, mem, fuel);
    BlockExit(env, inner, Exec(p, bodies[f], inner, mem, fuel), callee);
  }

  lemma BlockExit(env: Env, inner: Env, r: Option<Outcome>, own: set<Var>)
    requires SameOutside(env, inner, own)
    requires r.Some? ==> SameOutside(inner, r.value.env, own)
    ensures r.Some? ==> SameOutside(env, r.value.env, own)
  {
  }

  lemma {:induction false} PreserveS(p: Program, quiet: set<Name>, bodies: map<Name, Stmt>, s: Stmt, own: set<Var>,
                                     env: Env, env': Env, mem: Mem, fuel: nat)
    requires GoodProgram(p, quiet) && Inlined(p, bodies) && GoodS(p, quiet, s, own) && Agree(env, env', own)
    ensures SameResult(Exec(p, s, env, mem, fuel), Exec(p, InlineS(p, s, bodies), env', mem, fuel), env', own)
    decreases fuel, s
  {
    match s
    case Skip =>
    case Declare(x, e) =>
      PreserveE(p, quiet, bodies, e, own, env, env', mem, fuel);
      var r := Eval(p, e, env, mem, fuel);
      if r.Some? { AssignBoth(env, env', x, r.value.0, own); }
    case Assign(x, e) =>
      PreserveE(p, quiet, bodies, e, own, env, env', mem, fuel);
      var r := Eval(p, e, env, mem, fuel);
      if r.Some? { AssignBoth(env, env', x, r.value.0, own); }
    case Store(a, e) => PreserveStore(p, quiet, bodies, s, own, env, env', mem, fuel);
    case Do(e) => PreserveE(p, quiet, bodies, e, own, env, env', mem, fuel);
    case Return(e) => PreserveE(p, quiet, bodies, e, own, env, env', mem, fuel);
    case Then(s1, s2) => PreserveThen(p, quiet, bodies, s, own, env, env', mem, fuel);
    case If(c, s1, s2) => PreserveIf(p, quiet, bodies, s, own, env, env', mem, fuel);
    case While(c, body) => PreserveWhile(p, quiet, bodies, s, own, env, env', mem, fuel);
  }

  lemma {:induction false} PreserveStore(p: Program, quiet: set<Name>, bodies: map<Name, Stmt>, s: Stmt, own: set<Var>,
                                         env: Env, env': Env, mem: Mem, fuel: nat)
    requires GoodProgram(p, quiet) && Inlined(p, bodies) && GoodS(p, quiet, s, own) && Agree(env, env', own)
    requires s.Store?
    ensures SameResult(Exec(p, s, env, mem, fuel), Exec(p, InlineS(p, s, bodies), env', mem, fuel), env', own)
    decreases fuel, s, 0
  {
    PreserveE(p, quiet, bodies, s.addr, own, env, env', mem, fuel);
    var r := Eval(p, s.addr, env, mem, fuel);
    if r.Some? { PreserveE(p, quiet, bodies, s.e, own, env, env', r.value.1, fuel); }
  }

  lemma {:induction false} PreserveThen(p: Program, quiet: set<Name>, bodies: map<Name, Stmt>, s: Stmt, own: set<Var>,
                                        env: Env, env': Env, mem: Mem, fuel: nat)
    requires GoodProgram(p, quiet) && Inlined(p, bodies) && GoodS(p, quiet, s, own) && Agree(env, env', own)
    requires s.Then?
    ensures SameResult(Exec(p, s, env, mem, fuel), Exec(p, InlineS(p, s, bodies), env', mem, fuel), env', own)
    decreases fuel, s, 0
  {
    PreserveS(p, quiet, bodies, s.first, own, env, env', mem, fuel);
    var r, r' := Exec(p, s.first, env, mem, fuel), Exec(p, InlineS(p, s.first, bodies), env', mem, fuel);
    if r.Some? && r.value.Normal? {
      PreserveS(p, quiet, bodies, s.second, own, r.value.env, r'.value.env, r.value.mem, fuel);
    }
  }

  lemma {:induction false} PreserveIf(p: Program, quiet: set<Name>, bodies: map<Name, Stmt>, s: Stmt, own: set<Var>,
                                      env: Env, env': Env, mem: Mem, fuel: nat)
    requires GoodProgram(p, quiet) && Inlined(p, bodies) && GoodS(p, quiet, s, own) && Agree(env, env', own)
    requires s.If?
    ensures SameResult(Exec(p, s, env, mem, fuel), Exec(p, InlineS(p, s, bodies), env', mem, fuel), env', own)
    decreases fuel, s, 0
  {
    PreserveE(p, quiet, bodies, s.cond, own, env, env', mem, fuel);
    var r := Eval(p, s.cond, env, mem, fuel);
    if r.Some? {
      PreserveS(p, quiet, bodies, if r.value.0 != 0 then s.yes else s.no, own, env, env', r.value.1, fuel);
    }
  }

  lemma {:induction false} PreserveWhile(p: Program, quiet: set<Name>, bodies: map<Name, Stmt>, s: Stmt, own: set<Var>,
                                         env: Env, env': Env, mem: Mem, fuel: nat)
    requires GoodProgram(p, quiet) && Inlined(p, bodies) && GoodS(p, quiet, s, own) && Agree(env, env', own)
    requires s.While?
    ensures SameResult(Exec(p, s, env, mem, fuel), Exec(p, InlineS(p, s, bodies), env', mem, fuel), env', own)
    decreases fuel, s, 0
  {
    PreserveE(p, quiet, bodies, s.cond, own, env, env', mem, fuel);
    var t := Eval(p, s.cond, env, mem, fuel);
    if t.Some? && t.value.0 != 0 {
      PreserveS(p, quiet, bodies, s.body, own, env, env', t.value.1, fuel);
      var r, r' := Exec(p, s.body, env, t.value.1, fuel), Exec(p, InlineS(p, s.body, bodies), env', t.value.1, fuel);
      if r.Some? && r.value.Normal? && fuel > 0 {
        PreserveS(p, quiet, bodies, s, own, r.value.env, r'.value.env, r.value.mem, fuel - 1);
      }
    }
  }

  lemma {:induction false} DeclaredStays(p: Program, s: Stmt, bodies: map<Name, Stmt>)
    ensures Declared(InlineS(p, s, bodies)) == Declared(s)
  {
    match s
    case Then(s1, s2) =>
      DeclaredStays(p, s1, bodies);
      DeclaredStays(p, s2, bodies);
    case If(_, s1, s2) =>
      DeclaredStays(p, s1, bodies);
      DeclaredStays(p, s2, bodies);
    case While(_, body) => DeclaredStays(p, body, bodies);
    case _ =>
  }

  // ----------------------------------------------------------------- result

  // A function with all calls inlined, called as before.
  ghost function ApplyInlined(p: Program, bodies: map<Name, Stmt>, f: Name, values: seq<int>, mem: Mem, fuel: nat)
    : Option<(int, Mem)>
    requires f in p.funcs && f in bodies
  {
    if |values| != |p.funcs[f].params| then None
    else
      match Exec(p, bodies[f], Bound(p.funcs[f].params, values), mem, fuel)
      case None => None
      case Some(o) => Some(Result(o))
  }

  // For the same arguments and memory, every function gives the same value
  // and the same memory after inlining, or neither of them ends.
  lemma InliningPreservesMeaning(p: Program, quiet: set<Name>, bodies: map<Name, Stmt>, f: Name, values: seq<int>,
                                 mem: Mem, fuel: nat)
    requires GoodProgram(p, quiet) && Inlined(p, bodies) && f in p.funcs
    ensures ApplyInlined(p, bodies, f, values, mem, fuel) == Apply(p, f, values, mem, fuel)
  {
    var g := p.funcs[f];
    if |values| == |g.params| {
      var env := Bound(g.params, values);
      assert GoodFunc(p, quiet, f) && InlinedFunc(p, bodies, f);
      PreserveS(p, quiet, bodies, g.body, Own(g.params, g.body), env, env, mem, fuel);
    }
  }

  // The names have to differ: a parameter that is called like the argument
  // shadows it in its own initialiser, and the value is lost.
  function Clashing(builtin: (Name, seq<int>, Mem) -> (int, Mem)): Program {
    Program(map["f" := Func(["x"], Return(Get("x"))),
                "g" := Func(["x"], Return(Call("f", More(NoArgs, Get("x")))))], builtin)
  }

  lemma NameClash(builtin: (Name, seq<int>, Mem) -> (int, Mem), mem: Mem) returns (bodies: map<Name, Stmt>)
    ensures Inlined(Clashing(builtin), bodies)
    ensures Apply(Clashing(builtin), "g", [1], mem, 1) == Some((1, mem))
    ensures ApplyInlined(Clashing(builtin), bodies, "g", [1], mem, 1) == Some((0, mem))
  {
    var p := Clashing(builtin);
    var block := Block(["x"], More(NoArgs, Get("x")), Return(Get("x")));
    bodies := map["f" := Return(Get("x")), "g" := Return(block)];
    var env := Bound(["x"], [1]);
    assert env == map["x" := 1] by { assert ["x"][..0] == [] && [1][..0] == []; }
    ClashingText(p, block, bodies);
    ClashingCall(p, env, mem);
    ClashingBlock(p, block, env, mem);
  }

  lemma ClashingText(p: Program, block: Expr, bodies: map<Name, Stmt>)
    requires p == Clashing(p.builtin) && block == Block(["x"], More(NoArgs, Get("x")), Return(Get("x")))
    requires bodies == map["f" := Return(Get("x")), "g" := Return(block)]
    ensures Inlined(p, bodies)
  {
    var args := More(NoArgs, Get("x"));
    assert InlineArgs(p, NoArgs, bodies) == NoArgs;
    assert InlineArgs(p, args, bodies) == args;
    assert InlineE(p, Call("f", args), bodies) == block;
    assert InlinedFunc(p, bodies, "f") && InlinedFunc(p, bodies, "g");
    assert p.funcs.Keys == {"f", "g"} == bodies.Keys;
  }

  lemma ClashingCall(p: Program, env: Env, mem: Mem)
    requires p == Clashing(p.builtin) && env == map["x" := 1] == Bound(["x"], [1])
    ensures Eval(p, Call("f", More(NoArgs, Get("x"))), env, mem, 1) == Some((1, mem))
  {
    var args := More(NoArgs, Get("x"));
    assert EvalArgs(p, NoArgs, env, mem, 1) == Some(([], mem));
    assert EvalArgs(p, args, env, mem, 1) == Some(([1], mem)) by { assert [] + [1] == [1]; }
    assert Exec(p, Return(Get("x")), env, mem, 0) == Some(Returned(1, env, mem));
  }

  lemma ClashingBlock(p: Program, block: Expr, env: Env, mem: Mem)
    requires block == Block(["x"], More(NoArgs, Get("x")), Return(Get("x"))) && env == map["x" := 1]
    ensures Eval(p, block, env, mem, 1) == Some((0, mem))
  {
    var bound := env["x" := 0];
    assert Eval(p, Get("x"), env - {"x"}, mem, 1) == Some((0, mem));
    assert ["x"][..0] == [];
    assert BindArgs(p, [], NoArgs, bound, mem, 1) == Some((bound, mem));
    assert BindArgs(p, ["x"], block.args, env, mem, 1) == Some((bound, mem));
    assert Inside(["x"], block.body, bound) == bound;
    assert Exec(p, block.body, bound, mem, 0) == Some(Returned(0, bound, mem));
    assert SameOutside(env, bound, Own(["x"], block.body));
  }
}
