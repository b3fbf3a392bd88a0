/** Live variables of the kernel language, and the reason why a checkpoint may
    save less than the whole private memory: two runs that agree on the live
    variables cannot be told apart. */
module Liveness {
  import opened Kernel

  function Reads(e: Expr): set<Var> {
    match e
    case Lit(_) => {}
    case Self => {}
    case Ref(x) => {x}
    case Bin(_, l, r) => Reads(l) + Reads(r)
  }

  function Uses(p: Prim): set<Var> {
    match p
    case Decl(_) => {}
    case Assign(_, e) => Reads(e)
    case Load(_, _, a) => Reads(a)
    case Store(_, a, e) => Reads(a) + Reads(e)
    case Atomic(_, _, _, a, e) => Reads(a) + Reads(e)
  }

  function Defs(p: Prim): set<Var> {
    match p
    case Decl(x) => {x}
    case Assign(x, _) => {x}
    case Load(x, _, _) => {x}
    case Store(_, _, _) => {}
    case Atomic(x, _, _, _, _) => {x}
  }

  // Variables live before `s`, given those live after it, at the target of a
  // break, and at the target of a continue.  Nothing is live after a return.
  function Live(s: Stmt, after: set<Var>, brk: set<Var>, cnt: set<Var>): set<Var> {
    match s
    case Skip => after
    case Do(p) => (after - Defs(p)) + Uses(p)
    case Seq(s1, s2) => Live(s1, Live(s2, after, brk, cnt), brk, cnt)
    case Block(body) => Live(body, after, brk, cnt)
    case If(c, s1, s2) => Reads(c) + Live(s1, after, brk, cnt) + Live(s2, after, brk, cnt)
    case Loop(pre, c, inc, body) =>
      var test := Reads(c) + after + Live(body, Live(inc, {}, {}, {}), after, Live(inc, {}, {}, {}));
      if pre then test else Live(body, Live(inc, test, {}, {}), after, Live(inc, test, {}, {}))
    case Break => brk
    case Continue => cnt
    case Return => {}
    case Barrier(_) => after
    case Checkpoint(_, _) => after
    case Stop(_, _, _, _) => after
  }

  // Variables live where a loop tests its condition.
  function LiveTest(c: Expr, inc: Stmt, body: Stmt, after: set<Var>): set<Var> {
    Reads(c) + after + Live(body, Live(inc, {}, {}, {}), after, Live(inc, {}, {}, {}))
  }

  // Variables live when control falls through to `k`.
  function LiveK(k: Cont): set<Var> {
    match k
    case KStop => {}
    case KSeq(s, k') => Live(s, LiveK(k'), LiveBrk(k'), LiveCnt(k'))
    case KBody(c, inc, body, k') => Live(inc, LiveTest(c, inc, body, LiveK(k')), {}, {})
    case KTest(c, inc, body, k') => LiveTest(c, inc, body, LiveK(k'))
  }

  function LiveBrk(k: Cont): set<Var> {
    match k
    case KStop => {}
    case KSeq(_, k') => LiveBrk(k')
    case KBody(_, _, _, k') => LiveK(k')
    case KTest(_, _, _, _) => {}
  }

  function LiveCnt(k: Cont): set<Var> {
    match k
    case KStop => {}
    case KSeq(_, k') => LiveCnt(k')
    case KBody(c, inc, body, k') => Live(inc, LiveTest(c, inc, body, LiveK(k')), {}, {})
    case KTest(_, _, _, _) => {}
  }

  function LiveAt(s: Stmt, k: Cont): set<Var> {
    Live(s, LiveK(k), LiveBrk(k), LiveCnt(k))
  }

  // Liveness is monotone, and distributes over additions to what is live after.
  lemma {:induction false} LiveAdds(s: Stmt, after: set<Var>, brk: set<Var>, cnt: set<Var>,
                                    after': set<Var>, brk': set<Var>, cnt': set<Var>, more: set<Var>)
    requires after <= after' + more && brk <= brk' + more && cnt <= cnt' + more
    ensures Live(s, after, brk, cnt) <= Live(s, after', brk', cnt') + more
  {
    match s
    case Seq(s1, s2) =>
      LiveAdds(s2, after, brk, cnt, after', brk', cnt', more);
      LiveAdds(s1, Live(s2, after, brk, cnt), brk, cnt, Live(s2, after', brk', cnt'), brk', cnt', more);
    case Block(body) =>
      LiveAdds(body, after, brk, cnt, after', brk', cnt', more);
    case If(c, s1, s2) =>
      LiveAdds(s1, after, brk, cnt, after', brk', cnt', more);
      LiveAdds(s2, after, brk, cnt, after', brk', cnt', more);
    case Loop(pre, c, inc, body) =>
      var i0 := Live(inc, {}, {}, {});
      LiveAdds(body, i0, after, i0, i0, after', i0, more);
      var t, t' := LiveTest(c, inc, body, after), LiveTest(c, inc, body, after');
      LiveAdds(inc, t, {}, {}, t', {}, {}, more);
      LiveAdds(body, Live(inc, t, {}, {}), after, Live(inc, t, {}, {}),
               Live(inc, t', {}, {}), after', Live(inc, t', {}, {}), more);
    case _ =>
  }

  // What is live at the test is a solution of the loop's equation.
  lemma {:induction false} LoopEquation(c: Expr, inc: Stmt, body: Stmt, after: set<Var>)
    ensures var test := LiveTest(c, inc, body, after);
            var next := Live(inc, test, {}, {});
            test == Reads(c) + after + Live(body, next, after, next)
  {
    var test := LiveTest(c, inc, body, after);
    var i0, next := Live(inc, {}, {}, {}), Live(inc, test, {}, {});
    LiveAdds(inc, test, {}, {}, {}, {}, {}, test);
    LiveAdds(body, next, after, next, i0, after, i0, test);
    LiveAdds(inc, {}, {}, {}, test, {}, {}, {});
    LiveAdds(body, i0, after, i0, next, after, next, {});
  }

  lemma {:induction false} LiveJumps(k: Cont)
    ensures LiveK(BreakTo(k)) <= LiveBrk(k)
    ensures var (s', k') := ContinueTo(k); LiveAt(s', k') <= LiveCnt(k)
  {
    match k
    case KStop =>
    case KSeq(_, k') => LiveJumps(k');
    case KBody(_, _, _, _) =>
    case KTest(_, _, _, _) =>
  }

  // A control move needs no variable that was not live before it.
  lemma {:induction false} MoveLive(s: Stmt, k: Cont, taken: bool)
    requires Moves(s, k)
    ensures Reads(Cond(s, k)) <= LiveAt(s, k)
    ensures var (s', k') := Move(s, k, taken); LiveAt(s', k') <= LiveAt(s, k)
  {
    match s
    case Skip => if k.KTest? { LoopEquation(k.c, k.inc, k.body, LiveK(k.k)); }
    case Break => LiveJumps(k);
    case Continue => LiveJumps(k);
    case _ =>
  }

  // --------------------------------------------------------- indistinguishability

  ghost predicate Agree(e1: Env, e2: Env, on: set<Var>) {
    forall x | x in on :: Get(e1, x) == Get(e2, x)
  }

  lemma {:induction false} EvalAgree(e: Expr, id: int, e1: Env, e2: Env)
    requires Agree(e1, e2, Reads(e))
    ensures Eval(e, id, e1) == Eval(e, id, e2)
  {
    match e
    case Bin(f, l, r) => EvalAgree(l, id, e1, e2); EvalAgree(r, id, e1, e2);
    case _ =>
  }

  lemma {:induction false} RunPrimAgree(p: Prim, id: int, d1: Data, d2: Data, v: int, after: set<Var>)
    requires Agree(d1.env, d2.env, (after - Defs(p)) + Uses(p)) && d1.lm == d2.lm && d1.gm == d2.gm
    ensures var r1, r2 := RunPrim(p, id, d1, v), RunPrim(p, id, d2, v);
            Agree(r1.env, r2.env, after) && r1.lm == r2.lm && r1.gm == r2.gm
  {
    assert forall y | y in after && y !in Defs(p) :: Get(d1.env, y) == Get(d2.env, y);
    match p
    case Decl(_) =>
    case Assign(_, e) => EvalAgree(e, id, d1.env, d2.env);
    case Load(_, _, a) => EvalAgree(a, id, d1.env, d2.env);
    case Store(_, a, e) => EvalAgree(a, id, d1.env, d2.env); EvalAgree(e, id, d1.env, d2.env);
    case Atomic(_, _, _, a, e) => EvalAgree(a, id, d1.env, d2.env); EvalAgree(e, id, d1.env, d2.env);
  }

  // One step keeps two items indistinguishable: same program point after it,
  // same memories, and agreement on what is live there.
  lemma {:induction false} StepAgree(s: Stmt, k: Cont, id: int, d1: Data, d2: Data, v: int)
    requires Plain(s, k)
    requires Agree(d1.env, d2.env, LiveAt(s, k)) && d1.lm == d2.lm && d1.gm == d2.gm
    ensures var p1, p2 := PlainStep(s, k, id, d1, v), PlainStep(s, k, id, d2, v);
            && p1.s == p2.s && p1.k == p2.k && p1.d.lm == p2.d.lm && p1.d.gm == p2.d.gm
            && Agree(p1.d.env, p2.d.env, LiveAt(p1.s, p1.k))
  {
    if s.Do? {
      RunPrimAgree(s.p, id, d1, d2, v, LiveK(k));
    } else {
      var c := Cond(s, k);
      MoveLive(s, k, Eval(c, id, d1.env) != 0);
      EvalAgree(c, id, d1.env, d2.env);
    }
  }
}
