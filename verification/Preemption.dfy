/** What the timer does.  An item at a timer test is stopped there if and only if
    the timer has expired.  Once it has expired for good, every item leaves the
    slice after a number of steps that the text of the kernel bounds, unless it
    skips the tests with `continue`; and before it does, a kernel with uniform
    barriers is not interrupted at all. */
module Preemption {
  import opened Wrappers
  import opened Kernel
  import opened Liveness
  import opened Labels
  import opened Headers
  import opened Instrument
  import opened Simulation
  import opened Preservation
  import opened Rounds
  import opened Sums
  import opened Termination
  import opened TimerTests
  import O = Original
  import P = Protocol
  import S = Sliced

  // -------------------------------------------------------- one timer test

  // At a timer test an expired timer makes the item save what its label says
  // and leave, and otherwise the item stays in the kernel body, behind the test;
  // in every state that is reached and whatever the header was.
  lemma TimerDecides(src: Stmt, claim: nat -> set<Var>, params: set<Var>, words: nat, ost: O.Grid,
                     prv: Env, buf: nat -> seq<int>, evs: seq<S.Event>, st: S.Grid, g: nat, i: nat, v: int, timer: bool)
    requires Reached(src, claim, params, words, ost, prv, buf, evs, st)
    requires g < |st.groups| && i < |st.groups[g].items|
    requires st.groups[g].items[i].pc.Run? && st.groups[g].items[i].pc.s.Checkpoint?
    ensures var p := Compile(src, claim, params, words);
            var r := S.Exec(p, st, S.Act(g, i, v, timer));
            && r.Some? && |r.value.groups| == |st.groups| && |r.value.groups[g].items| == |st.groups[g].items|
            && var it, it' := st.groups[g].items[i], r.value.groups[g].items[i];
               var site := Find(it.pc.s.n, p.code, KStop);
               && site.Some? && it.pc.s.n >= 2
               && if timer then
                    it'.pc == S.Exit0 && it'.hdr == it.pc.s.n && it'.prv.Keys == site.value.save
                    && forall x | x in site.value.save :: it'.prv[x] == Get(it.env, x)
                  else it' == it.(pc := S.Run(Skip, site.value.k))
  {
    var p := Compile(src, claim, params, words);
    var ms, end := ReachedRel(src, claim, params, words, ost, prv, buf, evs, st);
    assert P.Inv(p, st.groups[g], ms[g]) && GroupRel(p, st.groups[g], end.groups[g]);
    assert ItemRel(p, st.groups[g].items[i], end.groups[g].items[i]);
    LabelHere(p, st.groups[g].items[i].pc.s, st.groups[g].items[i].pc.k);
    SiteAt(p, st.groups[g].items[i].pc.s.n);
  }

  // ------------------------------------------------------ an expired timer

  predicate NoContinue(s: Stmt) {
    match s
    case Seq(s1, s2) => NoContinue(s1) && NoContinue(s2)
    case Block(body) => NoContinue(body)
    case If(_, s1, s2) => NoContinue(s1) && NoContinue(s2)
    case Loop(_, _, inc, body) => NoContinue(inc) && NoContinue(body)
    case Continue => false
    case _ => true
  }

  predicate NoContinueK(k: Cont) {
    match k
    case KStop => true
    case KSeq(s, k') => NoContinue(s) && NoContinueK(k')
    case KBody(_, inc, body, k') => NoContinue(inc) && NoContinue(body) && NoContinueK(k')
    case KTest(_, inc, body, k') => NoContinue(inc) && NoContinue(body) && NoContinueK(k')
  }

  // Steps from a statement to what follows it, if every test on the way stops
  // the item.
  function Work(s: Stmt): nat {
    match s
    case Skip => 0
    case Seq(s1, s2) => Work(s1) + Work(s2) + 2
    case Block(body) => Work(body) + 1
    case If(_, s1, s2) => Work(s1) + Work(s2) + 1
    case Loop(_, _, inc, body) => Work(inc) + Work(body) + 5
    case Stop(_, _, _, _) => 2
    case _ => 1
  }

  // Steps that are left behind a statement.
  function WorkK(k: Cont): nat {
    match k
    case KStop => 1
    case KSeq(s, k') => Work(s) + WorkK(k') + 1
    case KBody(_, inc, body, k') => if EndsInTest(body) then WorkK(k') + 1 else Work(inc) + WorkK(k') + 2
    case KTest(_, _, body, k') => if EndsInTest(body) then Work(body) + WorkK(k') + 2 else WorkK(k') + 1
  }

  // Steps left for an item in the kernel body, which may be in front of the next
  // round of a tested loop.
  function Left(s: Stmt, k: Cont): nat {
    if s.Skip? && Tested(k) then Work(k.inc) + WorkK(KTest(k.c, k.inc, k.body, k.k)) + 1 else Work(s) + WorkK(k)
  }

  lemma {:induction false} BreakLeaves(k: Cont)
    requires FitsK(k)
    ensures 1 <= WorkK(BreakTo(k)) <= WorkK(k)
  {
    match k
    case KSeq(_, k') => BreakLeaves(k');
    case KBody(_, _, _, k') => WorkLeft(k');
    case KTest(_, _, _, k') => WorkLeft(k');
    case KStop =>
  }

  lemma {:induction false} WorkLeft(k: Cont)
    ensures WorkK(k) >= 1
  {
    match k
    case KSeq(_, k') => WorkLeft(k');
    case KBody(_, _, _, k') => WorkLeft(k');
    case KTest(_, _, _, k') => WorkLeft(k');
    case KStop =>
  }

  lemma {:induction false} NoContinueJumps(k: Cont)
    requires NoContinueK(k)
    ensures NoContinueK(BreakTo(k))
  {
    match k
    case KSeq(_, k') => NoContinueJumps(k');
    case _ =>
  }

  // Every control move uses up one of these steps.
  lemma {:induction false} MoveLowers(s: Stmt, k: Cont, id: int, env: Env)
    requires Moves(s, k) && Fits(s, k) && NoContinue(s) && NoContinueK(k)
    ensures var (s', k') := Move(s, k, Eval(Cond(s, k), id, env) != 0);
            Left(s', k') < Left(s, k) && NoContinue(s') && NoContinueK(k')
  {
    MoveFits(s, k, Eval(Cond(s, k), id, env) != 0);
    WorkLeft(k);
    match s
    case Break => BreakLeaves(k); NoContinueJumps(k);
    case _ =>
  }

  // Steps that an item can still take in this slice when every test stops it:
  // those in the kernel body, ...
  function Budget(pc: S.Pc): nat {
    match pc
    case Run(s, k) => Left(s, k)
    case Stop1(gate) => WorkK(gate.k) + 1
    case Past1(gate) => WorkK(gate.k) + 1
    case Stop2(gate, _) => WorkK(gate.k) + 1
    case Past2(gate, _) => WorkK(gate.k) + 1
    case Pause(gate) => WorkK(gate.k) + 1
    case _ => 0
  }

  ghost predicate PcGoes(pc: S.Pc) {
    && PcFits(pc)
    && match pc
       case Run(s, k) => NoContinue(s) && NoContinueK(k)
       case Stop1(gate) => NoContinueK(gate.k)
       case Past1(gate) => NoContinueK(gate.k)
       case Stop2(gate, _) => NoContinueK(gate.k)
       case Past2(gate, _) => NoContinueK(gate.k)
       case Pause(gate) => NoContinueK(gate.k)
       case _ => true
  }

  // ... each of which may be followed by some more inside the protocols.
  function Weight(pc: S.Pc): nat {
    14 * Budget(pc) + Rank(pc)
  }

  lemma RunLowers(p: S.Program, gr: S.Group, gm: map<int, int>, i: nat, v: int)
    requires i < |gr.items| && gr.items[i].pc.Run? && S.CanAct(gr.items[i].pc) && PcGoes(gr.items[i].pc)
    requires S.WellFormed(p, gr)
    ensures var gr' := S.ActRun(gr, gm, i, v, true).0;
            && gr'.items == gr.items[i := gr'.items[i]] && PcGoes(gr'.items[i].pc)
            && Budget(gr'.items[i].pc) < Budget(gr.items[i].pc)
  {
    var pc := gr.items[i].pc;
    WorkLeft(pc.k);
    if Moves(pc.s, pc.k) { MovesOn(gr, gm, i, v); }
  }

  lemma MovesOn(gr: S.Group, gm: map<int, int>, i: nat, v: int)
    requires i < |gr.items| && gr.items[i].pc.Run? && PcGoes(gr.items[i].pc)
    requires Moves(gr.items[i].pc.s, gr.items[i].pc.k)
    ensures var it, gr' := gr.items[i], S.ActRun(gr, gm, i, v, true).0;
            && gr'.items == gr.items[i := gr'.items[i]] && gr'.items[i].pc.Run? && PcGoes(gr'.items[i].pc)
            && Budget(gr'.items[i].pc) < Budget(it.pc)
  {
    var it := gr.items[i];
    MoveFits(it.pc.s, it.pc.k, Eval(Cond(it.pc.s, it.pc.k), it.id, it.env) != 0);
    MoveLowers(it.pc.s, it.pc.k, it.id, it.env);
  }

  lemma ProtocolLowers(p: S.Program, gr: S.Group, i: nat)
    requires i < |gr.items| && !gr.items[i].pc.Run? && S.CanAct(gr.items[i].pc) && PcGoes(gr.items[i].pc)
    requires S.WellFormed(p, gr)
    ensures var gr' := S.ActProtocol(p, gr, i);
            && gr'.items == gr.items[i := gr'.items[i]] && PcGoes(gr'.items[i].pc)
            && Budget(gr'.items[i].pc) <= Budget(gr.items[i].pc) && Weight(gr'.items[i].pc) < Weight(gr.items[i].pc)
  {
  }

  lemma PastLowers(pc: S.Pc)
    requires PcGoes(pc)
    ensures PcGoes(S.Past(pc)) && Budget(S.Past(pc)) <= Budget(pc)
    ensures if S.Waiting(pc) then Weight(S.Past(pc)) < Weight(pc) else S.Past(pc) == pc
  {
  }

  lemma RankBound(pc: S.Pc)
    ensures Rank(pc) <= 13
  {
  }

  ghost predicate GridGoes(st: S.Grid) {
    forall g, i | 0 <= g < |st.groups| && 0 <= i < |st.groups[g].items| :: PcGoes(st.groups[g].items[i].pc)
  }

  function Weights(gr: S.Group): (ns: seq<nat>)
    ensures |ns| == |gr.items|
  {
    seq(|gr.items|, i requires 0 <= i < |gr.items| => Weight(gr.items[i].pc))
  }

  function GridWeights(st: S.Grid): (ns: seq<nat>)
    ensures |ns| == |st.groups|
  {
    seq(|st.groups|, g requires 0 <= g < |st.groups| => Sum(Weights(st.groups[g])))
  }

  // The slice goes on, and every timer test finds the timer expired.
  predicate Expired(evs: seq<S.Event>) {
    forall e | 0 <= e < |evs| :: !evs[e].Relaunch? && (evs[e].Act? ==> evs[e].timer)
  }

  lemma ActEnds(p: S.Program, st: S.Grid, ev: S.Event)
    requires S.Exec(p, st, ev).Some? && ev.Act? && ev.timer && GridGoes(st)
    ensures var st' := S.Exec(p, st, ev).value;
            && |st'.groups| == |st.groups| && st'.groups == st.groups[ev.g := st'.groups[ev.g]]
            && var gr, gr' := st.groups[ev.g], st'.groups[ev.g];
               && |gr'.items| == |gr.items| && gr'.items == gr.items[ev.i := gr'.items[ev.i]]
               && PcGoes(gr'.items[ev.i].pc) && Weight(gr'.items[ev.i].pc) < Weight(gr.items[ev.i].pc)
               && Budget(gr'.items[ev.i].pc) + (if gr.items[ev.i].pc.Run? then 1 else 0) <= Budget(gr.items[ev.i].pc)
  {
    var gr := st.groups[ev.g];
    assert PcGoes(gr.items[ev.i].pc);
    if gr.items[ev.i].pc.Run? {
      RunLowers(p, gr, st.gm, ev.i, ev.v);
      RankBound(S.ActRun(gr, st.gm, ev.i, ev.v, true).0.items[ev.i].pc);
    } else {
      ProtocolLowers(p, gr, ev.i);
    }
  }

  lemma ReleaseEnds(gr: S.Group)
    requires S.CanRelease(gr) && forall i | 0 <= i < |gr.items| :: PcGoes(gr.items[i].pc)
    ensures Sum(Weights(S.Pass(gr))) < Sum(Weights(gr))
    ensures forall i | 0 <= i < |gr.items| ::
              PcGoes(S.Pass(gr).items[i].pc) && Budget(S.Pass(gr).items[i].pc) <= Budget(gr.items[i].pc)
  {
    forall i | 0 <= i < |gr.items|
      ensures PcGoes(S.Pass(gr).items[i].pc) && Budget(S.Pass(gr).items[i].pc) <= Budget(gr.items[i].pc)
      ensures Weights(S.Pass(gr))[i] <= Weights(gr)[i]
      ensures S.Waiting(gr.items[i].pc) ==> Weights(S.Pass(gr))[i] < Weights(gr)[i]
    {
      PastLowers(gr.items[i].pc);
    }
    var w :| 0 <= w < |gr.items| && S.Waiting(gr.items[w].pc);
    assert Weights(S.Pass(gr))[w] < Weights(gr)[w];
    SumLess(Weights(S.Pass(gr)), Weights(gr));
  }

  // Every event brings the end of the slice nearer.
  lemma EventEnds(p: S.Program, st: S.Grid, ev: S.Event)
    requires S.Exec(p, st, ev).Some? && Expired([ev]) && GridGoes(st)
    ensures GridGoes(S.Exec(p, st, ev).value)
    ensures Sum(GridWeights(S.Exec(p, st, ev).value)) < Sum(GridWeights(st))
  {
    assert [ev][0] == ev;
    var st' := S.Exec(p, st, ev).value;
    var g := ev.g;
    var gr, gr' := st.groups[g], st'.groups[g];
    if ev.Act? {
      ActEnds(p, st, ev);
      assert Weights(gr') == Weights(gr)[ev.i := Weight(gr'.items[ev.i].pc)];
      SumUpdate(Weights(gr), ev.i, Weight(gr'.items[ev.i].pc));
    } else {
      ReleaseEnds(gr);
    }
    assert GridWeights(st') == GridWeights(st)[g := Sum(Weights(gr'))];
    SumUpdate(GridWeights(st), g, Sum(Weights(gr')));
  }

  lemma {:induction false} RunEnds(p: S.Program, st: S.Grid, evs: seq<S.Event>)
    requires S.ExecAll(p, st, evs).Some? && Expired(evs) && GridGoes(st)
    ensures |evs| <= Sum(GridWeights(st)) && GridGoes(S.ExecAll(p, st, evs).value)
    decreases |evs|
  {
    if evs != [] {
      assert [evs[0]][0] == evs[0];
      EventEnds(p, st, evs[0]);
      assert forall e | 0 <= e < |evs[1..]| :: evs[1..][e] == evs[e + 1];
      RunEnds(p, S.Exec(p, st, evs[0]).value, evs[1..]);
    }
  }

  // ------------------------------------------------------- the text's bound

  // At every label no more steps are left than in the whole text.
  lemma {:induction false} SiteBudget(n: nat, s: Stmt, k: Cont)
    requires Find(n, s, k).Some?
    ensures var k' := Find(n, s, k).value.k; k' == k || Left(Skip, k') <= Work(s) + WorkK(k)
  {
    match s
    case Seq(s1, s2) =>
      if Find(n, s1, KSeq(s2, k)).Some? { SiteBudget(n, s1, KSeq(s2, k)); } else { SiteBudget(n, s2, k); }
    case Block(body) => SiteBudget(n, body, k);
    case If(_, s1, s2) => if Find(n, s1, k).Some? { SiteBudget(n, s1, k); } else { SiteBudget(n, s2, k); }
    case Loop(_, c, inc, body) => SiteBudget(n, body, KBody(c, inc, body, k));
    case _ =>
  }

  lemma {:induction false} SiteGoes(n: nat, s: Stmt, k: Cont)
    requires Find(n, s, k).Some? && NoContinue(s) && NoContinueK(k)
    ensures NoContinueK(Find(n, s, k).value.k)
  {
    match s
    case Seq(s1, s2) => if Find(n, s1, KSeq(s2, k)).Some? { SiteGoes(n, s1, KSeq(s2, k)); } else { SiteGoes(n, s2, k); }
    case Block(body) => SiteGoes(n, body, k);
    case If(_, s1, s2) => if Find(n, s1, k).Some? { SiteGoes(n, s1, k); } else { SiteGoes(n, s2, k); }
    case Loop(_, c, inc, body) => SiteGoes(n, body, KBody(c, inc, body, k));
    case _ =>
  }

  lemma {:induction false} InstrGoes(s: Stmt, st: State, claim: nat -> set<Var>)
    requires Source(s) && NoContinue(s)
    ensures NoContinue(Instr(s, st, claim).0)
  {
    match s
    case Seq(s1, s2) => InstrGoes(s1, st, claim); InstrGoes(s2, Instr(s1, st, claim).1, claim);
    case Block(body) => InstrGoes(body, st.(scope := st.scope + 1), claim);
    case If(_, s1, s2) => InstrGoes(s1, st, claim); InstrGoes(s2, Instr(s1, st, claim).1, claim);
    case Loop(_, _, _, body) =>
      InstrGoes(body, st, claim);
      var (t, st1) := Instr(body, st, claim);
      AtEndGoes(t, Checkpoint(st1.nonce + 1, st1.tracker.Keys * claim(st1.nonce + 1)));
    case _ =>
  }

  lemma AtEndGoes(body: Stmt, test: Stmt)
    requires test.Checkpoint? && NoContinue(body)
    ensures NoContinue(AtEnd(body, test))
  {
    if body.Block? { assert NoContinue(Seq(body.body, test)); }
  }

  // Steps in the kernel body that an item can take once the timer has expired.
  function TextBound(p: S.Program): nat {
    Work(p.code) + 1
  }

  ghost predicate PcBounded(p: S.Program, pc: S.Pc) {
    PcGoes(pc) && Budget(pc) <= TextBound(p)
  }

  ghost predicate Bounded(p: S.Program, st: S.Grid) {
    forall g, i | 0 <= g < |st.groups| && 0 <= i < |st.groups[g].items| :: PcBounded(p, st.groups[g].items[i].pc)
  }

  ghost predicate Tame(p: S.Program) {
    LoopsTested(p.code) && !EndsInTest(p.code) && NoContinue(p.code)
  }

  // Behind a label an item has no more steps left than the text.
  lemma SiteBounded(p: S.Program, n: nat)
    requires Tame(p) && Find(n, p.code, KStop).Some?
    ensures var k := Find(n, p.code, KStop).value.k;
            FitsK(k) && NoContinueK(k) && Left(Skip, k) <= TextBound(p)
  {
    FindFits(n, p.code, KStop);
    SiteBudget(n, p.code, KStop);
    SiteGoes(n, p.code, KStop);
  }

  lemma EnterBounded(p: S.Program, it: S.Item, hdr: int, junk: Env)
    requires Tame(p)
    ensures PcBounded(p, S.Enter(p, it, hdr, junk).pc)
  {
    if hdr > 1 && Find(hdr, p.code, KStop).Some? { SiteBounded(p, hdr); }
  }

  // A test that is passed leads behind its label.
  lemma TestBounded(p: S.Program, gr: S.Group, og: O.Group, gm: map<int, int>, i: nat, v: int, timer: bool)
    requires Tame(p) && Shaped(p) && GroupRel(p, gr, og) && S.WellFormed(p, gr)
    requires i < |gr.items| && gr.items[i].pc.Run? && S.CanAct(gr.items[i].pc) && PcBounded(p, gr.items[i].pc)
    ensures var gr' := S.ActRun(gr, gm, i, v, timer).0;
            gr'.items == gr.items[i := gr'.items[i]] && PcBounded(p, gr'.items[i].pc)
  {
    var s, k := gr.items[i].pc.s, gr.items[i].pc.k;
    if s.Checkpoint? {
      assert ItemRel(p, gr.items[i], og.items[i]);
      LabelHere(p, s, k);
      SiteBounded(p, s.n);
    } else {
      RunLowers(p, gr, gm, i, v);
    }
  }

  lemma ActBounded(p: S.Program, st: S.Grid, ev: S.Event, ms: seq<P.Mode>, ost: O.Grid)
    requires Tame(p) && Shaped(p) && Rel(p, st, ms, ost) && S.Exec(p, st, ev).Some? && Bounded(p, st) && ev.Act?
    ensures var st' := S.Exec(p, st, ev).value;
            && st'.groups == st.groups[ev.g := st'.groups[ev.g]]
            && st'.groups[ev.g].items == st.groups[ev.g].items[ev.i := st'.groups[ev.g].items[ev.i]]
            && PcBounded(p, st'.groups[ev.g].items[ev.i].pc)
  {
    var gr := st.groups[ev.g];
    assert GroupRel(p, gr, ost.groups[ev.g]) && PcBounded(p, gr.items[ev.i].pc);
    if gr.items[ev.i].pc.Run? { TestBounded(p, gr, ost.groups[ev.g], st.gm, ev.i, ev.v, ev.timer); }
    else { ProtocolLowers(p, gr, ev.i); }
  }

  lemma EventBounded(p: S.Program, st: S.Grid, ev: S.Event, ms: seq<P.Mode>, ost: O.Grid)
    requires Tame(p) && Shaped(p) && Rel(p, st, ms, ost) && S.Exec(p, st, ev).Some? && Bounded(p, st)
    ensures Bounded(p, S.Exec(p, st, ev).value)
  {
    var st' := S.Exec(p, st, ev).value;
    SizesStay(p, st, ev);
    if ev.Act? { ActBounded(p, st, ev, ms, ost); }
    forall g, i | 0 <= g < |st'.groups| && 0 <= i < |st'.groups[g].items|
      ensures PcBounded(p, st'.groups[g].items[i].pc)
    {
      assert PcBounded(p, st.groups[g].items[i].pc);
      match ev
      case Act(_, _, _, _) =>
      case Release(_) => PastLowers(st.groups[g].items[i].pc);
      case Relaunch(env, _) =>
        var gr := st.groups[g];
        EnterBounded(p, gr.items[i], Released(S.HeadersOf(gr))[i], env(gr.items[i].id));
    }
  }

  lemma {:induction false} RunBounded(p: S.Program, st: S.Grid, evs: seq<S.Event>, ms: seq<P.Mode>, ost: O.Grid)
    requires Tame(p) && Sound(p) && Rel(p, st, ms, ost) && S.ExecAll(p, st, evs).Some? && Bounded(p, st)
    ensures Bounded(p, S.ExecAll(p, st, evs).value)
    decreases |evs|
  {
    if evs != [] {
      EventBounded(p, st, evs[0], ms, ost);
      SimStep(p, st, evs[0], ms, ost);
      RunBounded(p, S.Exec(p, st, evs[0]).value, evs[1..], Modes(st, ms, evs[0]),
                 O.ExecAll(ost, Meaning(st, ms, evs[0])).value);
    }
  }

  // In every state of every run an item has fewer steps left in this slice than
  // the text of the kernel has.
  lemma ReachedBounded(src: Stmt, claim: nat -> set<Var>, params: set<Var>, words: nat, ost: O.Grid,
                       prv: Env, buf: nat -> seq<int>, evs: seq<S.Event>, st: S.Grid)
    requires Reached(src, claim, params, words, ost, prv, buf, evs, st) && NoContinue(src)
    ensures var p := Compile(src, claim, params, words); Tame(p) && Bounded(p, st)
  {
    var p := Compile(src, claim, params, words);
    var start := Launch(p, ost, prv, buf);
    InstrTests(src, Start(params), claim);
    InstrGoes(src, Start(params), claim);
    CompileSound(src, claim, params, words);
    LaunchRel(p, ost, prv, buf);
    forall g, i | 0 <= g < |start.groups| && 0 <= i < |start.groups[g].items|
      ensures PcBounded(p, start.groups[g].items[i].pc)
    {
      StartsFresh(p, ost.groups[g], prv, buf(g), _ => map[]);
    }
    RunBounded(p, start, evs, AllWork(|ost.groups|), ost);
  }

  // Steps that item i of group g takes in the kernel body.
  function BodySteps(p: S.Program, st: S.Grid, evs: seq<S.Event>, g: nat, i: nat): nat
    decreases |evs|
  {
    if evs == [] || S.Exec(p, st, evs[0]).None? then 0
    else
      var ev := evs[0];
      (if ev.Act? && ev.g == g && ev.i == i && g < |st.groups| && i < |st.groups[g].items|
          && st.groups[g].items[i].pc.Run? then 1 else 0)
      + BodySteps(p, S.Exec(p, st, ev).value, evs[1..], g, i)
  }

  lemma EventSteps(p: S.Program, st: S.Grid, ev: S.Event, g: nat, i: nat)
    requires S.Exec(p, st, ev).Some? && Expired([ev]) && GridGoes(st)
    requires g < |st.groups| && i < |st.groups[g].items|
    ensures var st' := S.Exec(p, st, ev).value;
            && g < |st'.groups| && i < |st'.groups[g].items|
            && Budget(st'.groups[g].items[i].pc)
               + (if ev.Act? && ev.g == g && ev.i == i && st.groups[g].items[i].pc.Run? then 1 else 0)
               <= Budget(st.groups[g].items[i].pc)
  {
    assert [ev][0] == ev && PcGoes(st.groups[g].items[i].pc);
    if ev.Act? {
      ActEnds(p, st, ev);
    } else if ev.g == g {
      PastLowers(st.groups[g].items[i].pc);
    }
  }

  lemma {:induction false} StepsBound(p: S.Program, st: S.Grid, evs: seq<S.Event>, g: nat, i: nat)
    requires S.ExecAll(p, st, evs).Some? && Expired(evs) && GridGoes(st)
    requires g < |st.groups| && i < |st.groups[g].items|
    ensures BodySteps(p, st, evs, g, i) <= Budget(st.groups[g].items[i].pc)
    decreases |evs|
  {
    if evs != [] {
      assert [evs[0]][0] == evs[0];
      EventSteps(p, st, evs[0], g, i);
      EventEnds(p, st, evs[0]);
      assert forall e | 0 <= e < |evs[1..]| :: evs[1..][e] == evs[e + 1];
      StepsBound(p, S.Exec(p, st, evs[0]).value, evs[1..], g, i);
    }
  }

  lemma WeightsBound(p: S.Program, st: S.Grid)
    requires Bounded(p, st)
    ensures Sum(GridWeights(st)) <= (14 * TextBound(p) + 13) * Size(st)
  {
    var most := 14 * TextBound(p) + 13;
    forall g | 0 <= g < |st.groups| ensures GridWeights(st)[g] <= most * ItemCounts(st)[g] {
      forall i | 0 <= i < |st.groups[g].items| ensures Weights(st.groups[g])[i] <= most {
        assert PcBounded(p, st.groups[g].items[i].pc);
        RankBound(st.groups[g].items[i].pc);
      }
      SumBound(Weights(st.groups[g]), most);
    }
    SumScaled(GridWeights(st), ItemCounts(st), most);
  }

  // From `st` on, each item takes at most as many steps in the kernel body as the
  // text has, the slice is bounded, and it goes on until all have left.
  ghost predicate EndsBy(p: S.Program, st: S.Grid, more: seq<S.Event>, st': S.Grid) {
    && (forall g, i | 0 <= g < |st.groups| && 0 <= i < |st.groups[g].items| ::
          BodySteps(p, st, more, g, i) <= TextBound(p))
    && |more| <= (14 * TextBound(p) + 13) * Size(st)
    && ((forall g | 0 <= g < |st'.groups| :: S.AllGone(st'.groups[g]))
        || exists ev :: Expired([ev]) && S.Exec(p, st', ev).Some?)
  }

  /** Once the timer has expired for good, a slice of a kernel without `continue`
      ends: each item takes at most as many steps in the kernel body as the text
      has, the whole slice is bounded, and it goes on until all have left.
      `ContinueEscapes` shows what happens with `continue`. */
  lemma ExpiredSliceEnds(src: Stmt, claim: nat -> set<Var>, params: set<Var>, words: nat, ost: O.Grid,
                         prv: Env, buf: nat -> seq<int>, evs: seq<S.Event>, st: S.Grid, more: seq<S.Event>, st': S.Grid)
    requires Reached(src, claim, params, words, ost, prv, buf, evs, st) && NoContinue(src)
    requires Expired(more) && S.ExecAll(Compile(src, claim, params, words), st, more) == Some(st')
    ensures EndsBy(Compile(src, claim, params, words), st, more, st')
  {
    var ms, end := ReachedStands(src, claim, params, words, ost, prv, buf, evs, st);
    EndsSoon(Compile(src, claim, params, words), st, more, ms, end);
  }

  lemma ReachedStands(src: Stmt, claim: nat -> set<Var>, params: set<Var>, words: nat, ost: O.Grid,
                      prv: Env, buf: nat -> seq<int>, evs: seq<S.Event>, st: S.Grid)
    returns (ms: seq<P.Mode>, end: O.Grid)
    requires Reached(src, claim, params, words, ost, prv, buf, evs, st) && NoContinue(src)
    ensures var p := Compile(src, claim, params, words); Sound(p) && Rel(p, st, ms, end) && Bounded(p, st)
  {
    ReachedBounded(src, claim, params, words, ost, prv, buf, evs, st);
    ms, end := ReachedRel(src, claim, params, words, ost, prv, buf, evs, st);
  }

  lemma EndsSoon(p: S.Program, st: S.Grid, more: seq<S.Event>, ms: seq<P.Mode>, ost: O.Grid)
    requires Sound(p) && Rel(p, st, ms, ost) && Bounded(p, st) && Expired(more) && S.ExecAll(p, st, more).Some?
    ensures EndsBy(p, st, more, S.ExecAll(p, st, more).value)
  {
    BoundedEnds(p, st, more);
    AfterMore(p, st, more, ms, ost);
  }

  lemma BoundedEnds(p: S.Program, st: S.Grid, more: seq<S.Event>)
    requires Bounded(p, st) && Expired(more) && S.ExecAll(p, st, more).Some?
    ensures forall g, i | 0 <= g < |st.groups| && 0 <= i < |st.groups[g].items| ::
              BodySteps(p, st, more, g, i) <= TextBound(p)
    ensures |more| <= (14 * TextBound(p) + 13) * Size(st)
  {
    forall g, i | 0 <= g < |st.groups| && 0 <= i < |st.groups[g].items| ensures PcGoes(st.groups[g].items[i].pc) {
      assert PcBounded(p, st.groups[g].items[i].pc);
    }
    forall g, i | 0 <= g < |st.groups| && 0 <= i < |st.groups[g].items|
      ensures BodySteps(p, st, more, g, i) <= TextBound(p)
    {
      assert PcBounded(p, st.groups[g].items[i].pc);
      StepsBound(p, st, more, g, i);
    }
    RunEnds(p, st, more);
    WeightsBound(p, st);
  }

  lemma AfterMore(p: S.Program, st: S.Grid, more: seq<S.Event>, ms: seq<P.Mode>, ost: O.Grid)
    requires Sound(p) && Rel(p, st, ms, ost) && S.ExecAll(p, st, more).Some?
    ensures var st' := S.ExecAll(p, st, more).value;
            (forall g | 0 <= g < |st'.groups| :: S.AllGone(st'.groups[g]))
            || exists ev :: Expired([ev]) && S.Exec(p, st', ev).Some?
  {
    Simulates(p, st, more, ms, ost);
    var (oevs, ms') := Trace(p, st, ms, more);
    SliceGoesOn(p, S.ExecAll(p, st, more).value, ms', O.ExecAll(ost, oevs).value);
  }

  lemma SliceGoesOn(p: S.Program, st: S.Grid, ms: seq<P.Mode>, ost: O.Grid)
    requires Sound(p) && Rel(p, st, ms, ost)
    ensures (forall g | 0 <= g < |st.groups| :: S.AllGone(st.groups[g]))
            || exists ev :: Expired([ev]) && S.Exec(p, st, ev).Some?
  {
    if g :| 0 <= g < |st.groups| && !S.AllGone(st.groups[g]) {
      assert GroupRel(p, st.groups[g], ost.groups[g]) && P.Inv(p, st.groups[g], ms[g]);
      GroupGoesOn(p, st.groups[g], ost.groups[g]);
      var ev;
      if S.CanRelease(st.groups[g]) {
        ev := S.Release(g);
      } else {
        var i :| 0 <= i < |st.groups[g].items| && S.CanAct(st.groups[g].items[i].pc);
        ev := S.Act(g, i, 0, true);
      }
      assert Expired([ev]) && S.Exec(p, st, ev).Some?;
    }
  }

  // --------------------------------------------- a loop that skips its test

  // kernel() { while (1) { continue; } }
  function Skipping(): Stmt { Loop(true, Lit(1), Skip, Block(Continue)) }

  // Its body once the test has been put at its end.
  function Skipped(): Stmt { Block(Seq(Continue, Checkpoint(2, {}))) }

  function Forever(): S.Program { S.Program(Loop(true, Lit(1), Skip, Skipped()), 0, 0) }

  function Single(): O.Grid { O.Grid([O.Group([O.Item(0, Skipping(), KStop, map[])], [])], map[]) }

  // Its only item, at this point of the text.
  function At(s: Stmt, k: Cont): S.Grid {
    S.Grid([S.Group([S.Item(0, S.Run(s, k), map[], 1, map[])], [], [], [], 1)], map[])
  }

  function Top(): S.Grid { At(Skip, KTest(Lit(1), Skip, Skipped(), KStop)) }

  lemma EmitsForever(claim: nat -> set<Var>)
    requires forall n :: claim(n) == {}
    ensures Compile(Skipping(), claim, {}, 0) == Forever() && Accepted(Skipping(), claim, {})
    ensures Launch(Forever(), Single(), map[], _ => []) == At(Forever().code, KStop)
  {
    var none: set<Var> := {};
    assert forall st: State :: st.tracker.Keys * none == {};
    assert Instr(Continue, Start({}).(scope := 1), claim).0 == Continue;
    assert Instr(Block(Continue), Start({}), claim).0 == Block(Continue);
    assert Compile(Skipping(), claim, {}, 0) == Forever();
    var k := KBody(Lit(1), Skip, Skipped(), KStop);
    forall n | n in LabelsOf(Forever().code)
      ensures Find(n, Forever().code, KStop).Some? && LiveK(EraseK(Find(n, Forever().code, KStop).value.k)) <= claim(n)
    {
      assert Find(2, Continue, KSeq(Checkpoint(2, {}), k)) == None;
      assert Find(2, Skipped(), k) == Find(2, Seq(Continue, Checkpoint(2, {})), k) == Some(Resume({}, k));
      assert Erase(Skipped()) == Block(Seq(Continue, Skip)) || Erase(Skipped()) == Block(Continue);
    }
    LaunchesAt(Forever());
  }

  lemma LaunchesAt(p: S.Program)
    requires p == Forever()
    ensures Launch(p, Single(), map[], _ => []) == At(p.code, KStop)
  {
    var gr := LaunchGroup(p, Single().groups[0], map[], []);
    StartsFresh(p, Single().groups[0], map[], [], _ => map[]);
    assert gr.items == At(p.code, KStop).groups[0].items && gr.stops == [];
    assert Launch(p, Single(), map[], _ => []).groups == [gr];
  }

  lemma Rotates(s: Stmt, k: Cont, s': Stmt, k': Cont)
    requires Moves(s, k) && Move(s, k, Eval(Cond(s, k), 0, map[]) != 0) == (s', k')
    ensures S.Exec(Forever(), At(s, k), S.Act(0, 0, 0, true)) == Some(At(s', k'))
  {
    var gr := At(s, k).groups[0];
    var gr', gm' := S.ActRun(gr, map[], 0, 0, true).0, S.ActRun(gr, map[], 0, 0, true).1;
    assert gr'.items == At(s', k').groups[0].items && gr' == At(s', k').groups[0] && gm' == map[];
    assert S.WellFormed(Forever(), gr) && S.CanAct(gr.items[0].pc);
    assert At(s, k).groups[0 := gr'] == At(s', k').groups;
  }

  lemma Leads(s: Stmt, k: Cont, s': Stmt, k': Cont, n: nat, end: S.Grid)
    requires Moves(s, k) && Move(s, k, Eval(Cond(s, k), 0, map[]) != 0) == (s', k')
    requires S.ExecAll(Forever(), At(s', k'), Times(n)) == Some(end)
    ensures S.ExecAll(Forever(), At(s, k), Times(n + 1)) == Some(end)
  {
    Rotates(s, k, s', k');
    assert Times(n + 1)[1..] == Times(n) && Times(n + 1)[0] == S.Act(0, 0, 0, true);
  }

  function Times(n: nat): (evs: seq<S.Event>)
    ensures |evs| == n && Expired(evs)
  {
    seq(n, _ => S.Act(0, 0, 0, true))
  }

  lemma {:induction false} GoesRound(n: nat)
    ensures S.ExecAll(Forever(), Top(), Times(4 * n)) == Some(Top())
  {
    if n > 0 {
      var k := KBody(Lit(1), Skip, Skipped(), KStop);
      var test := Checkpoint(2, {});
      var top := KTest(Lit(1), Skip, Skipped(), KStop);
      GoesRound(n - 1);
      Leads(Continue, KSeq(test, k), Skip, top, 4 * n - 4, Top());
      Leads(Seq(Continue, test), k, Continue, KSeq(test, k), 4 * n - 3, Top());
      Leads(Skipped(), k, Seq(Continue, test), k, 4 * n - 2, Top());
      Leads(Skip, top, Skipped(), k, 4 * n - 1, Top());
    }
  }

  // Without that condition the slice need not end: a `continue` jumps over the
  // test, and the item goes round the loop for ever although the timer has
  // expired.
  lemma ContinueEscapes(n: nat) returns (claim: nat -> set<Var>, evs: seq<S.Event>, st: S.Grid)
    ensures Reached(Skipping(), claim, {}, 0, Single(), map[], _ => [], evs, st) && !NoContinue(Skipping())
    ensures exists more :: |more| >= n && Expired(more)
              && S.ExecAll(Compile(Skipping(), claim, {}, 0), st, more) == Some(st)
  {
    claim, evs, st := _ => {}, [S.Act(0, 0, 0, true)], Top();
    EmitsForever(claim);
    Rotates(Forever().code, KStop, Skip, KTest(Lit(1), Skip, Skipped(), KStop));
    assert S.ExecAll(Forever(), Top(), evs[1..]) == Some(Top());
    GoesRound(n);
  }
}
