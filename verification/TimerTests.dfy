/** Which loops are tested.  A loop gets a timer test at the end of its body
    unless its condition is known to be 0, and an item that falls off the end of
    such a body has just been tested. */
module TimerTests {
  import opened Wrappers
  import opened Kernel
  import opened Labels
  import opened Headers
  import opened Instrument
  import opened Preservation
  import opened Rounds
  import O = Original
  import S = Sliced

  // ---------------------------------------------------------------- the text

  // A condition that is 0 without asking for anything.
  ghost predicate AlwaysZero(c: Expr) {
    Closed(c) && forall id, env :: Eval(c, id, env) == 0
  }

  // The last thing in a statement is a timer test.
  predicate EndsInTest(s: Stmt) {
    match s
    case Seq(_, s2) => EndsInTest(s2)
    case Block(body) => EndsInTest(body)
    case Checkpoint(_, _) => true
    case _ => false
  }

  // Every loop is tested unless its condition is always 0.
  ghost predicate LoopsTested(s: Stmt) {
    match s
    case Seq(s1, s2) => LoopsTested(s1) && LoopsTested(s2)
    case Block(body) => LoopsTested(body)
    case If(_, s1, s2) => LoopsTested(s1) && LoopsTested(s2)
    case Loop(_, c, inc, body) => LoopTested(c, inc, body) && LoopsTested(body)
    case _ => true
  }

  ghost predicate LoopTested(c: Expr, inc: Stmt, body: Stmt) {
    Simple(inc) && (EndsInTest(body) <==> !AlwaysZero(c))
  }

  lemma NeverRepeatsMeans(c: Expr)
    ensures NeverRepeats(c) <==> AlwaysZero(c)
  {
    ConstEvalWhen(c);
    forall id, env ensures ConstEval(c).Some? ==> Eval(c, id, env) == ConstEval(c).value {
      ConstEvalSound(c, id, env);
    }
    assert AlwaysZero(c) ==> Eval(c, 0, map[]) == 0;
  }

  // The rewriting tests exactly the loops that may repeat.
  lemma {:induction false} InstrTests(s: Stmt, st: State, claim: nat -> set<Var>)
    requires Source(s)
    ensures LoopsTested(Instr(s, st, claim).0) && !EndsInTest(Instr(s, st, claim).0)
  {
    match s
    case Seq(s1, s2) =>
      InstrTests(s1, st, claim);
      InstrTests(s2, Instr(s1, st, claim).1, claim);
    case Block(body) => InstrTests(body, st.(scope := st.scope + 1), claim);
    case If(_, s1, s2) =>
      InstrTests(s1, st, claim);
      InstrTests(s2, Instr(s1, st, claim).1, claim);
    case Loop(_, c, _, body) =>
      InstrTests(body, st, claim);
      NeverRepeatsMeans(c);
      var (t, st1) := Instr(body, st, claim);
      AtEndTests(t, Checkpoint(st1.nonce + 1, st1.tracker.Keys * claim(st1.nonce + 1)));
    case _ =>
  }

  lemma AtEndTests(body: Stmt, test: Stmt)
    requires test.Checkpoint? && LoopsTested(body)
    ensures EndsInTest(AtEnd(body, test)) && LoopsTested(AtEnd(body, test))
  {
    if body.Block? { assert LoopsTested(Seq(body.body, test)); }
  }

  lemma {:induction false} SimpleTests(s: Stmt)
    requires Simple(s)
    ensures LoopsTested(s) && !EndsInTest(s)
  {
    match s
    case Seq(s1, s2) => SimpleTests(s1); SimpleTests(s2);
    case _ =>
  }

  // ----------------------------------------------------------- control states

  // Falling off into `k` repeats a loop that is tested.
  predicate Tested(k: Cont) {
    k.KBody? && EndsInTest(k.body)
  }

  // Every loop in `k` is tested unless its condition is always 0, and only a
  // test stands in front of the end of a tested body.
  ghost predicate FitsK(k: Cont) {
    match k
    case KStop => true
    case KSeq(s, k') => LoopsTested(s) && (Tested(k') ==> EndsInTest(s)) && FitsK(k')
    case KBody(c, inc, body, k') => LoopTested(c, inc, body) && LoopsTested(body) && !Tested(k') && FitsK(k')
    case KTest(c, inc, body, k') => LoopTested(c, inc, body) && LoopsTested(body) && !Tested(k') && FitsK(k')
  }

  ghost predicate Fits(s: Stmt, k: Cont) {
    LoopsTested(s) && FitsK(k) && (Tested(k) ==> EndsInTest(s) || s.Skip?)
  }

  lemma {:induction false} JumpsFit(k: Cont)
    requires FitsK(k)
    ensures FitsK(BreakTo(k)) && !Tested(BreakTo(k))
    ensures var (s', k') := ContinueTo(k); Fits(s', k') && !Tested(k')
  {
    match k
    case KStop =>
    case KSeq(_, k') => JumpsFit(k');
    case KBody(_, inc, _, _) => SimpleTests(inc);
    case KTest(_, _, _, _) =>
  }

  // No control move ends at the end of a tested body.
  lemma {:induction false} MoveFits(s: Stmt, k: Cont, taken: bool)
    requires Moves(s, k) && Fits(s, k)
    ensures var (s', k') := Move(s, k, taken); Fits(s', k') && !(s'.Skip? && Tested(k'))
  {
    match s
    case Skip => if k.KBody? { SimpleTests(k.inc); }
    case Break => JumpsFit(k);
    case Continue => JumpsFit(k);
    case _ =>
  }

  // Where a label leads to.
  lemma {:induction false} FindFits(n: nat, s: Stmt, k: Cont)
    requires LoopsTested(s) && FitsK(k) && (Tested(k) ==> EndsInTest(s)) && Find(n, s, k).Some?
    ensures FitsK(Find(n, s, k).value.k) && (Find(n, s, k).value.Wait? ==> !Tested(Find(n, s, k).value.k))
  {
    match s
    case Seq(s1, s2) => if Find(n, s1, KSeq(s2, k)).Some? { FindFits(n, s1, KSeq(s2, k)); } else { FindFits(n, s2, k); }
    case Block(body) => FindFits(n, body, k);
    case If(_, s1, s2) => if Find(n, s1, k).Some? { FindFits(n, s1, k); } else { FindFits(n, s2, k); }
    case Loop(_, c, inc, body) => FindFits(n, body, KBody(c, inc, body, k));
    case _ =>
  }

  // -------------------------------------------------------------------- runs

  ghost predicate PcFits(pc: S.Pc) {
    match pc
    case Run(s, k) => Fits(s, k)
    case Stop1(gate) => FitsK(gate.k) && !Tested(gate.k)
    case Past1(gate) => FitsK(gate.k) && !Tested(gate.k)
    case Stop2(gate, _) => FitsK(gate.k) && !Tested(gate.k)
    case Past2(gate, _) => FitsK(gate.k) && !Tested(gate.k)
    case Pause(gate) => FitsK(gate.k) && !Tested(gate.k)
    case _ => true
  }

  ghost predicate GridFits(st: S.Grid) {
    forall g, i | 0 <= g < |st.groups| && 0 <= i < |st.groups[g].items| :: PcFits(st.groups[g].items[i].pc)
  }

  // An item that is at the end of a tested body has been tested just now, has
  // been resumed there, or was there before.
  ghost predicate JustTested(p: S.Program, it: S.Item, timer: bool, it': S.Item) {
    it'.pc.Run? && it'.pc.s.Skip? && Tested(it'.pc.k) ==>
      || it'.pc == it.pc
      || (!timer && it.pc.Run? && it.pc.s.Checkpoint? && it.pc.k == it'.pc.k)
      || (it.pc.Gone? && it'.hdr > 1 && Find(it'.hdr, p.code, KStop).Some?
          && Find(it'.hdr, p.code, KStop).value.Resume? && Find(it'.hdr, p.code, KStop).value.k == it'.pc.k)
  }

  lemma ActFits(p: S.Program, gr: S.Group, gm: map<int, int>, i: nat, v: int, timer: bool)
    requires i < |gr.items| && S.CanAct(gr.items[i].pc) && PcFits(gr.items[i].pc) && S.WellFormed(p, gr)
    ensures var gr' := if gr.items[i].pc.Run? then S.ActRun(gr, gm, i, v, timer).0 else S.ActProtocol(p, gr, i);
            && |gr'.items| == |gr.items| && (forall j | 0 <= j < |gr.items| && j != i :: gr'.items[j] == gr.items[j])
            && PcFits(gr'.items[i].pc) && JustTested(p, gr.items[i], timer, gr'.items[i])
  {
    if gr.items[i].pc.Run? {
      var s, k := gr.items[i].pc.s, gr.items[i].pc.k;
      if Moves(s, k) { MoveFits(s, k, Eval(Cond(s, k), gr.items[i].id, gr.items[i].env) != 0); }
    }
  }

  lemma EnterFits(p: S.Program, it: S.Item, hdr: int, junk: Env)
    requires LoopsTested(p.code) && it.pc.Gone? && (hdr == 1 ==> !EndsInTest(p.code))
    ensures var it' := S.Enter(p, it, hdr, junk);
            PcFits(it'.pc) && JustTested(p, it, false, it')
  {
    if hdr > 1 && Find(hdr, p.code, KStop).Some? { FindFits(hdr, p.code, KStop); }
  }

  ghost predicate EventFits(p: S.Program, st: S.Grid, ev: S.Event, st': S.Grid, g: nat, i: nat)
    requires g < |st.groups| && i < |st.groups[g].items|
  {
    && g < |st'.groups| && i < |st'.groups[g].items| && PcFits(st'.groups[g].items[i].pc)
    && JustTested(p, st.groups[g].items[i], ev.Act? && ev.timer, st'.groups[g].items[i])
  }

  lemma LaunchKeeps(p: S.Program, st: S.Grid, ev: S.Event, g: nat, i: nat)
    requires LoopsTested(p.code) && !EndsInTest(p.code) && S.Exec(p, st, ev).Some? && ev.Relaunch?
    requires g < |st.groups| && i < |st.groups[g].items|
    ensures EventFits(p, st, ev, S.Exec(p, st, ev).value, g, i)
  {
    var gr := st.groups[g];
    var hdrs := Released(S.HeadersOf(gr));
    var gr' := S.EnterGroup(p, gr, hdrs, ev.env, ev.lm(g));
    assert S.AllGone(gr) && S.Exec(p, st, ev).value.groups[g] == gr';
    assert gr'.items[i] == S.Enter(p, gr.items[i], hdrs[i], ev.env(gr.items[i].id));
    EnterFits(p, gr.items[i], hdrs[i], ev.env(gr.items[i].id));
  }

  // An item that does not act has moved at most past a barrier.
  lemma OthersKeep(p: S.Program, st: S.Grid, ev: S.Event, g: nat, i: nat)
    requires S.Exec(p, st, ev).Some? && !ev.Relaunch? && g < |st.groups| && i < |st.groups[g].items|
    requires ev.Act? ==> g != ev.g || i != ev.i
    ensures var st' := S.Exec(p, st, ev).value;
            && g < |st'.groups| && i < |st'.groups[g].items|
            && var pc := st.groups[g].items[i].pc;
               st'.groups[g].items[i].pc == pc || st'.groups[g].items[i].pc == S.Past(pc)
  {
  }

  lemma PastFits(p: S.Program, pc: S.Pc)
    requires PcFits(pc)
    ensures PcFits(S.Past(pc))
    ensures S.Past(pc) != pc ==> !(S.Past(pc).Run? && Tested(S.Past(pc).k))
  {
  }

  lemma ActKeeps(p: S.Program, st: S.Grid, ev: S.Event)
    requires S.Exec(p, st, ev).Some? && ev.Act? && PcFits(st.groups[ev.g].items[ev.i].pc)
    ensures EventFits(p, st, ev, S.Exec(p, st, ev).value, ev.g, ev.i)
  {
    ActFits(p, st.groups[ev.g], st.gm, ev.i, ev.v, ev.timer);
  }

  lemma EventKeeps(p: S.Program, st: S.Grid, ev: S.Event, g: nat, i: nat)
    requires LoopsTested(p.code) && !EndsInTest(p.code) && GridFits(st) && S.Exec(p, st, ev).Some?
    requires g < |st.groups| && i < |st.groups[g].items|
    ensures EventFits(p, st, ev, S.Exec(p, st, ev).value, g, i)
  {
    assert PcFits(st.groups[g].items[i].pc);
    if ev.Relaunch? {
      LaunchKeeps(p, st, ev, g, i);
    } else if ev.Act? && g == ev.g && i == ev.i {
      ActKeeps(p, st, ev);
    } else {
      OthersKeep(p, st, ev, g, i);
      PastFits(p, st.groups[g].items[i].pc);
    }
  }

  lemma SizesStay(p: S.Program, st: S.Grid, ev: S.Event)
    requires S.Exec(p, st, ev).Some?
    ensures |S.Exec(p, st, ev).value.groups| == |st.groups|
    ensures forall g | 0 <= g < |st.groups| :: |S.Exec(p, st, ev).value.groups[g].items| == |st.groups[g].items|
  {
  }

  lemma {:induction false} RunFits(p: S.Program, st: S.Grid, evs: seq<S.Event>)
    requires LoopsTested(p.code) && !EndsInTest(p.code) && GridFits(st) && S.ExecAll(p, st, evs).Some?
    ensures GridFits(S.ExecAll(p, st, evs).value)
    decreases |evs|
  {
    if evs != [] {
      var st' := S.Exec(p, st, evs[0]).value;
      SizesStay(p, st, evs[0]);
      forall g, i | 0 <= g < |st'.groups| && 0 <= i < |st'.groups[g].items| ensures PcFits(st'.groups[g].items[i].pc) {
        EventKeeps(p, st, evs[0], g, i);
      }
      RunFits(p, st', evs[1..]);
    }
  }

  lemma ReachedFits(src: Stmt, claim: nat -> set<Var>, params: set<Var>, words: nat, ost: O.Grid,
                    prv: Env, buf: nat -> seq<int>, evs: seq<S.Event>, st: S.Grid)
    requires Reached(src, claim, params, words, ost, prv, buf, evs, st)
    ensures var p := Compile(src, claim, params, words); LoopsTested(p.code) && !EndsInTest(p.code) && GridFits(st)
  {
    var p := Compile(src, claim, params, words);
    InstrTests(src, Start(params), claim);
    var start := Launch(p, ost, prv, buf);
    forall g, i | 0 <= g < |start.groups| && 0 <= i < |start.groups[g].items|
      ensures PcFits(start.groups[g].items[i].pc)
    {
      StartsFresh(p, ost.groups[g], prv, buf(g), _ => map[]);
    }
    RunFits(p, start, evs);
  }

  // In every run: an item comes to the end of a loop body whose loop may repeat
  // only through the timer test there, which it has passed or behind which it
  // was resumed.
  lemma RoundsAreTested(src: Stmt, claim: nat -> set<Var>, params: set<Var>, words: nat, ost: O.Grid,
                        prv: Env, buf: nat -> seq<int>, evs: seq<S.Event>, st: S.Grid, ev: S.Event, g: nat, i: nat)
    requires Reached(src, claim, params, words, ost, prv, buf, evs, st)
    requires S.Exec(Compile(src, claim, params, words), st, ev).Some?
    requires g < |st.groups| && i < |st.groups[g].items|
    ensures var p := Compile(src, claim, params, words);
            var st' := S.Exec(p, st, ev).value;
            && g < |st'.groups| && i < |st'.groups[g].items|
            && var it, it' := st.groups[g].items[i], st'.groups[g].items[i];
               it'.pc.Run? && it'.pc.s.Skip? && it'.pc.k.KBody? && !AlwaysZero(it'.pc.k.c) && it'.pc != it.pc ==>
                 || (ev.Act? && !ev.timer && it.pc.Run? && it.pc.s.Checkpoint? && it.pc.k == it'.pc.k)
                 || (ev.Relaunch? && it'.hdr > 1 && Find(it'.hdr, p.code, KStop).Some?
                     && Find(it'.hdr, p.code, KStop).value.Resume? && Find(it'.hdr, p.code, KStop).value.k == it'.pc.k)
  {
    var p := Compile(src, claim, params, words);
    ReachedFits(src, claim, params, words, ost, prv, buf, evs, st);
    EventKeeps(p, st, ev, g, i);
    OnlyActs(p, st, ev, g, i);
  }

  // An item that was running is moved by an act of its own, one that was gone
  // by a launch.
  lemma OnlyActs(p: S.Program, st: S.Grid, ev: S.Event, g: nat, i: nat)
    requires S.Exec(p, st, ev).Some? && g < |st.groups| && i < |st.groups[g].items|
    ensures var it, it' := st.groups[g].items[i], S.Exec(p, st, ev).value.groups[g].items[i];
            && (it.pc.Run? && it'.pc != it.pc ==> ev.Act?)
            && (it.pc.Gone? && it'.pc.Run? ==> ev.Relaunch?)
  {
  }
}
