/** Runs in which no timer test stops anybody, because there is none or because
    the timer never expires.  An item stops at a barrier only if some item
    of its group is somewhere else for good, so such a group is never blocked by
    one barrier as a whole, no label is ever resumed, and what is saved does not
    matter. */
module Straight {
  import opened Kernel
  import opened Labels
  import opened Headers
  import opened Instrument
  import opened Simulation
  import opened Preservation
  import opened Rounds
  import opened Termination
  import O = Original
  import S = Sliced
  import P = Protocol

  // On the way out of the kernel.
  predicate Out(pc: S.Pc) {
    pc.Exit0? || pc.Exit1? || pc.Left1? || pc.Exit2? || pc.Left2? || pc.Gone?
  }

  // The item will not be stopped by the barrier before label `n` in this slice.
  predicate Apart(it: S.Item, n: int) {
    if Out(it.pc) then it.hdr != -n else it.pc.Past2? && it.pc.remain != 0 && it.pc.gate.n != n
  }

  predicate Elsewhere(gr: S.Group, n: int) {
    exists j :: 0 <= j < |gr.items| && Apart(gr.items[j], n)
  }

  // No item is stopped by a barrier, or about to be, unless another one is apart.
  predicate ItemFits(gr: S.Group, it: S.Item) {
    && it.hdr <= 1
    && (Out(it.pc) && it.hdr < 0 ==> Elsewhere(gr, -it.hdr))
    && (it.pc.Past2? && it.pc.remain != 0 ==> Elsewhere(gr, it.pc.gate.n))
  }

  ghost predicate NoneAlone(gr: S.Group) {
    forall i {:trigger ItemFits(gr, gr.items[i])} | 0 <= i < |gr.items| :: ItemFits(gr, gr.items[i])
  }

  // No label belongs to a timer test.
  ghost predicate NoTests(code: Stmt) {
    forall n | n in LabelsOf(code) :: Find(n, code, KStop).Some? && Find(n, code, KStop).value.Wait?
  }

  lemma OneMoves(gr: S.Group, gr': S.Group, i: nat)
    requires NoneAlone(gr) && i < |gr.items| == |gr'.items| && gr'.items == gr.items[i := gr'.items[i]]
    requires forall n | Apart(gr.items[i], n) :: Apart(gr'.items[i], n)
    requires ItemFits(gr', gr'.items[i])
    ensures NoneAlone(gr')
  {
    forall n | Elsewhere(gr, n) ensures Elsewhere(gr', n) {
      var j :| 0 <= j < |gr.items| && Apart(gr.items[j], n);
      assert Apart(gr'.items[j], n);
    }
    forall j | 0 <= j < |gr.items| ensures ItemFits(gr', gr'.items[j]) {
      if j != i { assert ItemFits(gr, gr.items[j]); }
    }
  }

  lemma RunFits(p: S.Program, gr: S.Group, og: O.Group, gm: map<int, int>, i: nat, v: int, timer: bool)
    requires Shaped(p) && (timer ==> NoTests(p.code)) && GroupRel(p, gr, og) && NoneAlone(gr)
    requires i < |gr.items| && gr.items[i].pc.Run? && S.CanAct(gr.items[i].pc)
    ensures NoneAlone(S.ActRun(gr, gm, i, v, timer).0)
  {
    assert ItemRel(p, gr.items[i], og.items[i]) && ItemFits(gr, gr.items[i]);
    LabelHere(p, gr.items[i].pc.s, gr.items[i].pc.k);
    FindHits(if gr.items[i].pc.s.Checkpoint? then gr.items[i].pc.s.n else 0, p.code, KStop);
    assert timer ==> !gr.items[i].pc.s.Checkpoint?;
    OneMoves(gr, S.ActRun(gr, gm, i, v, timer).0, i);
  }

  lemma ProtocolFits(p: S.Program, gr: S.Group, i: nat)
    requires S.WellFormed(p, gr) && NoneAlone(gr)
    requires i < |gr.items| && !gr.items[i].pc.Run? && S.CanAct(gr.items[i].pc)
    ensures NoneAlone(S.ActProtocol(p, gr, i))
  {
    var it, gr' := gr.items[i], S.ActProtocol(p, gr, i);
    assert ItemFits(gr, it);
    if it.pc.Past2? && it.pc.remain != 0 {
      var j :| 0 <= j < |gr.items| && Apart(gr.items[j], it.pc.gate.n);
      assert gr'.items[j] == gr.items[j];
    } else if Out(it.pc) && it.hdr < 0 {
      var j :| 0 <= j < |gr.items| && Apart(gr.items[j], -it.hdr);
      assert Apart(gr'.items[j], -it.hdr);
    }
    OneMoves(gr, gr', i);
  }

  // Items at different stop counters both read a count other than zero.
  lemma BothRead(p: S.Program, gr: S.Group, m: P.Mode, i: nat, j: nat)
    requires P.Inv(p, gr, m) && i < |gr.items| && j < |gr.items|
    requires gr.items[i].pc.Stop2? && gr.items[j].pc.Stop2? && gr.items[i].pc.gate.idx != gr.items[j].pc.gate.idx
    ensures gr.items[j].pc.remain != 0
  {
    if gr.items[j].pc.remain == 0 { P.NoneRemains(p, gr, m, j); }
  }

  lemma NotHere(p: S.Program, gr: S.Group, m: P.Mode, i: nat) returns (j: nat)
    requires P.Inv(p, gr, m) && i < |gr.items| && gr.items[i].pc.Stop2? && gr.items[i].pc.remain != 0
    requires S.CanRelease(gr)
    ensures j < |gr.items| && (Out(gr.items[j].pc) ||
      (gr.items[j].pc.Stop2? && gr.items[j].pc.remain != 0 && gr.items[j].pc.gate.idx != gr.items[i].pc.gate.idx))
  {
    assert P.ItemOk(p, gr, m, gr.items[i].pc);
    var holders := P.Holders(gr.items, gr.items[i].pc.gate.idx);
    P.CountAll(holders);
    j :| 0 <= j < |gr.items| && !holders[j];
    assert P.ItemOk(p, gr, m, gr.items[j].pc);
    if gr.items[j].pc.Stop2? { BothRead(p, gr, m, i, j); }
  }

  lemma GatesDiffer(p: S.Program, gr: S.Group, og: O.Group, i: nat, j: nat)
    requires GroupRel(p, gr, og) && i < |gr.items| && j < |gr.items|
    requires gr.items[i].pc.Stop2? && gr.items[j].pc.Stop2? && gr.items[i].pc.gate.idx != gr.items[j].pc.gate.idx
    ensures gr.items[i].pc.gate.n != gr.items[j].pc.gate.n
  {
    assert ItemRel(p, gr.items[i], og.items[i]) && ItemRel(p, gr.items[j], og.items[j]);
  }

  lemma GateAtLeast2(p: S.Program, gr: S.Group, og: O.Group, i: nat)
    requires Shaped(p) && GroupRel(p, gr, og) && i < |gr.items| && gr.items[i].pc.Stop2?
    ensures gr.items[i].pc.gate.n >= 2
  {
    assert ItemRel(p, gr.items[i], og.items[i]);
    SiteAt(p, gr.items[i].pc.gate.n);
  }

  lemma ElsewhereAfter(gr: S.Group, j: nat, n: int)
    requires NoneAlone(gr) && S.CanRelease(gr) && j < |gr.items| && n > 0
    requires Out(gr.items[j].pc) ||
             (gr.items[j].pc.Stop2? && gr.items[j].pc.remain != 0 && gr.items[j].pc.gate.n != n)
    ensures Elsewhere(S.Pass(gr), n)
  {
    if Out(gr.items[j].pc) && gr.items[j].hdr == -n {
      assert ItemFits(gr, gr.items[j]);
      StillElsewhere(gr, n);
    } else {
      assert Apart(S.Pass(gr).items[j], n);
    }
  }

  // An item that read a count other than zero: somebody is elsewhere.
  lemma SomebodyElse(p: S.Program, gr: S.Group, og: O.Group, m: P.Mode, i: nat)
    requires Shaped(p) && GroupRel(p, gr, og) && P.Inv(p, gr, m) && NoneAlone(gr) && S.CanRelease(gr)
    requires i < |gr.items| && gr.items[i].pc.Stop2? && gr.items[i].pc.remain != 0
    ensures Elsewhere(S.Pass(gr), gr.items[i].pc.gate.n)
  {
    var j := NotHere(p, gr, m, i);
    if gr.items[j].pc.Stop2? { GatesDiffer(p, gr, og, i, j); }
    GateAtLeast2(p, gr, og, i);
    ElsewhereAfter(gr, j, gr.items[i].pc.gate.n);
  }

  lemma StillElsewhere(gr: S.Group, n: int)
    requires S.CanRelease(gr) && Elsewhere(gr, n)
    ensures Elsewhere(S.Pass(gr), n)
  {
    var j :| 0 <= j < |gr.items| && Apart(gr.items[j], n);
    assert S.Waiting(gr.items[j].pc) || gr.items[j].pc.Gone?;
    assert Apart(S.Pass(gr).items[j], n);
  }

  lemma PassFits(gr: S.Group, i: nat)
    requires NoneAlone(gr) && S.CanRelease(gr) && i < |gr.items|
    requires gr.items[i].pc.Stop2? && gr.items[i].pc.remain != 0 ==> Elsewhere(S.Pass(gr), gr.items[i].pc.gate.n)
    ensures ItemFits(S.Pass(gr), S.Pass(gr).items[i])
  {
    assert ItemFits(gr, gr.items[i]) && (S.Waiting(gr.items[i].pc) || gr.items[i].pc.Gone?);
    if Out(gr.items[i].pc) && gr.items[i].hdr < 0 { StillElsewhere(gr, -gr.items[i].hdr); }
  }

  lemma ReleaseFits(p: S.Program, gr: S.Group, og: O.Group, m: P.Mode)
    requires Shaped(p) && GroupRel(p, gr, og) && P.Inv(p, gr, m) && NoneAlone(gr) && S.CanRelease(gr)
    ensures NoneAlone(S.Pass(gr))
  {
    forall i | 0 <= i < |gr.items| ensures ItemFits(S.Pass(gr), S.Pass(gr).items[i]) {
      if gr.items[i].pc.Stop2? && gr.items[i].pc.remain != 0 { SomebodyElse(p, gr, og, m, i); }
      PassFits(gr, i);
    }
  }

  lemma AnotherHeader(gr: S.Group, i: nat) returns (j: nat)
    requires NoneAlone(gr) && S.AllGone(gr) && i < |gr.items| && gr.items[i].hdr < 0
    ensures j < |gr.items| && gr.items[j].hdr != gr.items[i].hdr
  {
    assert ItemFits(gr, gr.items[i]) && gr.items[i].pc.Gone?;
    j :| 0 <= j < |gr.items| && Apart(gr.items[j], -gr.items[i].hdr);
    assert gr.items[j].pc.Gone?;
  }

  // At the end of a slice the group is not blocked, so no label is resumed.
  lemma NotBlocked(gr: S.Group)
    requires NoneAlone(gr) && S.AllGone(gr)
    ensures !Blocked(S.HeadersOf(gr)) && forall i | 0 <= i < |gr.items| :: Released(S.HeadersOf(gr))[i] <= 1
  {
    var h := S.HeadersOf(gr);
    if |h| > 0 && h[0] < 0 {
      var j := AnotherHeader(gr, 0);
      assert h[j] != h[0];
    }
    assert Released(h) == h;
    forall i | 0 <= i < |gr.items| ensures h[i] <= 1 { assert ItemFits(gr, gr.items[i]); }
  }

  lemma StaysOut(p: S.Program, gr: S.Group, og: O.Group, i: nat, env: int -> Env, lm: seq<int>)
    requires Shaped(p) && GroupRel(p, gr, og) && NoneAlone(gr) && S.AllGone(gr) && i < |gr.items|
    ensures var it := S.EnterGroup(p, gr, Released(S.HeadersOf(gr)), env, lm).items[i];
            it.hdr == gr.items[i].hdr && Out(it.pc)
  {
    NotBlocked(gr);
    assert ItemRel(p, gr.items[i], og.items[i]) && ItemFits(gr, gr.items[i]);
    assert Released(S.HeadersOf(gr))[i] == gr.items[i].hdr;
    if gr.items[i].hdr == 1 { SiteAt(p, 1); }
  }

  lemma EnterFits(p: S.Program, gr: S.Group, og: O.Group, env: int -> Env, lm: seq<int>)
    requires Shaped(p) && GroupRel(p, gr, og) && NoneAlone(gr) && S.AllGone(gr)
    ensures NoneAlone(S.EnterGroup(p, gr, Released(S.HeadersOf(gr)), env, lm))
  {
    var gr' := S.EnterGroup(p, gr, Released(S.HeadersOf(gr)), env, lm);
    forall i | 0 <= i < |gr.items| ensures gr'.items[i].hdr == gr.items[i].hdr && Out(gr'.items[i].pc) {
      StaysOut(p, gr, og, i, env, lm);
    }
    forall i | 0 <= i < |gr.items| ensures ItemFits(gr', gr'.items[i]) {
      assert ItemFits(gr, gr.items[i]);
      if gr.items[i].hdr < 0 {
        var j :| 0 <= j < |gr.items| && Apart(gr.items[j], -gr.items[i].hdr);
        assert Apart(gr'.items[j], -gr.items[i].hdr);
      }
    }
  }

  ghost predicate GridFits(st: S.Grid) {
    forall g | 0 <= g < |st.groups| :: NoneAlone(st.groups[g])
  }

  lemma EventFits(p: S.Program, st: S.Grid, ev: S.Event, ms: seq<P.Mode>, ost: O.Grid)
    requires Shaped(p) && Rel(p, st, ms, ost) && GridFits(st) && S.Exec(p, st, ev).Some?
    requires ev.Act? && ev.timer ==> NoTests(p.code)
    ensures GridFits(S.Exec(p, st, ev).value) && (ev.Relaunch? ==> AllRestores(p, st))
  {
    match ev
    case Act(g, i, v, timer) =>
      assert GroupRel(p, st.groups[g], ost.groups[g]) && NoneAlone(st.groups[g]);
      if st.groups[g].items[i].pc.Run? { RunFits(p, st.groups[g], ost.groups[g], st.gm, i, v, timer); }
      else { ProtocolFits(p, st.groups[g], i); }
    case Release(g) =>
      assert GroupRel(p, st.groups[g], ost.groups[g]) && P.Inv(p, st.groups[g], ms[g]);
      ReleaseFits(p, st.groups[g], ost.groups[g], ms[g]);
    case Relaunch(env, lm) =>
      forall g | 0 <= g < |st.groups|
        ensures NoneAlone(S.NextSlice(p, st, env, lm).groups[g]) && Restores(p, Released(S.HeadersOf(st.groups[g])))
      {
        assert GroupRel(p, st.groups[g], ost.groups[g]);
        NotBlocked(st.groups[g]);
        EnterFits(p, st.groups[g], ost.groups[g], env, lm(g));
      }
  }

  // No timer test finds the timer expired, or there is none.
  ghost predicate Calm(p: S.Program, evs: seq<S.Event>) {
    forall e | 0 <= e < |evs| && evs[e].Act? && evs[e].timer :: NoTests(p.code)
  }

  lemma {:induction false} NothingResumed(p: S.Program, st: S.Grid, evs: seq<S.Event>, ms: seq<P.Mode>, ost: O.Grid)
    requires Shaped(p) && Calm(p, evs) && Rel(p, st, ms, ost) && GridFits(st) && S.ExecAll(p, st, evs).Some?
    ensures RestoringRun(p, st, evs) && GridFits(S.ExecAll(p, st, evs).value)
    decreases |evs|
  {
    if evs != [] {
      EventFits(p, st, evs[0], ms, ost);
      SimEvent(p, st, evs[0], ms, ost);
      assert forall e | 0 <= e < |evs[1..]| :: evs[1..][e] == evs[e + 1];
      NothingResumed(p, S.Exec(p, st, evs[0]).value, evs[1..], Modes(st, ms, evs[0]),
                     O.ExecAll(ost, Meaning(st, ms, evs[0])).value);
    }
  }

  // With uniform barriers a group that is gone without a test having stopped
  // anybody has nothing left to do.
  lemma CalmIsDone(p: S.Program, gr: S.Group, og: O.Group, i: nat)
    requires Shaped(p) && GroupRel(p, gr, og) && NoneAlone(gr) && S.AllGone(gr) && i < |gr.items|
    requires forall i, j | 0 <= i < |og.items| && 0 <= j < |og.items| && og.items[i].s.Barrier? ::
      !O.Done(og.items[j]) && (og.items[j].s.Barrier? ==> og.items[j].s == og.items[i].s)
    ensures gr.items[i].hdr == 0
  {
    assert ItemRel(p, gr.items[i], og.items[i]) && ItemFits(gr, gr.items[i]);
    if gr.items[i].hdr == 1 { SiteAt(p, 1); }
    if gr.items[i].hdr < 0 {
      var j := AnotherHeader(gr, i);
      assert ItemRel(p, gr.items[j], og.items[j]) && ItemFits(gr, gr.items[j]);
      if gr.items[j].hdr == 1 { SiteAt(p, 1); }
      if gr.items[j].hdr < 0 { SameTag(p, gr.items[j], gr.items[i]); }
    }
  }

  // A kernel with uniform barriers is done in one slice if the timer does not
  // expire: no barrier stops it.
  lemma UninterruptedIsDone(src: Stmt, claim: nat -> set<Var>, params: set<Var>, words: nat, ost: O.Grid,
                            prv: Env, buf: nat -> seq<int>, evs: seq<S.Event>, st: S.Grid)
    requires Reached(src, claim, params, words, ost, prv, buf, evs, st) && O.Uniform(ost)
    requires forall e | 0 <= e < |evs| && evs[e].Act? :: !evs[e].timer
    requires forall g | 0 <= g < |st.groups| :: S.AllGone(st.groups[g])
    ensures S.Finished(st)
  {
    var p := Compile(src, claim, params, words);
    var start, ms := Launch(p, ost, prv, buf), AllWork(|ost.groups|);
    CompileSound(src, claim, params, words);
    LaunchRel(p, ost, prv, buf);
    StartFits(p, ost, prv, buf);
    NothingResumed(p, start, evs, ms, ost);
    Simulates(p, start, evs, ms, ost);
    GoneIsDone(p, st, Trace(p, start, ms, evs).1, O.ExecAll(ost, Trace(p, start, ms, evs).0).value);
  }

  lemma StartFits(p: S.Program, ost: O.Grid, prv: Env, buf: nat -> seq<int>)
    ensures GridFits(Launch(p, ost, prv, buf))
  {
    var st := Launch(p, ost, prv, buf);
    forall g, i | 0 <= g < |st.groups| && 0 <= i < |st.groups[g].items|
      ensures ItemFits(st.groups[g], st.groups[g].items[i])
    {
      StartsFresh(p, ost.groups[g], prv, buf(g), _ => map[]);
    }
  }

  lemma GoneIsDone(p: S.Program, st: S.Grid, ms: seq<P.Mode>, ost: O.Grid)
    requires Shaped(p) && Rel(p, st, ms, ost) && GridFits(st) && O.Aligned(ost)
    requires forall g | 0 <= g < |st.groups| :: S.AllGone(st.groups[g])
    ensures S.Finished(st)
  {
    forall g, i | 0 <= g < |st.groups| && 0 <= i < |st.groups[g].items| ensures st.groups[g].items[i].hdr == 0 {
      CalmIsDone(p, st.groups[g], ost.groups[g], i);
    }
  }

  // ------------------------------------------------------------ source kernels

  // Every loop of the kernel ends after its first round.
  predicate NeverLoops(s: Stmt) {
    match s
    case Seq(s1, s2) => NeverLoops(s1) && NeverLoops(s2)
    case Block(body) => NeverLoops(body)
    case If(_, s1, s2) => NeverLoops(s1) && NeverLoops(s2)
    case Loop(_, c, _, body) => NeverRepeats(c) && NeverLoops(body)
    case _ => true
  }

  lemma {:induction false} NoTestsEmitted(n: nat, s: Stmt, st: State, claim: nat -> set<Var>, k: Cont)
    requires Source(s) && NeverLoops(s)
    ensures var r := Find(n, Instr(s, st, claim).0, k); r.Some? ==> r.value.Wait?
  {
    match s
    case Seq(s1, s2) =>
      var (t1, st1) := Instr(s1, st, claim);
      NoTestsEmitted(n, s1, st, claim, KSeq(Instr(s2, st1, claim).0, k));
      NoTestsEmitted(n, s2, st1, claim, k);
    case Block(body) => NoTestsEmitted(n, body, st.(scope := st.scope + 1), claim, k);
    case If(_, s1, s2) =>
      NoTestsEmitted(n, s1, st, claim, k);
      NoTestsEmitted(n, s2, Instr(s1, st, claim).1, claim, k);
    case Loop(_, c, inc, body) =>
      NoTestsEmitted(n, body, st, claim, KBody(c, inc, Instr(body, st, claim).0, k));
    case _ =>
  }

  // A kernel without timer tests keeps its meaning whatever is saved.
  lemma PreservedWithoutTests(src: Stmt, claim: nat -> set<Var>, params: set<Var>, words: nat,
                              ost: O.Grid, prv: Env, buf: nat -> seq<int>, evs: seq<S.Event>)
    requires Source(src) && DistinctBarriers(src) && NeverLoops(src)
    requires Initial(ost, src, words) && forall g: nat :: |buf(g)| == words
    requires var p := Compile(src, claim, params, words);
             var r := S.ExecAll(p, Launch(p, ost, prv, buf), evs);
             r.Some? && S.Finished(r.value)
    ensures var p := Compile(src, claim, params, words);
            exists oevs :: O.ExecAll(ost, oevs).Some? && O.AllDone(O.ExecAll(ost, oevs).value)
              && O.ExecAll(ost, oevs).value.gm == S.ExecAll(p, Launch(p, ost, prv, buf), evs).value.gm
  {
    var p := Compile(src, claim, params, words);
    var st := Launch(p, ost, prv, buf);
    CompileShaped(src, claim, params, words);
    LaunchRel(p, ost, prv, buf);
    forall n | n in LabelsOf(p.code) ensures Find(n, p.code, KStop).Some? && Find(n, p.code, KStop).value.Wait? {
      FindHits(n, p.code, KStop);
      NoTestsEmitted(n, src, Start(params), claim, KStop);
    }
    StartFits(p, ost, prv, buf);
    NothingResumed(p, st, evs, AllWork(|ost.groups|), ost);
    PreservedIfRestoring(src, claim, params, words, ost, prv, buf, evs);
  }
}
