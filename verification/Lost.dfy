/** A kernel that loses a variable at a barrier, run to its end.  The answers by
    block leave out what the rest of the barrier's block reads; one item stops
    at its timer test, so the other one has to stop at the barrier, and when both
    are let pass they find whatever their registers hold. */
module Lost {
  import opened Wrappers
  import opened Kernel
  import opened Liveness
  import opened Labels
  import opened Headers
  import opened Instrument
  import opened Preservation
  import opened Blocks
  import O = Original
  import S = Sliced

  // kernel(int x) { x = 0; do ; while (x); barrier(); out[id] = x; }

  function Clear(x: Var): Stmt { Do(Assign(x, Lit(0))) }

  function Out(x: Var): Stmt { Do(Store(Global, Self, Ref(x))) }

  function Lossy(x: Var): Stmt {
    Block(Seq(Clear(x), Seq(Loop(false, Ref(x), Skip, Skip), Seq(Barrier(0), Out(x)))))
  }

  // What the answers by block leave of it: x at the timer test, nothing at the
  // barrier.

  function Answers(x: Var): nat -> set<Var> {
    n => if n == 2 then {x} else {}
  }

  function Body(x: Var): Stmt { Seq(Skip, Checkpoint(2, {x})) }

  function Rest(x: Var): Stmt { Seq(Stop(0, 0, 3, {}), Out(x)) }

  function Tail(x: Var): Stmt { Seq(Loop(false, Ref(x), Skip, Body(x)), Rest(x)) }

  function Code(x: Var): Stmt { Block(Seq(Clear(x), Tail(x))) }

  function Again(x: Var): Cont { KBody(Ref(x), Skip, Body(x), KSeq(Rest(x), KStop)) }

  function Prog(x: Var): S.Program { S.Program(Code(x), 0, 1) }

  lemma Emits(x: Var)
    ensures Compile(Lossy(x), Answers(x), {x}, 0) == Prog(x)
  {
    var st := Start({x}).(scope := 1);
    var st2, st3 := st.(nonce := 2), st.(nonce := 3, bidx := 1);
    var claim := Answers(x);
    assert st.tracker.Keys == {x} && {x} * claim(2) == {x} && {x} * claim(3) == {};
    assert Instr(Loop(false, Ref(x), Skip, Skip), st, claim) == (Loop(false, Ref(x), Skip, Body(x)), st2);
    assert Instr(Seq(Barrier(0), Out(x)), st2, claim) == (Rest(x), st3);
    assert Instr(Seq(Loop(false, Ref(x), Skip, Skip), Seq(Barrier(0), Out(x))), st, claim) == (Tail(x), st3);
    assert Instr(Clear(x), st, claim) == (Clear(x), st);
    assert Instr(Seq(Clear(x), Seq(Loop(false, Ref(x), Skip, Skip), Seq(Barrier(0), Out(x)))), st, claim)
        == (Seq(Clear(x), Tail(x)), st3);
    assert Start({x}).(scope := Start({x}).scope + 1) == st;
    assert Instr(Lossy(x), Start({x}), claim).0 == Code(x);
    assert BarrierCount(Seq(Barrier(0), Out(x))) == 1;
    assert BarrierCount(Loop(false, Ref(x), Skip, Skip)) == 0;
    assert BarrierCount(Seq(Loop(false, Ref(x), Skip, Skip), Seq(Barrier(0), Out(x)))) == 1;
    assert BarrierCount(Clear(x)) == 0;
    assert BarrierCount(Seq(Clear(x), Seq(Loop(false, Ref(x), Skip, Skip), Seq(Barrier(0), Out(x))))) == 1;
  }

  lemma SiteOf(x: Var, n: nat)
    ensures Find(n, Code(x), KStop) ==
            if n == 2 then Some(Resume({x}, Again(x)))
            else if n == 3 then Some(Wait(0, 0, {}, KSeq(Out(x), KStop))) else None
  {
    var loop := Loop(false, Ref(x), Skip, Body(x));
    assert Find(n, Skip, KSeq(Checkpoint(2, {x}), Again(x))) == None;
    assert Find(n, Body(x), Again(x)) == if n == 2 then Some(Resume({x}, Again(x))) else None;
    assert Find(n, loop, KSeq(Rest(x), KStop)) == Find(n, Body(x), Again(x));
    assert Find(n, Out(x), KStop) == None;
    assert Find(n, Rest(x), KStop) == if n == 3 then Some(Wait(0, 0, {}, KSeq(Out(x), KStop))) else None;
    assert Find(n, Tail(x), KStop) ==
           if n == 2 then Some(Resume({x}, Again(x))) else Find(n, Rest(x), KStop);
    assert Find(n, Clear(x), KSeq(Tail(x), KStop)) == None;
    assert Find(n, Seq(Clear(x), Tail(x)), KStop) == Find(n, Tail(x), KStop);
  }

  lemma Labels23(x: Var)
    ensures forall n | n in LabelsOf(Code(x)) :: n == 2 || n == 3
    ensures 3 in LabelsOf(Code(x))
  {
    forall n: nat ensures n in LabelsOf(Code(x)) <==> n == 2 || n == 3 {
      SiteOf(x, n);
      FindHits(n, Code(x), KStop);
    }
  }

  lemma AnswersAreByBlock(x: Var)
    ensures AnswersByBlock(Code(x), Answers(x)) && !ReadsClaimed(Code(x), Answers(x))
  {
    SiteOf(x, 2);
    SiteOf(x, 3);
    Labels23(x);
    BarrierLoses(x);
    TestKeeps(x);
  }

  lemma BarrierLoses(x: Var)
    ensures var k := KSeq(Out(x), KStop);
            EraseK(k) == MentionedK(k) == k && RestAfter(k) == Blocks.Rest({x}, {}, {})
  {
    assert RestAfter(KStop) == Blocks.Rest({}, {}, {});
  }

  lemma TestKeeps(x: Var)
    ensures Answer(Resume({x}, Again(x))) == {x}
  {
    var rest := Seq(Barrier(0), Out(x));
    assert Erase(Rest(x)) == rest == Mentioned(rest) && Erase(Body(x)) == Skip;
    assert EraseK(KSeq(Rest(x), KStop)) == KSeq(rest, KStop);
    assert MentionedK(KStop) == KStop && MentionedK(KSeq(rest, KStop)) == KSeq(rest, KStop);
    var k := KBody(Ref(x), Skip, Skip, KSeq(rest, KStop));
    assert MentionedK(EraseK(Again(x))) == k;
    assert Live(rest, {}, {}, {}) == {x};
    assert LiveK(KSeq(rest, KStop)) == {x};
    assert LiveAt(Skip, k) == LiveK(k) == {x};
  }

  // ------------------------------------------------- what the source leaves

  // Two items of one group that start with the argument `arg`.
  function Two(x: Var, arg: int): O.Grid {
    O.Grid([O.Group([O.Item(0, Lossy(x), KStop, map[x := arg]), O.Item(1, Lossy(x), KStop, map[x := arg])], [])],
           map[])
  }

  function SrcTail(x: Var): Stmt { Seq(Loop(false, Ref(x), Skip, Skip), Seq(Barrier(0), Out(x))) }

  // x is still to be cleared.
  ghost predicate Before(x: Var, s: Stmt, k: Cont) {
    || (s == Lossy(x) && k == KStop)
    || (s == Seq(Clear(x), SrcTail(x)) && k == KStop)
    || (s == Clear(x) && k == KSeq(SrcTail(x), KStop))
  }

  // It has been cleared and not been stored yet.
  ghost predicate Between(x: Var, s: Stmt, k: Cont) {
    var rest := Seq(Barrier(0), Out(x));
    var k1, k2 := KSeq(rest, KStop), KSeq(Out(x), KStop);
    || (s == Skip && k == KSeq(SrcTail(x), KStop))
    || (s == SrcTail(x) && k == KStop)
    || (s == Loop(false, Ref(x), Skip, Skip) && k == k1)
    || (s == Skip && (k == KBody(Ref(x), Skip, Skip, k1) || k == KTest(Ref(x), Skip, Skip, k1) || k == k1))
    || (s == rest && k == KStop)
    || (s == Barrier(0) && k == k2)
    || (s == Skip && k == k2)
    || (s == Out(x) && k == KStop)
  }

  ghost predicate ItemFits(x: Var, it: O.Item, gm: map<int, int>) {
    || Before(x, it.s, it.k)
    || (Get(it.env, x) == 0 && Between(x, it.s, it.k))
    || (O.Done(it) && it.id in gm)
  }

  ghost predicate Fits(x: Var, st: O.Grid) {
    && |st.groups| == 1 && |st.groups[0].items| == 2
    && (forall i | 0 <= i < 2 :: st.groups[0].items[i].id == i && ItemFits(x, st.groups[0].items[i], st.gm))
    && (forall a | a in st.gm :: (a == 0 || a == 1) && st.gm[a] == 0)
  }

  lemma StepFits(x: Var, it: O.Item, d: Data, v: int)
    requires ItemFits(x, it, d.gm) && Plain(it.s, it.k) && d.env == it.env && (it.id == 0 || it.id == 1)
    requires forall a | a in d.gm :: (a == 0 || a == 1) && d.gm[a] == 0
    ensures var r := PlainStep(it.s, it.k, it.id, d, v);
            && ItemFits(x, O.Item(it.id, r.s, r.k, r.d.env), r.d.gm) && d.gm.Keys <= r.d.gm.Keys
            && forall a | a in r.d.gm :: (a == 0 || a == 1) && r.d.gm[a] == 0
  {
  }

  lemma EventFits(x: Var, st: O.Grid, ev: O.Event)
    requires Fits(x, st) && O.Exec(st, ev).Some?
    ensures Fits(x, O.Exec(st, ev).value)
  {
    if ev.Step? {
      var it := st.groups[0].items[ev.i];
      StepFits(x, it, Data(it.env, st.groups[0].lm, st.gm), ev.v);
    }
  }

  lemma {:induction false} RunFits(x: Var, st: O.Grid, oevs: seq<O.Event>)
    requires Fits(x, st) && O.ExecAll(st, oevs).Some?
    ensures Fits(x, O.ExecAll(st, oevs).value)
    decreases |oevs|
  {
    if oevs != [] {
      EventFits(x, st, oevs[0]);
      RunFits(x, O.Exec(st, oevs[0]).value, oevs[1..]);
    }
  }

  lemma DoneFits(x: Var, st: O.Grid)
    requires Fits(x, st) && O.AllDone(st)
    ensures st.gm == map[0 := 0, 1 := 0]
  {
    var i0, i1 := st.groups[0].items[0], st.groups[0].items[1];
    assert O.Done(i0) && O.Done(i1) && ItemFits(x, i0, st.gm) && ItemFits(x, i1, st.gm);
    assert i0.id == 0 && i1.id == 1;
    assert 0 in st.gm && 1 in st.gm;
    assert forall a | a in st.gm :: a == 0 || a == 1;
  }

  lemma TwoFits(x: Var, arg: int)
    ensures Fits(x, Two(x, arg))
  {
  }

  // Every complete run of the source stores 0 for both items.
  lemma SourceLeavesZeros(x: Var, arg: int, oevs: seq<O.Event>)
    requires O.ExecAll(Two(x, arg), oevs).Some? && O.AllDone(O.ExecAll(Two(x, arg), oevs).value)
    ensures O.ExecAll(Two(x, arg), oevs).value.gm == map[0 := 0, 1 := 0]
  {
    TwoFits(x, arg);
    RunFits(x, Two(x, arg), oevs);
    DoneFits(x, O.ExecAll(Two(x, arg), oevs).value);
  }

  // --------------------------------------------------------- a sliced run

  ghost predicate Reaches(x: Var, st: S.Grid, end: S.Grid) {
    exists evs :: S.ExecAll(Prog(x), st, evs) == Some(end)
  }

  lemma Here(x: Var, st: S.Grid)
    ensures Reaches(x, st, st)
  {
    assert S.ExecAll(Prog(x), st, []) == Some(st);
  }

  lemma Then(x: Var, st: S.Grid, ev: S.Event, mid: S.Grid, end: S.Grid)
    requires S.Exec(Prog(x), st, ev) == Some(mid) && Reaches(x, mid, end)
    ensures Reaches(x, st, end)
  {
    var evs :| S.ExecAll(Prog(x), mid, evs) == Some(end);
    var all := [ev] + evs;
    assert all[0] == ev && all[1..] == evs;
    assert S.ExecAll(Prog(x), st, all) == Some(end);
  }

  lemma {:induction false} Onward(x: Var, st: S.Grid, mid: S.Grid, end: S.Grid)
    requires Reaches(x, st, mid) && Reaches(x, mid, end)
    ensures Reaches(x, st, end)
  {
    var evs :| S.ExecAll(Prog(x), st, evs) == Some(mid);
    OnwardBy(x, st, evs, mid, end);
  }

  lemma {:induction false} OnwardBy(x: Var, st: S.Grid, evs: seq<S.Event>, mid: S.Grid, end: S.Grid)
    requires S.ExecAll(Prog(x), st, evs) == Some(mid) && Reaches(x, mid, end)
    ensures Reaches(x, st, end)
    decreases |evs|
  {
    if evs != [] {
      var next := S.Exec(Prog(x), st, evs[0]).value;
      OnwardBy(x, next, evs[1..], mid, end);
      Then(x, st, evs[0], next, end);
    }
  }

  // The grid with these two items.
  function Pair(a: S.Item, b: S.Item, stop: int, gm: map<int, int>): S.Grid {
    S.Grid([S.Group([a, b], [], [], [stop], 2)], gm)
  }

  // The same with item `i` given first.
  function Side(i: nat, me: S.Item, other: S.Item, stop: int, gm: map<int, int>): S.Grid {
    if i == 0 then Pair(me, other, stop, gm) else Pair(other, me, stop, gm)
  }

  function At(it: S.Item, s: Stmt, k: Cont): S.Item {
    it.(pc := S.Run(s, k))
  }

  // What one act of item `i` does to this item, the stop counter and the memory.
  ghost predicate Acts(x: Var, i: nat, me: S.Item, other: S.Item, stop: int, gm: map<int, int>, timer: bool,
                       me': S.Item, stop': int, gm': map<int, int>)
    requires i < 2 && S.CanAct(me.pc)
  {
    var gr := Side(i, me, other, stop, gm).groups[0];
    var (gr', gm1) := if me.pc.Run? then S.ActRun(gr, gm, i, 0, timer) else (S.ActProtocol(Prog(x), gr, i), gm);
    gm1 == gm' && gr'.stops == [stop'] && gr' == gr.(items := gr.items[i := me'], stops := gr'.stops)
  }

  lemma Does(x: Var, i: nat, me: S.Item, other: S.Item, stop: int, gm: map<int, int>, timer: bool,
             me': S.Item, stop': int, gm': map<int, int>, end: S.Grid)
    requires i < 2 && S.CanAct(me.pc) && Acts(x, i, me, other, stop, gm, timer, me', stop', gm')
    requires Reaches(x, Side(i, me', other, stop', gm'), end)
    ensures Reaches(x, Side(i, me, other, stop, gm), end)
  {
    var st, mid := Side(i, me, other, stop, gm), Side(i, me', other, stop', gm');
    assert st.groups[0].items[i := me'] == mid.groups[0].items;
    assert st.groups[0 := mid.groups[0]] == mid.groups;
    Then(x, st, S.Act(0, i, 0, timer), mid, end);
  }

  // A step of item `i` in the kernel body.
  lemma Hop(x: Var, i: nat, me: S.Item, other: S.Item, stop: int, gm: map<int, int>, s: Stmt, k: Cont, env: Env)
    requires i < 2 && me.pc.Run? && Plain(me.pc.s, me.pc.k)
    requires PlainStep(me.pc.s, me.pc.k, me.id, Data(me.env, [], gm), 0) == Point(s, k, Data(env, [], gm))
    ensures Reaches(x, Side(i, me, other, stop, gm), Side(i, At(me, s, k).(env := env), other, stop, gm))
  {
    var st, end := Side(i, me, other, stop, gm), Side(i, At(me, s, k).(env := env), other, stop, gm);
    Here(x, end);
    Does(x, i, me, other, stop, gm, false, At(me, s, k).(env := env), stop, gm, end);
  }

  // A control move that any environment with x at 0 allows.
  lemma Jump(x: Var, i: nat, me: S.Item, other: S.Item, stop: int, gm: map<int, int>, s: Stmt, k: Cont, end: S.Grid)
    requires i < 2 && me.pc.Run? && Moves(me.pc.s, me.pc.k)
    requires Move(me.pc.s, me.pc.k, Eval(Cond(me.pc.s, me.pc.k), me.id, me.env) != 0) == (s, k)
    requires Reaches(x, Side(i, At(me, s, k), other, stop, gm), end)
    ensures Reaches(x, Side(i, me, other, stop, gm), end)
  {
    Hop(x, i, me, other, stop, gm, s, k, me.env);
    Onward(x, Side(i, me, other, stop, gm), Side(i, At(me, s, k), other, stop, gm), end);
  }

  // From the start to the timer test at the end of the loop body.
  lemma ToTest(x: Var, i: nat, me: S.Item, other: S.Item, stop: int, gm: map<int, int>, end: S.Grid)
    requires i < 2 && me.pc == S.Run(Code(x), KStop)
    requires Reaches(x, Side(i, At(me, Checkpoint(2, {x}), Again(x)).(env := me.env[x := 0]), other, stop, gm), end)
    ensures Reaches(x, Side(i, me, other, stop, gm), end)
  {
    var it := me.(env := me.env[x := 0]);
    var kt := KSeq(Tail(x), KStop);
    Jump(x, i, At(it, Skip, KSeq(Checkpoint(2, {x}), Again(x))), other, stop, gm, Checkpoint(2, {x}), Again(x), end);
    Jump(x, i, At(it, Body(x), Again(x)), other, stop, gm, Skip, KSeq(Checkpoint(2, {x}), Again(x)), end);
    Jump(x, i, At(it, Loop(false, Ref(x), Skip, Body(x)), KSeq(Rest(x), KStop)), other, stop, gm, Body(x), Again(x),
         end);
    Jump(x, i, At(it, Tail(x), KStop), other, stop, gm, Loop(false, Ref(x), Skip, Body(x)), KSeq(Rest(x), KStop), end);
    Jump(x, i, At(it, Skip, kt), other, stop, gm, Tail(x), KStop, end);
    Hop(x, i, At(me, Clear(x), kt), other, stop, gm, Skip, kt, it.env);
    Onward(x, Side(i, At(me, Clear(x), kt), other, stop, gm), Side(i, At(it, Skip, kt), other, stop, gm), end);
    Jump(x, i, At(me, Seq(Clear(x), Tail(x)), KStop), other, stop, gm, Clear(x), kt, end);
    Jump(x, i, me, other, stop, gm, Seq(Clear(x), Tail(x)), KStop, end);
  }

  function Gate(x: Var): S.Gate {
    S.Gate(0, 0, 3, {}, KSeq(Out(x), KStop))
  }

  // From behind the timer test to the barrier.
  lemma ToBarrier(x: Var, i: nat, me: S.Item, other: S.Item, stop: int, gm: map<int, int>, end: S.Grid)
    requires i < 2 && me.pc == S.Run(Skip, Again(x)) && Get(me.env, x) == 0
    requires Reaches(x, Side(i, me.(pc := S.Stop1(Gate(x))), other, stop - 1, gm), end)
    ensures Reaches(x, Side(i, me, other, stop, gm), end)
  {
    var stopped := At(me, Stop(0, 0, 3, {}), KSeq(Out(x), KStop));
    Does(x, i, stopped, other, stop, gm, false, me.(pc := S.Stop1(Gate(x))), stop - 1, gm, end);
    Jump(x, i, At(me, Rest(x), KStop), other, stop, gm, Stop(0, 0, 3, {}), KSeq(Out(x), KStop), end);
    Jump(x, i, At(me, Skip, KSeq(Rest(x), KStop)), other, stop, gm, Rest(x), KStop, end);
    Jump(x, i, At(me, Skip, KTest(Ref(x), Skip, Body(x), KSeq(Rest(x), KStop))), other, stop, gm,
         Skip, KSeq(Rest(x), KStop), end);
    Jump(x, i, me, other, stop, gm, Skip, KTest(Ref(x), Skip, Body(x), KSeq(Rest(x), KStop)), end);
  }

  // A barrier lets the item pass.
  lemma Lets(x: Var, i: nat, me: S.Item, other: S.Item, gm: map<int, int>, end: S.Grid)
    requires i < 2 && S.Waiting(me.pc) && other.pc.Gone?
    requires Reaches(x, Side(i, me.(pc := S.Past(me.pc)), other, 1, gm), end)
    ensures Reaches(x, Side(i, me, other, 1, gm), end)
  {
    var st, st' := Side(i, me, other, 1, gm), Side(i, me.(pc := S.Past(me.pc)), other, 1, gm);
    assert S.Waiting(st.groups[0].items[i].pc);
    assert S.Pass(st.groups[0]).items == st'.groups[0].items;
    assert st.groups[0 := st'.groups[0]] == st'.groups;
    Then(x, st, S.Release(0), st', end);
  }

  // With the other item gone, an item at the stop protocol reads 1 and parks.
  lemma Parks(x: Var, i: nat, me: S.Item, other: S.Item, gm: map<int, int>, end: S.Grid)
    requires i < 2 && me.pc == S.Stop1(Gate(x)) && other.pc.Gone?
    requires Reaches(x, Side(i, me.(pc := S.Gone, hdr := -3, prv := map[]), other, 2, gm), end)
    ensures Reaches(x, Side(i, me, other, 1, gm), end)
  {
    Leaves(x, i, me.(pc := S.Past2(Gate(x), 1)), other, gm, end);
    Lets(x, i, me.(pc := S.Stop2(Gate(x), 1)), other, gm, end);
    Does(x, i, me.(pc := S.Past1(Gate(x))), other, 1, gm, false, me.(pc := S.Stop2(Gate(x), 1)), 1, gm, end);
    Lets(x, i, me, other, gm, end);
  }

  lemma Leaves(x: Var, i: nat, me: S.Item, other: S.Item, gm: map<int, int>, end: S.Grid)
    requires i < 2 && me.pc == S.Past2(Gate(x), 1)
    requires Reaches(x, Side(i, me.(pc := S.Gone, hdr := -3, prv := map[]), other, 2, gm), end)
    ensures Reaches(x, Side(i, me, other, 1, gm), end)
  {
    var it := me.(hdr := -3, prv := map[]);
    Does(x, i, it.(pc := S.Exit0), other, 2, gm, false, it.(pc := S.Gone), 2, gm, end);
    Does(x, i, me, other, 1, gm, false, it.(pc := S.Exit0), 2, gm, end);
  }

  lemma Ends(x: Var, i: nat, me: S.Item, other: S.Item, gm: map<int, int>, end: S.Grid)
    requires i < 2 && me.pc == S.Run(Skip, KStop)
    requires Reaches(x, Side(i, me.(pc := S.Gone, hdr := 0), other, 2, gm), end)
    ensures Reaches(x, Side(i, me, other, 2, gm), end)
  {
    var left := me.(pc := S.Exit0, hdr := 0);
    Does(x, i, left, other, 2, gm, false, left.(pc := S.Gone), 2, gm, end);
    Does(x, i, me, other, 2, gm, false, left, 2, gm, end);
  }

  // An item that was let pass stores what it finds in x, and is done.
  lemma Stores(x: Var, i: nat, me: S.Item, other: S.Item, gm: map<int, int>, end: S.Grid)
    requires i < 2 && me.pc == S.Run(Skip, KSeq(Out(x), KStop))
    requires Reaches(x, Side(i, me.(pc := S.Gone, hdr := 0), other, 2, gm[me.id := Get(me.env, x)]), end)
    ensures Reaches(x, Side(i, me, other, 2, gm), end)
  {
    var gm' := gm[me.id := Get(me.env, x)];
    Ends(x, i, At(me, Skip, KStop), other, gm', end);
    Does(x, i, At(me, Out(x), KStop), other, 2, gm, false, At(me, Skip, KStop), 2, gm', end);
    Jump(x, i, me, other, 2, gm, Out(x), KStop, end);
  }

  // ------------------------------------------------- the run as a whole

  // First slice: item 0 gets to the barrier, item 1 stops at its timer test.
  lemma FirstSlice(x: Var, env: Env, end: S.Grid)
    requires Reaches(x, Pair(S.Item(0, S.Gone, env[x := 0], -3, map[]), S.Item(1, S.Gone, env[x := 0], 2, map[x := 0]),
                             2, map[]), end)
    ensures Reaches(x, Pair(S.Item(0, S.Run(Code(x), KStop), env, 1, map[]),
                            S.Item(1, S.Run(Code(x), KStop), env, 1, map[]), 2, map[]), end)
  {
    var env', gm: map<int, int> := env[x := 0], map[];
    var test, k := Checkpoint(2, {x}), Again(x);
    var a, b := S.Item(0, S.Run(Code(x), KStop), env, 1, map[]), S.Item(1, S.Run(Code(x), KStop), env, 1, map[]);
    var a1, b1 := At(a, test, k).(env := env'), At(b, test, k).(env := env');
    var a2 := a1.(pc := S.Stop1(Gate(x)));
    var b2 := S.Item(1, S.Exit0, env', 2, map[x := 0]);
    Parks(x, 0, a2, b2.(pc := S.Gone), gm, end);
    Does(x, 1, b2, a2, 1, gm, false, b2.(pc := S.Gone), 1, gm, end);
    assert S.Save(env', {x}) == map[x := 0];
    Does(x, 1, b1, a2, 1, gm, true, b2, 1, gm, end);
    ToTest(x, 1, b, a2, 1, gm, end);
    ToBarrier(x, 0, At(a1, Skip, k), b, 2, gm, end);
    Does(x, 0, a1, b, 2, gm, false, At(a1, Skip, k), 2, gm, end);
    ToTest(x, 0, a, b, 2, gm, end);
  }

  // Second slice: item 0 stays where it is, item 1 gets to the barrier.
  lemma SecondSlice(x: Var, env: Env, end: S.Grid)
    requires Reaches(x, Pair(S.Item(0, S.Gone, env, -3, map[]), S.Item(1, S.Gone, env[x := 0], -3, map[]), 2, map[]),
                     end)
    ensures Reaches(x, Pair(S.Item(0, S.Exit0, env, -3, map[]),
                            S.Item(1, S.Run(Skip, Again(x)), env[x := 0], 2, map[x := 0]), 2, map[]), end)
  {
    var gm: map<int, int> := map[];
    var a, b := S.Item(0, S.Gone, env, -3, map[]), S.Item(1, S.Run(Skip, Again(x)), env[x := 0], 2, map[x := 0]);
    Parks(x, 1, b.(pc := S.Stop1(Gate(x))), a, gm, end);
    ToBarrier(x, 1, b, a, 2, gm, end);
    Does(x, 0, a.(pc := S.Exit0), b, 2, gm, false, a, 2, gm, end);
  }

  // Third slice: both go on behind the barrier.
  lemma ThirdSlice(x: Var, env: Env, end: S.Grid)
    requires end == Pair(S.Item(0, S.Gone, env, 0, map[]), S.Item(1, S.Gone, env, 0, map[]), 2,
                         map[0 := Get(env, x), 1 := Get(env, x)])
    ensures Reaches(x, Pair(S.Item(0, S.Run(Skip, KSeq(Out(x), KStop)), env, 3, map[]),
                            S.Item(1, S.Run(Skip, KSeq(Out(x), KStop)), env, 3, map[]), 2, map[]), end)
  {
    var k := KSeq(Out(x), KStop);
    var a, b := S.Item(0, S.Run(Skip, k), env, 3, map[]), S.Item(1, S.Run(Skip, k), env, 3, map[]);
    Here(x, end);
    Stores(x, 1, b, a.(pc := S.Gone, hdr := 0), map[0 := Get(env, x)], end);
    Stores(x, 0, a, b, map[], end);
  }

  lemma Relaunches(x: Var, env: Env, a: S.Item, b: S.Item, a': S.Item, b': S.Item, end: S.Grid)
    requires a.pc.Gone? && b.pc.Gone? && a.hdr != 0 && a.hdr != 1 && b.hdr != 1 && !Clash([a.hdr, b.hdr])
    requires var h := Released([a.hdr, b.hdr]);
             a' == S.Enter(Prog(x), a, h[0], env) && b' == S.Enter(Prog(x), b, h[1], env)
    requires Reaches(x, Pair(a', b', 2, map[]), end)
    ensures Reaches(x, Pair(a, b, 2, map[]), end)
  {
    var st, st' := Pair(a, b, 2, map[]), Pair(a', b', 2, map[]);
    var ev := S.Relaunch(_ => env, _ => []);
    var h := S.HeadersOf(st.groups[0]);
    assert h == [a.hdr, b.hdr] && h[0] != 0;
    var gr := S.EnterGroup(Prog(x), st.groups[0], Released(h), _ => env, []);
    assert gr.items == [a', b'] && gr.stops == [2];
    assert S.NextSlice(Prog(x), st, _ => env, _ => []).groups == [gr];
    assert gr == st'.groups[0];
    assert S.Exec(Prog(x), st, ev) == Some(st');
    Then(x, st, ev, st', end);
  }

  lemma LaunchIs(x: Var, arg: int)
    ensures var env := map[x := arg];
            Launch(Prog(x), Two(x, arg), map[], _ => []) ==
            Pair(S.Item(0, S.Run(Code(x), KStop), env, 1, map[]), S.Item(1, S.Run(Code(x), KStop), env, 1, map[]), 2,
                 map[])
  {
    var gr := LaunchGroup(Prog(x), Two(x, arg).groups[0], map[], []);
    var env, start := map[x := arg], S.Run(Code(x), KStop);
    StartsFresh(Prog(x), Two(x, arg).groups[0], map[], [], _ => map[]);
    assert gr.items == [S.Item(0, start, env, 1, map[]), S.Item(1, start, env, 1, map[])];
    assert gr.stops == [2];
    assert Launch(Prog(x), Two(x, arg), map[], _ => []).groups == [gr];
  }

  lemma SecondLaunch(x: Var, env: Env, end: S.Grid)
    requires env.Keys == {x}
    requires Reaches(x, Pair(S.Item(0, S.Exit0, env, -3, map[]),
                             S.Item(1, S.Run(Skip, Again(x)), env[x := 0], 2, map[x := 0]), 2, map[]), end)
    ensures Reaches(x, Pair(S.Item(0, S.Gone, env[x := 0], -3, map[]), S.Item(1, S.Gone, env[x := 0], 2, map[x := 0]),
                            2, map[]), end)
  {
    var a, b := S.Item(0, S.Gone, env[x := 0], -3, map[]), S.Item(1, S.Gone, env[x := 0], 2, map[x := 0]);
    SiteOf(x, 2);
    assert env + map[x := 0] == env[x := 0];
    assert (map y | y in {x} :: Get(b.prv, y)) == map[x := 0];
    assert [-3, 2][1] != -3 && Released([-3, 2]) == [-3, 2];
    Relaunches(x, env, a, b, S.Item(0, S.Exit0, env, -3, map[]),
               S.Item(1, S.Run(Skip, Again(x)), env[x := 0], 2, map[x := 0]), end);
  }

  lemma ThirdLaunch(x: Var, env: Env, end: S.Grid)
    requires env.Keys == {x}
    requires Reaches(x, Pair(S.Item(0, S.Run(Skip, KSeq(Out(x), KStop)), env, 3, map[]),
                             S.Item(1, S.Run(Skip, KSeq(Out(x), KStop)), env, 3, map[]), 2, map[]), end)
    ensures Reaches(x, Pair(S.Item(0, S.Gone, env, -3, map[]), S.Item(1, S.Gone, env[x := 0], -3, map[]), 2, map[]),
                    end)
  {
    var a, b := S.Item(0, S.Gone, env, -3, map[]), S.Item(1, S.Gone, env[x := 0], -3, map[]);
    SiteOf(x, 3);
    var none: set<Var> := {};
    assert (map y | y in none :: Get(a.prv, y)) == map[] && env + map[] == env;
    assert Released([-3, -3]) == [3, 3];
    Relaunches(x, env, a, b, S.Item(0, S.Run(Skip, KSeq(Out(x), KStop)), env, 3, map[]),
               S.Item(1, S.Run(Skip, KSeq(Out(x), KStop)), env, 3, map[]), end);
  }

  lemma ThreeSlices(x: Var, arg: int) returns (end: S.Grid)
    ensures Reaches(x, Launch(Prog(x), Two(x, arg), map[], _ => []), end)
    ensures S.Finished(end) && end.gm == map[0 := arg, 1 := arg]
  {
    var env := map[x := arg];
    end := Pair(S.Item(0, S.Gone, env, 0, map[]), S.Item(1, S.Gone, env, 0, map[]), 2, map[0 := arg, 1 := arg]);
    ThirdSlice(x, env, end);
    ThirdLaunch(x, env, end);
    SecondSlice(x, env, end);
    SecondLaunch(x, env, end);
    FirstSlice(x, env, end);
    LaunchIs(x, arg);
  }

  // All that the results ask of a statement whose scope stays the same.
  predicate Proper(s: Stmt, scope: set<Var>) {
    IsKernel(s, scope) && DeclaredOnce(s, scope) && EndsReached(s) && Scope(s, scope) == scope
  }

  lemma BothProper(s1: Stmt, s2: Stmt, scope: set<Var>)
    requires Proper(s1, scope) && Proper(s2, scope) && BarriersOf(s1) !! BarriersOf(s2)
    ensures Proper(Seq(s1, s2), scope)
  {
  }

  lemma LossyIsKernel(x: Var)
    ensures IsKernel(Lossy(x), {x}) && DeclaredOnce(Lossy(x), {x}) && EndsReached(Lossy(x))
  {
    var loop, rest := Loop(false, Ref(x), Skip, Skip), Seq(Barrier(0), Out(x));
    assert Proper(Barrier(0), {x}) && Proper(Out(x), {x}) && Proper(Clear(x), {x});
    assert Proper(Skip, {x}) && Proper(loop, {x});
    assert BarriersOf(Out(x)) == {} && BarriersOf(Clear(x)) == {} && BarriersOf(Skip) == {} && BarriersOf(loop) == {};
    BothProper(Barrier(0), Out(x), {x});
    BothProper(loop, rest, {x});
    BothProper(Clear(x), SrcTail(x), {x});
  }

  // With the answers by block the kernel stores its argument, where in every
  // complete run of the source it stores 0.  Only what is read behind a barrier
  // keeps it from the results on preservation.
  lemma LostBehindBarrier(x: Var, arg: int) returns (evs: seq<S.Event>)
    ensures IsKernel(Lossy(x), {x}) && DeclaredOnce(Lossy(x), {x}) && EndsReached(Lossy(x))
    ensures AnswersByBlock(Instr(Lossy(x), Start({x}), Answers(x)).0, Answers(x))
    ensures !ReadsClaimed(Instr(Lossy(x), Start({x}), Answers(x)).0, Answers(x))
    ensures Initial(Two(x, arg), Lossy(x), 0)
    ensures var p := Compile(Lossy(x), Answers(x), {x}, 0);
            var r := S.ExecAll(p, Launch(p, Two(x, arg), map[], _ => []), evs);
            r.Some? && S.Finished(r.value) && r.value.gm == map[0 := arg, 1 := arg]
    ensures forall oevs | O.ExecAll(Two(x, arg), oevs).Some? && O.AllDone(O.ExecAll(Two(x, arg), oevs).value) ::
              O.ExecAll(Two(x, arg), oevs).value.gm == map[0 := 0, 1 := 0]
  {
    Emits(x);
    LossyIsKernel(x);
    AnswersAreByBlock(x);
    var end := ThreeSlices(x, arg);
    evs :| S.ExecAll(Prog(x), Launch(Prog(x), Two(x, arg), map[], _ => []), evs) == Some(end);
    forall oevs | O.ExecAll(Two(x, arg), oevs).Some? && O.AllDone(O.ExecAll(Two(x, arg), oevs).value)
      ensures O.ExecAll(Two(x, arg), oevs).value.gm == map[0 := 0, 1 := 0]
    {
      SourceLeavesZeros(x, arg, oevs);
    }
  }
}
