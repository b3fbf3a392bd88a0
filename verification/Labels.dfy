/** Resume labels of emitted code.  The switch at the head of an instrumented
    kernel jumps to a label; where control goes on from there is decided by the
    text alone.  A run that reaches a label always arrives with exactly that
    continuation. */
module Labels {
  import opened Wrappers
  import opened Kernel
  import opened Liveness

  // What a label restores, and where control continues after it.  A `Wait`
  // label follows the barrier `b` whose stop counter is number `idx`.
  datatype Site =
    | Resume(save: set<Var>, k: Cont)
    | Wait(b: nat, idx: nat, save: set<Var>, k: Cont)

  function LabelsOf(s: Stmt): set<nat> {
    match s
    case Seq(s1, s2) => LabelsOf(s1) + LabelsOf(s2)
    case Block(body) => LabelsOf(body)
    case If(_, s1, s2) => LabelsOf(s1) + LabelsOf(s2)
    case Loop(_, _, _, body) => LabelsOf(body)
    case Checkpoint(n, _) => {n}
    case Stop(_, _, n, _) => {n}
    case _ => {}
  }

  // The case label `n` inside `s`, when `k` is what follows `s`.
  function Find(n: nat, s: Stmt, k: Cont): Option<Site> {
    match s
    case Seq(s1, s2) =>
      var r := Find(n, s1, KSeq(s2, k));
      if r.Some? then r else Find(n, s2, k)
    case Block(body) => Find(n, body, k)
    case If(_, s1, s2) =>
      var r := Find(n, s1, k);
      if r.Some? then r else Find(n, s2, k)
    case Loop(_, c, inc, body) => Find(n, body, KBody(c, inc, body, k))
    case Checkpoint(m, save) => if m == n then Some(Resume(save, k)) else None
    case Stop(b, idx, m, save) => if m == n then Some(Wait(b, idx, save, k)) else None
    case _ => None
  }

  // The increment of a loop: assignments only.
  predicate Simple(s: Stmt) {
    match s
    case Skip => true
    case Do(p) => !p.Decl?
    case Seq(s1, s2) => Simple(s1) && Simple(s2)
    case _ => false
  }

  // Emitted code: no bare barrier is left, no label occurs twice, and a timer
  // test stands only at the end of a loop body (`end`: `s` is at such an end).
  predicate Emitted(s: Stmt, end: bool) {
    match s
    case Seq(s1, s2) => Emitted(s1, false) && Emitted(s2, end) && LabelsOf(s1) !! LabelsOf(s2)
    case Block(body) => Emitted(body, end)
    case If(_, s1, s2) => Emitted(s1, false) && Emitted(s2, false) && LabelsOf(s1) !! LabelsOf(s2)
    case Loop(_, _, inc, body) => Simple(inc) && Emitted(body, true)
    case Barrier(_) => false
    case Checkpoint(_, _) => end
    case _ => true
  }

  lemma {:induction false} EmittedAnywhere(s: Stmt, end: bool)
    requires Emitted(s, false)
    ensures Emitted(s, end)
  {
    match s
    case Seq(_, s2) => EmittedAnywhere(s2, end);
    case Block(body) => EmittedAnywhere(body, end);
    case _ =>
  }

  // `s` followed by `k` sits in the program `top` where the text puts it.
  ghost predicate Placed(top: Stmt, s: Stmt, k: Cont) {
    && Emitted(s, k.KBody?)
    && forall n | n in LabelsOf(s) :: Find(n, s, k) == Find(n, top, KStop)
  }

  ghost predicate PlacedK(top: Stmt, k: Cont) {
    match k
    case KStop => true
    case KSeq(s, k') => Placed(top, s, k') && PlacedK(top, k')
    case KBody(c, inc, body, k') => Simple(inc) && Placed(top, body, k) && PlacedK(top, k')
    case KTest(c, inc, body, k') =>
      Simple(inc) && Placed(top, body, KBody(c, inc, body, k')) && PlacedK(top, k')
  }

  lemma {:induction false} SimpleCode(s: Stmt)
    requires Simple(s)
    ensures Emitted(s, false) && LabelsOf(s) == {}
  {
    match s
    case Seq(s1, s2) => SimpleCode(s1); SimpleCode(s2);
    case _ =>
  }

  lemma {:induction false} FindHits(n: nat, s: Stmt, k: Cont)
    ensures Find(n, s, k).Some? <==> n in LabelsOf(s)
  {
    match s
    case Seq(s1, s2) => FindHits(n, s1, KSeq(s2, k)); FindHits(n, s2, k);
    case Block(body) => FindHits(n, body, k);
    case If(_, s1, s2) => FindHits(n, s1, k); FindHits(n, s2, k);
    case Loop(_, c, inc, body) => FindHits(n, body, KBody(c, inc, body, k));
    case _ =>
  }

  lemma PlacedSeq(top: Stmt, s1: Stmt, s2: Stmt, k: Cont)
    requires Placed(top, Seq(s1, s2), k)
    ensures Placed(top, s1, KSeq(s2, k)) && Placed(top, s2, k)
  {
    var s := Seq(s1, s2);
    forall n | n in LabelsOf(s1) ensures Find(n, s1, KSeq(s2, k)) == Find(n, s, k) { FindHits(n, s1, KSeq(s2, k)); }
    forall n | n in LabelsOf(s2) ensures Find(n, s2, k) == Find(n, s, k) { FindHits(n, s1, KSeq(s2, k)); }
  }

  lemma PlacedIf(top: Stmt, c: Expr, s1: Stmt, s2: Stmt, k: Cont)
    requires Placed(top, If(c, s1, s2), k)
    ensures Placed(top, s1, k) && Placed(top, s2, k)
  {
    var s := If(c, s1, s2);
    EmittedAnywhere(s1, k.KBody?);
    EmittedAnywhere(s2, k.KBody?);
    forall n | n in LabelsOf(s1) ensures Find(n, s1, k) == Find(n, s, k) { FindHits(n, s1, k); }
    forall n | n in LabelsOf(s2) ensures Find(n, s2, k) == Find(n, s, k) { FindHits(n, s1, k); }
  }

  lemma PlacedParts(top: Stmt, s: Stmt, k: Cont)
    requires Placed(top, s, k)
    ensures s.Seq? ==> Placed(top, s.s1, KSeq(s.s2, k)) && Placed(top, s.s2, k)
    ensures s.Block? ==> Placed(top, s.body, k)
    ensures s.If? ==> Placed(top, s.s1, k) && Placed(top, s.s2, k)
    ensures s.Loop? ==> Placed(top, s.body, KBody(s.c, s.inc, s.body, k))
  {
    match s
    case Seq(s1, s2) => PlacedSeq(top, s1, s2, k);
    case If(c, s1, s2) => PlacedIf(top, c, s1, s2, k);
    case Loop(_, c, inc, body) =>
      assert forall n | n in LabelsOf(body) :: Find(n, body, KBody(c, inc, body, k)) == Find(n, s, k);
    case _ =>
  }

  lemma {:induction false} PlacedJumps(top: Stmt, k: Cont)
    requires PlacedK(top, k)
    ensures PlacedK(top, BreakTo(k))
    ensures var (s', k') := ContinueTo(k); Placed(top, s', k') && PlacedK(top, k')
  {
    match k
    case KStop =>
    case KSeq(_, k') => PlacedJumps(top, k');
    case KBody(_, inc, _, _) => SimpleCode(inc);
    case KTest(_, _, _, _) =>
  }

  // Every control move stays where the text put it.
  lemma {:induction false} MovePlaced(top: Stmt, s: Stmt, k: Cont, taken: bool)
    requires Moves(s, k) && Placed(top, s, k) && PlacedK(top, k)
    ensures var (s', k') := Move(s, k, taken); Placed(top, s', k') && PlacedK(top, k')
  {
    PlacedParts(top, s, k);
    match s
    case Skip => if k.KBody? { SimpleCode(k.inc); }
    case Break => PlacedJumps(top, k);
    case Continue => PlacedJumps(top, k);
    case _ =>
  }

  // A jump to a label arrives at a well-placed continuation; after a timer test
  // that is the end of a loop body.
  lemma {:induction false} FindPlaced(top: Stmt, n: nat, s: Stmt, k: Cont)
    requires Placed(top, s, k) && PlacedK(top, k) && n in LabelsOf(s)
    ensures Find(n, s, k).Some? && PlacedK(top, Find(n, s, k).value.k)
    ensures Find(n, s, k).value.Resume? ==> Find(n, s, k).value.k.KBody?
  {
    PlacedParts(top, s, k);
    FindHits(n, s, k);
    match s
    case Seq(s1, s2) =>
      FindHits(n, s1, KSeq(s2, k));
      if n in LabelsOf(s1) { FindPlaced(top, n, s1, KSeq(s2, k)); } else { FindPlaced(top, n, s2, k); }
    case Block(body) => FindPlaced(top, n, body, k);
    case If(_, s1, s2) =>
      FindHits(n, s1, k);
      if n in LabelsOf(s1) { FindPlaced(top, n, s1, k); } else { FindPlaced(top, n, s2, k); }
    case Loop(_, c, inc, body) => FindPlaced(top, n, body, KBody(c, inc, body, k));
    case _ =>
  }

  // ------------------------------------------------------------- erasure

  // The source statement that emitted code stands for.
  function Erase(s: Stmt): Stmt {
    match s
    case Seq(s1, s2) => if s2.Checkpoint? then Erase(s1) else Seq(Erase(s1), Erase(s2))
    case Block(body) => Block(Erase(body))
    case If(c, s1, s2) => If(c, Erase(s1), Erase(s2))
    case Loop(pre, c, inc, body) => Loop(pre, c, inc, Erase(body))
    case Checkpoint(_, _) => Skip
    case Stop(b, _, _, _) => Barrier(b)
    case _ => s
  }

  function EraseK(k: Cont): Cont {
    match k
    case KStop => KStop
    case KSeq(s, k') => if s.Checkpoint? then EraseK(k') else KSeq(Erase(s), EraseK(k'))
    case KBody(c, inc, body, k') => KBody(c, inc, Erase(body), EraseK(k'))
    case KTest(c, inc, body, k') => KTest(c, inc, Erase(body), EraseK(k'))
  }

  // Moves of emitted code that the source does not have.
  predicate Stutters(s: Stmt, k: Cont) {
    || (s.Seq? && s.s2.Checkpoint?)
    || (s.Skip? && k.KSeq? && k.s.Checkpoint?)
  }

  lemma {:induction false} EraseSimple(s: Stmt)
    requires Simple(s)
    ensures Erase(s) == s
  {
    match s
    case Seq(s1, s2) => EraseSimple(s1); EraseSimple(s2);
    case _ =>
  }

  lemma {:induction false} EraseJumps(top: Stmt, k: Cont)
    requires PlacedK(top, k)
    ensures EraseK(BreakTo(k)) == BreakTo(EraseK(k))
    ensures var (s', k') := ContinueTo(k); (Erase(s'), EraseK(k')) == ContinueTo(EraseK(k))
  {
    match k
    case KStop =>
    case KSeq(_, k') => EraseJumps(top, k');
    case KBody(_, inc, _, _) => EraseSimple(inc);
    case KTest(_, _, _, _) =>
  }

  // Emitted code takes the source's control moves, apart from stutters.
  lemma {:induction false} EraseMoves(top: Stmt, s: Stmt, k: Cont, taken: bool)
    requires Moves(s, k) && PlacedK(top, k)
    ensures var (s', k') := Move(s, k, taken);
            if Stutters(s, k) then Erase(s') == Erase(s) && EraseK(k') == EraseK(k)
            else Moves(Erase(s), EraseK(k)) && Move(Erase(s), EraseK(k), taken) == (Erase(s'), EraseK(k'))
  {
    match s
    case Skip => if k.KBody? { EraseSimple(k.inc); }
    case Break => EraseJumps(top, k);
    case Continue => EraseJumps(top, k);
    case _ =>
  }

  lemma {:induction false} EraseCond(s: Stmt, k: Cont)
    requires Moves(s, k) && !Stutters(s, k)
    ensures Cond(Erase(s), EraseK(k)) == Cond(s, k)
  {
  }

  // Erasing labels does not change what is live.
  lemma {:induction false} EraseLive(s: Stmt, after: set<Var>, brk: set<Var>, cnt: set<Var>)
    ensures Live(Erase(s), after, brk, cnt) == Live(s, after, brk, cnt)
  {
    match s
    case Seq(s1, s2) =>
      EraseLive(s2, after, brk, cnt);
      EraseLive(s1, Live(s2, after, brk, cnt), brk, cnt);
    case Block(body) => EraseLive(body, after, brk, cnt);
    case If(_, s1, s2) => EraseLive(s1, after, brk, cnt); EraseLive(s2, after, brk, cnt);
    case Loop(_, c, inc, body) =>
      var i0 := Live(inc, {}, {}, {});
      EraseLive(body, i0, after, i0);
      var next := Live(inc, LiveTest(c, inc, body, after), {}, {});
      EraseLive(body, next, after, next);
    case _ =>
  }

  lemma {:induction false} EraseLiveK(k: Cont)
    ensures LiveK(EraseK(k)) == LiveK(k) && LiveBrk(EraseK(k)) == LiveBrk(k) && LiveCnt(EraseK(k)) == LiveCnt(k)
  {
    match k
    case KStop =>
    case KSeq(s, k') =>
      EraseLiveK(k');
      EraseLive(s, LiveK(k'), LiveBrk(k'), LiveCnt(k'));
    case KBody(_, inc, body, k') =>
      EraseLiveK(k');
      EraseLive(body, Live(inc, {}, {}, {}), LiveK(k'), Live(inc, {}, {}, {}));
    case KTest(_, inc, body, k') =>
      EraseLiveK(k');
      EraseLive(body, Live(inc, {}, {}, {}), LiveK(k'), Live(inc, {}, {}, {}));
  }
}
