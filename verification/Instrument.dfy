/** The source transformation: every barrier gets a stop counter and a resume
    label, every loop that may repeat gets a timer test and a resume label at
    the end of its body.  `Instr` threads the state that the visitor keeps. */
module Instrument {
  import opened Wrappers
  import opened Kernel
  import opened Liveness
  import opened Labels

  // Nonce, BarrierIdx, and the live-variable tracker with its scope number.
  datatype State = State(nonce: nat, bidx: nat, tracker: map<Var, nat>, scope: nat)

  function AddTrack(tracker: map<Var, nat>, x: Var, scope: nat): map<Var, nat> {
    if x in tracker then tracker else tracker[x := scope]
  }

  function PopScope(tracker: map<Var, nat>, scope: nat): map<Var, nat> {
    map x | x in tracker && tracker[x] < scope :: tracker[x]
  }

  // Insert a timer test at the end of a loop body: inside the braces of a
  // compound body, else after it.
  function AtEnd(body: Stmt, test: Stmt): Stmt {
    if body.Block? then Block(Seq(body.body, test)) else Seq(body, test)
  }

  // `claim(n)` is the compiler's answer to which variables are live at label n;
  // what is saved there are the tracked ones among them.
  function Instr(s: Stmt, st: State, claim: nat -> set<Var>): (Stmt, State) {
    match s
    case Do(p) =>
      (s, if p.Decl? then st.(tracker := AddTrack(st.tracker, p.x, st.scope)) else st)
    case Seq(s1, s2) =>
      var (t1, st1) := Instr(s1, st, claim);
      var (t2, st2) := Instr(s2, st1, claim);
      (Seq(t1, t2), st2)
    case Block(body) =>
      var (t, st1) := Instr(body, st.(scope := st.scope + 1), claim);
      (Block(t), st1.(tracker := PopScope(st1.tracker, st.scope + 1), scope := st.scope))
    case If(c, s1, s2) =>
      var (t1, st1) := Instr(s1, st, claim);
      var (t2, st2) := Instr(s2, st1, claim);
      (If(c, t1, t2), st2)
    case Loop(pre, c, inc, body) =>
      var (t, st1) := Instr(body, st, claim);
      if NeverRepeats(c) then (Loop(pre, c, inc, t), st1)
      else
        var n := st1.nonce + 1;
        (Loop(pre, c, inc, AtEnd(t, Checkpoint(n, st1.tracker.Keys * claim(n)))), st1.(nonce := n))
    case Barrier(b) =>
      var n := st.nonce + 1;
      (Stop(b, st.bidx, n, st.tracker.Keys * claim(n)), st.(nonce := n, bidx := st.bidx + 1))
    case _ => (s, st)
  }

  // ------------------------------------------------------ source programs

  predicate Source(s: Stmt) {
    match s
    case Seq(s1, s2) => Source(s1) && Source(s2)
    case Block(body) => Source(body)
    case If(_, s1, s2) => Source(s1) && Source(s2)
    case Loop(_, _, inc, body) => Simple(inc) && Source(body)
    case Checkpoint(_, _) => false
    case Stop(_, _, _, _) => false
    case _ => true
  }

  // Variables in scope after `s`: a declaration lasts until its block ends.
  function Scope(s: Stmt, scope: set<Var>): set<Var> {
    match s
    case Do(p) => if p.Decl? then scope + {p.x} else scope
    case Seq(s1, s2) => Scope(s2, Scope(s1, scope))
    case _ => scope
  }

  function Declared(s: Stmt): set<Var> {
    match s
    case Do(p) => if p.Decl? then {p.x} else {}
    case Seq(s1, s2) => Declared(s1) + Declared(s2)
    case Block(body) => Declared(body)
    case If(_, s1, s2) => Declared(s1) + Declared(s2)
    case Loop(_, _, _, body) => Declared(body)
    case _ => {}
  }

  // Every variable is read in the scope of its declaration, and a branch or a
  // loop body declares variables only inside a block of its own.
  predicate WellScoped(s: Stmt, scope: set<Var>) {
    match s
    case Do(p) => Uses(p) <= scope
    case Seq(s1, s2) => WellScoped(s1, scope) && WellScoped(s2, Scope(s1, scope))
    case Block(body) => WellScoped(body, scope)
    case If(c, s1, s2) =>
      && Reads(c) <= scope && WellScoped(s1, scope) && WellScoped(s2, scope)
      && Scope(s1, scope) == scope && Scope(s2, scope) == scope
    case Loop(_, c, inc, body) =>
      && Reads(c) <= scope && WellScoped(inc, scope) && WellScoped(body, scope)
      && Scope(body, scope) == scope
    case _ => true
  }

  function BarriersOf(s: Stmt): set<nat> {
    match s
    case Seq(s1, s2) => BarriersOf(s1) + BarriersOf(s2)
    case Block(body) => BarriersOf(body)
    case If(_, s1, s2) => BarriersOf(s1) + BarriersOf(s2)
    case Loop(_, _, _, body) => BarriersOf(body)
    case Barrier(b) => {b}
    case _ => {}
  }

  // Barriers carry their place in the text, so no two are the same.
  predicate DistinctBarriers(s: Stmt) {
    match s
    case Seq(s1, s2) => DistinctBarriers(s1) && DistinctBarriers(s2) && BarriersOf(s1) !! BarriersOf(s2)
    case Block(body) => DistinctBarriers(body)
    case If(_, s1, s2) => DistinctBarriers(s1) && DistinctBarriers(s2) && BarriersOf(s1) !! BarriersOf(s2)
    case Loop(_, _, _, body) => DistinctBarriers(body)
    case _ => true
  }

  // ------------------------------------------------------------- erasure

  lemma {:induction false} InstrErases(s: Stmt, st: State, claim: nat -> set<Var>)
    requires Source(s)
    ensures Erase(Instr(s, st, claim).0) == s
  {
    match s
    case Seq(s1, s2) =>
      InstrErases(s1, st, claim);
      InstrErases(s2, Instr(s1, st, claim).1, claim);
    case Block(body) => InstrErases(body, st.(scope := st.scope + 1), claim);
    case If(_, s1, s2) =>
      InstrErases(s1, st, claim);
      InstrErases(s2, Instr(s1, st, claim).1, claim);
    case Loop(_, c, _, body) =>
      InstrErases(body, st, claim);
      var (t, st1) := Instr(body, st, claim);
      AtEndShape(t, st1.nonce + 1, st1.tracker.Keys * claim(st1.nonce + 1));
    case _ =>
  }

  // ------------------------------------------------- labels and counters

  datatype Mark = Mark(b: nat, idx: nat, n: nat)

  function Marks(s: Stmt): set<Mark> {
    match s
    case Seq(s1, s2) => Marks(s1) + Marks(s2)
    case Block(body) => Marks(body)
    case If(_, s1, s2) => Marks(s1) + Marks(s2)
    case Loop(_, _, _, body) => Marks(body)
    case Stop(b, idx, n, _) => {Mark(b, idx, n)}
    case _ => {}
  }

  // Barrier, stop counter and label determine one another.
  ghost predicate OneToOne(marks: set<Mark>) {
    forall x, y | x in marks && y in marks ::
      x.b == y.b || x.idx == y.idx || x.n == y.n ==> x == y
  }

  ghost predicate MarksWithin(s: Stmt, src: Stmt, st: State, st': State) {
    forall x | x in Marks(s) ::
      x.b in BarriersOf(src) && st.bidx <= x.idx < st'.bidx && st.nonce < x.n <= st'.nonce
  }

  lemma {:induction false} AtEndShape(body: Stmt, n: nat, save: set<Var>)
    ensures var t := AtEnd(body, Checkpoint(n, save));
            && Erase(t) == Erase(body)
            && LabelsOf(t) == LabelsOf(body) + {n}
            && Marks(t) == Marks(body)
            && (Emitted(body, false) && n !in LabelsOf(body) ==> Emitted(t, true))
  {
    var test := Checkpoint(n, save);
    assert LabelsOf(test) == {n} && Marks(test) == {};
    if body.Block? {
      assert LabelsOf(Seq(body.body, test)) == LabelsOf(body.body) + {n};
      assert Marks(Seq(body.body, test)) == Marks(body.body) + {};
    } else {
      assert Marks(Seq(body, test)) == Marks(body) + {};
    }
  }

  lemma {:induction false} InstrLabels(s: Stmt, st: State, claim: nat -> set<Var>)
    requires Source(s)
    ensures var (t, st') := Instr(s, st, claim);
            && st.nonce <= st'.nonce && Emitted(t, false)
            && forall n | n in LabelsOf(t) :: st.nonce < n <= st'.nonce
  {
    match s
    case Seq(s1, s2) =>
      InstrLabels(s1, st, claim);
      InstrLabels(s2, Instr(s1, st, claim).1, claim);
    case Block(body) => InstrLabels(body, st.(scope := st.scope + 1), claim);
    case If(_, s1, s2) =>
      InstrLabels(s1, st, claim);
      InstrLabels(s2, Instr(s1, st, claim).1, claim);
    case Loop(_, c, _, body) =>
      InstrLabels(body, st, claim);
      var (t, st1) := Instr(body, st, claim);
      AtEndShape(t, st1.nonce + 1, st1.tracker.Keys * claim(st1.nonce + 1));
      EmittedAnywhere(t, true);
    case _ =>
  }

  // No number is left out: the labels of a statement are the next ones, and so
  // are its stop counters.
  lemma {:induction false} InstrNumbers(s: Stmt, st: State, claim: nat -> set<Var>)
    requires Source(s)
    ensures var (t, st') := Instr(s, st, claim);
            && (forall n: nat :: n in LabelsOf(t) <==> st.nonce < n <= st'.nonce)
            && (forall idx: nat :: idx in StopsOf(t) <==> st.bidx <= idx < st'.bidx)
            && st.nonce <= st'.nonce && st.bidx <= st'.bidx
  {
    match s
    case Seq(s1, s2) =>
      InstrNumbers(s1, st, claim);
      InstrNumbers(s2, Instr(s1, st, claim).1, claim);
    case Block(body) => InstrNumbers(body, st.(scope := st.scope + 1), claim);
    case If(_, s1, s2) =>
      InstrNumbers(s1, st, claim);
      InstrNumbers(s2, Instr(s1, st, claim).1, claim);
    case Loop(_, c, _, body) =>
      InstrNumbers(body, st, claim);
      var (t, st1) := Instr(body, st, claim);
      AtEndNumbers(t, st1.nonce + 1, st1.tracker.Keys * claim(st1.nonce + 1));
    case _ =>
  }

  lemma AtEndNumbers(body: Stmt, n: nat, save: set<Var>)
    ensures var t := AtEnd(body, Checkpoint(n, save));
            LabelsOf(t) == LabelsOf(body) + {n} && StopsOf(t) == StopsOf(body)
  {
    AtEndShape(body, n, save);
    if body.Block? { assert StopsOf(Seq(body.body, Checkpoint(n, save))) == StopsOf(body.body) + {}; }
    else { assert StopsOf(Seq(body, Checkpoint(n, save))) == StopsOf(body) + {}; }
  }

  function StopsOf(s: Stmt): set<nat> {
    match s
    case Seq(s1, s2) => StopsOf(s1) + StopsOf(s2)
    case Block(body) => StopsOf(body)
    case If(_, s1, s2) => StopsOf(s1) + StopsOf(s2)
    case Loop(_, _, _, body) => StopsOf(body)
    case Stop(_, idx, _, _) => {idx}
    case _ => {}
  }

  lemma OneToOneUnion(g1: set<Mark>, g2: set<Mark>)
    requires OneToOne(g1) && OneToOne(g2)
    requires forall x, y | x in g1 && y in g2 :: x.b != y.b && x.idx != y.idx && x.n != y.n
    ensures OneToOne(g1 + g2)
  {
  }

  lemma {:induction false} InstrMarks(s: Stmt, st: State, claim: nat -> set<Var>)
    requires Source(s) && DistinctBarriers(s)
    ensures var (t, st') := Instr(s, st, claim);
            st.bidx <= st'.bidx && MarksWithin(t, s, st, st') && OneToOne(Marks(t))
    decreases s, 1
  {
    match s
    case Seq(s1, s2) => InstrBothMarks(s, s1, s2, st, claim);
    case Block(body) => InstrMarks(body, st.(scope := st.scope + 1), claim);
    case If(_, s1, s2) => InstrBothMarks(s, s1, s2, st, claim);
    case Loop(_, _, _, body) =>
      InstrMarks(body, st, claim);
      InstrLoopMarks(s, st, claim);
    case Barrier(b) => InstrBarrierMarks(b, st, claim);
    case _ =>
  }

  lemma OneMark(mark: Mark)
    ensures OneToOne({mark})
  {
  }

  lemma InstrBarrierMarks(b: nat, st: State, claim: nat -> set<Var>)
    ensures var (t, st') := Instr(Barrier(b), st, claim);
            st.bidx <= st'.bidx && MarksWithin(t, Barrier(b), st, st') && OneToOne(Marks(t))
  {
    var (t, st') := Instr(Barrier(b), st, claim);
    StopMark(t, Mark(b, st.bidx, st.nonce + 1));
    OneMark(Mark(b, st.bidx, st.nonce + 1));
  }

  lemma StopMark(t: Stmt, mark: Mark)
    requires t.Stop? && mark == Mark(t.b, t.idx, t.n)
    ensures Marks(t) == {mark}
  {
  }

  // The test at the end of a loop body is no barrier.
  lemma InstrLoopMarks(s: Stmt, st: State, claim: nat -> set<Var>)
    requires s.Loop?
    ensures var (t, st') := Instr(s, st, claim);
            var (t1, st1) := Instr(s.body, st, claim);
            && Marks(t) == Marks(t1) && st'.bidx == st1.bidx && st1.nonce <= st'.nonce
            && BarriersOf(s) == BarriersOf(s.body)
  {
    var (t, st1) := Instr(s.body, st, claim);
    AtEndShape(t, st1.nonce + 1, st1.tracker.Keys * claim(st1.nonce + 1));
  }

  lemma {:induction false} InstrBothMarks(s: Stmt, s1: Stmt, s2: Stmt, st: State, claim: nat -> set<Var>)
    requires (s.Seq? || s.If?) && s.s1 == s1 && s.s2 == s2 && Source(s) && DistinctBarriers(s)
    ensures var (t1, st1) := Instr(s1, st, claim);
            var (t2, st2) := Instr(s2, st1, claim);
            && st.bidx <= st1.bidx <= st2.bidx && st.nonce <= st1.nonce <= st2.nonce
            && MarksWithin(t1, s1, st, st1) && MarksWithin(t2, s2, st1, st2)
            && OneToOne(Marks(t1) + Marks(t2))
    decreases s, 0
  {
    var (t1, st1) := Instr(s1, st, claim);
    InstrMarks(s1, st, claim);
    InstrMarks(s2, st1, claim);
    InstrLabels(s1, st, claim);
    InstrLabels(s2, st1, claim);
    OneToOneUnion(Marks(t1), Marks(Instr(s2, st1, claim).0));
  }

  lemma {:induction false} FindMark(n: nat, s: Stmt, k: Cont)
    ensures var r := Find(n, s, k);
            r.Some? && r.value.Wait? ==> Mark(r.value.b, r.value.idx, n) in Marks(s)
  {
    match s
    case Seq(s1, s2) => FindMark(n, s1, KSeq(s2, k)); FindMark(n, s2, k);
    case Block(body) => FindMark(n, body, k);
    case If(_, s1, s2) => FindMark(n, s1, k); FindMark(n, s2, k);
    case Loop(_, c, inc, body) => FindMark(n, body, KBody(c, inc, body, k));
    case _ =>
  }

  // ------------------------------------------------------------- tracker

  ghost predicate Bounded(tracker: map<Var, nat>, scope: nat) {
    forall x | x in tracker :: tracker[x] <= scope
  }

  // Traversing a statement only adds to the tracker, at the current scope;
  // traversing a block leaves the tracker exactly as it was.
  lemma {:induction false} InstrTracks(s: Stmt, st: State, claim: nat -> set<Var>)
    requires Bounded(st.tracker, st.scope)
    ensures var st' := Instr(s, st, claim).1;
            && st'.scope == st.scope && Bounded(st'.tracker, st.scope)
            && (forall x | x in st.tracker :: x in st'.tracker && st'.tracker[x] == st.tracker[x])
            && (forall x | x in st'.tracker && x !in st.tracker :: st'.tracker[x] == st.scope)
            && (s.Block? ==> st'.tracker == st.tracker)
  {
    match s
    case Seq(s1, s2) =>
      InstrTracks(s1, st, claim);
      InstrTracks(s2, Instr(s1, st, claim).1, claim);
    case Block(body) => InstrTracks(body, st.(scope := st.scope + 1), claim);
    case If(_, s1, s2) =>
      InstrTracks(s1, st, claim);
      InstrTracks(s2, Instr(s1, st, claim).1, claim);
    case Loop(_, _, _, body) => InstrTracks(body, st, claim);
    case _ =>
  }

  lemma {:induction false} InScopeIsTracked(s: Stmt, st: State, claim: nat -> set<Var>, scope: set<Var>)
    requires Bounded(st.tracker, st.scope) && scope <= st.tracker.Keys
    ensures Scope(s, scope) <= Instr(s, st, claim).1.tracker.Keys
  {
    InstrTracks(s, st, claim);
    match s
    case Seq(s1, s2) =>
      InstrTracks(s1, st, claim);
      InScopeIsTracked(s1, st, claim, scope);
      InScopeIsTracked(s2, Instr(s1, st, claim).1, claim, Scope(s1, scope));
    case _ =>
  }

  // Each label saves exactly the variables in scope that the compiler claims for
  // it.  The label of a loop belongs to the loop, not to the block that is its
  // body.
  predicate SavesScope(t: Stmt, scope: set<Var>, claim: nat -> set<Var>) {
    match t
    case Seq(t1, t2) => SavesScope(t1, scope, claim) && SavesScope(t2, Scope(t1, scope), claim)
    case Block(body) => SavesScope(body, scope, claim)
    case If(_, t1, t2) => SavesScope(t1, scope, claim) && SavesScope(t2, scope, claim)
    case Loop(_, _, _, Block(Seq(body, Checkpoint(n, save)))) =>
      SavesScope(body, scope, claim) && save == scope * claim(n)
    case Loop(_, _, _, Seq(body, Checkpoint(n, save))) =>
      SavesScope(body, scope, claim) && save == scope * claim(n)
    case Loop(_, _, _, body) => SavesScope(body, scope, claim)
    case Checkpoint(n, save) => save == scope * claim(n)
    case Stop(_, _, n, save) => save == scope * claim(n)
    case _ => true
  }

  lemma {:induction false} InstrSavesScope(s: Stmt, st: State, claim: nat -> set<Var>)
    requires Source(s) && WellScoped(s, st.tracker.Keys) && Bounded(st.tracker, st.scope)
    ensures var (t, st') := Instr(s, st, claim);
            && SavesScope(t, st.tracker.Keys, claim)
            && st'.tracker.Keys == Scope(s, st.tracker.Keys) == Scope(t, st.tracker.Keys)
  {
    InstrTracks(s, st, claim);
    match s
    case Seq(s1, s2) =>
      InstrTracks(s1, st, claim);
      InstrSavesScope(s1, st, claim);
      InstrSavesScope(s2, Instr(s1, st, claim).1, claim);
    case Block(body) => InstrSavesScope(body, st.(scope := st.scope + 1), claim);
    case If(_, s1, s2) =>
      InstrTracks(s1, st, claim);
      InstrSavesScope(s1, st, claim);
      InstrSavesScope(s2, Instr(s1, st, claim).1, claim);
    case Loop(_, _, _, body) =>
      InstrSavesScope(body, st, claim);
      LoopSavesScope(s, st, claim);
    case _ =>
  }

  lemma LoopSavesScope(s: Stmt, st: State, claim: nat -> set<Var>)
    requires s.Loop? && Source(s) && WellScoped(s, st.tracker.Keys)
    requires var (t, st') := Instr(s.body, st, claim);
             SavesScope(t, st.tracker.Keys, claim) && st'.tracker.Keys == st.tracker.Keys
    ensures SavesScope(Instr(s, st, claim).0, st.tracker.Keys, claim)
  {
    if s.body.Block? { NoTestYet(s.body.body, st.(scope := st.scope + 1), claim); }
    else { NoTestYet(s.body, st, claim); }
  }

  lemma NoTestYet(s: Stmt, st: State, claim: nat -> set<Var>)
    requires Source(s)
    ensures var t := Instr(s, st, claim).0; !t.Checkpoint? && (t.Seq? ==> !t.s2.Checkpoint?)
  {
  }

  // In a well-scoped statement nothing is live outside its scope.
  lemma {:induction false} LiveInScope(s: Stmt, scope: set<Var>, after: set<Var>, brk: set<Var>, cnt: set<Var>)
    requires WellScoped(s, scope) && after <= Scope(s, scope) && brk <= scope && cnt <= scope
    ensures Live(s, after, brk, cnt) <= scope
    ensures scope <= Scope(s, scope)
  {
    match s
    case Seq(s1, s2) =>
      ScopeGrows(s1, scope);
      LiveInScope(s2, Scope(s1, scope), after, brk, cnt);
      LiveInScope(s1, scope, Live(s2, after, brk, cnt), brk, cnt);
    case Block(body) =>
      ScopeGrows(body, scope);
      LiveInScope(body, scope, after, brk, cnt);
    case If(_, s1, s2) =>
      LiveInScope(s1, scope, after, brk, cnt);
      LiveInScope(s2, scope, after, brk, cnt);
    case Loop(_, c, inc, body) =>
      ScopeGrows(inc, scope);
      LiveInScope(inc, scope, {}, {}, {});
      LiveInScope(body, scope, Live(inc, {}, {}, {}), after, Live(inc, {}, {}, {}));
      LiveInScope(inc, scope, LiveTest(c, inc, body, after), {}, {});
      LiveInScope(body, scope, Live(inc, LiveTest(c, inc, body, after), {}, {}), after,
                  Live(inc, LiveTest(c, inc, body, after), {}, {}));
    case _ =>
  }

  lemma {:induction false} ScopeGrows(s: Stmt, scope: set<Var>)
    ensures scope <= Scope(s, scope)
  {
    match s
    case Seq(s1, s2) => ScopeGrows(s1, scope); ScopeGrows(s2, Scope(s1, scope));
    case _ =>
  }

  // --------------------------------------------------- what is saved suffices

  // The compiler's claims cover everything that is live at a label of `s`.
  ghost predicate ClaimsLive(s: Stmt, k: Cont, claim: nat -> set<Var>) {
    forall n | n in LabelsOf(s) ::
      Find(n, s, k).Some? && LiveK(EraseK(Find(n, s, k).value.k)) <= claim(n)
  }

  ghost predicate SavesLive(s: Stmt, k: Cont) {
    forall n | n in LabelsOf(s) ::
      Find(n, s, k).Some? && LiveK(Find(n, s, k).value.k) <= Find(n, s, k).value.save
  }

  // Everything live after `s`, or at a jump out of it, is in scope there.
  ghost predicate LiveWithin(s: Stmt, k: Cont, scope: set<Var>) {
    LiveK(k) <= Scope(s, scope) && LiveBrk(k) <= scope && LiveCnt(k) <= scope
  }

  lemma SplitSeq(t1: Stmt, t2: Stmt, k: Cont, claim: nat -> set<Var>)
    requires Emitted(Seq(t1, t2), false)
    ensures ClaimsLive(Seq(t1, t2), k, claim) ==> ClaimsLive(t1, KSeq(t2, k), claim) && ClaimsLive(t2, k, claim)
    ensures SavesLive(t1, KSeq(t2, k)) && SavesLive(t2, k) ==> SavesLive(Seq(t1, t2), k)
  {
    var t := Seq(t1, t2);
    assert LabelsOf(t) == LabelsOf(t1) + LabelsOf(t2);
    forall n | n in LabelsOf(t)
      ensures Find(n, t, k) == if n in LabelsOf(t1) then Find(n, t1, KSeq(t2, k)) else Find(n, t2, k)
    {
      FindHits(n, t1, KSeq(t2, k));
    }
  }

  lemma SplitIf(c: Expr, t1: Stmt, t2: Stmt, k: Cont, claim: nat -> set<Var>)
    requires Emitted(If(c, t1, t2), false)
    ensures ClaimsLive(If(c, t1, t2), k, claim) ==> ClaimsLive(t1, k, claim) && ClaimsLive(t2, k, claim)
    ensures SavesLive(t1, k) && SavesLive(t2, k) ==> SavesLive(If(c, t1, t2), k)
  {
    var t := If(c, t1, t2);
    assert LabelsOf(t) == LabelsOf(t1) + LabelsOf(t2);
    forall n | n in LabelsOf(t)
      ensures Find(n, t, k) == if n in LabelsOf(t1) then Find(n, t1, k) else Find(n, t2, k)
    {
      FindHits(n, t1, k);
    }
  }

  // What the tracker and the claims have in common covers what is live.
  lemma {:induction false} InstrSaves(s: Stmt, st: State, claim: nat -> set<Var>, k: Cont, scope: set<Var>)
    requires Source(s) && WellScoped(s, scope) && LiveWithin(s, k, scope)
    requires Bounded(st.tracker, st.scope) && scope <= st.tracker.Keys
    requires ClaimsLive(Instr(s, st, claim).0, k, claim)
    ensures SavesLive(Instr(s, st, claim).0, k)
    decreases s, 1
  {
    match s
    case Seq(_, _) => InstrSavesSeq(s, st, claim, k, scope);
    case Block(body) =>
      ScopeGrows(body, scope);
      InstrSaves(body, st.(scope := st.scope + 1), claim, k, scope);
    case If(c, s1, s2) =>
      var (t1, st1) := Instr(s1, st, claim);
      InstrLabels(s, st, claim);
      SplitIf(c, t1, Instr(s2, st1, claim).0, k, claim);
      InstrTracks(s1, st, claim);
      InstrSaves(s1, st, claim, k, scope);
      InstrSaves(s2, st1, claim, k, scope);
    case Loop(_, _, _, _) => InstrSavesLoop(s, st, claim, k, scope);
    case Barrier(_) => EraseLiveK(k); assert st.nonce + 1 in LabelsOf(Instr(s, st, claim).0);
    case _ =>
  }

  lemma {:induction false} InstrSavesSeq(s: Stmt, st: State, claim: nat -> set<Var>, k: Cont, scope: set<Var>)
    requires s.Seq? && Source(s) && WellScoped(s, scope) && LiveWithin(s, k, scope)
    requires Bounded(st.tracker, st.scope) && scope <= st.tracker.Keys
    requires ClaimsLive(Instr(s, st, claim).0, k, claim)
    ensures SavesLive(Instr(s, st, claim).0, k)
    decreases s, 0
  {
    var (t1, st1) := Instr(s.s1, st, claim);
    var t2 := Instr(s.s2, st1, claim).0;
    var scope1 := Scope(s.s1, scope);
    InstrLabels(s, st, claim);
    SplitSeq(t1, t2, k, claim);
    InstrTracks(s.s1, st, claim);
    InScopeIsTracked(s.s1, st, claim, scope);
    ScopeGrows(s.s1, scope);
    InstrErases(s.s2, st1, claim);
    EraseLive(t2, LiveK(k), LiveBrk(k), LiveCnt(k));
    LiveInScope(s.s2, scope1, LiveK(k), LiveBrk(k), LiveCnt(k));
    InstrSaves(s.s1, st, claim, KSeq(t2, k), scope);
    InstrSaves(s.s2, st1, claim, k, scope1);
  }

  lemma {:induction false} InstrSavesLoop(s: Stmt, st: State, claim: nat -> set<Var>, k: Cont, scope: set<Var>)
    requires s.Loop? && Source(s) && WellScoped(s, scope) && LiveWithin(s, k, scope)
    requires Bounded(st.tracker, st.scope) && scope <= st.tracker.Keys
    requires ClaimsLive(Instr(s, st, claim).0, k, claim)
    ensures SavesLive(Instr(s, st, claim).0, k)
    decreases s, 0
  {
    var t := Instr(s, st, claim).0;
    var (b, st1) := Instr(s.body, st, claim);
    var kb := KBody(s.c, s.inc, t.body, k);
    InstrErases(s, st, claim);
    LiveLoopInScope(s.c, s.inc, s.body, t.body, k, scope);
    InstrTracks(s.body, st, claim);
    if NeverRepeats(s.c) {
      InstrSaves(s.body, st, claim, kb, scope);
    } else {
      var n := st1.nonce + 1;
      var test := Checkpoint(n, st1.tracker.Keys * claim(n));
      InstrLabels(s.body, st, claim);
      SplitLoop(t, b, test, k, claim);
      InstrSaves(s.body, st, claim, KSeq(test, kb), scope);
      EraseLiveK(kb);
    }
  }

  lemma SplitLoop(t: Stmt, b: Stmt, test: Stmt, k: Cont, claim: nat -> set<Var>)
    requires test.Checkpoint? && t.Loop? && t.body == AtEnd(b, test)
    requires Emitted(b, false) && test.n !in LabelsOf(b)
    ensures var kb := KBody(t.c, t.inc, t.body, k);
            && (ClaimsLive(t, k, claim) ==>
                  ClaimsLive(b, KSeq(test, kb), claim) && LiveK(EraseK(kb)) <= claim(test.n))
            && (SavesLive(b, KSeq(test, kb)) && LiveK(kb) <= test.save ==> SavesLive(t, k))
  {
    var kb := KBody(t.c, t.inc, t.body, k);
    AtEndFind(b, test, kb);
    AtEndShape(b, test.n, test.save);
    assert LabelsOf(t) == LabelsOf(b) + {test.n};
    assert forall m | m in LabelsOf(b) :: Find(m, t, k) == Find(m, b, KSeq(test, kb));
    assert Find(test.n, t, k) == Some(Resume(test.save, kb));
  }

  lemma AtEndFind(body: Stmt, test: Stmt, k: Cont)
    requires test.Checkpoint?
    ensures forall m :: Find(m, AtEnd(body, test), k) ==
                        if m in LabelsOf(body) then Find(m, body, KSeq(test, k)) else Find(m, test, k)
  {
    forall m ensures Find(m, AtEnd(body, test), k) ==
                     if m in LabelsOf(body) then Find(m, body, KSeq(test, k)) else Find(m, test, k)
    {
      FindHits(m, body, KSeq(test, k));
      if body.Block? {
        assert Find(m, AtEnd(body, test), k) == Find(m, Seq(body.body, test), k);
      }
    }
  }

  lemma LiveLoopInScope(c: Expr, inc: Stmt, body: Stmt, emitted: Stmt, k: Cont, scope: set<Var>)
    requires WellScoped(body, scope) && WellScoped(inc, scope) && Reads(c) <= scope
    requires Scope(body, scope) == scope && LiveK(k) <= scope && Erase(emitted) == body
    ensures LiveK(KBody(c, inc, emitted, k)) <= scope
    ensures LiveWithin(body, KBody(c, inc, emitted, k), scope)
  {
    var i0 := Live(inc, {}, {}, {});
    EraseLive(emitted, i0, LiveK(k), i0);
    ScopeGrows(inc, scope);
    LiveInScope(inc, scope, {}, {}, {});
    LiveInScope(body, scope, i0, LiveK(k), i0);
    LiveInScope(inc, scope, LiveTest(c, inc, body, LiveK(k)), {}, {});
  }
}
