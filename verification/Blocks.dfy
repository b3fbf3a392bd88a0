/** Liveness answers by basic block.  The tracker asks for the block of the CFG
    that holds a statement, and the answer is what is live at the end of that
    block, by an analysis that counts an assignment as a use of its variable and
    lets only a declaration end its life.  At the end of a loop body that is
    always enough.  A barrier is a call and does not end a block, so the rest of
    its block may still read what is dead at its end. */
module Blocks {
  import opened Kernel
  import opened Liveness
  import opened Labels
  import opened Instrument
  import opened Simulation
  import opened Preservation
  import O = Original
  import S = Sliced

  // ---------------------------------------------- the analysis that is asked

  // To an analysis that does not kill at assignments, an assignment is like a
  // store: it mentions its variable and sets none.
  function MentionedPrim(p: Prim): Prim {
    match p
    case Assign(x, e) => Store(Global, Ref(x), e)
    case Load(x, _, a) => Store(Global, Ref(x), a)
    case Atomic(x, f, _, a, e) => Store(Global, Bin(f, Ref(x), a), e)
    case _ => p
  }

  function Mentioned(s: Stmt): Stmt {
    match s
    case Do(p) => Do(MentionedPrim(p))
    case Seq(s1, s2) => Seq(Mentioned(s1), Mentioned(s2))
    case Block(body) => Block(Mentioned(body))
    case If(c, s1, s2) => If(c, Mentioned(s1), Mentioned(s2))
    case Loop(pre, c, inc, body) => Loop(pre, c, Mentioned(inc), Mentioned(body))
    case _ => s
  }

  function MentionedK(k: Cont): Cont {
    match k
    case KStop => KStop
    case KSeq(s, k') => KSeq(Mentioned(s), MentionedK(k'))
    case KBody(c, inc, body, k') => KBody(c, Mentioned(inc), Mentioned(body), MentionedK(k'))
    case KTest(c, inc, body, k') => KTest(c, Mentioned(inc), Mentioned(body), MentionedK(k'))
  }

  // It finds everything live that is live.
  lemma {:induction false} LiveIsMentioned(s: Stmt, after: set<Var>, brk: set<Var>, cnt: set<Var>,
                                           after': set<Var>, brk': set<Var>, cnt': set<Var>)
    requires after <= after' && brk <= brk' && cnt <= cnt'
    ensures Live(s, after, brk, cnt) <= Live(Mentioned(s), after', brk', cnt')
  {
    match s
    case Seq(s1, s2) =>
      LiveIsMentioned(s2, after, brk, cnt, after', brk', cnt');
      LiveIsMentioned(s1, Live(s2, after, brk, cnt), brk, cnt, Live(Mentioned(s2), after', brk', cnt'), brk', cnt');
    case Block(body) => LiveIsMentioned(body, after, brk, cnt, after', brk', cnt');
    case If(_, s1, s2) =>
      LiveIsMentioned(s1, after, brk, cnt, after', brk', cnt');
      LiveIsMentioned(s2, after, brk, cnt, after', brk', cnt');
    case Loop(_, c, inc, body) =>
      var i0, i0' := Live(inc, {}, {}, {}), Live(Mentioned(inc), {}, {}, {});
      LiveIsMentioned(inc, {}, {}, {}, {}, {}, {});
      LiveIsMentioned(body, i0, after, i0, i0', after', i0');
      var t, t' := LiveTest(c, inc, body, after), LiveTest(c, Mentioned(inc), Mentioned(body), after');
      LiveIsMentioned(inc, t, {}, {}, t', {}, {});
      LiveIsMentioned(body, Live(inc, t, {}, {}), after, Live(inc, t, {}, {}),
                      Live(Mentioned(inc), t', {}, {}), after', Live(Mentioned(inc), t', {}, {}));
    case _ =>
  }

  lemma {:induction false} TestIsMentioned(c: Expr, inc: Stmt, body: Stmt, after: set<Var>, after': set<Var>)
    requires after <= after'
    ensures LiveTest(c, inc, body, after) <= LiveTest(c, Mentioned(inc), Mentioned(body), after')
  {
    var i0, i0' := Live(inc, {}, {}, {}), Live(Mentioned(inc), {}, {}, {});
    LiveIsMentioned(inc, {}, {}, {}, {}, {}, {});
    LiveIsMentioned(body, i0, after, i0, i0', after', i0');
  }

  lemma {:induction false} LiveIsMentionedK(k: Cont)
    ensures LiveK(k) <= LiveK(MentionedK(k)) && LiveBrk(k) <= LiveBrk(MentionedK(k))
    ensures LiveCnt(k) <= LiveCnt(MentionedK(k))
  {
    match k
    case KStop =>
    case KSeq(s, k') =>
      LiveIsMentionedK(k');
      var m := MentionedK(k');
      LiveIsMentioned(s, LiveK(k'), LiveBrk(k'), LiveCnt(k'), LiveK(m), LiveBrk(m), LiveCnt(m));
    case KBody(c, inc, body, k') =>
      LiveIsMentionedK(k');
      var m := MentionedK(k');
      TestIsMentioned(c, inc, body, LiveK(k'), LiveK(m));
      LiveIsMentioned(inc, LiveTest(c, inc, body, LiveK(k')), {}, {},
                      LiveTest(c, Mentioned(inc), Mentioned(body), LiveK(m)), {}, {});
    case KTest(c, inc, body, k') =>
      LiveIsMentionedK(k');
      TestIsMentioned(c, inc, body, LiveK(k'), LiveK(MentionedK(k')));
  }

  lemma LiveAtMentioned(s: Stmt, k: Cont)
    ensures LiveAt(s, k) <= LiveAt(Mentioned(s), MentionedK(k))
  {
    LiveIsMentionedK(k);
    var m := MentionedK(k);
    LiveIsMentioned(s, LiveK(k), LiveBrk(k), LiveCnt(k), LiveK(m), LiveBrk(m), LiveCnt(m));
  }

  // ------------------------------------------------------- blocks of barriers

  // The rest of a block: variables read before they are set, variables that
  // are set, and variables live at the end.
  datatype Rest = Rest(exposed: set<Var>, killed: set<Var>, end: set<Var>)

  function StmtSize(s: Stmt): nat {
    match s
    case Seq(s1, s2) => StmtSize(s1) + StmtSize(s2) + 2
    case Block(body) => StmtSize(body) + 1
    case _ => 1
  }

  function ContSize(k: Cont): nat {
    match k
    case KSeq(s, k') => StmtSize(s) + ContSize(k') + 1
    case _ => 0
  }

  // The block goes on through calls, barriers included, and ends with the
  // condition of an if, a jump, or where a loop begins or repeats.
  function RestAt(s: Stmt, k: Cont): Rest
    decreases StmtSize(s) + ContSize(k)
  {
    match s
    case Skip => RestAfter(k)
    case Do(p) =>
      var r := RestAfter(k);
      Rest(Uses(p) + (r.exposed - Defs(p)), Defs(p) + r.killed, r.end)
    case Seq(s1, s2) => RestAt(s1, KSeq(s2, k))
    case Block(body) => RestAt(body, k)
    case If(c, s1, s2) => Rest(Reads(c), {}, LiveAt(s1, k) + LiveAt(s2, k))
    case Barrier(_) => RestAfter(k)
    case _ => Rest({}, {}, LiveAt(s, k))
  }

  function RestAfter(k: Cont): Rest
    decreases ContSize(k)
  {
    match k
    case KSeq(s, k') => RestAt(s, k')
    case _ => Rest({}, {}, LiveK(k))
  }

  // What is live at a point is what the rest of the block reads, and what is
  // live at its end unless the rest of the block sets it.
  lemma {:induction false} LiveIsRest(s: Stmt, k: Cont)
    ensures var r := RestAt(s, k); LiveAt(s, k) == r.exposed + (r.end - r.killed)
    decreases StmtSize(s) + ContSize(k)
  {
    match s
    case Skip => LiveIsRestAfter(k);
    case Do(p) => LiveIsRestAfter(k);
    case Seq(s1, s2) => LiveIsRest(s1, KSeq(s2, k));
    case Block(body) => LiveIsRest(body, k);
    case Barrier(_) => LiveIsRestAfter(k);
    case _ =>
  }

  lemma {:induction false} LiveIsRestAfter(k: Cont)
    ensures var r := RestAfter(k); LiveK(k) == r.exposed + (r.end - r.killed)
    decreases ContSize(k)
  {
    match k
    case KSeq(s, k') => LiveIsRest(s, k');
    case _ =>
  }

  lemma {:induction false} EndIsMentioned(s: Stmt, k: Cont)
    ensures RestAt(s, k).end <= RestAt(Mentioned(s), MentionedK(k)).end
    decreases StmtSize(s) + ContSize(k)
  {
    match s
    case Skip => EndIsMentionedAfter(k);
    case Do(_) => EndIsMentionedAfter(k);
    case Seq(s1, s2) => EndIsMentioned(s1, KSeq(s2, k));
    case Block(body) => EndIsMentioned(body, k);
    case If(_, s1, s2) => LiveAtMentioned(s1, k); LiveAtMentioned(s2, k);
    case Barrier(_) => EndIsMentionedAfter(k);
    case _ => LiveAtMentioned(s, k);
  }

  lemma {:induction false} EndIsMentionedAfter(k: Cont)
    ensures RestAfter(k).end <= RestAfter(MentionedK(k)).end
    decreases ContSize(k)
  {
    match k
    case KSeq(s, k') => EndIsMentioned(s, k');
    case _ => LiveIsMentionedK(k);
  }

  // ------------------------------------------------------ blocks of loop bodies

  // The block that a loop body is looked up in ends with: the condition of the
  // loop if the body has braces or is empty, its own condition if it is an if
  // or a loop, and else with the body.
  function BodyAnswer(k: Cont): set<Var>
    requires k.KBody?
  {
    match k.body
    case Do(_) => LiveK(k)
    case Barrier(_) => LiveK(k)
    case If(_, s1, s2) => LiveAt(s1, k) + LiveAt(s2, k)
    case Loop(_, c, inc, body) => LiveAt(body, KBody(c, inc, body, k)) + LiveK(k)
    case Break => LiveAt(k.body, k)
    case Continue => LiveAt(k.body, k)
    case Return => LiveAt(k.body, k)
    case _ => LiveAt(k.body, k) + LiveK(k.k)
  }

  // Control can reach the end of a statement, a break or a continue in it.
  predicate Falls(s: Stmt) {
    match s
    case Seq(s1, s2) => Falls(s1) && Falls(s2)
    case Block(body) => Falls(body)
    case If(_, s1, s2) => Falls(s1) || Falls(s2)
    case Loop(pre, _, _, body) => pre || Falls(body) || Breaks(body) || Continues(body)
    case Break => false
    case Continue => false
    case Return => false
    case _ => true
  }

  predicate Breaks(s: Stmt) {
    match s
    case Seq(s1, s2) => Breaks(s1) || (Falls(s1) && Breaks(s2))
    case Block(body) => Breaks(body)
    case If(_, s1, s2) => Breaks(s1) || Breaks(s2)
    case Break => true
    case _ => false
  }

  predicate Continues(s: Stmt) {
    match s
    case Seq(s1, s2) => Continues(s1) || (Falls(s1) && Continues(s2))
    case Block(body) => Continues(body)
    case If(_, s1, s2) => Continues(s1) || Continues(s2)
    case Continue => true
    case _ => false
  }

  // To this analysis what is live where a statement leads to is live before it,
  // apart from what it declares itself.
  lemma {:induction false} LiveBackwards(s: Stmt, after: set<Var>, brk: set<Var>, cnt: set<Var>)
    requires Source(s)
    ensures var live := Live(Mentioned(s), after, brk, cnt);
            && (Falls(s) ==> after - Declared(s) <= live)
            && (Breaks(s) ==> brk - Declared(s) <= live)
            && (Continues(s) ==> cnt - Declared(s) <= live)
  {
    match s
    case Seq(s1, s2) =>
      LiveBackwards(s2, after, brk, cnt);
      LiveBackwards(s1, Live(Mentioned(s2), after, brk, cnt), brk, cnt);
    case Block(body) => LiveBackwards(body, after, brk, cnt);
    case If(_, s1, s2) => LiveBackwards(s1, after, brk, cnt); LiveBackwards(s2, after, brk, cnt);
    case Loop(_, c, inc, body) =>
      var t := LiveTest(c, Mentioned(inc), Mentioned(body), after);
      SimpleGoesOn(inc);
      SimpleIsSource(inc);
      LiveBackwards(inc, t, {}, {});
      var next := Live(Mentioned(inc), t, {}, {});
      LiveBackwards(body, next, after, next);
    case _ =>
  }

  lemma {:induction false} SimpleIsSource(s: Stmt)
    requires Simple(s)
    ensures Source(s)
  {
    match s
    case Seq(s1, s2) => SimpleIsSource(s1); SimpleIsSource(s2);
    case _ =>
  }

  lemma {:induction false} SimpleGoesOn(s: Stmt)
    requires Simple(s)
    ensures Falls(s) && Declared(s) == {}
  {
    match s
    case Seq(s1, s2) => SimpleGoesOn(s1); SimpleGoesOn(s2);
    case _ =>
  }

  // What is live at the end of a loop body is in the answer for that body, if
  // control can reach the end and the body declares no variable of the scope
  // that the loop is in.
  lemma BodyCovered(k: Cont, scope: set<Var>)
    requires k.KBody? && Source(k.body) && Falls(k.body)
    requires LiveK(k) <= scope && scope !! Declared(k.body)
    ensures LiveK(k) <= BodyAnswer(MentionedK(k))
  {
    var m := MentionedK(k);
    LiveIsMentionedK(k);
    LiveBackwards(k.body, LiveK(m), LiveBrk(m), LiveCnt(m));
    if k.body.If? {
      LiveBackwards(k.body.s1, LiveK(m), LiveBrk(m), LiveCnt(m));
      LiveBackwards(k.body.s2, LiveK(m), LiveBrk(m), LiveCnt(m));
    }
  }

  // A declaration is no declaration of a variable in scope.
  predicate DeclaredOnce(s: Stmt, scope: set<Var>) {
    match s
    case Do(p) => p.Decl? ==> p.x !in scope
    case Seq(s1, s2) => DeclaredOnce(s1, scope) && DeclaredOnce(s2, Scope(s1, scope))
    case Block(body) => DeclaredOnce(body, scope)
    case If(_, s1, s2) => DeclaredOnce(s1, scope) && DeclaredOnce(s2, scope)
    case Loop(_, _, _, body) => DeclaredOnce(body, scope)
    case _ => true
  }

  lemma {:induction false} DeclaredApart(s: Stmt, scope: set<Var>)
    requires DeclaredOnce(s, scope)
    ensures scope !! Declared(s)
  {
    match s
    case Seq(s1, s2) => ScopeGrows(s1, scope); DeclaredApart(s1, scope); DeclaredApart(s2, Scope(s1, scope));
    case Block(body) => DeclaredApart(body, scope);
    case If(_, s1, s2) => DeclaredApart(s1, scope); DeclaredApart(s2, scope);
    case Loop(_, _, _, body) => DeclaredApart(body, scope);
    case _ =>
  }

  // Control can reach the end of every loop body that gets a timer test.
  predicate EndsReached(s: Stmt) {
    match s
    case Seq(s1, s2) => EndsReached(s1) && EndsReached(s2)
    case Block(body) => EndsReached(body)
    case If(_, s1, s2) => EndsReached(s1) && EndsReached(s2)
    case Loop(_, c, _, body) => (NeverRepeats(c) || Falls(body)) && EndsReached(body)
    case _ => true
  }

  // At every timer test the answer by block covers what is live.
  lemma {:induction false} LoopSites(n: nat, s: Stmt, st: State, claim: nat -> set<Var>, k: Cont, scope: set<Var>)
    requires Source(s) && WellScoped(s, scope) && DeclaredOnce(s, scope) && EndsReached(s) && LiveWithin(s, k, scope)
    requires var r := Find(n, Instr(s, st, claim).0, k); r.Some? && r.value.Resume?
    ensures var k' := EraseK(Find(n, Instr(s, st, claim).0, k).value.k);
            k'.KBody? && LiveK(k') <= BodyAnswer(MentionedK(k'))
    decreases s, 1
  {
    match s
    case Seq(s1, s2) =>
      var (t1, st1) := Instr(s1, st, claim);
      var t2 := Instr(s2, st1, claim).0;
      ScopeGrows(s1, scope);
      InstrErases(s2, st1, claim);
      EraseLive(t2, LiveK(k), LiveBrk(k), LiveCnt(k));
      LiveInScope(s2, Scope(s1, scope), LiveK(k), LiveBrk(k), LiveCnt(k));
      if Find(n, t1, KSeq(t2, k)).Some? { LoopSites(n, s1, st, claim, KSeq(t2, k), scope); }
      else { LoopSites(n, s2, st1, claim, k, Scope(s1, scope)); }
    case Block(body) =>
      ScopeGrows(body, scope);
      LoopSites(n, body, st.(scope := st.scope + 1), claim, k, scope);
    case If(_, s1, s2) =>
      var (t1, st1) := Instr(s1, st, claim);
      if Find(n, t1, k).Some? { LoopSites(n, s1, st, claim, k, scope); }
      else { LoopSites(n, s2, st1, claim, k, scope); }
    case Loop(_, _, _, _) => LoopSitesLoop(n, s, st, claim, k, scope);
    case _ =>
  }

  lemma {:induction false} LoopSitesLoop(n: nat, s: Stmt, st: State, claim: nat -> set<Var>, k: Cont, scope: set<Var>)
    requires s.Loop?
    requires Source(s) && WellScoped(s, scope) && DeclaredOnce(s, scope) && EndsReached(s) && LiveWithin(s, k, scope)
    requires var r := Find(n, Instr(s, st, claim).0, k); r.Some? && r.value.Resume?
    ensures var k' := EraseK(Find(n, Instr(s, st, claim).0, k).value.k);
            k'.KBody? && LiveK(k') <= BodyAnswer(MentionedK(k'))
    decreases s, 0
  {
    var t := Instr(s, st, claim).0;
    var (b, st1) := Instr(s.body, st, claim);
    var kb := KBody(s.c, s.inc, t.body, k);
    InstrErases(s, st, claim);
    LiveLoopInScope(s.c, s.inc, s.body, t.body, k, scope);
    if NeverRepeats(s.c) {
      LoopSites(n, s.body, st, claim, kb, scope);
    } else {
      var test := Checkpoint(st1.nonce + 1, st1.tracker.Keys * claim(st1.nonce + 1));
      AtEndFind(b, test, kb);
      FindHits(n, b, KSeq(test, kb));
      if n in LabelsOf(b) {
        LoopSites(n, s.body, st, claim, KSeq(test, kb), scope);
      } else {
        EraseLiveK(kb);
        DeclaredApart(s.body, scope);
        BodyCovered(EraseK(kb), scope);
      }
    }
  }

  // ------------------------------------------------------------ what it means

  // The answer for a label.
  function Answer(site: Site): set<Var> {
    var k := MentionedK(EraseK(site.k));
    if site.Resume? && k.KBody? then BodyAnswer(k) else RestAfter(k).end
  }

  // The claims are these answers, and whatever else.
  ghost predicate AnswersByBlock(code: Stmt, claim: nat -> set<Var>) {
    forall n | n in LabelsOf(code) ::
      Find(n, code, KStop).Some? && Answer(Find(n, code, KStop).value) <= claim(n)
  }

  // Nothing is read behind a barrier, and in its block, that the claim leaves
  // out.
  ghost predicate ReadsClaimed(code: Stmt, claim: nat -> set<Var>) {
    forall n | n in LabelsOf(code) ::
      && Find(n, code, KStop).Some?
      && var site := Find(n, code, KStop).value;
         site.Wait? ==> RestAfter(EraseK(site.k)).exposed <= claim(n)
  }

  // An answer that covers the end of the block covers what is live at a barrier
  // if and only if it covers what the rest of the block reads.
  lemma BarrierAnswer(k: Cont, answer: set<Var>)
    requires RestAfter(MentionedK(k)).end <= answer
    ensures LiveK(k) <= answer <==> RestAfter(k).exposed <= answer
  {
    EndIsMentionedAfter(k);
    LiveIsRestAfter(k);
  }

  lemma {:induction false} SavedAreClaimed(n: nat, s: Stmt, st: State, claim: nat -> set<Var>, k: Cont)
    requires Source(s)
    ensures var r := Find(n, Instr(s, st, claim).0, k); r.Some? ==> r.value.save <= claim(n)
  {
    match s
    case Seq(s1, s2) =>
      var (t1, st1) := Instr(s1, st, claim);
      SavedAreClaimed(n, s1, st, claim, KSeq(Instr(s2, st1, claim).0, k));
      SavedAreClaimed(n, s2, st1, claim, k);
    case Block(body) => SavedAreClaimed(n, body, st.(scope := st.scope + 1), claim, k);
    case If(_, s1, s2) =>
      SavedAreClaimed(n, s1, st, claim, k);
      SavedAreClaimed(n, s2, Instr(s1, st, claim).1, claim, k);
    case Loop(_, c, inc, body) =>
      var (b, st1) := Instr(body, st, claim);
      var test := Checkpoint(st1.nonce + 1, st1.tracker.Keys * claim(st1.nonce + 1));
      var kb := KBody(c, inc, Instr(s, st, claim).0.body, k);
      SavedAreClaimed(n, body, st, claim, kb);
      SavedAreClaimed(n, body, st, claim, KSeq(test, kb));
      AtEndFind(b, test, kb);
    case _ =>
  }

  // With answers by block, every label saves what is live after it, and the
  // kernel is one that the results on runs speak of, if and only if nothing is
  // read behind a barrier, in the same block, that the answer leaves out.
  lemma AcceptedByBlock(src: Stmt, claim: nat -> set<Var>, params: set<Var>, words: nat)
    requires IsKernel(src, params) && DeclaredOnce(src, params) && EndsReached(src)
    requires AnswersByBlock(Instr(src, Start(params), claim).0, claim)
    ensures Accepted(src, claim, params) <==> ReadsClaimed(Instr(src, Start(params), claim).0, claim)
    ensures Sound(Compile(src, claim, params, words)) <==> ReadsClaimed(Instr(src, Start(params), claim).0, claim)
  {
    var code := Instr(src, Start(params), claim).0;
    ScopeGrows(src, params);
    forall n | n in LabelsOf(code)
      ensures var site := Find(n, code, KStop).value;
              LiveK(EraseK(site.k)) <= claim(n) <==> site.Wait? ==> RestAfter(EraseK(site.k)).exposed <= claim(n)
    {
      var site := Find(n, code, KStop).value;
      if site.Wait? { BarrierAnswer(EraseK(site.k), claim(n)); }
      else { LoopSites(n, src, Start(params), claim, KStop, params); }
    }
    if Accepted(src, claim, params) {
      CompileSound(src, claim, params, words);
    } else if Sound(Compile(src, claim, params, words)) {
      SoundClaims(src, claim, params);
    }
  }

  lemma SoundClaims(src: Stmt, claim: nat -> set<Var>, params: set<Var>)
    requires Source(src) && SavesLive(Instr(src, Start(params), claim).0, KStop)
    ensures ClaimsLive(Instr(src, Start(params), claim).0, KStop, claim)
  {
    var code := Instr(src, Start(params), claim).0;
    forall n | n in LabelsOf(code) ensures LiveK(EraseK(Find(n, code, KStop).value.k)) <= claim(n) {
      SavedAreClaimed(n, src, Start(params), claim, KStop);
      EraseLiveK(Find(n, code, KStop).value.k);
    }
  }

  // So a kernel with no such read keeps its meaning.
  lemma PreservedByBlock(src: Stmt, claim: nat -> set<Var>, params: set<Var>, words: nat,
                         ost: O.Grid, prv: Env, buf: nat -> seq<int>, evs: seq<S.Event>)
    requires IsKernel(src, params) && DeclaredOnce(src, params) && EndsReached(src)
    requires AnswersByBlock(Instr(src, Start(params), claim).0, claim)
    requires ReadsClaimed(Instr(src, Start(params), claim).0, claim)
    requires Initial(ost, src, words) && forall g: nat :: |buf(g)| == words
    requires var p := Compile(src, claim, params, words);
             var r := S.ExecAll(p, Launch(p, ost, prv, buf), evs);
             r.Some? && S.Finished(r.value)
    ensures var p := Compile(src, claim, params, words);
            exists oevs :: O.ExecAll(ost, oevs).Some? && O.AllDone(O.ExecAll(ost, oevs).value)
              && O.ExecAll(ost, oevs).value.gm == S.ExecAll(p, Launch(p, ost, prv, buf), evs).value.gm
  {
    AcceptedByBlock(src, claim, params, words);
    MeaningPreserved(src, claim, params, words, ost, prv, buf, evs);
  }

  // An analysis that kills at assignments would not do for loops: the condition
  // of `do { x = 0; } while (x);` reads x after the body, but at the end of the
  // condition's block x is dead.
  lemma KillingLoses(x: Var)
    ensures var k := KBody(Ref(x), Skip, Block(Do(Assign(x, Lit(0)))), KStop);
            LiveK(k) == {x} && BodyAnswer(k) == {} && BodyAnswer(MentionedK(k)) == {x}
  {
    var set0 := Do(Assign(x, Lit(0)));
    var k := KBody(Ref(x), Skip, Block(set0), KStop);
    assert Live(set0, {}, {}, {}) == {};
    assert LiveTest(Ref(x), Skip, Block(set0), {}) == {x};
    assert Live(set0, {x}, {}, {x}) == {};
    assert Live(Mentioned(set0), {}, {}, {}) == {x};
    assert LiveTest(Ref(x), Skip, Block(Mentioned(set0)), {}) == {x};
    assert Live(Mentioned(set0), {x}, {}, {x}) == {x};
  }
}
