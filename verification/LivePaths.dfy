/** What it means for a variable to be live, without any equations: some path of
    control leads to a place that reads the variable, and nothing on the way
    overwrites it.  The one-pass answer of `Live` is exactly that. */
module LivePaths {
  import opened Kernel
  import opened Liveness

  // -------------------------------------------------------------- one step

  predicate Mentions(e: Expr, x: Var) {
    match e
    case Ref(y) => x == y
    case Bin(_, l, r) => Mentions(l, x) || Mentions(r, x)
    case _ => false
  }

  // The next step of an item at this point reads the variable, ...
  predicate ReadHere(x: Var, s: Stmt, k: Cont) {
    match s
    case Do(Decl(_)) => false
    case Do(Assign(_, e)) => Mentions(e, x)
    case Do(Load(_, _, a)) => Mentions(a, x)
    case Do(Store(_, a, e)) => Mentions(a, x) || Mentions(e, x)
    case Do(Atomic(_, _, _, a, e)) => Mentions(a, x) || Mentions(e, x)
    case If(c, _, _) => Mentions(c, x)
    case Skip => k.KTest? && Mentions(k.c, x)
    case _ => false
  }

  // ... or overwrites it.
  predicate WrittenHere(x: Var, s: Stmt) {
    match s
    case Do(Store(_, _, _)) => false
    case Do(p) => p.x == x
    case _ => false
  }

  // Where control may go from here, whatever the condition says.
  ghost predicate Leads(s: Stmt, k: Cont, s': Stmt, k': Cont) {
    if s.Do? || s.Barrier? || s.Stop? || s.Checkpoint? then s' == Skip && k' == k
    else Moves(s, k) && exists taken :: (s', k') == Move(s, k, taken)
  }

  // Within n steps the variable is read before it is overwritten.
  ghost predicate Reads(x: Var, s: Stmt, k: Cont, n: nat)
    decreases n
  {
    n > 0 && (ReadHere(x, s, k)
              || (!WrittenHere(x, s) && exists s', k' :: Leads(s, k, s', k') && Reads(x, s', k', n - 1)))
  }

  ghost predicate Needed(x: Var, s: Stmt, k: Cont) {
    exists n: nat :: Reads(x, s, k, n)
  }

  lemma {:induction false} MentionedIsRead(e: Expr, x: Var)
    ensures Mentions(e, x) <==> x in Liveness.Reads(e)
  {
    match e
    case Bin(_, l, r) => MentionedIsRead(l, x); MentionedIsRead(r, x);
    case _ =>
  }

  lemma Now(x: Var, s: Stmt, k: Cont)
    requires ReadHere(x, s, k)
    ensures Needed(x, s, k)
  {
    assert Reads(x, s, k, 1);
  }

  lemma Later(x: Var, s: Stmt, k: Cont, s': Stmt, k': Cont)
    requires !WrittenHere(x, s) && Leads(s, k, s', k') && Needed(x, s', k')
    ensures Needed(x, s, k)
  {
    var n: nat :| Reads(x, s', k', n);
    assert Reads(x, s, k, n + 1);
  }

  lemma Goes(x: Var, s: Stmt, k: Cont, taken: bool)
    requires Moves(s, k) && Needed(x, Move(s, k, taken).0, Move(s, k, taken).1)
    ensures Needed(x, s, k)
  {
    Later(x, s, k, Move(s, k, taken).0, Move(s, k, taken).1);
  }

  // ------------------------------------------------------ a path makes it live

  lemma StepLive(x: Var, s: Stmt, k: Cont, s': Stmt, k': Cont)
    requires Leads(s, k, s', k') && !WrittenHere(x, s) && x in LiveAt(s', k')
    ensures x in LiveAt(s, k)
  {
    if Moves(s, k) {
      var taken :| (s', k') == Move(s, k, taken);
      MoveLive(s, k, taken);
    }
  }

  lemma ReadIsLive(x: Var, s: Stmt, k: Cont)
    requires ReadHere(x, s, k)
    ensures x in LiveAt(s, k)
  {
    match s
    case Do(Assign(_, e)) => MentionedIsRead(e, x);
    case Do(Load(_, _, a)) => MentionedIsRead(a, x);
    case Do(Store(_, a, e)) => MentionedIsRead(a, x); MentionedIsRead(e, x);
    case Do(Atomic(_, _, _, a, e)) => MentionedIsRead(a, x); MentionedIsRead(e, x);
    case If(c, _, _) => MentionedIsRead(c, x);
    case Skip => MentionedIsRead(k.c, x);
    case _ =>
  }

  lemma {:induction false} PathIsLive(x: Var, s: Stmt, k: Cont, n: nat)
    requires Reads(x, s, k, n)
    ensures x in LiveAt(s, k)
    decreases n
  {
    if ReadHere(x, s, k) {
      ReadIsLive(x, s, k);
    } else {
      var s', k' :| Leads(s, k, s', k') && Reads(x, s', k', n - 1);
      PathIsLive(x, s', k', n - 1);
      StepLive(x, s, k, s', k');
    }
  }

  // ---------------------------------------------------- what is live has a path

  // If there are paths from the end of a statement and from where its jumps go,
  // there is one from the statement itself.
  lemma {:induction false} LiveHasPath(x: Var, s: Stmt, k: Cont, after: set<Var>, brk: set<Var>, cnt: set<Var>)
    requires x in after ==> Needed(x, Skip, k)
    requires x in brk ==> Needed(x, Break, k)
    requires x in cnt ==> Needed(x, Continue, k)
    requires x in Live(s, after, brk, cnt)
    ensures Needed(x, s, k)
    decreases s, 2
  {
    match s
    case Do(p) => PrimHasPath(x, p, k, after);
    case Seq(s1, s2) =>
      var mid, k1 := Live(s2, after, brk, cnt), KSeq(s2, k);
      if x in mid {
        LiveHasPath(x, s2, k, after, brk, cnt);
        Goes(x, Skip, k1, true);
      }
      if x in brk { Unwinds(x, Break, s2, k); }
      if x in cnt { Unwinds(x, Continue, s2, k); }
      LiveHasPath(x, s1, k1, mid, brk, cnt);
      Goes(x, s, k, true);
    case Block(body) =>
      LiveHasPath(x, body, k, after, brk, cnt);
      Goes(x, s, k, true);
    case If(c, s1, s2) =>
      MentionedIsRead(c, x);
      if Mentions(c, x) {
        Now(x, s, k);
      } else if x in Live(s1, after, brk, cnt) {
        LiveHasPath(x, s1, k, after, brk, cnt);
        Goes(x, s, k, true);
      } else {
        LiveHasPath(x, s2, k, after, brk, cnt);
        Goes(x, s, k, false);
      }
    case Loop(_, _, _, _) => LoopHasPath(x, s, k, after);
    case Barrier(_) => Later(x, s, k, Skip, k);
    case Checkpoint(_, _) => Later(x, s, k, Skip, k);
    case Stop(_, _, _, _) => Later(x, s, k, Skip, k);
    case _ =>
  }

  lemma PrimHasPath(x: Var, p: Prim, k: Cont, after: set<Var>)
    requires x in after ==> Needed(x, Skip, k)
    requires x in (after - Defs(p)) + Uses(p)
    ensures Needed(x, Do(p), k)
  {
    if x in Uses(p) {
      match p {
        case Assign(_, e) => MentionedIsRead(e, x);
        case Load(_, _, a) => MentionedIsRead(a, x);
        case Store(_, a, e) => MentionedIsRead(a, x); MentionedIsRead(e, x);
        case Atomic(_, _, _, a, e) => MentionedIsRead(a, x); MentionedIsRead(e, x);
        case _ =>
      }
      Now(x, Do(p), k);
    } else {
      Later(x, Do(p), k, Skip, k);
    }
  }

  // A jump does not care for what is left of a sequence.
  lemma Unwinds(x: Var, jump: Stmt, s2: Stmt, k: Cont)
    requires (jump.Break? || jump.Continue?) && Needed(x, jump, k)
    ensures Needed(x, jump, KSeq(s2, k))
  {
    var n: nat :| Reads(x, jump, k, n);
    var s', k' :| Leads(jump, k, s', k') && Reads(x, s', k', n - 1);
    Goes(x, jump, KSeq(s2, k), true);
  }

  lemma {:induction false} LoopHasPath(x: Var, s: Stmt, k: Cont, after: set<Var>)
    requires s.Loop? && (x in after ==> Needed(x, Skip, k)) && x in Live(s, after, {}, {})
    ensures Needed(x, s, k)
    decreases s, 1
  {
    var c, inc, body := s.c, s.inc, s.body;
    var test := LiveTest(c, inc, body, after);
    var k1, k2 := KBody(c, inc, body, k), KTest(c, inc, body, k);
    if x in test { TestHasPath(x, s, k, after); }
    if s.pre {
      Goes(x, s, k, true);
    } else {
      var mid := Live(inc, test, {}, {});
      if x in after { Goes(x, Break, k1, true); }
      if x in mid {
        LiveHasPath(x, inc, k2, test, {}, {});
        Goes(x, Skip, k1, true);
        Goes(x, Continue, k1, true);
      }
      LiveHasPath(x, body, k1, mid, after, mid);
      Goes(x, s, k, true);
    }
  }

  lemma {:induction false} TestHasPath(x: Var, s: Stmt, k: Cont, after: set<Var>)
    requires s.Loop? && (x in after ==> Needed(x, Skip, k)) && x in LiveTest(s.c, s.inc, s.body, after)
    ensures Needed(x, Skip, KTest(s.c, s.inc, s.body, k))
    decreases s, 0
  {
    var c, inc, body := s.c, s.inc, s.body;
    var k1, k2 := KBody(c, inc, body, k), KTest(c, inc, body, k);
    var mid := Live(inc, {}, {}, {});
    MentionedIsRead(c, x);
    if Mentions(c, x) {
      Now(x, Skip, k2);
    } else if x in after {
      Goes(x, Skip, k2, false);
    } else {
      if x in mid {
        LiveHasPath(x, inc, k2, {}, {}, {});
        Goes(x, Skip, k1, true);
        Goes(x, Continue, k1, true);
      }
      LiveHasPath(x, body, k1, mid, after, mid);
      Goes(x, Skip, k2, true);
    }
  }

  lemma {:induction false} ContHasPath(x: Var, k: Cont)
    ensures x in LiveK(k) ==> Needed(x, Skip, k)
    ensures x in LiveBrk(k) ==> Needed(x, Break, k)
    ensures x in LiveCnt(k) ==> Needed(x, Continue, k)
  {
    match k
    case KStop =>
    case KSeq(s, k') =>
      ContHasPath(x, k');
      if x in LiveK(k) {
        LiveHasPath(x, s, k', LiveK(k'), LiveBrk(k'), LiveCnt(k'));
        Goes(x, Skip, k, true);
      }
      if x in LiveBrk(k) { Unwinds(x, Break, s, k'); }
      if x in LiveCnt(k) { Unwinds(x, Continue, s, k'); }
    case KBody(c, inc, body, k') =>
      ContHasPath(x, k');
      var test := LiveTest(c, inc, body, LiveK(k'));
      if x in LiveBrk(k) { Goes(x, Break, k, true); }
      if x in LiveK(k) {
        if x in test { TestHasPath(x, Loop(true, c, inc, body), k', LiveK(k')); }
        LiveHasPath(x, inc, KTest(c, inc, body, k'), test, {}, {});
        Goes(x, Skip, k, true);
        Goes(x, Continue, k, true);
      }
    case KTest(c, inc, body, k') =>
      ContHasPath(x, k');
      if x in LiveK(k) { TestHasPath(x, Loop(true, c, inc, body), k', LiveK(k')); }
  }

  /** The analysis is exact: a variable is live at a point of the text if and
      only if a path of control from there reads it before it is overwritten. */
  lemma LiveIffNeeded(x: Var, s: Stmt, k: Cont)
    ensures x in LiveAt(s, k) <==> Needed(x, s, k)
  {
    ContHasPath(x, k);
    if x in LiveAt(s, k) {
      LiveHasPath(x, s, k, LiveK(k), LiveBrk(k), LiveCnt(k));
    } else if n: nat :| Reads(x, s, k, n) {
      PathIsLive(x, s, k, n);
    }
  }
}
