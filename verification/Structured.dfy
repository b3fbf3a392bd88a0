/** The kernel language once more, by recursion over statements, as a reader of C
    would explain it.  An item that runs alone, one small step after the other,
    gets to the end with the data that this explanation gives, and to no other
    end. */
module Structured {
  import opened Wrappers
  import opened Kernel
  import opened Labels
  import opened Instrument

  // How a statement ends.
  datatype Ending = Through | Broke | Continued | Returned

  // Data, and how many primitives have been executed; the n-th one gets draw(n)
  // as its indeterminate value.
  datatype Progress = Progress(d: Data, n: nat)

  datatype Outcome = Outcome(how: Ending, at: Progress)

  // A statement of the source without barriers.
  predicate Lone(s: Stmt) {
    Source(s) && BarriersOf(s) == {}
  }

  lemma LoneParts(s: Stmt)
    requires Lone(s)
    ensures s.Seq? || s.If? ==> Lone(s.s1) && Lone(s.s2)
    ensures s.Block? || s.Loop? ==> Lone(s.body)
    ensures s.Loop? ==> Simple(s.inc)
    ensures !s.Barrier? && !s.Checkpoint? && !s.Stop?
  {
    if s.Seq? || s.If? { assert BarriersOf(s) == BarriersOf(s.s1) + BarriersOf(s.s2); }
  }

  // Not more than `fuel` rounds of any loop.
  function Means(s: Stmt, id: int, at: Progress, draw: nat -> int, fuel: nat): Option<Outcome>
    decreases fuel, s
  {
    match s
    case Do(p) => Some(Outcome(Through, Progress(RunPrim(p, id, at.d, draw(at.n)), at.n + 1)))
    case Seq(s1, s2) =>
      var first := Means(s1, id, at, draw, fuel);
      if first.Some? && first.value.how.Through? then Means(s2, id, first.value.at, draw, fuel) else first
    case Block(body) => Means(body, id, at, draw, fuel)
    case If(c, s1, s2) =>
      if Eval(c, id, at.d.env) != 0 then Means(s1, id, at, draw, fuel) else Means(s2, id, at, draw, fuel)
    case Loop(pre, c, inc, body) =>
      if pre && Eval(c, id, at.d.env) == 0 then Some(Outcome(Through, at))
      else if fuel == 0 then None
      else
        var round := Means(body, id, at, draw, fuel - 1);
        if round.None? || round.value.how.Returned? then round
        else if round.value.how.Broke? then Some(Outcome(Through, round.value.at))
        else
          var next := Means(inc, id, round.value.at, draw, fuel - 1);
          if next.None? then None else Means(Loop(true, c, inc, body), id, next.value.at, draw, fuel - 1)
    case Break => Some(Outcome(Broke, at))
    case Continue => Some(Outcome(Continued, at))
    case Return => Some(Outcome(Returned, at))
    case _ => Some(Outcome(Through, at))
  }

  // ----------------------------------------------------- one step at a time

  datatype Spot = Spot(s: Stmt, k: Cont, at: Progress)

  function StepOf(a: Spot, id: int, draw: nat -> int): Spot
    requires Plain(a.s, a.k)
  {
    var r := PlainStep(a.s, a.k, id, a.at.d, draw(a.at.n));
    Spot(r.s, r.k, Progress(r.d, if a.s.Do? then a.at.n + 1 else a.at.n))
  }

  ghost predicate Steps(a: Spot, b: Spot, id: int, draw: nat -> int, m: nat)
    decreases m
  {
    if m == 0 then a == b else Plain(a.s, a.k) && Steps(StepOf(a, id, draw), b, id, draw, m - 1)
  }

  ghost predicate Gets(a: Spot, b: Spot, id: int, draw: nat -> int) {
    exists m: nat :: Steps(a, b, id, draw, m)
  }

  lemma Stays(a: Spot, id: int, draw: nat -> int)
    ensures Gets(a, a, id, draw)
  {
    assert Steps(a, a, id, draw, 0);
  }

  lemma OneStep(a: Spot, b: Spot, id: int, draw: nat -> int)
    requires Plain(a.s, a.k) && Gets(StepOf(a, id, draw), b, id, draw)
    ensures Gets(a, b, id, draw)
  {
    var m: nat :| Steps(StepOf(a, id, draw), b, id, draw, m);
    assert Steps(a, b, id, draw, m + 1);
  }

  lemma {:induction false} GoesOn(a: Spot, b: Spot, c: Spot, id: int, draw: nat -> int)
    requires Gets(a, b, id, draw) && Gets(b, c, id, draw)
    ensures Gets(a, c, id, draw)
  {
    var m: nat :| Steps(a, b, id, draw, m);
    GoesOnFor(a, b, c, id, draw, m);
  }

  lemma {:induction false} GoesOnFor(a: Spot, b: Spot, c: Spot, id: int, draw: nat -> int, m: nat)
    requires Steps(a, b, id, draw, m) && Gets(b, c, id, draw)
    ensures Gets(a, c, id, draw)
    decreases m
  {
    if m > 0 {
      GoesOnFor(StepOf(a, id, draw), b, c, id, draw, m - 1);
      OneStep(a, c, id, draw);
    }
  }

  // Where control is after a statement that ended like this.
  function Exit(o: Outcome, k: Cont): Spot {
    match o.how
    case Through => Spot(Skip, k, o.at)
    case Broke => Spot(Skip, BreakTo(k), o.at)
    case Continued => Spot(ContinueTo(k).0, ContinueTo(k).1, o.at)
    case Returned => Spot(Skip, KStop, o.at)
  }

  lemma {:induction false} SimpleGoesThrough(s: Stmt, id: int, at: Progress, draw: nat -> int, fuel: nat)
    requires Simple(s)
    ensures var r := Means(s, id, at, draw, fuel); r.Some? && r.value.how.Through?
  {
    match s
    case Seq(s1, s2) =>
      SimpleGoesThrough(s1, id, at, draw, fuel);
      SimpleGoesThrough(s2, id, Means(s1, id, at, draw, fuel).value.at, draw, fuel);
    case _ =>
  }

  lemma {:induction false} SimpleIsLone(s: Stmt)
    requires Simple(s)
    ensures Lone(s)
  {
    match s
    case Seq(s1, s2) => SimpleIsLone(s1); SimpleIsLone(s2);
    case _ =>
  }

  // Small steps from a statement lead to where the explanation says it ends.
  lemma {:induction false} StepsFollow(s: Stmt, k: Cont, id: int, at: Progress, draw: nat -> int, fuel: nat)
    requires Lone(s) && Means(s, id, at, draw, fuel).Some?
    ensures Gets(Spot(s, k, at), Exit(Means(s, id, at, draw, fuel).value, k), id, draw)
    decreases fuel, s, 2
  {
    LoneParts(s);
    var here := Spot(s, k, at);
    var end := Exit(Means(s, id, at, draw, fuel).value, k);
    Stays(end, id, draw);
    match s
    case Skip =>
    case Seq(s1, s2) =>
      var first := Means(s1, id, at, draw, fuel).value;
      StepsFollow(s1, KSeq(s2, k), id, at, draw, fuel);
      if first.how.Through? {
        StepsFollow(s2, k, id, first.at, draw, fuel);
        OneStep(Spot(Skip, KSeq(s2, k), first.at), end, id, draw);
        GoesOn(Spot(s1, KSeq(s2, k), at), Spot(Skip, KSeq(s2, k), first.at), end, id, draw);
      }
      OneStep(here, end, id, draw);
    case Block(body) =>
      StepsFollow(body, k, id, at, draw, fuel);
      OneStep(here, end, id, draw);
    case If(c, s1, s2) =>
      if Eval(c, id, at.d.env) != 0 { StepsFollow(s1, k, id, at, draw, fuel); }
      else { StepsFollow(s2, k, id, at, draw, fuel); }
      OneStep(here, end, id, draw);
    case Loop(_, _, _, _) => LoopFollows(s, k, id, at, draw, fuel);
    case _ => OneStep(here, end, id, draw);
  }

  // One round, and then the loop from its test.
  lemma {:induction false} LoopFollows(s: Stmt, k: Cont, id: int, at: Progress, draw: nat -> int, fuel: nat)
    requires s.Loop? && Lone(s) && Means(s, id, at, draw, fuel).Some?
    ensures Gets(Spot(s, k, at), Exit(Means(s, id, at, draw, fuel).value, k), id, draw)
    decreases fuel, s, 1
  {
    var end := Exit(Means(s, id, at, draw, fuel).value, k);
    var test := Spot(Skip, KTest(s.c, s.inc, s.body, k), at);
    Stays(end, id, draw);
    if s.pre && Eval(s.c, id, at.d.env) == 0 {
      OneStep(test, end, id, draw);
    } else {
      RoundFollows(s, k, id, at, draw, fuel);
      if s.pre { OneStep(test, end, id, draw); }
    }
    OneStep(Spot(s, k, at), end, id, draw);
  }

  lemma {:induction false} RoundFollows(s: Stmt, k: Cont, id: int, at: Progress, draw: nat -> int, fuel: nat)
    requires s.Loop? && Lone(s) && fuel > 0 && Means(s, id, at, draw, fuel).Some?
    requires s.pre ==> Eval(s.c, id, at.d.env) != 0
    ensures var k1 := KBody(s.c, s.inc, s.body, k);
            Gets(Spot(s.body, k1, at), Exit(Means(s, id, at, draw, fuel).value, k), id, draw)
    decreases fuel, s, 0
  {
    LoneParts(s);
    var k1, k2 := KBody(s.c, s.inc, s.body, k), KTest(s.c, s.inc, s.body, k);
    var end := Exit(Means(s, id, at, draw, fuel).value, k);
    var start := Spot(s.body, k1, at);
    var round := Means(s.body, id, at, draw, fuel - 1).value;
    StepsFollow(s.body, k1, id, at, draw, fuel - 1);
    if round.how.Through? || round.how.Continued? {
      SimpleGoesThrough(s.inc, id, round.at, draw, fuel - 1);
      SimpleIsLone(s.inc);
      var next := Means(s.inc, id, round.at, draw, fuel - 1).value.at;
      var again, test := Loop(true, s.c, s.inc, s.body), Spot(Skip, k2, next);
      StepsFollow(again, k, id, next, draw, fuel - 1);
      LoopIsLeft(s, id, at, draw, fuel);
      FirstStep(Spot(again, k, next), test, end, id, draw);
      StepsFollow(s.inc, k2, id, round.at, draw, fuel - 1);
      GoesOn(Spot(s.inc, k2, round.at), test, end, id, draw);
      if round.how.Through? { OneStep(Spot(Skip, k1, round.at), end, id, draw); }
      GoesOn(start, Exit(round, k1), end, id, draw);
    }
  }

  // No jump of a loop's body leaves more than the loop.
  lemma {:induction false} LoopIsLeft(s: Stmt, id: int, at: Progress, draw: nat -> int, fuel: nat)
    requires s.Loop? && Means(s, id, at, draw, fuel).Some?
    ensures var o := Means(s, id, at, draw, fuel).value; o.how.Through? || o.how.Returned?
    decreases fuel
  {
    if fuel > 0 && !(s.pre && Eval(s.c, id, at.d.env) == 0) {
      var round := Means(s.body, id, at, draw, fuel - 1).value;
      if round.how.Through? || round.how.Continued? {
        var next := Means(s.inc, id, round.at, draw, fuel - 1).value.at;
        LoopIsLeft(Loop(true, s.c, s.inc, s.body), id, next, draw, fuel - 1);
      }
    }
  }

  // A loop starts at its test, and does not end there.
  lemma FirstStep(a: Spot, b: Spot, end: Spot, id: int, draw: nat -> int)
    requires a.s.Loop? && a.s.pre && b == Spot(Skip, KTest(a.s.c, a.s.inc, a.s.body, a.k), a.at)
    requires Gets(a, end, id, draw) && !end.s.Loop?
    ensures Gets(b, end, id, draw)
  {
    var m: nat :| Steps(a, end, id, draw, m);
    assert Steps(StepOf(a, id, draw), end, id, draw, m - 1);
  }

  // There is one way to the end.
  lemma {:induction false} OneEnd(a: Spot, b: Spot, c: Spot, id: int, draw: nat -> int, m: nat, n: nat)
    requires Steps(a, b, id, draw, m) && Steps(a, c, id, draw, n)
    requires !Plain(b.s, b.k) && !Plain(c.s, c.k)
    ensures b == c
    decreases m
  {
    if m > 0 && n > 0 { OneEnd(StepOf(a, id, draw), b, c, id, draw, m - 1, n - 1); }
  }

  /** An item that runs a kernel without barriers by itself gets to the end, with
      the data that the explanation gives, whenever that gives any; and to no
      other end. */
  lemma StructuredRun(s: Stmt, id: int, at: Progress, draw: nat -> int, fuel: nat, end: Spot)
    requires Lone(s) && Means(s, id, at, draw, fuel).Some?
    requires !Plain(end.s, end.k)
    ensures Gets(Spot(s, KStop, at), end, id, draw) <==>
            end == Spot(Skip, KStop, Means(s, id, at, draw, fuel).value.at)
  {
    var last := Spot(Skip, KStop, Means(s, id, at, draw, fuel).value.at);
    StepsFollow(s, KStop, id, at, draw, fuel);
    if Gets(Spot(s, KStop, at), end, id, draw) {
      var m: nat :| Steps(Spot(s, KStop, at), end, id, draw, m);
      var n: nat :| Steps(Spot(s, KStop, at), last, id, draw, n);
      OneEnd(Spot(s, KStop, at), end, last, id, draw, m, n);
    }
  }
}
