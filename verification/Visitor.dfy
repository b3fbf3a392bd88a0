/** The visitor that rewrites a kernel, with the state it updates on the way. */
module Visitor {
  import opened Wrappers
  import opened Kernel
  import opened Labels
  import opened Instrument
  import opened Preservation
  import S = Sliced
  import Tracker
  import Layout

  function Max(a: nat, b: nat): nat { if a < b then b else a }

  // ------------------------------------------------ space for saved variables

  ghost function TotalSize(xs: set<Var>): nat {
    if xs == {} then 0 else var x :| x in xs; TotalSize(xs - {x}) + x.size
  }

  lemma {:induction false} TotalWithout(xs: set<Var>, x: Var)
    requires x in xs
    ensures TotalSize(xs) == TotalSize(xs - {x}) + x.size
  {
    var y :| y in xs && TotalSize(xs) == TotalSize(xs - {y}) + y.size;
    if y != x {
      TotalWithout(xs - {y}, x);
      TotalWithout(xs - {x}, y);
      assert xs - {y} - {x} == xs - {x} - {y};
    }
  }

  // The layout of a set of variables takes their total size.
  lemma {:induction false} LayoutTotal(live: seq<Var>)
    requires Tracker.Ordered(live)
    ensures Layout.Offset(live, |live|) == TotalSize(set x | x in live)
    decreases |live|
  {
    var xs := set x | x in live;
    if live == [] {
      assert xs == {};
    } else {
      var n := |live| - 1;
      LayoutTotal(live[..n]);
      Layout.OffsetOfHead(live);
      forall i | 0 <= i < n ensures live[i] != live[n] { assert Tracker.Before(live[i], live[n]); }
      assert xs - {live[n]} == set x | x in live[..n];
      assert live[..n][..n] == live[..n];
      TotalWithout(xs, live[n]);
    }
  }

  // The private space that some label of emitted code needs.
  ghost function Request(s: Stmt): nat {
    match s
    case Seq(s1, s2) => Max(Request(s1), Request(s2))
    case Block(body) => Request(body)
    case If(_, s1, s2) => Max(Request(s1), Request(s2))
    case Loop(_, _, _, body) => Request(body)
    case Checkpoint(_, save) => Layout.Pad4(TotalSize(save))
    case Stop(_, _, _, save) => Layout.Pad4(TotalSize(save))
    case _ => 0
  }

  // One request serves every label.
  lemma {:induction false} RequestCovers(s: Stmt, k: Cont, n: nat)
    requires Find(n, s, k).Some?
    ensures Layout.Pad4(TotalSize(Find(n, s, k).value.save)) <= Request(s)
  {
    match s
    case Seq(s1, s2) =>
      if Find(n, s1, KSeq(s2, k)).Some? { RequestCovers(s1, KSeq(s2, k), n); } else { RequestCovers(s2, k, n); }
    case Block(body) => RequestCovers(body, k, n);
    case If(_, s1, s2) => if Find(n, s1, k).Some? { RequestCovers(s1, k, n); } else { RequestCovers(s2, k, n); }
    case Loop(_, c, inc, body) => RequestCovers(body, KBody(c, inc, body, k), n);
    case _ =>
  }

  lemma {:induction false} RequestMultiple(s: Stmt)
    ensures Request(s) % 4 == 0
  {
    match s
    case Seq(s1, s2) =>
      RequestMultiple(s1);
      RequestMultiple(s2);
    case Block(body) => RequestMultiple(body);
    case If(_, s1, s2) =>
      RequestMultiple(s1);
      RequestMultiple(s2);
    case Loop(_, _, _, body) => RequestMultiple(body);
    case _ =>
  }

  lemma RequestAtEnd(body: Stmt, test: Stmt)
    ensures Request(AtEnd(body, test)) == Max(Request(body), Request(test))
  {
    if body.Block? { assert Request(AtEnd(body, test)) == Request(Seq(body.body, test)); }
  }

  // --------------------------------------------------------- declarations

  // Declarations are told apart by their addresses.
  ghost predicate Identifiable(xs: set<Var>) {
    forall x, y | x in xs && y in xs && x.addr == y.addr :: x == y
  }

  lemma {:induction false} TracksDeclared(s: Stmt, st: State, claim: nat -> set<Var>)
    ensures Instr(s, st, claim).1.tracker.Keys <= st.tracker.Keys + Declared(s)
  {
    match s
    case Seq(s1, s2) =>
      TracksDeclared(s1, st, claim);
      TracksDeclared(s2, Instr(s1, st, claim).1, claim);
    case Block(body) => TracksDeclared(body, st.(scope := st.scope + 1), claim);
    case If(_, s1, s2) =>
      TracksDeclared(s1, st, claim);
      TracksDeclared(s2, Instr(s1, st, claim).1, claim);
    case Loop(_, _, _, body) => TracksDeclared(body, st, claim);
    case _ =>
  }

  lemma {:induction false} ScopeStays(s: Stmt, st: State, claim: nat -> set<Var>)
    ensures Instr(s, st, claim).1.scope == st.scope
  {
    match s
    case Seq(s1, s2) =>
      ScopeStays(s1, st, claim);
      ScopeStays(s2, Instr(s1, st, claim).1, claim);
    case If(_, s1, s2) =>
      ScopeStays(s1, st, claim);
      ScopeStays(s2, Instr(s1, st, claim).1, claim);
    case Loop(_, _, _, body) => ScopeStays(body, st, claim);
    case _ =>
  }

  // A loop body and the state after its label has been taken.
  function Patched(c: Expr, body: Stmt, st: State, claim: nat -> set<Var>): (Stmt, State) {
    if NeverRepeats(c) then (body, st)
    else
      var n := st.nonce + 1;
      (AtEnd(body, Checkpoint(n, st.tracker.Keys * claim(n))), st.(nonce := n))
  }

  lemma LoopIsPatched(s: Stmt, st: State, claim: nat -> set<Var>)
    requires s.Loop?
    ensures var (t, st1) := Instr(s.body, st, claim);
            var (b, st2) := Patched(s.c, t, st1, claim);
            Instr(s, st, claim) == (Loop(s.pre, s.c, s.inc, b), st2)
  {
  }

  class Instrumentor {
    var nonce: nat
    var barrierIdx: nat
    var reqPrvSize: nat
    const lvt: Tracker.LiveVarTracker

    ghost predicate Valid()
      reads this, lvt
    {
      lvt.Valid()
    }

    ghost function View(): State
      reads this, lvt
    {
      State(nonce, barrierIdx, lvt.contents, lvt.scope)
    }

    // The state in which the traversal of a kernel begins.
    constructor ()
      ensures Valid() && fresh(lvt) && View() == State(1, 0, map[], 0) && reqPrvSize == 0
    {
      nonce, barrierIdx, reqPrvSize := 1, 0, 0;
      lvt := new Tracker.LiveVarTracker();
    }

    // Lay out what is tracked and live, and take a fresh label for it.
    method TakeLabel(claim: nat -> set<Var>) returns (n: nat, save: set<Var>)
      requires Valid()
      modifies this`nonce, this`reqPrvSize
      ensures n == old(nonce) + 1 == nonce && save == lvt.contents.Keys * claim(n)
      ensures reqPrvSize == Max(old(reqPrvSize), Layout.Pad4(TotalSize(save)))
    {
      n := nonce + 1;
      var live := lvt.LiveAfter(claim(n));
      var copies;
      copies, reqPrvSize := Layout.GenerateCovfefe(live, reqPrvSize);
      LayoutTotal(live);
      save := set x | x in live;
      nonce := n;
    }

    method VisitBarrier(b: nat, claim: nat -> set<Var>) returns (t: Stmt)
      requires Valid()
      modifies this
      ensures Valid()
      ensures (t, View()) == Instr(Barrier(b), old(View()), claim)
      ensures reqPrvSize == Max(old(reqPrvSize), Request(t))
    {
      var idx := barrierIdx;
      barrierIdx := barrierIdx + 1;
      var n, save := TakeLabel(claim);
      t := Stop(b, idx, n, save);
    }

    // Append the timer test to a loop body, unless the loop never repeats.
    method PatchLoopBody(c: Expr, body: Stmt, claim: nat -> set<Var>) returns (t: Stmt)
      requires Valid() && Request(body) <= reqPrvSize
      modifies this
      ensures Valid() && (t, View()) == Patched(c, body, old(View()), claim)
      ensures reqPrvSize == Max(old(reqPrvSize), Request(t))
    {
      if NeverRepeats(c) { return body; }
      var n, save := TakeLabel(claim);
      t := AtEnd(body, Checkpoint(n, save));
      RequestAtEnd(body, Checkpoint(n, save));
    }

    /** Rewrites a statement.  The result and the state left behind are those of
        `Instr`, and the request for private space serves every label. */
    method Traverse(s: Stmt, claim: nat -> set<Var>) returns (t: Stmt)
      requires Valid() && Source(s) && Identifiable(lvt.contents.Keys + Declared(s))
      modifies this, lvt
      ensures Valid()
      ensures (t, View()) == Instr(s, old(View()), claim)
      ensures reqPrvSize == Max(old(reqPrvSize), Request(t))
      decreases s, 1
    {
      t := s;
      match s
      case Do(p) =>
        if p.Decl? { var _ := lvt.AddTrack(p.x); }
      case Seq(s1, s2) =>
        var t1, t2 := TraverseBoth(s1, s2, claim, s);
        t := Seq(t1, t2);
      case Block(_) =>
        t := TraverseCompound(s, claim);
      case If(c, s1, s2) =>
        var t1, t2 := TraverseBoth(s1, s2, claim, s);
        t := If(c, t1, t2);
      case Loop(_, _, _, _) =>
        t := TraverseLoop(s, claim);
      case Barrier(b) =>
        t := VisitBarrier(b, claim);
      case _ =>
    }

    // A compound statement is a scope of its own.
    method TraverseCompound(s: Stmt, claim: nat -> set<Var>) returns (t: Stmt)
      requires s.Block? && Valid() && Source(s) && Identifiable(lvt.contents.Keys + Declared(s))
      modifies this, lvt
      ensures Valid()
      ensures (t, View()) == Instr(s, old(View()), claim)
      ensures reqPrvSize == Max(old(reqPrvSize), Request(t))
      decreases s, 0
    {
      lvt.NewScope();
      ScopeStays(s.body, View(), claim);
      var b := Traverse(s.body, claim);
      lvt.PopScope();
      t := Block(b);
    }

    // A loop's label comes after those of its body.
    method TraverseLoop(s: Stmt, claim: nat -> set<Var>) returns (t: Stmt)
      requires s.Loop? && Valid() && Source(s) && Identifiable(lvt.contents.Keys + Declared(s))
      modifies this, lvt
      ensures Valid()
      ensures (t, View()) == Instr(s, old(View()), claim)
      ensures reqPrvSize == Max(old(reqPrvSize), Request(t))
      decreases s, 0
    {
      var b := Traverse(s.body, claim);
      b := PatchLoopBody(s.c, b, claim);
      t := Loop(s.pre, s.c, s.inc, b);
      LoopIsPatched(s, old(View()), claim);
    }

    method TraverseBoth(s1: Stmt, s2: Stmt, claim: nat -> set<Var>, ghost whole: Stmt) returns (t1: Stmt, t2: Stmt)
      requires (whole.Seq? || whole.If?) && whole.s1 == s1 && whole.s2 == s2
      requires Valid() && Source(s1) && Source(s2)
      requires Identifiable(lvt.contents.Keys + Declared(s1) + Declared(s2))
      modifies this, lvt
      ensures Valid()
      ensures var (a, st1) := Instr(s1, old(View()), claim);
              t1 == a && (t2, View()) == Instr(s2, st1, claim)
      ensures reqPrvSize == Max(old(reqPrvSize), Max(Request(t1), Request(t2)))
      decreases whole, 0
    {
      TracksDeclared(s1, View(), claim);
      t1 := Traverse(s1, claim);
      t2 := Traverse(s2, claim);
    }

    /** Rewrites a kernel.  The program is the one whose executions are those of
        the source; the request for private space is as large as every label
        needs, and a multiple of four bytes.  A kernel without parameters is
        left alone. */
    method TraverseFunctionDecl(params: seq<Var>, body: Stmt, words: nat, claim: nat -> set<Var>)
      returns (p: Option<S.Program>)
      requires Valid() && lvt.contents == map[] && lvt.scope == 0
      requires Source(body) && Identifiable((set x | x in params) + Declared(body))
      modifies this, lvt
      ensures Valid() && lvt.contents == map[] && lvt.scope == 0
      ensures p == if params == [] then None else Some(Compile(body, claim, (set x | x in params), words))
      ensures p.Some? ==> reqPrvSize % 4 == 0
      ensures p.Some? ==> forall n: nat | Find(n, p.value.code, KStop).Some? ::
        Layout.Pad4(TotalSize(Find(n, p.value.code, KStop).value.save)) <= reqPrvSize
    {
      if params == [] {
        return None;
      }
      nonce, barrierIdx, reqPrvSize := 1, 0, 0;
      TrackParameters(params);
      assert View() == Start(set x | x in params);
      var t := Traverse(body, claim);
      lvt.EndContext();
      p := Some(S.Program(t, words, BarrierCount(body)));
      RequestMultiple(t);
      forall n: nat | Find(n, t, KStop).Some?
        ensures Layout.Pad4(TotalSize(Find(n, t, KStop).value.save)) <= reqPrvSize
      {
        RequestCovers(t, KStop, n);
      }
    }

    // The parameters are declared outside of all blocks.
    method TrackParameters(params: seq<Var>)
      requires Valid() && lvt.contents == map[] && lvt.scope == 0 && Identifiable(set x | x in params)
      modifies lvt
      ensures Valid() && lvt.scope == 0 && lvt.contents == map x | x in params :: 0
    {
      for i := 0 to |params|
        invariant Valid() && lvt.scope == 0 && lvt.contents == map x | x in params[..i] :: 0
      {
        var _ := lvt.AddTrack(params[i]);
        assert params[..i + 1] == params[..i] + [params[i]];
      }
      assert params[..|params|] == params;
    }
  }
}
