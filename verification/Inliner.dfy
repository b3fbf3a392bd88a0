/** The inliner: a depth-first walk over the call graph that caches the text of
    what it has finished and reports recursion. */
module Inliner {
  import opened Calls
  import opened Inlining

  // f calls g and g has a body.
  predicate CallsTo(p: Program, f: Name, g: Name) {
    f in p.funcs && g in p.funcs && g in CallsS(p.funcs[f].body)
  }

  predicate CallsNext(p: Program, path: seq<Name>, i: nat)
    requires i + 1 < |path|
  {
    CallsTo(p, path[i], path[i + 1])
  }

  predicate Path(p: Program, path: seq<Name>) {
    forall i: nat :: i + 1 < |path| ==> CallsNext(p, path, i)
  }

  // Each calls the next and the last calls the first.
  predicate Cycle(p: Program, path: seq<Name>) {
    path != [] && Path(p, path) && CallsTo(p, path[|path| - 1], path[0])
  }

  // Finished functions have a rank above that of all they call.
  ghost predicate Ranked(p: Program, rank: map<Name, nat>) {
    forall f, g :: f in rank && CallsTo(p, f, g) ==> g in rank && rank[g] < rank[f]
  }

  lemma {:induction false} RankFalls(p: Program, rank: map<Name, nat>, path: seq<Name>, i: nat)
    requires Ranked(p, rank) && Path(p, path) && i < |path| && path[0] in rank
    ensures path[i] in rank && rank[path[i]] + i <= rank[path[0]]
  {
    if i > 0 {
      RankFalls(p, rank, path, i - 1);
      assert CallsNext(p, path, i - 1);
    }
  }

  lemma RankedMeansAcyclic(p: Program, rank: map<Name, nat>, path: seq<Name>)
    requires Ranked(p, rank) && rank.Keys == p.funcs.Keys
    ensures !Cycle(p, path)
  {
    if Cycle(p, path) {
      RankFalls(p, rank, path, |path| - 1);
    }
  }

  // The text of the calls only depends on the snippets of what is called.
  lemma {:induction false} SameTextE(p: Program, e: Expr, b: map<Name, Stmt>, b': map<Name, Stmt>)
    requires forall g :: g in CallsE(e) && g in p.funcs ==> g in b && g in b' && b[g] == b'[g]
    ensures InlineE(p, e, b) == InlineE(p, e, b')
  {
    match e
    case Load(a) => SameTextE(p, a, b, b');
    case Bin(_, l, r) =>
      SameTextE(p, l, b, b');
      SameTextE(p, r, b, b');
    case Call(f, args) => SameTextArgs(p, args, b, b');
    case Block(_, args, body) =>
      SameTextArgs(p, args, b, b');
      SameText(p, body, b, b');
    case _ =>
  }

  lemma {:induction false} SameTextArgs(p: Program, args: Args, b: map<Name, Stmt>, b': map<Name, Stmt>)
    requires forall g :: g in CallsArgs(args) && g in p.funcs ==> g in b && g in b' && b[g] == b'[g]
    ensures InlineArgs(p, args, b) == InlineArgs(p, args, b')
  {
    match args
    case NoArgs =>
    case More(front, last) =>
      SameTextArgs(p, front, b, b');
      SameTextE(p, last, b, b');
  }

  lemma {:induction false} SameText(p: Program, s: Stmt, b: map<Name, Stmt>, b': map<Name, Stmt>)
    requires forall g :: g in CallsS(s) && g in p.funcs ==> g in b && g in b' && b[g] == b'[g]
    ensures InlineS(p, s, b) == InlineS(p, s, b')
  {
    match s
    case Skip =>
    case Declare(_, e) => SameTextE(p, e, b, b');
    case Assign(_, e) => SameTextE(p, e, b, b');
    case Store(a, e) =>
      SameTextE(p, a, b, b');
      SameTextE(p, e, b, b');
    case Do(e) => SameTextE(p, e, b, b');
    case Return(e) => SameTextE(p, e, b, b');
    case Then(s1, s2) =>
      SameText(p, s1, b, b');
      SameText(p, s2, b, b');
    case If(c, s1, s2) =>
      SameTextE(p, c, b, b');
      SameText(p, s1, b, b');
      SameText(p, s2, b, b');
    case While(c, body) =>
      SameTextE(p, c, b, b');
      SameText(p, body, b, b');
  }

  // Without calls there is nothing to inline.
  lemma {:induction false} NoCallsE(p: Program, e: Expr, b: map<Name, Stmt>)
    requires CallsE(e) == {}
    ensures InlineE(p, e, b) == e
  {
    match e
    case Load(a) => NoCallsE(p, a, b);
    case Bin(_, l, r) =>
      NoCallsE(p, l, b);
      NoCallsE(p, r, b);
    case Block(_, args, body) =>
      NoCallsArgs(p, args, b);
      NoCalls(p, body, b);
    case _ =>
  }

  lemma {:induction false} NoCallsArgs(p: Program, args: Args, b: map<Name, Stmt>)
    requires CallsArgs(args) == {}
    ensures InlineArgs(p, args, b) == args
  {
    match args
    case NoArgs =>
    case More(front, last) =>
      NoCallsArgs(p, front, b);
      NoCallsE(p, last, b);
  }

  lemma {:induction false} NoCalls(p: Program, s: Stmt, b: map<Name, Stmt>)
    requires CallsS(s) == {}
    ensures InlineS(p, s, b) == s
  {
    match s
    case Skip =>
    case Declare(_, e) => NoCallsE(p, e, b);
    case Assign(_, e) => NoCallsE(p, e, b);
    case Store(a, e) =>
      NoCallsE(p, a, b);
      NoCallsE(p, e, b);
    case Do(e) => NoCallsE(p, e, b);
    case Return(e) => NoCallsE(p, e, b);
    case Then(s1, s2) =>
      NoCalls(p, s1, b);
      NoCalls(p, s2, b);
    case If(c, s1, s2) =>
      NoCallsE(p, c, b);
      NoCalls(p, s1, b);
      NoCalls(p, s2, b);
    case While(c, body) =>
      NoCallsE(p, c, b);
      NoCalls(p, body, b);
  }

  // No call of a function that has a body.
  predicate Clean(p: Program, s: Stmt) {
    forall g :: g in CallsS(s) ==> g !in p.funcs
  }

  predicate CleanCallees(p: Program, calls: set<Name>, b: map<Name, Stmt>) {
    forall g :: g in calls && g in p.funcs ==> g in b && Clean(p, b[g])
  }

  // If all that is called is clean, the result of inlining is.
  lemma {:induction false} CleansE(p: Program, e: Expr, b: map<Name, Stmt>)
    requires CleanCallees(p, CallsE(e), b)
    ensures forall g :: g in CallsE(InlineE(p, e, b)) ==> g !in p.funcs
  {
    match e
    case Load(a) => CleansE(p, a, b);
    case Bin(_, l, r) =>
      CleansE(p, l, b);
      CleansE(p, r, b);
    case Call(f, args) => CleansArgs(p, args, b);
    case Block(_, args, body) =>
      CleansArgs(p, args, b);
      Cleans(p, body, b);
    case _ =>
  }

  lemma {:induction false} CleansArgs(p: Program, args: Args, b: map<Name, Stmt>)
    requires CleanCallees(p, CallsArgs(args), b)
    ensures forall g :: g in CallsArgs(InlineArgs(p, args, b)) ==> g !in p.funcs
  {
    match args
    case NoArgs =>
    case More(front, last) =>
      CleansArgs(p, front, b);
      CleansE(p, last, b);
  }

  lemma {:induction false} Cleans(p: Program, s: Stmt, b: map<Name, Stmt>)
    requires CleanCallees(p, CallsS(s), b)
    ensures Clean(p, InlineS(p, s, b))
  {
    match s
    case Skip =>
    case Declare(_, e) => CleansE(p, e, b);
    case Assign(_, e) => CleansE(p, e, b);
    case Store(a, e) =>
      CleansE(p, a, b);
      CleansE(p, e, b);
    case Do(e) => CleansE(p, e, b);
    case Return(e) => CleansE(p, e, b);
    case Then(s1, s2) =>
      Cleans(p, s1, b);
      Cleans(p, s2, b);
    case If(c, s1, s2) =>
      CleansE(p, c, b);
      Cleans(p, s1, b);
      Cleans(p, s2, b);
    case While(c, body) =>
      CleansE(p, c, b);
      Cleans(p, body, b);
  }

  lemma {:induction false} NothingLeft(p: Program, bodies: map<Name, Stmt>, rank: map<Name, nat>, f: Name)
    requires Inlined(p, bodies) && Ranked(p, rank) && rank.Keys == p.funcs.Keys && f in p.funcs
    ensures Clean(p, bodies[f])
    decreases rank[f]
  {
    forall g | g in CallsS(p.funcs[f].body) && g in p.funcs
      ensures Clean(p, bodies[g])
    {
      assert CallsTo(p, f, g);
      NothingLeft(p, bodies, rank, g);
    }
    assert InlinedFunc(p, bodies, f);
    Cleans(p, p.funcs[f].body, bodies);
  }

  // The call sites of a function, as a visitor meets them.
  function SitesE(e: Expr): (r: seq<Name>)
    ensures forall f :: f in r <==> f in CallsE(e)
  {
    match e
    case Const(_) => []
    case Get(_) => []
    case Load(a) => SitesE(a)
    case Bin(_, l, r) => SitesE(l) + SitesE(r)
    case Call(f, args) => [f] + SitesArgs(args)
    case Block(_, args, body) => SitesArgs(args) + SitesS(body)
  }

  function SitesArgs(args: Args): (r: seq<Name>)
    ensures forall f :: f in r <==> f in CallsArgs(args)
  {
    match args
    case NoArgs => []
    case More(front, last) => SitesArgs(front) + SitesE(last)
  }

  function SitesS(s: Stmt): (r: seq<Name>)
    ensures forall f :: f in r <==> f in CallsS(s)
  {
    match s
    case Skip => []
    case Declare(_, e) => SitesE(e)
    case Assign(_, e) => SitesE(e)
    case Store(a, e) => SitesE(a) + SitesE(e)
    case Do(e) => SitesE(e)
    case Return(e) => SitesE(e)
    case Then(s1, s2) => SitesS(s1) + SitesS(s2)
    case If(c, s1, s2) => SitesE(c) + SitesS(s1) + SitesS(s2)
    case While(c, body) => SitesE(c) + SitesS(body)
  }

  // ----------------------------------------------------- progress of the walk

  datatype Progress = Progress(
    todo: set<Name>,          // functions with call sites still to be inlined
    cc: map<Name, Stmt>,      // snippets of finished functions that were called
    text: map<Name, Stmt>,    // what the rewriter has for each body
    rank: map<Name, nat>,     // history: when each function was finished
    clock: nat)

  ghost predicate FunctionOk(p: Program, s: Progress, f: Name)
    requires f in p.funcs && f in s.text
  {
    if f in s.todo then f !in s.rank && s.text[f] == p.funcs[f].body
    else
      && f in s.rank && s.rank[f] < s.clock
      && s.text[f] == InlineS(p, p.funcs[f].body, s.cc)
      && (forall g :: CallsTo(p, f, g) ==> g in s.cc && g in s.rank && s.rank[g] < s.rank[f])
  }

  ghost predicate SnippetOk(p: Program, s: Progress, f: Name)
    requires f in s.cc
  {
    f in p.funcs && f !in s.todo && f in s.text && s.cc[f] == s.text[f]
  }

  ghost predicate Good(p: Program, s: Progress) {
    && s.text.Keys == p.funcs.Keys && s.todo <= p.funcs.Keys && s.rank.Keys <= p.funcs.Keys
    && (forall f {:trigger SnippetOk(p, s, f)} :: f in s.cc ==> SnippetOk(p, s, f))
    && (forall f {:trigger FunctionOk(p, s, f)} :: f in p.funcs ==> FunctionOk(p, s, f))
  }

  function Cached(s: Progress, f: Name): Progress
    requires f in s.text
  {
    s.(cc := s.cc[f := s.text[f]])
  }

  function Finished(p: Program, s: Progress, f: Name): Progress
    requires f in p.funcs
  {
    s.(todo := s.todo - {f}, text := s.text[f := InlineS(p, p.funcs[f].body, s.cc)],
       rank := s.rank[f := s.clock], clock := s.clock + 1)
  }

  lemma CachedKeeps(p: Program, s: Progress, f: Name)
    requires Good(p, s) && f in p.funcs && f !in s.todo && f !in s.cc
    ensures Good(p, Cached(s, f))
  {
    var s' := Cached(s, f);
    forall g | g in p.funcs
      ensures FunctionOk(p, s', g)
    {
      assert FunctionOk(p, s, g);
      if g !in s.todo {
        Callees(p, s, g);
        SameText(p, p.funcs[g].body, s.cc, s'.cc);
      }
    }
    forall g | g in s'.cc
      ensures SnippetOk(p, s', g)
    {
      if g in s.cc { assert SnippetOk(p, s, g); }
    }
  }

  lemma Callees(p: Program, s: Progress, f: Name)
    requires Good(p, s) && f in p.funcs && f !in s.todo
    ensures forall g :: g in CallsS(p.funcs[f].body) && g in p.funcs ==> g in s.cc
  {
    assert FunctionOk(p, s, f);
    forall g | g in CallsS(p.funcs[f].body) && g in p.funcs
      ensures g in s.cc
    {
      assert CallsTo(p, f, g);
    }
  }

  lemma FinishedKeeps(p: Program, s: Progress, f: Name)
    requires Good(p, s) && f in s.todo
    requires forall g :: CallsTo(p, f, g) ==> g in s.cc
    ensures Good(p, Finished(p, s, f))
  {
    var s' := Finished(p, s, f);
    forall g | g in s'.cc
      ensures SnippetOk(p, s', g)
    {
      assert SnippetOk(p, s, g);
    }
    forall g | g in p.funcs
      ensures FunctionOk(p, s', g)
    {
      assert FunctionOk(p, s, g);
      assert FunctionOk(p, s, f);
      if g == f {
        forall h | CallsTo(p, f, h)
          ensures h in s'.rank && s'.rank[h] < s'.rank[f]
        {
          assert SnippetOk(p, s, h);
          assert FunctionOk(p, s, h);
        }
      }
    }
  }

  // When nothing is left to do, every body is inlined with every other body,
  // nothing that has a body is called, and the call graph has no cycle.
  lemma WhenDone(p: Program, s: Progress)
    requires Good(p, s) && s.todo == {}
    ensures Inlined(p, s.text)
    ensures Ranked(p, s.rank) && s.rank.Keys == p.funcs.Keys
  {
    forall f | f in p.funcs
      ensures f in s.rank && s.text[f] == InlineS(p, p.funcs[f].body, s.text)
    {
      assert FunctionOk(p, s, f);
      Callees(p, s, f);
      forall g | g in CallsS(p.funcs[f].body) && g in p.funcs
        ensures g in s.cc && g in s.text && s.cc[g] == s.text[g]
      {
        assert SnippetOk(p, s, g);
      }
      SameText(p, p.funcs[f].body, s.cc, s.text);
    }
    forall f, g | f in s.rank && CallsTo(p, f, g)
      ensures g in s.rank && s.rank[g] < s.rank[f]
    {
      assert FunctionOk(p, s, f);
    }
  }

  // ---------------------------------------------------------- the call chain

  // Functions that wait for what they call; none of them is finished.
  ghost predicate ChainOk(p: Program, chain: seq<Name>, todo: set<Name>) {
    && Path(p, chain)
    && (forall i, j :: 0 <= i < j < |chain| ==> chain[i] != chain[j])
    && forall f :: f in chain ==> f in todo
  }

  // f is called by the last function of the chain.
  predicate Next(p: Program, chain: seq<Name>, f: Name) {
    f in p.funcs && (chain != [] ==> CallsTo(p, chain[|chain| - 1], f))
  }

  // The walk makes progress, but not with the functions in the chain.
  ghost predicate Grows(s: Progress, s': Progress, chain: seq<Name>) {
    s'.todo <= s.todo && s.cc.Keys <= s'.cc.Keys && forall f :: f in chain && f in s.todo ==> f in s'.todo
  }

  // How many functions can still enter the chain.
  ghost function Left(p: Program, chain: seq<Name>): nat {
    |p.funcs.Keys - set f | f in chain|
  }

  lemma ChainCloses(p: Program, chain: seq<Name>, f: Name, i: nat)
    requires Path(p, chain) && Next(p, chain, f) && i < |chain| && chain[i] == f
    ensures Cycle(p, chain[i..])
  {
    var path := chain[i..];
    forall j: nat | j + 1 < |path|
      ensures CallsNext(p, path, j)
    {
      assert CallsNext(p, chain, i + j);
    }
  }

  lemma ChainGrows(p: Program, chain: seq<Name>, todo: set<Name>, f: Name)
    requires ChainOk(p, chain, todo) && Next(p, chain, f) && f !in chain && f in todo
    ensures ChainOk(p, chain + [f], todo)
  {
    forall i: nat | i + 1 < |chain + [f]|
      ensures CallsNext(p, chain + [f], i)
    {
      if i + 1 < |chain| { assert CallsNext(p, chain, i); }
    }
  }

  lemma FewerLeft(p: Program, chain: seq<Name>, f: Name)
    requires f !in chain && f in p.funcs
    ensures Left(p, chain + [f]) < Left(p, chain)
  {
    var a, b := p.funcs.Keys - (set g | g in chain), p.funcs.Keys - (set g | g in chain + [f]);
    assert f in a && b == a - {f};
  }

  lemma ChainShrinks(p: Program, chain: seq<Name>, todo: set<Name>, f: Name)
    requires ChainOk(p, chain + [f], todo)
    ensures ChainOk(p, chain, todo - {f})
  {
    var longer := chain + [f];
    forall i: nat | i + 1 < |chain|
      ensures CallsNext(p, chain, i)
    {
      assert CallsNext(p, longer, i);
    }
    forall i, j | 0 <= i < j < |chain|
      ensures chain[i] != chain[j]
    {
      assert longer[i] != longer[j];
    }
    forall g | g in chain
      ensures g in todo - {f}
    {
      var i :| 0 <= i < |chain| && chain[i] == g;
      assert longer[i] == g && longer[|chain|] == f;
    }
  }

  ghost predicate SitesOk(p: Program, cst: map<Name, seq<Name>>) {
    forall f :: f in cst ==> f in p.funcs && cst[f] == SitesS(p.funcs[f].body)
  }

  // All call sites of f from the last one down to the i-th have snippets.
  predicate Served(p: Program, sites: seq<Name>, i: nat, cc: map<Name, Stmt>) {
    forall k :: i <= k < |sites| && sites[k] in p.funcs ==> sites[k] in cc
  }

  lemma AllServed(p: Program, f: Name, sites: seq<Name>, cc: map<Name, Stmt>)
    requires f in p.funcs && sites == SitesS(p.funcs[f].body) && Served(p, sites, 0, cc)
    ensures forall g :: CallsTo(p, f, g) ==> g in cc
  {
    forall g | CallsTo(p, f, g)
      ensures g in cc
    {
      assert g in sites;
    }
  }

  // --------------------------------------------------------------- the action

  class InlinerAction {
    const p: Program
    var cst: map<Name, seq<Name>>
    var cc: map<Name, Stmt>
    var text: map<Name, Stmt>
    var callChain: seq<Name>
    ghost var rank: map<Name, nat>
    ghost var clock: nat

    ghost function View(): Progress
      reads this
    {
      Progress(cst.Keys, cc, text, rank, clock)
    }

    ghost predicate Valid()
      reads this
    {
      Good(p, View()) && SitesOk(p, cst) && ChainOk(p, callChain, cst.Keys)
    }

    // What the extractor has found.
    constructor (p: Program)
      ensures Valid() && this.p == p && callChain == []
    {
      this.p := p;
      cst := map f | f in p.funcs && SitesS(p.funcs[f].body) != [] :: SitesS(p.funcs[f].body);
      cc := map[];
      text := map f | f in p.funcs :: p.funcs[f].body;
      callChain := [];
      rank := map f | f in p.funcs && SitesS(p.funcs[f].body) == [] :: 0;
      clock := 1;
      new;
      forall f | f in p.funcs
        ensures FunctionOk(p, View(), f)
      {
        if f !in cst {
          assert CallsS(p.funcs[f].body) == {};
          NoCalls(p, p.funcs[f].body, cc);
        }
      }
    }

    // The snippet of a finished function is what the rewriter has for it now.
    method KeepSnippet(f: Name)
      requires Valid() && f in p.funcs && f !in cst
      modifies `cc
      ensures Valid() && Grows(old(View()), View(), callChain) && f in cc
    {
      ghost var s := View();
      if f !in cc {
        CachedKeeps(p, s, f);
        cc := cc[f := text[f]];
        assert View() == Cached(s, f);
      }
    }

    method GenCodeSnippet(f: Name) returns (ok: bool, cycle: seq<Name>)
      requires Valid() && Next(p, callChain, f)
      modifies this
      ensures ok ==> Valid() && callChain == old(callChain) && Grows(old(View()), View(), callChain) && f in cc
      ensures !ok ==> Cycle(p, cycle)
      decreases Left(p, callChain), 1
    {
      ok, cycle := true, [];
      if f in cc {
        return;
      }
      if f in cst {
        ok, cycle := PerformInline(f);
        if !ok {
          return;
        }
      }
      KeepSnippet(f);
    }

    // All calls in the text of f become blocks; f is done.
    method ReplaceText(f: Name)
      requires Valid() && callChain != [] && callChain[|callChain| - 1] == f && f in cst
      requires Served(p, cst[f], 0, cc)
      modifies this
      ensures Valid() && callChain == old(callChain)[..old(|callChain|) - 1]
      ensures Grows(old(View()), View(), callChain) && f !in cst
    {
      ghost var s, chain := View(), callChain;
      AllServed(p, f, cst[f], cc);
      FinishedKeeps(p, s, f);
      text := text[f := InlineS(p, p.funcs[f].body, cc)];
      rank, clock := rank[f := clock], clock + 1;
      cst := cst - {f};
      callChain := callChain[..|callChain| - 1];
      assert View() == Finished(p, s, f);
      assert chain == callChain + [f];
      ChainShrinks(p, callChain, s.todo, f);
    }

    method PerformInline(f: Name) returns (ok: bool, cycle: seq<Name>)
      requires Valid() && Next(p, callChain, f)
      modifies this
      ensures ok ==> Valid() && callChain == old(callChain) && Grows(old(View()), View(), callChain) && f !in cst
      ensures !ok ==> Cycle(p, cycle)
      decreases Left(p, callChain), 0
    {
      ok, cycle := true, [];
      if f in callChain {
        var i :| 0 <= i < |callChain| && callChain[i] == f;
        ChainCloses(p, callChain, f, i);
        ok, cycle := false, callChain[i..];
        return;
      }
      if f !in cst {
        return;
      }
      ChainGrows(p, callChain, cst.Keys, f);
      FewerLeft(p, callChain, f);
      callChain := callChain + [f];
      ok, cycle := InlineCalls(f);
      if ok {
        ReplaceText(f);
      }
    }

    // Every function that f calls gets a snippet, the last call first.
    method InlineCalls(f: Name) returns (ok: bool, cycle: seq<Name>)
      requires Valid() && callChain != [] && callChain[|callChain| - 1] == f && f in cst
      modifies this
      ensures ok ==> Valid() && callChain == old(callChain) && Grows(old(View()), View(), callChain)
      ensures ok ==> f in cst && Served(p, cst[f], 0, cc)
      ensures !ok ==> Cycle(p, cycle)
      decreases Left(p, callChain), 2
    {
      ok, cycle := true, [];
      var sites := cst[f];
      var i: nat := |sites|;
      while i > 0
        invariant 0 <= i <= |sites| && sites == SitesS(p.funcs[f].body)
        invariant Valid() && callChain == old(callChain) && f in cst
        invariant Grows(old(View()), View(), callChain)
        invariant Served(p, sites, i, cc)
        decreases i
      {
        i := i - 1;
        if sites[i] in p.funcs {
          assert sites[i] in CallsS(p.funcs[f].body);
          ok, cycle := GenCodeSnippet(sites[i]);
          if !ok {
            return;
          }
        }
      }
    }

    // Inlining succeeds if and only if no functions with bodies call each
    // other in a circle; then all bodies are inlined, and none calls a function
    // with a body any more.  Otherwise a circle is reported.
    method ExecuteAction() returns (ok: bool, cycle: seq<Name>)
      requires Valid() && callChain == []
      modifies this
      ensures ok ==> Inlined(p, text) && forall f :: f in p.funcs ==> Clean(p, text[f])
      ensures ok ==> forall c :: !Cycle(p, c)
      ensures !ok ==> Cycle(p, cycle)
    {
      ok, cycle := true, [];
      while cst.Keys != {}
        invariant Valid() && callChain == [] && ok
        decreases cst.Keys
      {
        var f :| f in cst.Keys;
        ok, cycle := PerformInline(f);
        if !ok {
          return;
        }
        callChain := [];
      }
      WhenDone(p, View());
      forall f | f in p.funcs
        ensures Clean(p, text[f])
      {
        NothingLeft(p, text, rank, f);
      }
      forall c: seq<Name>
        ensures !Cycle(p, c)
      {
        RankedMeansAcyclic(p, rank, c);
      }
    }
  }
}
