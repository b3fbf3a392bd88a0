/** The tracker of variables in scope, kept in the order in which they will be
    laid out: by descending alignment, then by declaration. */
module Tracker {
  import opened Kernel
  import I = Instrument

  predicate Before(x: Var, y: Var) {
    if x.align != y.align then x.align > y.align else x.addr < y.addr
  }

  predicate Ordered(xs: seq<Var>) {
    forall i, j | 0 <= i < j < |xs| :: Before(xs[i], xs[j])
  }

  datatype Entry = Entry(x: Var, scope: nat)

  predicate InOrder(es: seq<Entry>) {
    forall i, j | 0 <= i < j < |es| :: Before(es[i].x, es[j].x)
  }

  predicate AllIn(es: seq<Entry>, m: map<Var, nat>) {
    forall i | 0 <= i < |es| :: es[i].x in m && m[es[i].x] == es[i].scope
  }

  ghost predicate At(es: seq<Entry>, i: nat, x: Var) {
    i < |es| && es[i].x == x
  }

  ghost predicate Covers(es: seq<Entry>, m: map<Var, nat>) {
    forall x | x in m :: exists i: nat :: At(es, i, x)
  }

  // The entries are in order, and are exactly those of the map.
  ghost predicate Represents(es: seq<Entry>, m: map<Var, nat>) {
    InOrder(es) && AllIn(es, m) && Covers(es, m)
  }

  // A declaration is identified by its address.
  ghost predicate Identified(m: map<Var, nat>, x: Var) {
    forall y | y in m && y.addr == x.addr :: y == x
  }

  function Erase(es: seq<Entry>, it: nat): seq<Entry>
    requires it < |es|
  {
    es[..it] + es[it + 1..]
  }

  lemma ErasedInOrder(es: seq<Entry>, it: nat)
    requires it < |es| && InOrder(es)
    ensures InOrder(Erase(es, it))
    ensures forall i | 0 <= i < |es| && i != it :: es[i].x != es[it].x
  {
    var r := Erase(es, it);
    forall i, j | 0 <= i < j < |r| ensures Before(r[i].x, r[j].x) {
      assert r[i] == es[if i < it then i else i + 1];
      assert r[j] == es[if j < it then j else j + 1];
    }
    forall i | 0 <= i < |es| && i != it ensures es[i].x != es[it].x {
      if i < it { assert Before(es[i].x, es[it].x); } else { assert Before(es[it].x, es[i].x); }
    }
  }

  lemma ErasedEntries(es: seq<Entry>, it: nat, m: map<Var, nat>)
    requires it < |es| && AllIn(es, m) && Covers(es, m)
    requires forall i | 0 <= i < |es| && i != it :: es[i].x != es[it].x
    ensures var m' := map x | x in m && x != es[it].x :: m[x]; AllIn(Erase(es, it), m') && Covers(Erase(es, it), m')
  {
    var r, m' := Erase(es, it), map x | x in m && x != es[it].x :: m[x];
    forall i | 0 <= i < |r| ensures r[i].x in m' && m'[r[i].x] == r[i].scope {
      assert r[i] == es[if i < it then i else i + 1];
    }
    forall x | x in m' ensures exists i: nat :: At(r, i, x) {
      var i: nat :| At(es, i, x);
      assert At(r, if i < it then i else i - 1, x);
    }
  }

  lemma Erased(es: seq<Entry>, it: nat, m: map<Var, nat>)
    requires it < |es| && Represents(es, m)
    ensures Represents(Erase(es, it), map x | x in m && x != es[it].x :: m[x])
  {
    ErasedInOrder(es, it);
    ErasedEntries(es, it, m);
  }

  function Insert(es: seq<Entry>, at: nat, e: Entry): seq<Entry>
    requires at <= |es|
  {
    es[..at] + [e] + es[at..]
  }

  lemma InsertedInOrder(es: seq<Entry>, at: nat, e: Entry)
    requires at <= |es| && InOrder(es)
    requires forall i | 0 <= i < at :: Before(es[i].x, e.x)
    requires forall i | at <= i < |es| :: Before(e.x, es[i].x)
    ensures InOrder(Insert(es, at, e))
  {
    var r := Insert(es, at, e);
    forall i, j | 0 <= i < j < |r| ensures Before(r[i].x, r[j].x) {
      assert r[i] == if i < at then es[i] else if i == at then e else es[i - 1];
      assert r[j] == if j < at then es[j] else if j == at then e else es[j - 1];
    }
  }

  lemma InsertedEntries(es: seq<Entry>, at: nat, m: map<Var, nat>, e: Entry)
    requires at <= |es| && e.x !in m && AllIn(es, m) && Covers(es, m)
    ensures AllIn(Insert(es, at, e), m[e.x := e.scope]) && Covers(Insert(es, at, e), m[e.x := e.scope])
  {
    var r, m' := Insert(es, at, e), m[e.x := e.scope];
    forall i | 0 <= i < |r| ensures r[i].x in m' && m'[r[i].x] == r[i].scope {
      assert r[i] == if i < at then es[i] else if i == at then e else es[i - 1];
    }
    forall y | y in m' ensures exists i: nat :: At(r, i, y) {
      if y == e.x {
        assert At(r, at, y);
      } else {
        var i: nat :| At(es, i, y);
        assert At(r, if i < at then i else i + 1, y);
      }
    }
  }

  lemma Inserted(es: seq<Entry>, at: nat, m: map<Var, nat>, x: Var, scope: nat)
    requires at <= |es| && Represents(es, m) && Identified(m, x)
    requires forall i | 0 <= i < at :: Before(es[i].x, x)
    requires at < |es| ==> !Before(es[at].x, x) && es[at].x != x
    ensures x !in m && Represents(Insert(es, at, Entry(x, scope)), m[x := scope])
  {
    forall i | at <= i < |es| ensures Before(x, es[i].x) {
      assert es[at].x in m;
      if i > at { assert Before(es[at].x, es[i].x); }
    }
    forall y | y in m ensures y != x {
      var i: nat :| At(es, i, y);
      assert Before(es[i].x, x) || Before(x, es[i].x);
    }
    InsertedInOrder(es, at, Entry(x, scope));
    InsertedEntries(es, at, m, Entry(x, scope));
  }

  class LiveVarTracker {
    var entries: seq<Entry>
    var scope: nat
    ghost var contents: map<Var, nat>

    ghost predicate Valid()
      reads this
    {
      Represents(entries, contents)
    }

    constructor ()
      ensures Valid() && contents == map[] && scope == 0
    {
      entries, scope, contents := [], 0, map[];
    }

    // Forget everything at the end of a kernel.
    method EndContext()
      modifies this
      ensures Valid() && contents == map[] && scope == 0
    {
      entries, scope, contents := [], 0, map[];
    }

    method NewScope()
      modifies this`scope
      ensures scope == old(scope) + 1
    {
      scope := scope + 1;
    }

    // Insert a variable at the current scope unless it is tracked already.
    method AddTrack(x: Var) returns (inserted: bool)
      requires Valid() && Identified(contents, x)
      modifies this`entries, this`contents
      ensures Valid() && contents == I.AddTrack(old(contents), x, scope)
      ensures contents == if x in old(contents) then old(contents) else old(contents)[x := scope]
      ensures inserted <==> x !in old(contents)
    {
      var at := 0;
      while at < |entries| && Before(entries[at].x, x)
        invariant 0 <= at <= |entries|
        invariant forall i | 0 <= i < at :: Before(entries[i].x, x)
      {
        at := at + 1;
      }
      inserted := at == |entries| || entries[at].x != x;
      if inserted {
        Inserted(entries, at, contents, x, scope);
        entries := Insert(entries, at, Entry(x, scope));
        contents := contents[x := scope];
      }
    }

    method EraseAt(it: nat)
      requires Valid() && it < |entries|
      modifies this`entries, this`contents
      ensures Valid() && entries == Erase(old(entries), it)
      ensures contents == map x | x in old(contents) && x != old(entries)[it].x :: old(contents)[x]
    {
      Erased(entries, it, contents);
      contents := map x | x in contents && x != entries[it].x :: contents[x];
      entries := Erase(entries, it);
    }

    // Erase everything at the current scope or deeper, and leave the scope.
    method PopScope()
      requires Valid() && scope > 0
      modifies this
      ensures Valid() && contents == I.PopScope(old(contents), old(scope)) && scope == old(scope) - 1
      ensures contents == map x | x in old(contents) && old(contents)[x] <= scope :: old(contents)[x]
    {
      var it := 0;
      while it < |entries|
        invariant 0 <= it <= |entries|
        invariant Valid() && scope == old(scope)
        invariant forall i | 0 <= i < it :: entries[i].scope < scope
        invariant forall x | x in contents :: x in old(contents) && contents[x] == old(contents)[x]
        invariant forall x | x in old(contents) && old(contents)[x] < scope :: x in contents
        decreases |entries| - it
      {
        if entries[it].scope >= scope {
          EraseAt(it);
        } else {
          it := it + 1;
        }
      }
      scope := scope - 1;
    }

    // The tracked variables that are live, in layout order.
    method LiveAfter(claim: set<Var>) returns (live: seq<Var>)
      requires Valid()
      ensures Ordered(live) && (set x | x in live) == contents.Keys * claim
      ensures forall i, j | 0 <= i < j < |live| ::
                live[i].align > live[j].align || (live[i].align == live[j].align && live[i].addr < live[j].addr)
    {
      live := [];
      var it := 0;
      while it < |entries|
        invariant 0 <= it <= |entries|
        invariant Ordered(live)
        invariant forall i, j | it <= i < |entries| && 0 <= j < |live| :: Before(live[j], entries[i].x)
        invariant forall x :: x in live <==> x in claim && exists i :: 0 <= i < it && entries[i].x == x
      {
        if entries[it].x in claim { live := live + [entries[it].x]; }
        it := it + 1;
      }
    }
  }
}
