/** Where a checkpoint puts the values that it saves, and the loops that move
    them: offsets, alignment, and the slices of items and groups. */
module Layout {
  import opened Kernel
  import opened Sums
  import opened Tracker

  lemma {:induction false} SumPrefix(ns: seq<nat>, i: nat)
    requires i < |ns|
    ensures Sum(ns[..i]) + ns[i] == Sum(ns[..i + 1]) <= Sum(ns)
  {
    assert ns[..i + 1][..i] == ns[..i];
    if i + 1 < |ns| {
      var most := ns[..|ns| - 1];
      SumPrefix(most, i);
      assert most[..i + 1] == ns[..i + 1] && most[..i] == ns[..i];
    } else {
      assert ns[..i + 1] == ns;
    }
  }

  // Regions laid out one after the other do not overlap.
  lemma {:induction false} RegionsApart(ns: seq<nat>, i: nat, j: nat)
    requires i < j < |ns|
    ensures Sum(ns[..i]) + ns[i] <= Sum(ns[..j]) && Sum(ns[..j]) + ns[j] <= Sum(ns)
  {
    SumPrefix(ns, j);
    if i + 1 < j {
      RegionsApart(ns[..j], i, j - 1);
      assert ns[..j][..i] == ns[..i] && ns[..j][..j - 1] == ns[..j - 1];
      SumPrefix(ns, j - 1);
    } else {
      SumPrefix(ns, i);
    }
  }

  predicate IsWidth(d: nat) {
    d == 1 || d == 2 || d == 4
  }

  lemma {:induction false} SumMultiple(ns: seq<nat>, d: nat)
    requires IsWidth(d) && forall i | 0 <= i < |ns| :: ns[i] % d == 0
    ensures Sum(ns) % d == 0
  {
    if ns != [] {
      SumMultiple(ns[..|ns| - 1], d);
      AddMultiple(Sum(ns[..|ns| - 1]), ns[|ns| - 1], d);
    }
  }

  lemma AddMultiple(a: nat, b: nat, d: nat)
    requires IsWidth(d) && a % d == 0 && b % d == 0
    ensures (a + b) % d == 0
  {
    if d == 4 {
      Add4(a, b);
    } else if d == 2 {
      Add2(a, b);
    }
  }

  lemma Add4(a: nat, b: nat)
    requires a % 4 == 0 && b % 4 == 0
    ensures (a + b) % 4 == 0
  {
  }

  lemma Add2(a: nat, b: nat)
    requires a % 2 == 0 && b % 2 == 0
    ensures (a + b) % 2 == 0
  {
  }

  function Pad4(n: nat): (r: nat)
    ensures r % 4 == 0 && n <= r < n + 4
  {
    (n + 3) / 4 * 4
  }

  // ------------------------------------------------------ private variables

  // The widest access that the alignment allows.
  function Width(x: Var): (d: nat)
    ensures IsWidth(d) && (d == 1 || d <= x.align)
    ensures forall e: nat | IsWidth(e) && e <= x.align :: e <= d
  {
    if x.align >= 4 then 4 else if x.align >= 2 then 2 else 1
  }

  predicate PowerOfTwo(n: nat) {
    n == 1 || (n > 1 && n % 2 == 0 && PowerOfTwo(n / 2))
  }

  // The size of a type is a multiple of its alignment, a power of two.
  predicate WellTyped(x: Var) {
    PowerOfTwo(x.align) && x.size % x.align == 0
  }

  function Sizes(live: seq<Var>): (ns: seq<nat>)
    ensures |ns| == |live|
  {
    seq(|live|, i requires 0 <= i < |live| => live[i].size)
  }

  function Offset(live: seq<Var>, i: nat): nat
    requires i <= |live|
  {
    Sum(Sizes(live[..i]))
  }

  // Each variable starts where the one before it ends.
  lemma NothingBetween(live: seq<Var>, i: nat)
    requires i < |live|
    ensures Offset(live, 0) == 0 && Offset(live, i + 1) == Offset(live, i) + live[i].size
  {
    assert live[..i + 1][..i] == live[..i];
    assert Sizes(live[..i + 1]) == Sizes(live[..i]) + [live[i].size];
  }

  datatype Copy = Copy(x: Var, off: nat, width: nat)

  // The copies of one checkpoint, and the request for private space.
  method GenerateCovfefe(live: seq<Var>, req: nat) returns (copies: seq<Copy>, req': nat)
    ensures |copies| == |live|
    ensures forall i | 0 <= i < |live| :: copies[i] == Copy(live[i], Offset(live, i), Width(live[i]))
    ensures req' == if req < Pad4(Offset(live, |live|)) then Pad4(Offset(live, |live|)) else req
    ensures req % 4 == 0 ==> req' % 4 == 0
  {
    var size := 0;
    copies := [];
    for i := 0 to |live|
      invariant |copies| == i && size == Offset(live, i)
      invariant forall j | 0 <= j < i :: copies[j] == Copy(live[j], Offset(live, j), Width(live[j]))
    {
      copies := copies + [Copy(live[i], size, Width(live[i]))];
      size := size + live[i].size;
      assert Sizes(live[..i + 1]) == Sizes(live[..i]) + [live[i].size];
    }
    assert live[..|live|] == live;
    size := Pad4(size);
    req' := if req < size then size else req;
  }

  lemma {:induction false} PowerDivides(a: nat)
    requires PowerOfTwo(a)
    ensures (a >= 2 ==> a % 2 == 0) && (a >= 4 ==> a % 4 == 0)
  {
    if a >= 4 { PowerDivides(a / 2); }
  }

  lemma MultipleOf(n: nat, a: nat, d: nat)
    requires a > 0 && IsWidth(d) && n % a == 0 && a % d == 0
    ensures n % d == 0
  {
    var q, m := n / a, a / d;
    Product(n, a);
    Product(a, d);
    Reorder(d, m, q);
    WidthTimes(d, m * q);
  }

  lemma Product(n: nat, a: nat)
    requires a > 0 && n % a == 0
    ensures n == a * (n / a)
  {
  }

  lemma Reorder(d: nat, m: nat, q: nat)
    ensures d * m * q == d * (m * q)
  {
  }

  lemma WidthTimes(d: nat, k: nat)
    requires IsWidth(d)
    ensures (d * k) % d == 0
  {
    if d == 4 {
      assert (4 * k) % 4 == 0;
    } else if d == 2 {
      assert (2 * k) % 2 == 0;
    }
  }

  lemma {:induction false} WidthDivides(x: Var, y: Var)
    requires WellTyped(x) && x.align >= y.align
    ensures x.size % Width(y) == 0
  {
    PowerDivides(x.align);
    MultipleOf(x.size, x.align, Width(y));
  }

  // At every checkpoint the saved variables lie apart from one another, inside
  // the requested space, each aligned for the accesses made to it.
  lemma {:induction false} LayoutFits(live: seq<Var>, req: nat, i: nat)
    requires Ordered(live) && (forall x | x in live :: WellTyped(x)) && i < |live|
    requires req >= Pad4(Offset(live, |live|))
    ensures Offset(live, i) % Width(live[i]) == 0 && live[i].size % Width(live[i]) == 0
    ensures Offset(live, i) + live[i].size <= req
    ensures forall j | i < j < |live| :: Offset(live, i) + live[i].size <= Offset(live, j)
  {
    var before := Sizes(live[..i]);
    forall k | 0 <= k < i ensures before[k] % Width(live[i]) == 0 {
      assert Before(live[k], live[i]);
      WidthDivides(live[k], live[i]);
    }
    SumMultiple(before, Width(live[i]));
    WidthDivides(live[i], live[i]);
    var ns := Sizes(live);
    assert live[..|live|] == live;
    forall k | 0 <= k <= |live| ensures Sizes(live[..k]) == ns[..k] {}
    SumPrefix(ns, i);
    forall j | i < j < |live| ensures Offset(live, i) + live[i].size <= Offset(live, j) { OffsetsApart(live, i, j); }
  }

  // So is the address that item `a` accesses, since the request is a multiple
  // of four bytes.
  lemma AddressAligned(live: seq<Var>, req: nat, i: nat, a: nat)
    requires Ordered(live) && (forall x | x in live :: WellTyped(x)) && i < |live|
    requires req >= Pad4(Offset(live, |live|)) && req % 4 == 0
    ensures (a * req + Offset(live, i)) % Width(live[i]) == 0
  {
    LayoutFits(live, req, i);
    Multiples(a, req, Width(live[i]));
    AddMultiple(a * req, Offset(live, i), Width(live[i]));
  }

  lemma Multiples(a: nat, n: nat, d: nat)
    requires IsWidth(d) && n % 4 == 0
    ensures (a * n) % d == 0
  {
    var k := n / 4;
    assert n == 4 * k;
    Reorder(4, k, a);
    assert a * n == n * a;
    var m := k * a;
    if d == 4 {
      assert (4 * m) % 4 == 0;
    } else if d == 2 {
      assert (4 * m) % 2 == 0;
    }
  }

  // ------------------------------------------------------------ moving bytes

  function Splice(buf: seq<bv8>, at: nat, bytes: seq<bv8>): (r: seq<bv8>)
    requires at + |bytes| <= |buf|
    ensures |r| == |buf|
  {
    buf[..at] + bytes + buf[at + |bytes|..]
  }

  lemma SpliceOutside(buf: seq<bv8>, at: nat, bytes: seq<bv8>, a: nat)
    requires at + |bytes| <= |buf| && a < |buf| && !(at <= a < at + |bytes|)
    ensures Splice(buf, at, bytes)[a] == buf[a]
  {
  }

  lemma SpliceThere(buf: seq<bv8>, at: nat, bytes: seq<bv8>)
    requires at + |bytes| <= |buf|
    ensures Splice(buf, at, bytes)[at..at + |bytes|] == bytes
  {
  }

  lemma SpliceAbove(buf: seq<bv8>, at: nat, bytes: seq<bv8>, lo: nat, hi: nat)
    requires at + |bytes| <= |buf| && lo <= hi <= at
    ensures Splice(buf, at, bytes)[lo..hi] == buf[lo..hi]
  {
  }

  // Store a variable into the buffer, one word of `width` bytes at a time.
  method StorePrivate(lvb: array<bv8>, at: nat, src: seq<bv8>, width: nat)
    requires IsWidth(width) && |src| % width == 0 && at + |src| <= lvb.Length
    modifies lvb
    ensures lvb[..] == Splice(old(lvb[..]), at, src)
  {
    var size, pos := |src|, 0;
    while size >= width
      invariant 0 <= pos && 0 <= size && pos + size == |src| && size % width == 0
      invariant forall j | 0 <= j < pos :: lvb[at + j] == src[j]
      invariant forall a | 0 <= a < at || at + pos <= a < lvb.Length :: lvb[a] == old(lvb[a])
    {
      forall j | 0 <= j < width { lvb[at + pos + j] := src[pos + j]; }
      StepDown(size, width);
      pos, size := pos + width, size - width;
    }
    assert size == 0;
    assert forall a | at <= a < at + pos :: lvb[a] == src[a - at];
  }

  // Load a variable from the buffer.
  method LoadPrivate(lvb: seq<bv8>, at: nat, dst: array<bv8>, width: nat)
    requires IsWidth(width) && dst.Length % width == 0 && at + dst.Length <= |lvb|
    modifies dst
    ensures dst[..] == lvb[at..at + dst.Length]
  {
    var size, pos := dst.Length, 0;
    while size >= width
      invariant 0 <= pos && 0 <= size && pos + size == dst.Length && size % width == 0
      invariant forall j | 0 <= j < pos :: dst[j] == lvb[at + j]
    {
      forall j | 0 <= j < width { dst[pos + j] := lvb[at + pos + j]; }
      StepDown(size, width);
      pos, size := pos + width, size - width;
    }
    assert size == 0;
  }

  lemma StepDown(size: nat, width: nat)
    requires IsWidth(width) && size >= width && size % width == 0
    ensures (size - width) % width == 0
  {
    if width == 4 {} else if width == 2 {}
  }

  // The buffer after a checkpoint has stored `live` from address `base` on.
  function SaveAll(buf: seq<bv8>, base: nat, live: seq<Var>, val: Var -> seq<bv8>): (r: seq<bv8>)
    requires (forall x | x in live :: |val(x)| == x.size) && base + Offset(live, |live|) <= |buf|
    ensures |r| == |buf|
    decreases |live|
  {
    if live == [] then buf
    else
      var n := |live| - 1;
      OffsetOfHead(live);
      Splice(SaveAll(buf, base, live[..n], val), base + Offset(live, n), val(live[n]))
  }

  // Loading from the same offset gives every saved value back, and storing
  // touches nothing outside the item's own part of the buffer.
  lemma SaveThenLoad(buf: seq<bv8>, base: nat, live: seq<Var>, val: Var -> seq<bv8>, i: nat)
    requires (forall x | x in live :: |val(x)| == x.size) && base + Offset(live, |live|) <= |buf| && i < |live|
    ensures var lo := base + Offset(live, i);
            lo + live[i].size <= |buf| && SaveAll(buf, base, live, val)[lo..lo + live[i].size] == val(live[i])
  {
    SavedAt(buf, base, live, val, i, base + Offset(live, i), base + Offset(live, i) + live[i].size);
  }

  lemma {:induction false} SavedAt(buf: seq<bv8>, base: nat, live: seq<Var>, val: Var -> seq<bv8>, i: nat,
                                   lo: nat, hi: nat)
    requires (forall x | x in live :: |val(x)| == x.size) && base + Offset(live, |live|) <= |buf| && i < |live|
    requires lo == base + Offset(live, i) && hi == lo + live[i].size
    ensures hi <= |buf| && SaveAll(buf, base, live, val)[lo..hi] == val(live[i])
    decreases |live|
  {
    var n := |live| - 1;
    OffsetOfHead(live);
    if i < n {
      OffsetsApart(live, i, n);
      OffsetInHead(live, i);
      SavedAt(buf, base, live[..n], val, i, lo, hi);
      SaveOneMore(buf, base, live, val, lo, hi);
    } else {
      SpliceThere(SaveAll(buf, base, live[..n], val), lo, val(live[n]));
    }
  }

  lemma OffsetInHead(live: seq<Var>, i: nat)
    requires i < |live| - 1
    ensures Offset(live[..|live| - 1], i) == Offset(live, i) && live[..|live| - 1][i] == live[i]
  {
    assert live[..|live| - 1][..i] == live[..i];
  }

  // What lies below the last variable is not touched when that one is stored.
  lemma SaveOneMore(buf: seq<bv8>, base: nat, live: seq<Var>, val: Var -> seq<bv8>, lo: nat, hi: nat)
    requires (forall x | x in live :: |val(x)| == x.size) && live != []
    requires base + Offset(live, |live|) <= |buf| && lo <= hi <= base + Offset(live, |live| - 1)
    requires base + Offset(live[..|live| - 1], |live| - 1) <= |buf|
    ensures hi <= |buf|
    ensures SaveAll(buf, base, live, val)[lo..hi] == SaveAll(buf, base, live[..|live| - 1], val)[lo..hi]
  {
    var n := |live| - 1;
    OffsetOfHead(live);
    SpliceAbove(SaveAll(buf, base, live[..n], val), base + Offset(live, n), val(live[n]), lo, hi);
  }

  lemma {:induction false} SaveStaysInside(buf: seq<bv8>, base: nat, live: seq<Var>, val: Var -> seq<bv8>, a: nat)
    requires (forall x | x in live :: |val(x)| == x.size) && base + Offset(live, |live|) <= |buf|
    requires a < |buf| && !(base <= a < base + Offset(live, |live|))
    ensures SaveAll(buf, base, live, val)[a] == buf[a]
    decreases |live|
  {
    if live != [] {
      var n := |live| - 1;
      OffsetOfHead(live);
      SaveStaysInside(buf, base, live[..n], val, a);
      SpliceOutside(SaveAll(buf, base, live[..n], val), base + Offset(live, n), val(live[n]), a);
    }
  }

  lemma OffsetOfHead(live: seq<Var>)
    requires live != []
    ensures var n := |live| - 1;
            Offset(live[..n], n) == Offset(live, n) && Offset(live, |live|) == Offset(live, n) + live[n].size
  {
    var n := |live| - 1;
    assert live[..n][..n] == live[..n] && live[..|live|] == live;
    assert Sizes(live) == Sizes(live[..n]) + [live[n].size];
  }

  lemma OffsetsApart(live: seq<Var>, i: nat, j: nat)
    requires i < j < |live|
    ensures Offset(live, i) + live[i].size <= Offset(live, j)
  {
    forall k | 0 <= k <= |live| ensures Sizes(live[..k]) == Sizes(live)[..k] {}
    RegionsApart(Sizes(live), i, j);
  }

  // ------------------------------------------------- slices of items and groups

  // Slices of `req` bytes of a buffer for `count` owners: apart, and inside.
  lemma SlicesApart(req: nat, count: nat, a: nat, b: nat, off: nat, size: nat)
    requires a < count && b < count && off + size <= req
    ensures a * req + off + size <= count * req
    ensures a < b ==> a * req + off + size <= b * req
  {
    assert (a + 1) * req == a * req + req;
    assert (a + 1) * req <= count * req;
    if a < b { assert (a + 1) * req <= b * req; }
  }

  // Statically sized local variables are padded to four bytes, ...
  method GenerateLocfefe(sizes: seq<nat>) returns (offs: seq<nat>, req: nat)
    ensures |offs| == |sizes|
    ensures req == Sum(Padded(sizes))
    ensures forall i | 0 <= i < |sizes| :: offs[i] == Sum(Padded(sizes[..i]))
  {
    offs, req := [], 0;
    for i := 0 to |sizes|
      invariant |offs| == i && req == Sum(Padded(sizes[..i]))
      invariant forall j | 0 <= j < i :: offs[j] == Sum(Padded(sizes[..j]))
    {
      offs := offs + [req];
      assert Padded(sizes[..i + 1]) == Padded(sizes[..i]) + [Pad4(sizes[i])];
      req := req + Pad4(sizes[i]);
    }
    assert sizes[..|sizes|] == sizes;
  }

  function Padded(sizes: seq<nat>): (ns: seq<nat>)
    ensures |ns| == |sizes|
  {
    seq(|sizes|, i requires 0 <= i < |sizes| => Pad4(sizes[i]))
  }

  // ... and are followed by the buffers whose sizes the host put into a table,
  // padded when the kernel's arguments were set.  All of a group's regions lie
  // apart, on word boundaries, inside what the host allocated for the group.
  lemma {:induction false} LocalRegions(sizes: seq<nat>, args: seq<nat>, i: nat)
    requires i < |sizes| + |args|
    ensures var all := Padded(sizes) + Padded(args);
            && Sum(all) == Sum(Padded(sizes)) + Sum(Padded(args))
            && Sum(all[..i]) % 4 == 0 && Sum(all[..i]) + all[i] <= Sum(all)
            && (i < |sizes| ==> all[..i] == Padded(sizes[..i]))
            && (var n := if i < |sizes| then sizes[i] else args[i - |sizes|]; n <= all[i] < n + 4)
            && Sum(all[..i]) + all[i] == Sum(all[..i + 1])
            && (forall j | i < j < |all| :: Sum(all[..i]) + all[i] <= Sum(all[..j]))
  {
    var all := Padded(sizes) + Padded(args);
    SumConcat(Padded(sizes), Padded(args));
    SumMultiple(all[..i], 4);
    SumPrefix(all, i);
    if i < |sizes| { assert all[..i] == Padded(sizes[..i]); }
    forall j | i < j < |all| ensures Sum(all[..i]) + all[i] <= Sum(all[..j]) { RegionsApart(all, i, j); }
  }

  // In the buffer of the whole grid too, every region starts on a word boundary.
  lemma RegionsAligned(sizes: seq<nat>, args: seq<nat>, i: nat, g: nat)
    requires i < |sizes| + |args|
    ensures var all := Padded(sizes) + Padded(args); (g * Sum(all) + Sum(all[..i])) % 4 == 0
  {
    var all := Padded(sizes) + Padded(args);
    SumMultiple(all[..i], 4);
    SumMultiple(all, 4);
    AlignedTimes(g, Sum(all), Sum(all[..i]));
  }

  lemma AlignedTimes(g: nat, n: nat, m: nat)
    requires n % 4 == 0 && m % 4 == 0
    ensures (g * n + m) % 4 == 0
  {
    Multiples(g, n, 4);
    Add4(g * n, m);
  }

  lemma {:induction false} SumConcat(a: seq<nat>, b: seq<nat>)
    ensures Sum(a + b) == Sum(a) + Sum(b)
  {
    if b == [] {
      assert a + b == a;
    } else {
      assert (a + b)[..|a + b| - 1] == a + b[..|b| - 1];
      SumConcat(a, b[..|b| - 1]);
    }
  }
}
