/** The search for a local work size: all divisors of each dimension, and an
    odometer over their combinations. */
module WorkGroup {
  import opened Toolkit

  // ---------------------------------------------------------------- divisors

  predicate Divides(f: nat, w: nat) {
    f > 0 && w % f == 0
  }

  lemma NonZeroFactor(f: nat, q: int)
    requires f * q > 0
    ensures q > 0
  {
  }

  lemma Cofactor(f: nat, w: nat)
    requires w > 0 && Divides(f, w)
    ensures w / f > 0 && f * (w / f) == w && Divides(w / f, w) && w / (w / f) == f
  {
    var q := w / f;
    DivMod(w, f);
    assert w == f * q;
    NonZeroFactor(f, q);
    DivModOf(0, q, f);
    DivModOf(0, f, q);
    assert q * f == w;
  }

  // A divisor whose cofactor is also at least `num` is at most w / num.
  lemma SmallSide(f: nat, w: nat, num: nat)
    requires w > 0 && Divides(f, w) && 0 < num <= f && num <= w / f
    ensures num <= w / num
  {
    Cofactor(f, w);
    DivMod(w, num);
    if w / num + 1 <= num {
      Times(num, w / num + 1, num);
      Times(num, w / num, w / num);
      Times(num, num, w / f);
      Times(w / f, num, f);
    }
  }

  // The divisors up to the limit that have a side below `num`.
  ghost predicate Found(fs: seq<nat>, w: nat, limit: nat, num: nat)
    requires w > 0
  {
    forall f: nat :: f in fs <==> Divides(f, w) && f <= limit && (f < num || w / f < num)
  }

  lemma FoundNext(fs: seq<nat>, w: nat, limit: nat, num: nat, fs': seq<nat>)
    requires w > 0 && 0 < num <= limit && Found(fs, w, limit, num)
    requires fs' == if w % num != 0 then fs
                    else fs + [num] + if w / num != num && w / num <= limit then [w / num] else []
    ensures Found(fs', w, limit, num + 1)
  {
    if Divides(num, w) { Cofactor(num, w); }
    forall f: nat ensures f in fs' <==> Divides(f, w) && f <= limit && (f < num + 1 || w / f < num + 1) {
      if Divides(f, w) { Cofactor(f, w); }
    }
  }

  lemma AllFound(fs: seq<nat>, w: nat, limit: nat, num: nat)
    requires w > 0 && num > 0 && Found(fs, w, limit, num) && !(num <= w / num && num <= limit)
    ensures forall f: nat :: f in fs <==> Divides(f, w) && f <= limit
  {
    forall f: nat | Divides(f, w) && f <= limit ensures f in fs {
      if num <= f && num <= w / f { SmallSide(f, w, num); }
    }
  }

  // The divisors of one dimension, up to the device's limit for it.
  method FactorsOf(w: nat, limit: nat) returns (fs: seq<nat>)
    requires w > 0 && limit > 0
    ensures |fs| > 0 && fs[0] == 1
    ensures forall f: nat :: f in fs <==> Divides(f, w) && f <= limit
  {
    fs := [];
    var num := 1;
    while num <= w / num && num <= limit
      invariant 1 <= num && Found(fs, w, limit, num)
      invariant if num == 1 then fs == [] else |fs| > 0 && fs[0] == 1
      decreases limit + 1 - num
    {
      ghost var was := fs;
      var quotient := w / num;
      if w % num == 0 {
        fs := fs + [num];
        if quotient != num && quotient <= limit { fs := fs + [quotient]; }
      }
      FoundNext(was, w, limit, num, fs);
      num := num + 1;
    }
    AllFound(fs, w, limit, num);
  }

  // ---------------------------------------------------------------- odometer

  function Radices(table: seq<seq<nat>>): (rs: seq<nat>)
    ensures |rs| == |table|
  {
    seq(|table|, d requires 0 <= d < |table| => |table[d]|)
  }

  // Advance the odometer by one; false once it has wrapped around.
  method NextTry(try: seq<nat>, table: seq<seq<nat>>) returns (next: seq<nat>, more: bool)
    requires InRange(try, Radices(table))
    ensures InRange(next, Radices(table))
    ensures more ==> Linear(next, Radices(table)) == Linear(try, Radices(table)) + 1
    ensures !more ==> Linear(try, Radices(table)) + 1 == Prod(Radices(table))
  {
    var rs := Radices(table);
    var dim := 0;
    next := try;
    while dim < |table| && next[dim] == |table[dim]| - 1
      invariant 0 <= dim <= |table| && |next| == |table|
      invariant InRange(next, rs)
      invariant next[dim..] == try[dim..]
      invariant forall d | 0 <= d < dim :: next[d] == 0 && try[d] == rs[d] - 1
    {
      next := next[dim := 0];
      dim := dim + 1;
    }
    if dim >= |table| {
      AllNines(try, rs);
      return next, false;
    }
    assert next[dim] == try[dim..][0];
    ghost var was := next;
    next := next[dim := next[dim] + 1];
    Carry(try, next, rs, dim);
    more := true;
  }

  lemma {:induction false} AllNines(try: seq<nat>, rs: seq<nat>)
    requires InRange(try, rs) && forall d | 0 <= d < |rs| :: try[d] == rs[d] - 1
    ensures Linear(try, rs) + 1 == Prod(rs)
  {
    if rs != [] {
      AllNines(try[1..], rs[1..]);
      Times(rs[0], Linear(try[1..], rs[1..]), Linear(try[1..], rs[1..]));
    }
  }

  lemma {:induction false} Carry(try: seq<nat>, next: seq<nat>, rs: seq<nat>, dim: nat)
    requires InRange(try, rs) && InRange(next, rs) && dim < |rs|
    requires forall d | 0 <= d < dim :: next[d] == 0 && try[d] == rs[d] - 1
    requires next[dim] == try[dim] + 1 && next[dim + 1..] == try[dim + 1..]
    ensures Linear(next, rs) == Linear(try, rs) + 1
  {
    if dim > 0 {
      assert next[1..][dim..] == next[dim + 1..] && try[1..][dim..] == try[dim + 1..];
      Carry(try[1..], next[1..], rs[1..], dim - 1);
      Times(rs[0], Linear(try[1..], rs[1..]), Linear(next[1..], rs[1..]));
    }
  }

  // ------------------------------------------------------------------ search

  function Pick(table: seq<seq<nat>>, try: seq<nat>): (sizes: seq<nat>)
    requires InRange(try, Radices(table))
    ensures |sizes| == |table|
  {
    seq(|table|, d requires 0 <= d < |table| => table[d][try[d]])
  }

  // A local size that the device accepts in every single dimension.
  predicate Eligible(sizes: seq<nat>, work: seq<nat>, limits: seq<nat>) {
    |sizes| == |work| <= |limits| &&
    forall d | 0 <= d < |work| :: Divides(sizes[d], work[d]) && sizes[d] <= limits[d]
  }

  ghost predicate Complete(table: seq<seq<nat>>, work: seq<nat>, limits: seq<nat>) {
    |table| == |work| <= |limits| &&
    forall d | 0 <= d < |work| ::
      |table[d]| > 0 && table[d][0] == 1 && forall f: nat :: f in table[d] <==> Divides(f, work[d]) && f <= limits[d]
  }

  // The width of size_t.
  const WORD: nat := 0x1_0000_0000_0000_0000

  lemma {:induction false} ProdAtMost(a: seq<nat>, b: seq<nat>)
    requires |a| == |b| && forall d | 0 <= d < |a| :: 0 < a[d] <= b[d]
    ensures 0 < Prod(a) <= Prod(b)
  {
    if a != [] {
      ProdAtMost(a[1..], b[1..]);
      Times(a[0], Prod(a[1..]), Prod(b[1..]));
      Times(Prod(b[1..]), a[0], b[0]);
      Times(a[0], 1, Prod(a[1..]));
    }
  }

  // In each dimension no size exceeds the work or the limit.
  function Caps(work: seq<nat>, limits: seq<nat>): (caps: seq<nat>)
    requires |work| <= |limits|
    ensures |caps| == |work|
  {
    seq(|work|, d requires 0 <= d < |work| => if work[d] < limits[d] then work[d] else limits[d])
  }

  lemma EligibleProduct(sizes: seq<nat>, work: seq<nat>, limits: seq<nat>)
    requires Eligible(sizes, work, limits) && forall d | 0 <= d < |work| :: work[d] > 0
    ensures 0 < Prod(sizes) <= Prod(Caps(work, limits))
  {
    forall d | 0 <= d < |work| ensures 0 < sizes[d] <= Caps(work, limits)[d] {
      Cofactor(sizes[d], work[d]);
      Times(sizes[d], 1, work[d] / sizes[d]);
    }
    ProdAtMost(sizes, Caps(work, limits));
  }

  // It is enough if either product alone can be counted.
  lemma CapsSuffice(work: seq<nat>, limits: seq<nat>)
    requires |work| <= |limits| && forall d | 0 <= d < |work| :: work[d] > 0 && limits[d] > 0
    ensures Prod(Caps(work, limits)) <= Prod(work) && Prod(Caps(work, limits)) <= Prod(limits[..|work|])
  {
    ProdAtMost(Caps(work, limits), work);
    ProdAtMost(Caps(work, limits), limits[..|work|]);
  }

  // A product as the machine computes it.
  function Size(sizes: seq<nat>): (n: nat)
    ensures n < WORD
  {
    Prod(sizes) % WORD
  }

  // Reducing a factor first does not change the remainder.
  lemma ReducedFactor(a: nat, b: nat)
    ensures (a % WORD * b) % WORD == (a * b) % WORD
  {
    DivMod(a, WORD);
    var q, r := a / WORD, a % WORD;
    DivMod(r * b, WORD);
    var q', r' := r * b / WORD, r * b % WORD;
    Distribute(r, WORD, q, b);
    Distribute(WORD, q * b, q', 1);
    assert a * b == r' + WORD * (q * b + q');
    DivModOf(r', WORD, q * b + q');
  }

  lemma Distribute(x: nat, y: nat, z: nat, b: nat)
    ensures (x + y * z) * b == x * b + y * (z * b)
    ensures x * (y + z) == x * y + x * z
  {
  }

  // The size of the current combination.
  method SizeOf(table: seq<seq<nat>>, try: seq<nat>) returns (size: nat)
    requires InRange(try, Radices(table))
    ensures size == Size(Pick(table, try))
  {
    size := 1;
    ghost var sizes := Pick(table, try);
    for d := 0 to |table|
      invariant size == Size(sizes[..d])
    {
      ProdSnoc(sizes[..d], sizes[d]);
      assert sizes[..d + 1] == sizes[..d] + [sizes[d]];
      assert sizes[d] == table[d][try[d]];
      ReducedFactor(Prod(sizes[..d]), sizes[d]);
      size := size * table[d][try[d]] % WORD;
    }
    assert sizes[..|table|] == sizes;
  }

  // Every combination up to the current one has been considered.
  ghost predicate BestSoFar(table: seq<seq<nat>>, upto: nat, best: nat, most: nat) {
    forall t | InRange(t, Radices(table)) && Linear(t, Radices(table)) <= upto ::
      Size(Pick(table, t)) < most ==> Size(Pick(table, t)) <= best
  }

  lemma BestNext(table: seq<seq<nat>>, try: seq<nat>, next: seq<nat>, best: nat, best': nat, most: nat)
    requires InRange(try, Radices(table)) && InRange(next, Radices(table))
    requires Linear(next, Radices(table)) == Linear(try, Radices(table)) + 1
    requires BestSoFar(table, Linear(try, Radices(table)), best, most)
    requires best <= best' && (Size(Pick(table, next)) < most ==> Size(Pick(table, next)) <= best')
    ensures BestSoFar(table, Linear(next, Radices(table)), best', most)
  {
    var rs := Radices(table);
    forall t | InRange(t, rs) && Linear(t, rs) == Linear(next, rs) ensures t == next {
      CoordsOfLinear(t, rs);
      CoordsOfLinear(next, rs);
    }
  }

  lemma PickEligible(table: seq<seq<nat>>, try: seq<nat>, work: seq<nat>, limits: seq<nat>)
    requires Complete(table, work, limits) && InRange(try, Radices(table))
    ensures Eligible(Pick(table, try), work, limits)
  {
    forall d | 0 <= d < |work| ensures table[d][try[d]] in table[d] {}
  }

  // Every eligible local size is some combination of the table's entries.
  lemma EligiblePicked(table: seq<seq<nat>>, sizes: seq<nat>, work: seq<nat>, limits: seq<nat>)
    requires Complete(table, work, limits) && Eligible(sizes, work, limits)
    ensures exists t :: InRange(t, Radices(table)) && Pick(table, t) == sizes
  {
    forall d | 0 <= d < |work| ensures exists i: nat :: i < |table[d]| && table[d][i] == sizes[d] {
      assert sizes[d] in table[d];
    }
    var t := seq(|table|, d requires 0 <= d < |table| => var i: nat :| i < |table[d]| && table[d][i] == sizes[d]; i);
    assert InRange(t, Radices(table)) && Pick(table, t) == sizes;
  }

  lemma BestOfAll(table: seq<seq<nat>>, work: seq<nat>, limits: seq<nat>, upto: nat, best: nat, most: nat)
    requires Complete(table, work, limits) && BestSoFar(table, upto, best, most)
    requires upto + 1 == Prod(Radices(table))
    ensures forall c | Eligible(c, work, limits) && Size(c) < most :: Size(c) <= best
  {
    forall c | Eligible(c, work, limits) && Size(c) < most ensures Size(c) <= best {
      EligiblePicked(table, c, work, limits);
      var t :| InRange(t, Radices(table)) && Pick(table, t) == c;
      LinearBound(t, Radices(table));
    }
  }

  lemma {:induction false} Zeros(rs: seq<nat>)
    requires forall d | 0 <= d < |rs| :: rs[d] > 0
    ensures var z := seq(|rs|, _ => 0); InRange(z, rs) && Linear(z, rs) == 0
  {
    if rs != [] {
      Zeros(rs[1..]);
      var z: seq<nat> := seq(|rs|, _ => 0);
      assert z[1..] == seq(|rs[1..]|, _ => 0);
    }
  }

  lemma {:induction false} ProdOnes(ns: seq<nat>)
    requires forall d | 0 <= d < |ns| :: ns[d] == 1
    ensures Prod(ns) == 1
  {
    if ns != [] { ProdOnes(ns[1..]); }
  }

  // The table of factors, dimension by dimension.
  method FactorTable(work: seq<nat>, limits: seq<nat>) returns (table: seq<seq<nat>>)
    requires |work| <= |limits| && forall d | 0 <= d < |work| :: work[d] > 0 && limits[d] > 0
    ensures Complete(table, work, limits)
  {
    table := [];
    for dim := 0 to |work|
      invariant |table| == dim
      invariant forall d | 0 <= d < dim ::
        |table[d]| > 0 && table[d][0] == 1 && forall f: nat :: f in table[d] <==> Divides(f, work[d]) && f <= limits[d]
    {
      var fs := FactorsOf(work[dim], limits[dim]);
      table := table + [fs];
    }
  }

  predicate AllOnes(sizes: seq<nat>) {
    forall d | 0 <= d < |sizes| :: sizes[d] == 1
  }

  // The largest eligible size strictly below the thread limit, or all ones.
  ghost predicate Optimal(best: seq<nat>, work: seq<nat>, limits: seq<nat>, most: nat) {
    && (Prod(best) < most || AllOnes(best))
    && forall c | Eligible(c, work, limits) && Prod(c) < most :: Prod(c) <= Prod(best)
  }

  // What the loop computes, with products that wrap around.
  ghost predicate OptimalInWords(best: seq<nat>, work: seq<nat>, limits: seq<nat>, most: nat) {
    && (Size(best) < most || AllOnes(best))
    && forall c | Eligible(c, work, limits) && Size(c) < most :: Size(c) <= Size(best)
  }

  lemma SmallSize(sizes: seq<nat>)
    requires Prod(sizes) < WORD
    ensures Size(sizes) == Prod(sizes)
  {
    DivModOf(Prod(sizes), WORD, 0);
  }

  // It is what was wanted if and only if the machine can count the result.
  lemma OptimalWhenCounted(best: seq<nat>, work: seq<nat>, limits: seq<nat>, most: nat)
    requires OptimalInWords(best, work, limits, most) && most < 0x1_0000_0000_0000_0000
    ensures Optimal(best, work, limits, most) <==> Prod(best) < 0x1_0000_0000_0000_0000
  {
    if AllOnes(best) { ProdOnes(best); }
    if Prod(best) < WORD {
      SmallSize(best);
      forall c | Eligible(c, work, limits) && Prod(c) < most ensures Prod(c) <= Prod(best) { SmallSize(c); }
    }
  }

  // It happens that it cannot, on a device with such limits: 2 * (2^63 + 3) is 6
  // in machine arithmetic, which no other choice comes to.
  lemma CountOverflows(best: seq<nat>)
    requires var work := [2, 0x8000_0000_0000_0003];
             Eligible(best, work, work) && OptimalInWords(best, work, work, 7)
    ensures !Optimal(best, [2, 0x8000_0000_0000_0003], [2, 0x8000_0000_0000_0003], 7)
  {
    var n: nat := 0x8000_0000_0000_0003;
    var work: seq<nat> := [2, n];
    assert Prod(work[1..]) == n * Prod([]) == n;
    assert Prod(work) == 2 * n && Size(work) == 6;
    DivModOf(0, 2, 1);
    DivModOf(0, n, 1);
    assert Eligible(work, work, work);
    OptimalWhenCounted(best, work, work, 7);
    NotSix(best, n);
    if Prod(best) < WORD { SmallSize(best); }
    if AllOnes(best) { ProdOnes(best); }
  }

  lemma NotSix(best: seq<nat>, n: nat)
    requires n == 0x8000_0000_0000_0003 && Eligible(best, [2, n], [2, n])
    ensures Prod(best) != 6
  {
    assert best[1..] == [best[1]] && best[1..][1..] == [] && Prod(best[1..]) == best[1];
    assert Prod(best) == best[0] * best[1];
    assert n % 6 == 5 && n % 3 == 2;
    assert best[0] == 1 || best[0] == 2;
  }

  /** The local size that the search settles on: eligible in every dimension,
      and of the largest product strictly below the thread limit (all ones if
      there is none) if and only if that product can be counted by the machine.
      It can if the product of what the work and the device allow can. */
  method FindWorkGroupSize(work: seq<nat>, limits: seq<nat>, most: nat) returns (best: seq<nat>)
    requires |work| <= |limits| && forall d | 0 <= d < |work| :: work[d] > 0 && limits[d] > 0
    requires most < 0x1_0000_0000_0000_0000
    ensures Eligible(best, work, limits) && Divisible(work, best)
    ensures OptimalInWords(best, work, limits, most)
    ensures Optimal(best, work, limits, most) <==> Prod(best) < 0x1_0000_0000_0000_0000
    ensures Prod(Caps(work, limits)) < 0x1_0000_0000_0000_0000 ==> Optimal(best, work, limits, most)
    ensures forall d | 0 <= d < |work| :: 0 < best[d] <= limits[d] && work[d] % best[d] == 0
    ensures forall c: seq<nat> | Prod(c) < most && Prod(best) < 0x1_0000_0000_0000_0000 && |c| == |work|
              && (forall d | 0 <= d < |work| :: 0 < c[d] <= limits[d] && work[d] % c[d] == 0) :: Prod(c) <= Prod(best)
  {
    var table := FactorTable(work, limits);
    ghost var rs := Radices(table);
    var try: seq<nat> := seq(|work|, _ => 0);
    Zeros(rs);
    var maxSet := try;
    var maxSize := 1;
    ProdOnes(Pick(table, try));
    SmallSize(Pick(table, try));
    assert BestSoFar(table, 0, 1, most) by {
      forall t | InRange(t, rs) && Linear(t, rs) <= 0 ensures t
          == try { CoordsOfLinear(t, rs); CoordsOfLinear(try, rs); }
    }
    var more := true;
    while more
      invariant InRange(try, rs) && InRange(maxSet, rs)
      invariant BestSoFar(table, Linear(try, rs), maxSize, most)
      invariant maxSize == Size(Pick(table, maxSet))
      invariant maxSize < most || forall d | 0 <= d < |table| :: maxSet[d] == 0
      invariant !more ==> Linear(try, rs) + 1 == Prod(rs)
      decreases more, Prod(rs) - Linear(try, rs)
    {
      LinearBound(try, rs);
      ghost var was := try;
      var next;
      next, more := NextTry(try, table);
      if more {
        LinearBound(next, rs);
        try := next;
        var thisSize := SizeOf(table, try);
        ghost var before := maxSize;
        if thisSize > maxSize && thisSize < most {
          maxSet, maxSize := try, thisSize;
        }
        BestNext(table, was, try, before, maxSize, most);
      }
    }
    BestOfAll(table, work, limits, Linear(try, rs), maxSize, most);
    best := Pick(table, maxSet);
    PickEligible(table, maxSet, work, limits);
    EligibleProduct(best, work, limits);
    OptimalWhenCounted(best, work, limits, most);
  }
}
