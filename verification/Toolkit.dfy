/** The device-side helpers: linear ids, and the copy of local memory that the
    items of a batch share among themselves. */
module Toolkit {

  // ------------------------------------------------------------- linear ids

  function Prod(ns: seq<nat>): nat {
    if ns == [] then 1 else ns[0] * Prod(ns[1..])
  }

  predicate InRange(ids: seq<nat>, sizes: seq<nat>) {
    |ids| == |sizes| && forall d | 0 <= d < |ids| :: ids[d] < sizes[d]
  }

  // Dimension 0 varies fastest.
  function Linear(ids: seq<nat>, sizes: seq<nat>): nat
    requires |ids| == |sizes|
  {
    if ids == [] then 0 else ids[0] + sizes[0] * Linear(ids[1..], sizes[1..])
  }

  function Coords(n: nat, sizes: seq<nat>): (ids: seq<nat>)
    requires forall d | 0 <= d < |sizes| :: sizes[d] > 0
    ensures |ids| == |sizes|
    decreases |sizes|
  {
    if sizes == [] then []
    else
      DivMod(n, sizes[0]);
      [n % sizes[0]] + Coords(n / sizes[0], sizes[1..])
  }

  lemma DivMod(n: nat, s: nat)
    requires s > 0
    ensures 0 <= n / s && 0 <= n % s < s && n == s * (n / s) + n % s
  {
  }

  lemma Times(s: nat, a: nat, b: nat)
    requires a <= b
    ensures s * a <= s * b && s * (a + 1) == s * a + s
  {
  }

  // Quotient and remainder are unique.
  lemma DivModOf(r: nat, s: nat, q: nat)
    requires r < s
    ensures (r + s * q) / s == q && (r + s * q) % s == r
  {
    var n := r + s * q;
    DivMod(n, s);
    Unique(r, q, n % s, n / s, s);
    Unique(n % s, n / s, r, q, s);
  }

  lemma Unique(r: nat, q: nat, r': nat, q': nat, s: nat)
    requires r < s && r' < s && r + s * q == r' + s * q'
    ensures q <= q'
  {
    if q' + 1 <= q { Times(s, q' + 1, q); Times(s, q', q'); }
  }

  // The ids of one work-item, from its coordinates in every dimension.
  method GetLinearId(groups: seq<nat>, group: seq<nat>, locals: seq<nat>, local: seq<nat>)
    returns (globalId: nat, groupId: nat, localId: nat, groupSize: nat)
    requires |groups| == |group| == |locals| == |local|
    ensures groupId == Linear(group, groups) && localId == Linear(local, locals)
    ensures groupSize == Prod(locals) && globalId == groupId * groupSize + localId
  {
    var dim := |groups|;
    groupId, localId, groupSize := 0, 0, 1;
    while dim > 0
      invariant 0 <= dim <= |groups|
      invariant groupId == Linear(group[dim..], groups[dim..])
      invariant localId == Linear(local[dim..], locals[dim..])
      invariant groupSize == Prod(locals[dim..])
    {
      dim := dim - 1;
      groupId := groupId * groups[dim] + group[dim];
      localId := localId * locals[dim] + local[dim];
      groupSize := groupSize * locals[dim];
      assert group[dim..][1..] == group[dim + 1..] && groups[dim..][1..] == groups[dim + 1..];
      assert local[dim..][1..] == local[dim + 1..] && locals[dim..][1..] == locals[dim + 1..];
    }
    globalId := groupId * groupSize + localId;
    assert group[0..] == group && groups[0..] == groups && local[0..] == local && locals[0..] == locals;
  }

  lemma {:induction false} LinearBound(ids: seq<nat>, sizes: seq<nat>)
    requires InRange(ids, sizes)
    ensures Linear(ids, sizes) < Prod(sizes)
  {
    if ids != [] {
      LinearBound(ids[1..], sizes[1..]);
      var l, p, s := Linear(ids[1..], sizes[1..]), Prod(sizes[1..]), sizes[0];
      Times(s, l + 1, p);
      Times(s, l, l);
    }
  }

  // Coordinates determine the linear id and are determined by it.
  lemma {:induction false} CoordsOfLinear(ids: seq<nat>, sizes: seq<nat>)
    requires InRange(ids, sizes)
    ensures Coords(Linear(ids, sizes), sizes) == ids
  {
    if ids != [] {
      CoordsOfLinear(ids[1..], sizes[1..]);
      DivModOf(ids[0], sizes[0], Linear(ids[1..], sizes[1..]));
    }
  }

  // Dimension 0 varies fastest: one step in a dimension goes past all items of
  // the lower ones.
  lemma {:induction false} StepIn(ids: seq<nat>, sizes: seq<nat>, d: nat)
    requires |ids| == |sizes| && d < |ids|
    ensures Linear(ids[d := ids[d] + 1], sizes) == Linear(ids, sizes) + Prod(sizes[..d])
  {
    if d > 0 {
      var next, s := ids[d := ids[d] + 1], sizes[0];
      assert next[1..] == ids[1..][d - 1 := ids[1..][d - 1] + 1];
      StepIn(ids[1..], sizes[1..], d - 1);
      assert sizes[..d][1..] == sizes[1..][..d - 1];
      Spread(s, Linear(ids[1..], sizes[1..]), Prod(sizes[1..][..d - 1]));
    }
  }

  lemma Spread(s: nat, a: nat, b: nat)
    ensures s * (a + b) == s * a + s * b
  {
  }

  lemma QuotientBound(n: nat, s: nat, p: nat)
    requires s > 0 && n < s * p
    ensures 0 <= n / s < p && 0 <= n % s < s && n == s * (n / s) + n % s
  {
    DivMod(n, s);
    if p <= n / s { Times(s, p, n / s); }
  }

  lemma {:induction false} LinearOfCoords(n: nat, sizes: seq<nat>)
    requires (forall d | 0 <= d < |sizes| :: sizes[d] > 0) && n < Prod(sizes)
    ensures InRange(Coords(n, sizes), sizes) && Linear(Coords(n, sizes), sizes) == n
    decreases |sizes|
  {
    if sizes != [] {
      var s := sizes[0];
      QuotientBound(n, s, Prod(sizes[1..]));
      LinearOfCoords(n / s, sizes[1..]);
      assert Coords(n, sizes)[1..] == Coords(n / s, sizes[1..]);
    }
  }

  function GlobalId(group: seq<nat>, groups: seq<nat>, local: seq<nat>, locals: seq<nat>): nat
    requires |group| == |groups| && |local| == |locals|
  {
    Linear(group, groups) * Prod(locals) + Linear(local, locals)
  }

  // The items of group g are exactly those numbered g*W .. (g+1)*W - 1.
  lemma GroupChunk(group: seq<nat>, groups: seq<nat>, local: seq<nat>, locals: seq<nat>)
    requires InRange(group, groups) && InRange(local, locals)
    ensures var g, w, id := Linear(group, groups), Prod(locals), GlobalId(group, groups, local, locals);
            && g * w <= id < (g + 1) * w <= Prod(groups) * w
            && id / w == g && id % w == Linear(local, locals)
  {
    var g, w, l := Linear(group, groups), Prod(locals), Linear(local, locals);
    LinearBound(group, groups);
    LinearBound(local, locals);
    Chunk(g, w, l, Prod(groups));
  }

  lemma Chunk(g: nat, w: nat, l: nat, n: nat)
    requires l < w && g < n
    ensures g * w <= g * w + l < (g + 1) * w <= n * w
    ensures (g * w + l) / w == g && (g * w + l) % w == l
  {
    Times(w, g, g);
    Times(w, g + 1, n);
    assert w * g == g * w && w * (g + 1) == (g + 1) * w && w * n == n * w;
    DivModOf(l, w, g);
  }

  // Global ids are a bijection: no two items share one, ...
  lemma GlobalIdInjective(group: seq<nat>, local: seq<nat>, group': seq<nat>, local': seq<nat>, groups: seq<nat>,
                          locals: seq<nat>)
    requires InRange(group, groups) && InRange(local, locals) && InRange(group', groups) && InRange(local', locals)
    requires GlobalId(group, groups, local, locals) == GlobalId(group', groups, local', locals)
    ensures group == group' && local == local'
  {
    GroupChunk(group, groups, local, locals);
    GroupChunk(group', groups, local', locals);
    CoordsOfLinear(group, groups);
    CoordsOfLinear(group', groups);
    CoordsOfLinear(local, locals);
    CoordsOfLinear(local', locals);
  }

  // ... and every number below the number of items is one item's id.
  lemma GlobalIdSurjective(n: nat, groups: seq<nat>, locals: seq<nat>)
    requires (forall d | 0 <= d < |groups| :: groups[d] > 0) && (forall d | 0 <= d < |locals| :: locals[d] > 0)
    requires n < Prod(groups) * Prod(locals)
    ensures var w := Prod(locals);
            w > 0
            && var group, local := Coords(n / w, groups), Coords(n % w, locals);
               InRange(group, groups) && InRange(local, locals) && GlobalId(group, groups, local, locals) == n
  {
    ProdPositive(locals);
    var w := Prod(locals);
    QuotientBound(n, w, Prod(groups));
    LinearOfCoords(n / w, groups);
    LinearOfCoords(n % w, locals);
  }

  lemma {:induction false} ProdPositive(ns: seq<nat>)
    requires forall d | 0 <= d < |ns| :: ns[d] > 0
    ensures Prod(ns) > 0
  {
    if ns != [] { ProdPositive(ns[1..]); }
  }

  // ---------------------------------------------------- sizes on the host side

  function Quotients(gws: seq<nat>, lws: seq<nat>): (qs: seq<nat>)
    requires |gws| == |lws| && forall d | 0 <= d < |lws| :: lws[d] > 0
    ensures |qs| == |gws|
  {
    seq(|gws|, d requires 0 <= d < |gws| => gws[d] / lws[d])
  }

  predicate Divisible(gws: seq<nat>, lws: seq<nat>) {
    |gws| == |lws| && forall d | 0 <= d < |gws| :: lws[d] > 0 && gws[d] % lws[d] == 0
  }

  lemma {:induction false} ProdSplits(gws: seq<nat>, lws: seq<nat>)
    requires Divisible(gws, lws)
    ensures Prod(gws) == Prod(Quotients(gws, lws)) * Prod(lws)
  {
    if gws != [] {
      ProdSplits(gws[1..], lws[1..]);
      var qs := Quotients(gws, lws);
      assert qs[1..] == Quotients(gws[1..], lws[1..]);
      var a, b, c, d := qs[0], lws[0], Prod(qs[1..]), Prod(lws[1..]);
      assert gws[0] == a * b;
      assert (a * b) * (c * d) == (a * c) * (b * d);
    }
  }

  lemma {:induction false} ProdSnoc(ns: seq<nat>, n: nat)
    ensures Prod(ns + [n]) == Prod(ns) * n
  {
    if ns == [] {
      assert ns + [n] == [n] && [n][1..] == [];
    } else {
      ProdSnoc(ns[1..], n);
      assert (ns + [n])[1..] == ns[1..] + [n];
      assert ns[0] * (Prod(ns[1..]) * n) == (ns[0] * Prod(ns[1..])) * n;
    }
  }

  // The host refuses local sizes that do not divide the global ones; else the
  // group size that it computes is the number of items that share a group.
  method GridSizes(gws: seq<nat>, lws: seq<nat>) returns (ok: bool, threads: nat, groups: nat, groupSize: nat)
    requires |gws| == |lws| && (forall d | 0 <= d < |gws| :: gws[d] > 0 && lws[d] > 0)
    ensures ok <==> Divisible(gws, lws)
    ensures ok ==> threads == Prod(gws) && groups == Prod(Quotients(gws, lws)) && groupSize == Prod(lws)
  {
    threads, groups, groupSize := 1, 1, 1;
    var qs := Quotients(gws, lws);
    for d := 0 to |gws|
      invariant threads == Prod(gws[..d]) && groups == Prod(qs[..d])
      invariant forall e | 0 <= e < d :: gws[e] % lws[e] == 0
    {
      if gws[d] % lws[d] != 0 { return false, threads, groups, groupSize; }
      ProdSnoc(gws[..d], gws[d]);
      ProdSnoc(qs[..d], qs[d]);
      assert gws[..d + 1] == gws[..d] + [gws[d]] && qs[..d + 1] == qs[..d] + [qs[d]];
      threads := threads * gws[d];
      groups := groups * (gws[d] / lws[d]);
    }
    assert gws[..|gws|] == gws && qs[..|gws|] == qs;
    ProdSplits(gws, lws);
    forall d | 0 <= d < |qs| ensures qs[d] > 0 { DivMod(gws[d], lws[d]); }
    ProdPositive(qs);
    ExactQuotient(groups, Prod(lws));
    ok, groupSize := true, threads / groups;
  }

  lemma ExactQuotient(a: nat, b: nat)
    requires a > 0
    ensures (a * b) / a == b
  {
    DivModOf(0, a, b);
  }

  // ------------------------------------------------------- cooperative copy

  // The item of a batch that moves byte `a`.
  function Owner(a: nat, batch: nat): nat
    requires batch > 0
  {
    a / 4 % batch
  }

  // The buffer after item `id` has stored its share of `src` from `at` on.
  function Share(buf: seq<bv8>, at: nat, src: seq<bv8>, id: nat, batch: nat): (r: seq<bv8>)
    requires batch > 0 && at + |src| <= |buf|
    ensures |r| == |buf|
  {
    seq(|buf|, a requires 0 <= a < |buf| =>
      if at <= a < at + |src| && Owner(a - at, batch) == id then src[a - at] else buf[a])
  }

  // Words id, id + batch, id + 2*batch, ... and what is left of the last one.
  // The ghost counts say how often each byte of the buffer's part was written.
  method StoreLocal(lvb: array<bv8>, at: nat, src: seq<bv8>, id: nat, batch: nat, ghost writes: seq<nat>)
    returns (ghost writes': seq<nat>)
    requires id < batch && at + |src| <= lvb.Length && |writes| == |src|
    modifies lvb
    ensures lvb[..] == Share(old(lvb[..]), at, src, id, batch)
    ensures forall a | 0 <= a < |src| :: lvb[at + a] == if a / 4 % batch == id then src[a] else old(lvb[at + a])
    ensures Counted(writes, writes', |src|, id, batch)
  {
    var size, word := |src|, id;
    FirstWord(lvb[..], at, src, id, batch);
    CountFirst(writes, id, batch);
    writes' := writes;
    while 4 * word + 4 <= size
      invariant word % batch == id
      invariant Stored(old(lvb[..]), lvb[..], at, src, 4 * word, id, batch)
      invariant Counted(writes, writes', 4 * word, id, batch)
      decreases size - 4 * word
    {
      var w := 4 * word;
      ghost var was := lvb[..];
      StoreWord(lvb, at, src, w);
      OneWord(old(lvb[..]), was, lvb[..], at, src, word, 4 * (word + batch), id, batch);
      writes' := CountRange(writes', w, w + 4);
      CountWord(writes, word, 4 * (word + batch), id, batch);
      NextOwned(word, batch);
      word := word + batch;
    }
    ghost var was := lvb[..];
    var b := 4 * word;
    if b < size {
      StoreTail(lvb, at, src, b);
      writes' := CountRange(writes', b, size);
    }
    LastWord(old(lvb[..]), was, lvb[..], at, src, word, id, batch);
    CountWord(writes, word, if size < b then b else size, id, batch);
  }

  // Bytes from lo up to hi are written once more.
  function CountRange(writes: seq<nat>, lo: nat, hi: nat): seq<nat> {
    seq(|writes|, o requires 0 <= o < |writes| => if lo <= o < hi then writes[o] + 1 else writes[o])
  }

  // Of the bytes below `upto`, those of item `id` have been written once more.
  ghost predicate Counted(writes: seq<nat>, writes': seq<nat>, upto: nat, id: nat, batch: nat)
    requires batch > 0
  {
    |writes'| == |writes| && forall o: nat | o < |writes| ::
      writes'[o] == writes[o] + if o < upto && Owner(o, batch) == id then 1 else 0
  }

  lemma CountFirst(writes: seq<nat>, id: nat, batch: nat)
    requires id < batch
    ensures Counted(writes, writes, 4 * id, id, batch)
  {
    forall o: nat | o < |writes| && o < 4 * id ensures Owner(o, batch) != id { DivModOf(o / 4, batch, 0); }
  }

  // One more word of this item, or what there is of it.
  lemma CountWord(writes: seq<nat>, word: nat, upto: nat, id: nat, batch: nat)
    requires id < batch && word % batch == id && 4 * word <= upto <= 4 * (word + batch)
    ensures forall was | Counted(writes, was, 4 * word, id, batch) ::
      Counted(writes, CountRange(was, 4 * word, if upto < 4 * word + 4 then upto else 4 * word + 4), upto, id, batch)
  {
    forall o: nat | 4 * word <= o < upto ensures Owner(o, batch) == id <==> o < 4 * word + 4 {
      OwnedRange(word, batch, o);
    }
  }

  // From one word of an item up to its next, only the word's bytes are its own.
  lemma OwnedRange(word: nat, batch: nat, o: nat)
    requires batch > 0 && 4 * word <= o < 4 * (word + batch)
    ensures Owner(o, batch) == word % batch <==> o < 4 * word + 4
  {
    var v := o / 4;
    if v > word { NotOwned(word, v, batch); }
  }

  method StoreWord(lvb: array<bv8>, at: nat, src: seq<bv8>, w: nat)
    requires w + 4 <= |src| && at + |src| <= lvb.Length
    modifies lvb
    ensures forall a | 0 <= a < lvb.Length ::
      lvb[a] == if at + w <= a < at + w + 4 then src[a - at] else old(lvb[a])
  {
    lvb[at + w], lvb[at + w + 1] := src[w], src[w + 1];
    lvb[at + w + 2], lvb[at + w + 3] := src[w + 2], src[w + 3];
  }

  // The one to three bytes that are left at `b`, by cases that fall through.
  method StoreTail(lvb: array<bv8>, at: nat, src: seq<bv8>, b: nat)
    requires b < |src| < b + 4 && at + |src| <= lvb.Length
    modifies lvb
    ensures forall a | 0 <= a < lvb.Length ::
      lvb[a] == if at + b <= a < at + |src| then src[a - at] else old(lvb[a])
  {
    var b, left := b, |src| - b;
    if left == 3 { lvb[at + b] := src[b]; b, left := b + 1, 2; }
    if left == 2 { lvb[at + b] := src[b]; b, left := b + 1, 1; }
    if left == 1 { lvb[at + b] := src[b]; }
  }

  // Byte `a` of the buffer once the share of `id` below offset `upto` is stored.
  function ByteAt(before: seq<bv8>, at: nat, src: seq<bv8>, upto: nat, id: nat, batch: nat, a: nat): bv8
    requires batch > 0 && at + |src| <= |before| && a < |before|
  {
    if at <= a < at + |src| && a - at < upto && Owner(a - at, batch) == id then src[a - at] else before[a]
  }

  ghost predicate Stored(before: seq<bv8>, buf: seq<bv8>, at: nat, src: seq<bv8>, upto: nat, id: nat, batch: nat)
    requires batch > 0 && at + |src| <= |before|
  {
    |buf| == |before| && forall a | 0 <= a < |buf| :: buf[a] == ByteAt(before, at, src, upto, id, batch, a)
  }

  // Of the bytes from one owned word to the next, only the word's are owned.
  lemma OwnedBytes(before: seq<bv8>, at: nat, src: seq<bv8>, word: nat, upto: nat, id: nat, batch: nat, a: nat)
    requires batch > 0 && at + |src| <= |before| && a < |before| && word % batch == id
    requires 4 * word <= upto <= 4 * (word + batch)
    ensures ByteAt(before, at, src, upto, id, batch, a) ==
            if at + 4 * word <= a < at + 4 * word + 4 && a < at + upto && a < at + |src| then src[a - at]
            else ByteAt(before, at, src, 4 * word, id, batch, a)
  {
    if at + 4 * word <= a < at + upto { OwnedRange(word, batch, a - at); }
  }

  lemma OneWord(before: seq<bv8>, was: seq<bv8>, buf: seq<bv8>, at: nat, src: seq<bv8>, word: nat, upto: nat,
                id: nat, batch: nat)
    requires id < batch && at + |src| <= |before| && Stored(before, was, at, src, 4 * word, id, batch)
    requires word % batch == id && |buf| == |was| && 4 * word <= upto <= 4 * (word + batch)
    requires forall a | 0 <= a < |buf| ::
      buf[a] == if at + 4 * word <= a < at + 4 * word + 4 && a < at + upto
          && a < at + |src| then src[a - at] else was[a]
    ensures Stored(before, buf, at, src, upto, id, batch)
  {
    forall a | 0 <= a < |buf| ensures buf[a] == ByteAt(before, at, src, upto, id, batch, a) {
      OwnedBytes(before, at, src, word, upto, id, batch, a);
    }
  }

  lemma FirstWord(before: seq<bv8>, at: nat, src: seq<bv8>, id: nat, batch: nat)
    requires id < batch && at + |src| <= |before|
    ensures id % batch == id && Stored(before, before, at, src, 4 * id, id, batch)
  {
    DivModOf(id, batch, 0);
    forall a | 0 <= a < |before| ensures before[a] == ByteAt(before, at, src, 4 * id, id, batch, a) {
      if at <= a < at + |src| && a - at < 4 * id { DivModOf((a - at) / 4, batch, 0); }
    }
  }

  lemma LastWord(before: seq<bv8>, was: seq<bv8>, buf: seq<bv8>, at: nat, src: seq<bv8>, word: nat, id: nat, batch: nat)
    requires id < batch && at + |src| <= |before| && Stored(before, was, at, src, 4 * word, id, batch)
    requires word % batch == id && |buf| == |was| && |src| < 4 * word + 4
    requires forall a | 0 <= a < |buf| ::
      buf[a] == if at + 4 * word <= a < at + |src| then src[a - at] else was[a]
    ensures buf == Share(before, at, src, id, batch)
  {
    var upto := if |src| < 4 * word then 4 * word else |src|;
    OneWord(before, was, buf, at, src, word, upto, id, batch);
    assert forall a | 0 <= a < |buf| ::
      ByteAt(before, at, src, upto, id, batch, a) == Share(before, at, src, id, batch)[a];
  }

  lemma NextOwned(word: nat, batch: nat)
    requires batch > 0
    ensures (word + batch) % batch == word % batch
  {
    DivMod(word, batch);
    Times(batch, word / batch, word / batch);
    DivModOf(word % batch, batch, word / batch + 1);
  }

  lemma NotOwned(word: nat, v: nat, batch: nat)
    requires batch > 0 && word < v < word + batch
    ensures v % batch != word % batch
  {
    DivMod(word, batch);
    DivMod(v, batch);
    if word / batch + 1 <= v / batch {
      Times(batch, word / batch + 1, v / batch);
      Times(batch, word / batch, word / batch);
    } else {
      Times(batch, v / batch, word / batch);
    }
  }

  // The items store one after the other, in some order.
  function StoreAll(buf: seq<bv8>, at: nat, src: seq<bv8>, order: seq<nat>, batch: nat): (r: seq<bv8>)
    requires batch > 0 && at + |src| <= |buf|
    ensures |r| == |buf|
    decreases |order|
  {
    if order == [] then buf
    else StoreAll(Share(buf, at, src, order[0], batch), at, src, order[1..], batch)
  }

  lemma {:induction false} StoreAllAt(buf: seq<bv8>, at: nat, src: seq<bv8>, order: seq<nat>, batch: nat, a: nat)
    requires batch > 0 && at + |src| <= |buf| && a < |buf|
    ensures StoreAll(buf, at, src, order, batch)[a] ==
            if at <= a < at + |src| && Owner(a - at, batch) in order then src[a - at] else buf[a]
    decreases |order|
  {
    if order != [] {
      StoreAllAt(Share(buf, at, src, order[0], batch), at, src, order[1..], batch, a);
    }
  }

  // Exit ids 0 .. batch-1 in any order: the whole of `src` is stored, nothing
  // else is touched, and reloading it gives `src` back.
  lemma {:induction false} BatchStoresAll(buf: seq<bv8>, at: nat, src: seq<bv8>, order: seq<nat>, batch: nat)
    requires batch > 0 && at + |src| <= |buf| && forall id | 0 <= id < batch :: id in order
    ensures var r := StoreAll(buf, at, src, order, batch);
            && r[at..at + |src|] == src
            && r[..at] == buf[..at] && r[at + |src|..] == buf[at + |src|..]
  {
    var r := StoreAll(buf, at, src, order, batch);
    forall a | 0 <= a < |buf| ensures r[a] == if at <= a < at + |src| then src[a - at] else buf[a] {
      StoreAllAt(buf, at, src, order, batch, a);
      if at <= a < at + |src| { assert 0 <= (a - at) / 4 % batch < batch; }
    }
  }

  // How often byte `o` is written when the items store in some order.
  function Writes(order: seq<nat>, o: nat, batch: nat): nat
    requires batch > 0
  {
    if order == [] then 0 else (if Owner(o, batch) == order[0] then 1 else 0) + Writes(order[1..], o, batch)
  }

  lemma {:induction false} WritesAre(order: seq<nat>, o: nat, batch: nat)
    requires batch > 0
    ensures Writes(order, o, batch) == multiset(order)[Owner(o, batch)]
  {
    if order != [] {
      WritesAre(order[1..], o, batch);
      assert order == [order[0]] + order[1..];
    }
  }

  // If each exit id 0 .. batch-1 is taken once, each byte is written once.
  lemma EachByteOnce(order: seq<nat>, o: nat, batch: nat)
    requires batch > 0 && forall id: nat | id < batch :: multiset(order)[id] == 1
    ensures Writes(order, o, batch) == 1
  {
    WritesAre(order, o, batch);
    assert Owner(o, batch) < batch;
  }
}
