/** Kinds of tasks and the bitmaps that processes exchange.  The machine words
    and the tricks on them are here; everybody else may think of a bitmap as
    the set of kinds whose bits are 1. */
module TaskKind {
  // COMPUTING is kind 0, MEMCPY is kind 1.
  const KINDS: nat := 2

  // The width of unsigned.
  const WORD: nat := 0x1_0000_0000

  type Bitmap = bv32

  // 1 << k
  function Mask(k: nat): Bitmap
    requires k < KINDS
  {
    if k == 0 then 1 else 2
  }

  // The kinds whose bits are 1.
  function KindsOf(b: Bitmap): set<nat> {
    (if b & 1 != 0 then {0} else {}) + (if b & 2 != 0 then {1} else {})
  }

  // Only the kinds that exist.
  predicate Granted(kinds: set<nat>) {
    forall k :: k in kinds ==> k < KINDS
  }

  // No 1's outside of the mask of valid fields, (1 << KINDS) - 1.
  predicate InMask(b: Bitmap) {
    b & !3 == 0
  }

  lemma NoKinds()
    ensures KindsOf(0) == {}
  {
  }

  // Kinds and valid words are two views of the same thing.
  lemma SameKinds(a: Bitmap, b: Bitmap)
    requires InMask(a) && InMask(b) && KindsOf(a) == KindsOf(b)
    ensures a == b
  {
    assert 0 in KindsOf(a) <==> a & 1 != 0;
    assert 0 in KindsOf(b) <==> b & 1 != 0;
    assert 1 in KindsOf(a) <==> a & 2 != 0;
    assert 1 in KindsOf(b) <==> b & 2 != 0;
  }

  // Every set of kinds has a valid word: COMPUTING is bit 0, MEMCPY is bit 1.
  lemma WordOf(kinds: set<nat>) returns (b: Bitmap)
    ensures Granted(kinds) <==> kinds <= {0, 1}
    ensures Granted(kinds) ==>
              InMask(b) && KindsOf(b) == kinds
              && b == if kinds == {} then 0 else if kinds == {0} then 1 else if kinds == {1} then 2 else 3
  {
    b := if 0 in kinds then (if 1 in kinds then 3 else 1) else if 1 in kinds then 2 else 0;
    if Granted(kinds) {
      forall k | k in kinds ensures k == 0 || k == 1 {}
      WordBits();
      assert kinds == KindsOf(b);
    }
  }

  lemma WordBits()
    ensures KindsOf(0) == {} && KindsOf(1) == {0} && KindsOf(2) == {1} && KindsOf(3) == {0, 1}
    ensures InMask(0) && InMask(1) && InMask(2) && InMask(3)
  {
  }

  // ------------------------------------------------------------- bit tricks

  // All ones if the number is not zero, else zero: the sign of n | -n, spread
  // over the word.
  function IsNotZero(n: bv32): bv32 {
    0 - ((n | (0 - n)) >> 31)
  }

  lemma SignSpread(n: bv32)
    ensures IsNotZero(n) == if n == 0 then 0 else 0xFFFF_FFFF
  {
    assert (n | (0 - n)) >> 31 == if n == 0 then 0 else 1;
  }

  lemma XorSets(b: Bitmap, mask: Bitmap)
    ensures b ^ ((b ^ 0xFFFF_FFFF) & mask) == b | mask
  {
  }

  lemma XorClears(b: Bitmap, mask: Bitmap)
    ensures b ^ ((b ^ 0) & mask) == b & !mask
  {
  }

  // The selected bits become 1 or 0 by the count; all others stay.
  lemma AssignExact(b: Bitmap, count: bv32, mask: Bitmap)
    ensures count != 0 ==> b ^ ((b ^ IsNotZero(count)) & mask) == b | mask
    ensures count == 0 ==> b ^ ((b ^ IsNotZero(count)) & mask) == b & !mask
  {
    SignSpread(count);
    if count != 0 { XorSets(b, mask); } else { XorClears(b, mask); }
  }

  // Setting a bit adds a kind, clearing it takes the kind away, and neither
  // touches the bits that belong to no kind.

  lemma Set0(b: Bitmap)
    ensures KindsOf(b | 1) == KindsOf(b) + {0} && (b | 1) & !3 == b & !3
  {
    assert (b | 1) & 1 != 0;
    assert (b | 1) & 2 == b & 2;
  }

  lemma Set1(b: Bitmap)
    ensures KindsOf(b | 2) == KindsOf(b) + {1} && (b | 2) & !3 == b & !3
  {
    assert (b | 2) & 2 != 0;
    assert (b | 2) & 1 == b & 1;
  }

  lemma ClearedIsClear(b: Bitmap)
    ensures (b & !1) & 1 == 0 && (b & !2) & 2 == 0
  {
  }

  lemma Clear0Keeps1(b: Bitmap)
    ensures (b & !1) & 2 == b & 2
  {
  }

  lemma Clear1Keeps0(b: Bitmap)
    ensures (b & !2) & 1 == b & 1
  {
  }

  lemma ClearKeepsRest(b: Bitmap)
    ensures (b & !1) & !3 == b & !3 && (b & !2) & !3 == b & !3
  {
  }

  lemma SameBits(c: Bitmap, b: Bitmap, mine: bool, other: bool)
    requires (c & 1 != 0) == mine && (c & 2 != 0) == other
    ensures KindsOf(c) == (if mine then {0} else {}) + (if other then {1} else {})
  {
  }

  lemma Clear0(b: Bitmap)
    ensures KindsOf(b & !1) == KindsOf(b) - {0} && (b & !1) & !3 == b & !3
  {
    ClearedIsClear(b);
    Clear0Keeps1(b);
    ClearKeepsRest(b);
    SameBits(b & !1, b, false, b & 2 != 0);
  }

  lemma Clear1(b: Bitmap)
    ensures KindsOf(b & !2) == KindsOf(b) - {1} && (b & !2) & !3 == b & !3
  {
    ClearedIsClear(b);
    Clear1Keeps0(b);
    ClearKeepsRest(b);
    SameBits(b & !2, b, b & 1 != 0, false);
  }

  // Flipping a bit adds or takes away its kind.

  lemma Flip0(b: Bitmap)
    ensures (b ^ 1) & 1 != b & 1 && (b ^ 1) & 2 == b & 2 && (b ^ 1) & !3 == b & !3
  {
  }

  lemma Flip1(b: Bitmap)
    ensures (b ^ 2) & 2 != b & 2 && (b ^ 2) & 1 == b & 1 && (b ^ 2) & !3 == b & !3
  {
  }

  lemma FlipAdds(b: Bitmap, k: nat)
    requires k < KINDS && k !in KindsOf(b)
    ensures KindsOf(b ^ Mask(k)) == KindsOf(b) + {k}
    ensures InMask(b) ==> InMask(b ^ Mask(k))
  {
    if k == 0 { Flip0(b); } else { Flip1(b); }
  }

  // The bits that changed from 1 to 0.
  function ClearedBits(was: Bitmap, now: Bitmap): Bitmap {
    was & (now ^ 0xFFFF_FFFF)
  }

  lemma ClearedBit(was: Bitmap, now: Bitmap, mask: Bitmap)
    requires mask == 1 || mask == 2
    ensures ClearedBits(was, now) & mask != 0 <==> was & mask != 0 && now & mask == 0
  {
  }

  lemma ClearedKinds(was: Bitmap, now: Bitmap)
    ensures KindsOf(ClearedBits(was, now)) == KindsOf(was) - KindsOf(now)
  {
    ClearedBit(was, now, 1);
    ClearedBit(was, now, 2);
  }

  // ---------------------------------------------------------------- updates

  // The selected bits of the bitmap become 1 if the count is not zero, else 0.
  method AssignBits(b: Bitmap, count: bv32, mask: Bitmap) returns (b': Bitmap)
    ensures b' == if count != 0 then b | mask else b & !mask
  {
    b' := b ^ ((b ^ IsNotZero(count)) & mask);
    AssignExact(b, count, mask);
  }

  // A count as a machine word.
  method AsWord(n: nat) returns (w: bv32)
    requires n < WORD
    ensures w == 0 <==> n == 0
  {
    w := n as bv32;
  }

  // (b & mask) >> k
  method Field(b: Bitmap, k: nat) returns (bit: nat)
    requires k < KINDS
    ensures bit == Holds(KindsOf(b), k)
  {
    bit := if b & Mask(k) != 0 then 1 else 0;
  }

  function Holds(kinds: set<nat>, k: nat): nat {
    if k in kinds then 1 else 0
  }

  // The bit of a kind, which was 0 so far, is flipped.
  method FlipKind(b: Bitmap, k: nat) returns (b': Bitmap)
    requires k < KINDS && k !in KindsOf(b) && InMask(b)
    ensures KindsOf(b') == KindsOf(b) + {k} && InMask(b')
  {
    b' := b ^ Mask(k);
    FlipAdds(b, k);
  }

  // The kinds of the bits that changed from 1 to 0.
  method Cleared(was: Bitmap, now: Bitmap) returns (b: Bitmap)
    ensures KindsOf(b) == KindsOf(was) - KindsOf(now)
  {
    b := ClearedBits(was, now);
    ClearedKinds(was, now);
  }

  // A kind is in the bitmap exactly if its count is not zero.
  function Assigned(kinds: set<nat>, k: nat, count: nat): set<nat> {
    if count != 0 then kinds + {k} else kinds - {k}
  }

  method AssignKind(b: Bitmap, k: nat, count: nat) returns (b': Bitmap)
    requires k < KINDS && count < WORD
    ensures KindsOf(b') == Assigned(KindsOf(b), k, count)
    ensures InMask(b) ==> InMask(b')
  {
    var word := AsWord(count);
    b' := AssignBits(b, word, Mask(k));
    if k == 0 {
      if count != 0 { Set0(b); } else { Clear0(b); }
    } else {
      if count != 0 { Set1(b); } else { Clear1(b); }
    }
  }

  // The count of kind k of a machine word after one process changed its bitmap.
  function Recount(count: int, was: set<nat>, now: set<nat>, k: nat): nat {
    (count - Holds(was, k) + Holds(now, k)) % WORD
  }

  method UpdateGlobalBitmap(b: Bitmap, count: nat, k: nat, was: Bitmap, now: Bitmap)
    returns (b': Bitmap, count': nat)
    requires k < KINDS && count < WORD
    ensures count' == Recount(count, KindsOf(was), KindsOf(now), k)
    ensures KindsOf(b') == Assigned(KindsOf(b), k, count')
    ensures InMask(b) ==> InMask(b')
  {
    var wasBit := Field(was, k);
    var nowBit := Field(now, k);
    count' := (count - wasBit) % WORD;
    count' := (count' + nowBit) % WORD;
    b' := AssignKind(b, k, count');
  }
}
