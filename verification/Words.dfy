/**
 * Bitboards as 64-bit words: the number a set of squares stands for, and the arithmetic the
 * attack code does on such numbers.
 */
module Words {
  import opened Types

  function Pow2(n: nat): (p: nat)
    ensures p > 0
  {
    if n == 0 then 1 else 2 * Pow2(n - 1)
  }

  /** The number formed by the bits below n. */
  function ValueTo(b: Bitboard, n: nat): nat
    requires n <= 64
  {
    if n == 0 then 0 else ValueTo(b, n - 1) + (if n - 1 in b then Pow2(n - 1) else 0)
  }

  function Value(b: Bitboard): nat { ValueTo(b, 64) }

  /** The bits below n of a number. */
  function BitsTo(v: nat, n: nat): Bitboard
    requires n <= 64
  {
    if n == 0 then {} else if v >= Pow2(n - 1) then BitsTo(v - Pow2(n - 1), n - 1) + {n - 1} else BitsTo(v, n - 1)
  }

  lemma {:induction false} ValueBound(b: Bitboard, n: nat)
    requires n <= 64
    ensures ValueTo(b, n) < Pow2(n)
  {
    if n > 0 { ValueBound(b, n - 1); }
  }

  lemma {:induction false} BitsBelow(v: nat, n: nat)
    requires n <= 64
    ensures forall s: Square | s in BitsTo(v, n) :: s < n
  {
    if n > 0 { if v >= Pow2(n - 1) { BitsBelow(v - Pow2(n - 1), n - 1); } else { BitsBelow(v, n - 1); } }
  }

  /** Sets agreeing below n have the same value below n. */
  lemma {:induction false} ValueAgree(a: Bitboard, b: Bitboard, n: nat)
    requires n <= 64 && forall s: Square | s < n :: s in a <==> s in b
    ensures ValueTo(a, n) == ValueTo(b, n)
  {
    if n > 0 { ValueAgree(a, b, n - 1); }
  }

  lemma {:induction false} ValueOfBits(v: nat, n: nat)
    requires n <= 64 && v < Pow2(n)
    ensures ValueTo(BitsTo(v, n), n) == v
  {
    if n > 0 {
      var w := if v >= Pow2(n - 1) then v - Pow2(n - 1) else v;
      ValueOfBits(w, n - 1);
      BitsBelow(w, n - 1);
      ValueAgree(BitsTo(v, n), BitsTo(w, n - 1), n - 1);
    }
  }

  /** A number has one set of bits. */
  lemma {:induction false} ValueInjective(a: Bitboard, b: Bitboard, n: nat)
    requires n <= 64 && ValueTo(a, n) == ValueTo(b, n)
    ensures forall s: Square | s < n :: s in a <==> s in b
  {
    if n > 0 {
      ValueBound(a, n - 1);
      ValueBound(b, n - 1);
      ValueInjective(a, b, n - 1);
    }
  }

  lemma {:induction false} ValueSum(a: Bitboard, b: Bitboard, n: nat)
    requires n <= 64 && a !! b
    ensures ValueTo(a + b, n) == ValueTo(a, n) + ValueTo(b, n)
  {
    if n > 0 { ValueSum(a, b, n - 1); }
  }

  lemma {:induction false} ValueOne(s: Square, n: nat)
    requires n <= 64
    ensures ValueTo({s}, n) == if s < n then Pow2(s) else 0
  {
    if n > 0 { ValueOne(s, n - 1); }
  }

  /** The squares from lo up to, not including, hi. */
  function Run(lo: nat, hi: nat): Bitboard { set s: Square | 0 <= s < 64 && IsOk(s) && lo <= s < hi }

  lemma {:induction false} ValueRun(lo: nat, hi: nat, n: nat)
    requires lo <= hi <= n <= 64
    ensures ValueTo(Run(lo, hi), n) == Pow2(hi) - Pow2(lo)
  {
    if n == 0 {
    } else if n > hi {
      ValueRun(lo, hi, n - 1);
    } else if lo == hi {
      RunEmpty(lo, n);
    } else {
      ValueRun(lo, n - 1, n - 1);
      ValueAgree(Run(lo, n), Run(lo, n - 1), n - 1);
    }
  }

  lemma {:induction false} RunEmpty(lo: nat, n: nat)
    requires n <= 64
    ensures Run(lo, lo) == {} && ValueTo({}, n) == 0
  {
    if n > 0 { RunEmpty(lo, n - 1); }
  }

  /** Subtraction of 64-bit words, wrapping below zero. */
  function Minus(a: Bitboard, b: Bitboard): Bitboard {
    ValueBound(a, 64);
    ValueBound(b, 64);
    var d := Value(a) - Value(b);
    BitsTo(if d < 0 then d + Pow2(64) else d, 64)
  }

  lemma MinusIs(a: Bitboard, b: Bitboard, c: Bitboard)
    requires Value(c) == Value(a) - Value(b) || Value(c) == Value(a) - Value(b) + Pow2(64)
    ensures Minus(a, b) == c
  {
    ValueBound(a, 64);
    ValueBound(b, 64);
    ValueBound(c, 64);
    var d := Value(a) - Value(b);
    var v := if d < 0 then d + Pow2(64) else d;
    ValueOfBits(v, 64);
    ValueInjective(Minus(a, b), c, 64);
  }

  predicate ClearBetween(o: Bitboard, lo: int, hi: int) { forall u: Square | lo < u < hi :: u !in o }

  /** Borrowing: below s nothing changes, from s on the bits flip up to and including the first set one. */
  predicate Borrows(o: Bitboard, s: Square, t: Square) {
    if t < s then t in o else if ClearBetween(o, s, t) then t !in o else t in o
  }

  function Borrowed(o: Bitboard, s: Square): Bitboard { set t: Square | 0 <= t < 64 && Borrows(o, s, t) }

  lemma MinusBit(o: Bitboard, s: Square)
    requires s !in o
    ensures Minus(o, {s}) == Borrowed(o, s)
  {
    var above := o * Run(s as int + 1, 64);
    ValueOne(s, 64);
    if above == {} {
      forall u: Square | u > s ensures u !in o { assert IsOk(u); assert u in o ==> u in above; }
      NoBorrow(o, s);
      ValueSum(o, Run(s, 64), 64);
      ValueRun(s, 64, 64);
    } else {
      var b := Lsb(above);
      forall u: Square | s < u < b ensures u !in o { assert IsOk(u); assert u in o ==> u in above; }
      BorrowShape(o, s, b);
      hide Borrowed, Run, Value;
      BorrowValue(o, s, b);
    }
    hide Borrowed, Run;
    MinusIs(o, {s}, Borrowed(o, s));
  }

  lemma NoBorrow(o: Bitboard, s: Square)
    requires s !in o && forall u: Square | u > s :: u !in o
    ensures o !! Run(s, 64) && Borrowed(o, s) == o + Run(s, 64)
  {
    forall t: Square ensures t in Borrowed(o, s) <==> t in o + Run(s, 64) { assert IsOk(t); }
  }

  lemma BorrowShape(o: Bitboard, s: Square, b: Square)
    requires s !in o && b in o && s < b && forall u: Square | s < u < b :: u !in o
    ensures o - {b} !! Run(s, b) && Borrowed(o, s) == (o - {b}) + Run(s, b)
  {
    forall t: Square
      ensures t in Borrowed(o, s) <==> t in (o - {b}) + Run(s, b)
    {
      assert IsOk(t);
      if t > b { assert !ClearBetween(o, s, t); }
    }
  }

  lemma BorrowValue(o: Bitboard, s: Square, b: Square)
    requires b in o && s < b && o - {b} !! Run(s, b)
    ensures Value((o - {b}) + Run(s, b)) == Value(o) - Pow2(s)
  {
    ValueSum(o - {b}, {b}, 64);
    ValueOne(b, 64);
    ValueSum(o - {b}, Run(s, b), 64);
    ValueRun(s, b, 64);
    assert (o - {b}) + {b} == o;
  }

  /** Bit reversal of a word. */
  function Reverse(b: Bitboard): Bitboard { set s: Square | 0 <= s < 64 && Mirror(s) in b }

  function Mirror(s: Square): Square { 63 - s }

  /** Borrowing downwards. */
  predicate BorrowsDown(o: Bitboard, s: Square, t: Square) {
    if t > s then t in o else if ClearBetween(o, t, s) then t !in o else t in o
  }

  function BorrowedDown(o: Bitboard, s: Square): Bitboard { set t: Square | 0 <= t < 64 && BorrowsDown(o, s, t) }

  lemma ClearMirrored(o: Bitboard, lo: Square, hi: Square)
    ensures ClearBetween(o, lo, hi) <==> ClearBetween(Reverse(o), Mirror(hi), Mirror(lo))
  {
    if ClearBetween(o, lo, hi) {
      forall u: Square | Mirror(hi) < u < Mirror(lo) ensures u !in Reverse(o) { assert lo < Mirror(u) < hi; }
    }
    if ClearBetween(Reverse(o), Mirror(hi), Mirror(lo)) {
      forall u: Square | lo < u < hi
        ensures u !in o
      {
        assert Mirror(hi) < Mirror(u) < Mirror(lo) && Mirror(Mirror(u)) == u;
        assert Mirror(u) !in Reverse(o);
      }
    }
  }

  /** The mirrored subtraction flips the bits downwards. */
  lemma MinusBitReversed(o: Bitboard, s: Square)
    requires s !in o
    ensures Reverse(Minus(Reverse(o), {Mirror(s)})) == BorrowedDown(o, s)
  {
    MinusBit(Reverse(o), Mirror(s));
    forall t: Square
      ensures t in Reverse(Borrowed(Reverse(o), Mirror(s))) <==> t in BorrowedDown(o, s)
    {
      ClearMirrored(o, t, s);
      hide ClearBetween;
    }
  }
}
