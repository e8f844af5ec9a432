/**
 * Lines of the board.  `SameRay(a, b, c)` says that b and c lie on one of the eight
 * rays leaving a; betweenness is that relation taken from both ends.  Everything about
 * sliding pieces is derived from the few laws proved here.
 */
module Geometry {
  import opened Types

  function Sgn(x: int): int { if x < 0 then -1 else if x == 0 then 0 else 1 }

  function Df(a: Square, b: Square): int { File(b) - File(a) }

  function Dr(a: Square, b: Square): int { Rank(b) - Rank(a) }

  predicate RookLine(a: Square, b: Square) {
    (Df(a, b) == 0) != (Dr(a, b) == 0)
  }

  predicate BishopLine(a: Square, b: Square) {
    Df(a, b) != 0 && (Df(a, b) == Dr(a, b) || Df(a, b) == -Dr(a, b))
  }

  predicate Aligned(a: Square, b: Square) { RookLine(a, b) || BishopLine(a, b) }

  predicate SameRay(a: Square, b: Square, c: Square) {
    Aligned(a, b) && Aligned(a, c) && Sgn(Df(a, b)) == Sgn(Df(a, c)) && Sgn(Dr(a, b)) == Sgn(Dr(a, c))
  }

  predicate Between(a: Square, m: Square, b: Square) { SameRay(a, m, b) && SameRay(b, m, a) }

  /** Nothing in occ stands strictly between two aligned squares. */
  predicate Sees(occ: Bitboard, a: Square, b: Square) {
    Aligned(a, b) && forall m: Square | 0 <= m < 64 && Between(a, m, b) :: m !in occ
  }

  /** `RayPassBB`: the whole ray out of a through b, a excluded. */
  function RayPass(a: Square, b: Square): Bitboard { set t: Square | 0 <= t < 64 && SameRay(a, b, t) }

  lemma AlignedSym(a: Square, b: Square)
    ensures RookLine(a, b) == RookLine(b, a)
    ensures BishopLine(a, b) == BishopLine(b, a)
    ensures Aligned(a, b) == Aligned(b, a)
    ensures !(RookLine(a, b) && BishopLine(a, b))
  {}

  lemma BetweenSym(a: Square, m: Square, b: Square)
    ensures Between(a, m, b) == Between(b, m, a)
  {}

  lemma BetweenDistinct(a: Square, m: Square, b: Square)
    requires Between(a, m, b)
    ensures a != m && m != b && a != b
    ensures Aligned(a, m) && Aligned(m, b) && Aligned(a, b)
    ensures !Between(m, a, b) && !Between(a, b, m)
  {}

  /** All three pairs of squares on a line have the line's type. */
  lemma SameRayType(a: Square, b: Square, c: Square)
    requires SameRay(a, b, c)
    ensures RookLine(a, b) == RookLine(a, c)
    ensures BishopLine(a, b) == BishopLine(a, c)
    ensures b != c ==> RookLine(b, c) == RookLine(a, b) && BishopLine(b, c) == BishopLine(a, b)
  {}

  /** Two squares on one ray are equal or one is nearer. */
  lemma SameRayTotal(a: Square, b: Square, c: Square)
    requires SameRay(a, b, c)
    ensures b == c || Between(a, b, c) || Between(a, c, b)
  {}

  lemma SameRayTrans(a: Square, b: Square, c: Square, d: Square)
    requires SameRay(a, b, c) && SameRay(a, c, d)
    ensures SameRay(a, b, d)
  {}

  /** Inner: n between a and m, m between a and b. */
  lemma BetweenInner(a: Square, n: Square, m: Square, b: Square)
    requires Between(a, m, b) && Between(a, n, m)
    ensures Between(a, n, b) && Between(n, m, b)
  {
    hide File, Rank;
  }

  /** A square between a and b lies on one side of any other square between them. */
  lemma BetweenSplit(a: Square, s: Square, m: Square, b: Square)
    requires Between(a, s, b) && Between(a, m, b) && m != s
    ensures (Between(a, m, s) && !Between(s, m, b)) || (Between(s, m, b) && !Between(a, m, s))
  {
    hide File, Rank;
    SameRayTotal(a, m, s);
    if Between(a, s, m) {
      BetweenSym(a, s, m);
      BetweenSym(a, m, b);
      BetweenInner(b, m, s, a);
    }
  }

  lemma SeesSym(occ: Bitboard, a: Square, b: Square)
    ensures Sees(occ, a, b) == Sees(occ, b, a)
  {
    AlignedSym(a, b);
    forall m: Square ensures Between(a, m, b) == Between(b, m, a) { BetweenSym(a, m, b); }
  }

  /**
   * Emptying one square opens the line from a to b exactly when it was the only blocker,
   * and then each half of the line was already open.
   */
  lemma SeesThrough(occ: Bitboard, s: Square, a: Square, b: Square)
    ensures Sees(occ, a, b) ==> Sees(occ - {s}, a, b)
    ensures Sees(occ - {s}, a, b) && !Sees(occ, a, b) ==>
              s in occ && Between(a, s, b) && Sees(occ, a, s) && Sees(occ, s, b)
    ensures Between(a, s, b) && Sees(occ, a, s) && Sees(occ, s, b) ==> Sees(occ - {s}, a, b)
  {
    if Sees(occ - {s}, a, b) && !Sees(occ, a, b) {
      var m: Square :| Between(a, m, b) && m in occ;
      assert m == s;
      BetweenDistinct(a, s, b);
      forall n: Square | Between(a, n, s) ensures n !in occ { BetweenInner(a, n, s, b); BetweenDistinct(a, n, s); }
      forall n: Square | Between(s, n, b)
        ensures n !in occ
      {
        BetweenSym(s, n, b); BetweenSym(a, s, b);
        BetweenInner(b, n, s, a);
        BetweenSym(b, n, a);
        BetweenDistinct(s, n, b);
      }
    }
    if Between(a, s, b) && Sees(occ, a, s) && Sees(occ, s, b) {
      BetweenDistinct(a, s, b);
      forall m: Square | Between(a, m, b) ensures m !in occ - {s} { if m != s { BetweenSplit(a, s, m, b); } }
    }
  }

  /** On the ray from q through s, what s can reach is what lies open behind s. */
  lemma RayBehind(occ: Bitboard, q: Square, s: Square, x: Square)
    requires Sees(occ, q, s) && x in occ
    ensures SameRay(q, s, x) && Sees(occ, s, x) <==> Between(q, s, x) && Sees(occ, s, x)
  {
    hide RookLine, BishopLine, Df, Dr;
    if SameRay(q, s, x) && Sees(occ, s, x) {
      SameRayTotal(q, s, x);
    }
  }

  /** At most one occupied square lies open behind s. */
  lemma BehindUnique(occ: Bitboard, q: Square, s: Square, x: Square, y: Square)
    requires Between(q, s, x) && Sees(occ, s, x) && x in occ
    requires Between(q, s, y) && Sees(occ, s, y) && y in occ
    ensures x == y
  {
    hide RookLine, BishopLine, Df, Dr;
    SameRayTotal(q, x, y);
    if Between(q, x, y) {
      BetweenSplit(q, s, x, y);
      BetweenDistinct(q, s, x);
    } else if Between(q, y, x) {
      BetweenSplit(q, s, y, x);
      BetweenDistinct(q, s, y);
    }
  }

  /** `LineBB`: the whole line through two aligned squares, edge to edge; nothing otherwise. */
  predicate OnLine(a: Square, b: Square, t: Square) {
    Aligned(a, b) && (t == a || t == b || Between(a, t, b) || Between(a, b, t) || Between(t, a, b))
  }

  function LineBB(a: Square, b: Square): Bitboard { set t: Square | 0 <= t < 64 && OnLine(a, b, t) }

  /** `BetweenBB`: the squares strictly between two aligned squares, and always the second one. */
  function BetweenBB(a: Square, b: Square): Bitboard {
    set t: Square | 0 <= t < 64 && (t == b || Between(a, t, b))
  }

  /** An end of a line never blocks it. */
  lemma SeesEnds(occ: Bitboard, occ': Bitboard, s: Square, t: Square)
    requires occ - {s} == occ' - {s}
    ensures Sees(occ, s, t) == Sees(occ', s, t)
  {
    forall m: Square | 0 <= m < 64 && Between(s, m, t)
      ensures m in occ <==> m in occ'
    {
      BetweenDistinct(s, m, t);
      assert m in occ <==> m in occ - {s};
      assert m in occ' <==> m in occ' - {s};
    }
  }
}
