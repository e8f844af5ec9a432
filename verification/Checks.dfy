/**
 * Attacks on kings: who attacks a square, which pieces shield a king, and the masks the
 * position keeps to answer "is this legal" and "does this give check" without making the move.
 */
module Checks {
  import opened Types
  import opened Geometry
  import opened Board

  /** Does a piece of colour c attack s on board b? */
  ghost predicate Attacked(b: Board, s: Square, c: Color) {
    exists q: Square :: b[q].Man? && b[q].color == c && Attacks(Occ(b), b[q], q, s)
  }

  /** `attackers_to(s, occupied)`: looking outwards from s with each piece's own pattern. */
  function AttackersTo(b: Board, s: Square, occ: Bitboard): Bitboard {
    RookBB(occ, s) * (ByType(b, Rook) + ByType(b, Queen))
    + BishopBB(occ, s) * (ByType(b, Bishop) + ByType(b, Queen))
    + PawnBB(Black, s) * Pieces(b, White, Pawn)
    + PawnBB(White, s) * Pieces(b, Black, Pawn)
    + KnightBB(s) * ByType(b, Knight)
    + KingBB(s) * ByType(b, King)
  }

  /** `attackers_to_exist(s, occupied, c)`. */
  predicate AttackersToExist(b: Board, s: Square, occ: Bitboard, c: Color) {
    || RookBB(occ, s) * ((ByType(b, Rook) + ByType(b, Queen)) * ByColor(b, c)) != {}
    || BishopBB(occ, s) * ((ByType(b, Bishop) + ByType(b, Queen)) * ByColor(b, c)) != {}
    || PawnBB(c.Other(), s) * Pieces(b, c, Pawn) != {}
    || KnightBB(s) * Pieces(b, c, Knight) != {}
    || KingBB(s) * Pieces(b, c, King) != {}
  }

  lemma AttackersToMeaning(b: Board, s: Square, occ: Bitboard, q: Square)
    ensures q in AttackersTo(b, s, occ) <==> Attacks(occ, b[q], q, s)
  {
    hide RookLine, BishopLine, Between, SameRay, Sees, PawnAttacks, KnightAttacks, KingAttacks;
    AlignedSym(q, s);
    SeesSym(occ, q, s);
    PawnAttacksReverse(White, s, q);
    PawnAttacksReverse(Black, s, q);
    KnightAttacksSym(s, q);
    KingAttacksSym(s, q);
    assert forall k :: q in ByType(b, k) <==> b[q].Man? && b[q].kind == k;
    assert forall c, k :: q in Pieces(b, c, k) <==> b[q] == Man(c, k);
    if b[q].Man? { assert b[q] == Man(b[q].color, b[q].kind); }
    hide ByType, Pieces;
  }

  lemma AttackersToExistMeaning(b: Board, s: Square, occ: Bitboard, c: Color)
    ensures AttackersToExist(b, s, occ, c) <==>
            exists q: Square :: b[q].Man? && b[q].color == c && Attacks(occ, b[q], q, s)
  {
    hide RookLine, BishopLine, Between, SameRay, Sees, PawnAttacks, KnightAttacks, KingAttacks;
    forall q: Square
      ensures b[q].Man? && b[q].color == c && Attacks(occ, b[q], q, s) <==>
        || q in RookBB(occ, s) * ((ByType(b, Rook) + ByType(b, Queen)) * ByColor(b, c))
        || q in BishopBB(occ, s) * ((ByType(b, Bishop) + ByType(b, Queen)) * ByColor(b, c))
        || q in PawnBB(c.Other(), s) * Pieces(b, c, Pawn)
        || q in KnightBB(s) * Pieces(b, c, Knight)
        || q in KingBB(s) * Pieces(b, c, King)
    {
      AlignedSym(q, s);
      SeesSym(occ, q, s);
      PawnAttacksReverse(c.Other(), s, q);
      KnightAttacksSym(s, q);
      KingAttacksSym(s, q);
      if b[q].Man? { assert b[q] == Man(b[q].color, b[q].kind); }
    }
  }

  /** Each side has exactly one king. */
  ghost predicate OneKingEach(b: Board) {
    forall c :: |Pieces(b, c, King)| == 1
  }

  /** `square<KING>(c)`. */
  function KingSq(b: Board, c: Color): (k: Square)
    requires Pieces(b, c, King) != {}
    ensures b[k] == Man(c, King)
  {
    Lsb(Pieces(b, c, King))
  }

  lemma KingUnique(b: Board, c: Color, s: Square)
    requires OneKingEach(b)
    ensures Pieces(b, c, King) != {}
    ensures b[s] == Man(c, King) <==> s == KingSq(b, c)
  {
    var ks := Pieces(b, c, King);
    var k := Lsb(ks);
    if s in ks && s != k {
      assert {k, s} <= ks;
      SubsetCard({k, s}, ks);
    }
  }

  lemma SubsetCard(a: Bitboard, b: Bitboard)
    requires a <= b
    ensures |a| <= |b|
  {
    if a != {} {
      var x :| x in a;
      SubsetCard(a - {x}, b - {x});
    }
  }

  // ----- Blockers and pinners -----

  /** Enemy sliders that would attack c's king on a board holding nothing else. */
  function Snipers(b: Board, c: Color, k: Square): Bitboard {
    set q: Square | 0 <= q < 64 && b[q].Man? && b[q].color == c.Other() && IsSlider(b[q].kind)
        && SlidesAlong(b[q].kind, q, k)
  }

  /** What the sniper on q is kept from the king by, other snipers not counted. */
  function Shield(b: Board, c: Color, k: Square, q: Square): Bitboard {
    BetweenBB(k, q) * (Occ(b) - Snipers(b, c, k))
  }

  predicate Single(b: Bitboard) { b != {} && !MoreThanOne(b) }

  /** `blockersForKing[c]`: pieces of either side that alone stand between c's king and a sniper. */
  function Blockers(b: Board, c: Color, k: Square): Bitboard {
    set x: Square | 0 <= x < 64 && IsBlocker(b, c, k, x)
  }

  predicate ShieldsAlone(b: Board, c: Color, k: Square, q: Square, x: Square) {
    q in Snipers(b, c, k) && Shield(b, c, k, q) == {x}
  }

  predicate IsBlocker(b: Board, c: Color, k: Square, x: Square) {
    exists q: Square | 0 <= q < 64 :: ShieldsAlone(b, c, k, q, x)
  }

  /** `pinners[~c]`: snipers held off by a single piece of c's own. */
  function Pinners(b: Board, c: Color, k: Square): Bitboard {
    set q: Square | 0 <= q < 64 && q in Snipers(b, c, k) && Single(Shield(b, c, k, q))
        && Shield(b, c, k, q) * ByColor(b, c) != {}
  }

  lemma SingleMeans(b: Bitboard)
    ensures Single(b) <==> b != {} && !MoreThanOne(b)
  {}

  lemma SingleIs(b: Bitboard, x: Square)
    ensures Single(b) && x in b <==> b == {x}
  {
    if b == {x} {
      assert Lsb(b) in b;
    } else if x in b {
      assert b - {x} != {};
      var y :| y in b - {x};
      var other := if x == Lsb(b) then y else x;
      assert other in b - {Lsb(b)};
    }
  }

  /** The mask the code starts from holds exactly the snipers. */
  lemma SnipersMask(b: Board, c: Color, k: Square)
    ensures (RookBB({}, k) * (ByType(b, Queen) + ByType(b, Rook))
        + BishopBB({}, k) * (ByType(b, Queen) + ByType(b, Bishop)))
            * ByColor(b, c.Other()) == Snipers(b, c, k)
  {
    hide RookLine, BishopLine, Df, Dr, SameRay, Between;
    forall q: Square ensures Sees({}, k, q) <==> Aligned(k, q) { AlignedSym(k, q); }
    forall q: Square ensures RookLine(k, q) == RookLine(q, k) && BishopLine(k, q) == BishopLine(q, k) {
      AlignedSym(k, q);
    }
  }

  lemma KingMask(b: Board, c: Color)
    ensures ByType(b, King) * ByColor(b, c) == Pieces(b, c, King)
  {}

  /** Blockers and pinners found once the snipers of done have been looked at. */
  function BlockersIn(b: Board, c: Color, k: Square, done: Bitboard): Bitboard {
    set x: Square | 0 <= x < 64 && BlockedFrom(b, c, k, done, x)
  }

  predicate BlockedFrom(b: Board, c: Color, k: Square, done: Bitboard, x: Square) {
    exists q: Square | 0 <= q < 64 :: ShieldsAlone(b, c, k, q, x) && q in done
  }

  function PinnersIn(b: Board, c: Color, k: Square, done: Bitboard): Bitboard {
    set q: Square | 0 <= q < 64 && q in done && Single(Shield(b, c, k, q)) && Shield(b, c, k, q) * ByColor(b, c) != {}
  }

  lemma BlockerStep(b: Board, c: Color, k: Square, done: Bitboard, q: Square)
    requires q in Snipers(b, c, k) && q !in done
    ensures var shield := Shield(b, c, k, q);
            && BlockersIn(b, c, k, done + {q}) == BlockersIn(b, c, k, done) + (if Single(shield) then shield else {})
            && PinnersIn(b, c, k, done + {q}) ==
               PinnersIn(b, c, k, done) + (if Single(shield) && shield * ByColor(b, c) != {} then {q} else {})
  {
    hide Snipers, Shield, Single;
    var shield := Shield(b, c, k, q);
    forall x: Square
      ensures x in BlockersIn(b, c, k, done + {q}) <==>
          x in BlockersIn(b, c, k, done) || (Single(shield) && x in shield)
    {
      SingleIs(shield, x);
      if Single(shield) && x in shield { assert ShieldsAlone(b, c, k, q, x); }
    }
  }

  lemma BlockersComplete(b: Board, c: Color, k: Square)
    ensures BlockersIn(b, c, k, {}) == {} && PinnersIn(b, c, k, {}) == {}
    ensures BlockersIn(b, c, k, Snipers(b, c, k)) == Blockers(b, c, k)
    ensures PinnersIn(b, c, k, Snipers(b, c, k)) == Pinners(b, c, k)
  {
    hide Snipers, Shield, Single;
    forall x: Square
      ensures x in BlockersIn(b, c, k, Snipers(b, c, k)) <==> x in Blockers(b, c, k)
    {
      if IsBlocker(b, c, k, x) {
        var q: Square :| 0 <= q < 64 && ShieldsAlone(b, c, k, q, x);
        assert q in Snipers(b, c, k);
      }
    }
  }
}
