/**
 * Sliding attacks by subtraction: the hyperbola form, two subtractions and a bit reversal a
 * line, gives what walking the rays gives, for every square and every occupancy.
 */
module Hyperbola {
  import opened Types
  import opened Geometry
  import opened Board
  import opened Words
  import opened Attacks

  /** One of the four lines through a square, named by its direction of rising square numbers. */
  predicate Rising(d: Direction) {
    d == Direction(0, 1) || d == Direction(1, 0) || d == Direction(1, 1) || d == Direction(-1, 1)
  }

  function Back(d: Direction): Direction { Direction(-d.df, -d.dr) }

  /** `line_mask`: the line without the square itself. */
  method LineMask(s: Square, d1: Direction, d2: Direction) returns (mask: Bitboard)
    requires Rising(d1) && d2 == Back(d1)
    ensures mask == Axis(s, d1)
  {
    mask := WalkRay(s, {}, d1, {});
    mask := WalkRay(s, {}, d2, mask);
    forall t: Square
      ensures t in Beam({}, s, d1) + Beam({}, s, d2) <==> t in Axis(s, d1)
    {
      OpenBeam(s, d1, t);
      OpenBeam(s, d2, t);
    }
  }

  lemma OpenBeam(s: Square, d: Direction, t: Square)
    ensures t in Beam({}, s, d) <==> InDirection(s, d, t)
  {}

  function Axis(s: Square, d: Direction): Bitboard {
    set t: Square | 0 <= t < 64 && (InDirection(s, d, t) || InDirection(s, Back(d), t))
  }

  /** Along a line the square numbers rise one way and fall the other. */
  lemma RisingOrder(s: Square, d: Direction, t: Square)
    requires Rising(d)
    ensures InDirection(s, d, t) ==> t > s
    ensures InDirection(s, Back(d), t) ==> t < s
  {}

  /** Further along a direction is further along the numbers. */
  lemma CompareRising(s: Square, d: Direction, e: Direction, m: Square, t: Square)
    requires Rising(d) && (e == d || e == Back(d)) && InDirection(s, e, m) && InDirection(s, e, t)
    ensures Distance(s, m) < Distance(s, t) <==> s < m < t || t < m < s
  {
    if d == Direction(0, 1) {
    } else if d == Direction(1, 0) {
    } else if d == Direction(1, 1) {
    } else {
    }
  }

  lemma BetweenByNumber(s: Square, d: Direction, m: Square, t: Square)
    requires Rising(d) && m in Axis(s, d) && t in Axis(s, d)
    ensures Between(s, m, t) <==> s < m < t || t < m < s
  {
    var e := if InDirection(s, d, t) then d else Back(d);
    assert d.Unit() && e.Unit() && InDirection(s, e, t);
    assert InDirection(s, d, m) || InDirection(s, Back(d), m);
    hide Direction.Step, Direction.Unit, InDirection, Between, Distance, Rising;
    RisingOrder(s, d, m);
    RisingOrder(s, d, t);
    BetweenByDistance(s, e, m, t);
    if InDirection(s, e, m) { CompareRising(s, d, e, m, t); }
    hide *;
  }

  lemma BetweenOnAxis(s: Square, d: Direction, m: Square, t: Square)
    requires Rising(d) && t in Axis(s, d) && Between(s, m, t)
    ensures m in Axis(s, d)
  {
    var e := if InDirection(s, d, t) then d else Back(d);
    BetweenByDistance(s, e, m, t);
    hide InDirection, Between, Distance;
  }

  /** Nothing occupied between s and t, told by the numbers alone. */
  lemma SeesByNumber(occ: Bitboard, s: Square, d: Direction, t: Square)
    requires Rising(d) && t in Axis(s, d)
    ensures Sees(occ, s, t) <==> ClearBetween(occ * Axis(s, d), if s < t then s else t, if s < t then t else s)
  {
    var o := occ * Axis(s, d);
    assert Aligned(s, t);
    hide Axis, Between, Aligned;
    forall m: Square
      ensures Between(s, m, t) && m in occ <==> m in o && (s < m < t || t < m < s)
    {
      if m in Axis(s, d) { BetweenByNumber(s, d, m, t); }
      if Between(s, m, t) { BetweenOnAxis(s, d, m, t); }
    }
  }

  /** `Magic::hyperbola`. */
  function Hyperbola(s: Square, occupied: Bitboard, mask: Bitboard): Bitboard {
    var o := occupied * mask;
    var fwd := Minus(o, {s});
    var rev := Minus(Reverse(o), {Mirror(s)});
    Toggle(fwd, Reverse(rev)) * mask
  }

  /** The hyperbola of a line is what a slider sees along it. */
  lemma HyperbolaSees(s: Square, occupied: Bitboard, d: Direction)
    requires Rising(d)
    ensures Hyperbola(s, occupied, Axis(s, d)) == Beam(occupied, s, d) + Beam(occupied, s, Back(d))
  {
    var mask := Axis(s, d);
    var o := occupied * mask;
    RisingOrder(s, d, s);
    assert s !in mask;
    MinusBit(o, s);
    MinusBitReversed(o, s);
    hide Minus, Reverse, Sees, Distance;
    forall t: Square
      ensures t in Hyperbola(s, occupied, mask) <==> t in Beam(occupied, s, d) + Beam(occupied, s, Back(d))
    {
      if t in mask {
        SeesByNumber(occupied, s, d, t);
        RisingOrder(s, d, t);
        hide ClearBetween, InDirection;
      }
    }
  }

  lemma RookAxes(s: Square, occupied: Bitboard)
    ensures Hyperbola(s, occupied, Axis(s, Direction(0, 1))) + Hyperbola(s, occupied, Axis(s, Direction(1, 0)))
        == RookBB(occupied, s)
  {
    hide Hyperbola, Beam, Axis, RookBB;
    HyperbolaSees(s, occupied, Direction(0, 1));
    HyperbolaSees(s, occupied, Direction(1, 0));
    RookBeams(occupied, s);
  }

  lemma BishopAxes(s: Square, occupied: Bitboard)
    ensures Hyperbola(s, occupied, Axis(s, Direction(1, 1))) + Hyperbola(s, occupied, Axis(s, Direction(-1, 1)))
        == BishopBB(occupied, s)
  {
    hide Hyperbola, Beam, Axis, BishopBB;
    HyperbolaSees(s, occupied, Direction(1, 1));
    HyperbolaSees(s, occupied, Direction(-1, 1));
    BishopBeams(occupied, s);
  }

  /** `Magic::attacks_bb`: for every occupancy, the rook's and the bishop's attacks. */
  method AttacksBB(rook: bool, s: Square, occupied: Bitboard) returns (attacks: Bitboard)
    ensures attacks == if rook then RookBB(occupied, s) else BishopBB(occupied, s)
  {
    hide Beam, Axis, Hyperbola, RookBB, BishopBB;
    if rook {
      attacks := TwoLines(s, occupied, Direction(0, 1), Direction(0, -1), Direction(1, 0), Direction(-1, 0));
      RookAxes(s, occupied);
    } else {
      attacks := TwoLines(s, occupied, Direction(1, 1), Direction(-1, -1), Direction(-1, 1), Direction(1, -1));
      BishopAxes(s, occupied);
    }
  }

  /** The two masks of init_magics and the two hyperbolas. */
  method TwoLines(s: Square, occupied: Bitboard, d1: Direction, b1: Direction, d2: Direction, b2: Direction)
      returns (attacks: Bitboard)
    requires Rising(d1) && Rising(d2) && b1 == Back(d1) && b2 == Back(d2)
    ensures attacks == Hyperbola(s, occupied, Axis(s, d1)) + Hyperbola(s, occupied, Axis(s, d2))
  {
    hide *;
    var mask1 := LineMask(s, d1, b1);
    var mask2 := LineMask(s, d2, b2);
    attacks := Hyperbola(s, occupied, mask1) + Hyperbola(s, occupied, mask2);
  }
}
