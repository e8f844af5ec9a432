/**
 * Walking the rays: the loops that compute sliding attacks square by square, and the line,
 * between and ray tables built from them, agree with the geometry of the board.
 */
module Attacks {
  import opened Options
  import opened Types
  import opened Geometry
  import opened Board

  /** A direction as a step in files and ranks. */
  datatype Direction = Direction(df: int, dr: int) {
    predicate Unit() { -1 <= df <= 1 && -1 <= dr <= 1 && (df != 0 || dr != 0) }
    function Step(): int { 8 * dr + df }
  }

  const NORTH := Direction(0, 1)
  const SOUTH := Direction(0, -1)
  const EAST := Direction(1, 0)
  const WEST := Direction(-1, 0)
  const ROOK_DIRECTIONS := [NORTH, SOUTH, EAST, WEST]
  const BISHOP_DIRECTIONS := [Direction(1, 1), Direction(1, -1), Direction(-1, -1), Direction(-1, 1)]

  function Abs(x: int): int { if x < 0 then -x else x }

  /** `safe_destination`: the square a step away, unless it leaves the board or wraps round its edge. */
  function SafeDestination(s: Square, step: int): Option<Square> {
    var to := s + step;
    if IsOk(to) && Abs(File(s) - (to % 8)) <= 2 then Some(to) else None
  }

  /** t lies k steps away in direction d. */
  predicate Away(s: Square, d: Direction, k: int, t: Square) {
    File(t) == File(s) + Times(k, d.df) && Rank(t) == Rank(s) + Times(k, d.dr)
  }

  function Times(k: int, u: int): int { if u == 1 then k else if u == -1 then -k else 0 }

  function Distance(s: Square, t: Square): int {
    var f, r := Abs(Df(s, t)), Abs(Dr(s, t));
    if f > r then f else r
  }

  predicate InDirection(s: Square, d: Direction, t: Square) {
    Aligned(s, t) && Sgn(Df(s, t)) == d.df && Sgn(Dr(s, t)) == d.dr
  }

  lemma AwayMeans(s: Square, d: Direction, t: Square)
    requires d.Unit()
    ensures InDirection(s, d, t) <==> Distance(s, t) >= 1 && Away(s, d, Distance(s, t), t)
  {}

  lemma AwayUnique(s: Square, d: Direction, k: int, t: Square, u: Square)
    requires Away(s, d, k, t) && Away(s, d, k, u)
    ensures t == u
  {}

  /** Some square of the board lies k steps away. */
  ghost predicate Reaches(s: Square, d: Direction, k: int) { exists u: Square :: Away(s, d, k, u) }

  lemma OffBoard(s: Square, d: Direction, k: int, t: Square)
    requires d.Unit() && Away(s, d, k, t)
    requires !IsOk(t + d.Step()) || Abs(File(t) - (t + d.Step()) % 8) > 2
    ensures !Reaches(s, d, k + 1)
  {
    if Reaches(s, d, k + 1) {
      var j := k + 1;
      var v: Square :| Away(s, d, j, v);
      WrapMeans(t, d, v);
    }
  }

  /** One more step from a square k steps away. */
  lemma StepOn(s: Square, d: Direction, k: int, t: Square)
    requires d.Unit() && Away(s, d, k, t)
    ensures match SafeDestination(t, d.Step())
            case Some(u) => Away(s, d, k + 1, u)
            case None => !Reaches(s, d, k + 1)
  {
    var to := t + d.Step();
    if IsOk(to) {
      var u: Square := to;
      assert File(u) == to % 8;
      if Abs(File(t) - File(u)) <= 2 {
        assert File(u) == File(t) + d.df && Rank(u) == Rank(t) + d.dr by { NoWrap(t, d, u); }
      } else {
        OffBoard(s, d, k, t);
      }
    } else {
      OffBoard(s, d, k, t);
    }
  }

  lemma NoWrap(t: Square, d: Direction, u: Square)
    requires d.Unit() && u == t + d.Step() && Abs(File(t) - File(u)) <= 2
    ensures File(u) == File(t) + d.df && Rank(u) == Rank(t) + d.dr
  {}

  lemma WrapMeans(t: Square, d: Direction, v: Square)
    requires d.Unit() && File(v) == File(t) + d.df && Rank(v) == Rank(t) + d.dr
    ensures v == t + d.Step() && Abs(File(t) - File(v)) <= 2
  {}

  /** Betweenness along a direction is a comparison of distances. */
  lemma BetweenByDistance(s: Square, d: Direction, m: Square, t: Square)
    requires d.Unit() && InDirection(s, d, t)
    ensures Between(s, m, t) <==> InDirection(s, d, m) && Distance(s, m) < Distance(s, t)
  {}

  /** What a slider on s sees in direction d. */
  function Beam(occ: Bitboard, s: Square, d: Direction): Bitboard {
    set t: Square | 0 <= t < 64 && InDirection(s, d, t) && Sees(occ, s, t)
  }

  function Upto(s: Square, d: Direction, k: int): Bitboard {
    set t: Square | 0 <= t < 64 && InDirection(s, d, t) && Distance(s, t) <= k
  }

  /** The inner loop of sliding_attack: one direction. */
  method WalkRay(sq: Square, occupied: Bitboard, d: Direction, attacks0: Bitboard) returns (attacks: Bitboard)
    requires d.Unit()
    ensures attacks == attacks0 + Beam(occupied, sq, d)
  {
    attacks := attacks0;
    var s := sq;
    ghost var k := 0;
    StartWalk(sq, d);
    StepOn(sq, d, 0, sq);
    while SafeDestination(s, d.Step()).Some?
      invariant 0 <= k <= 7 && Away(sq, d, k, s)
      invariant attacks == attacks0 + Upto(sq, d, k)
      invariant forall t: Square | t in Upto(sq, d, k) :: t !in occupied
      decreases 7 - k
    {
      hide Away, Upto, SafeDestination, Beam, Direction.Unit, Direction.Step;
      var dest := SafeDestination(s, d.Step()).value;
      StepOn(sq, d, k, s);
      UptoNext(sq, d, k, dest);
      attacks := attacks + {dest};
      s := dest;
      k := k + 1;
      if dest in occupied {
        BeamStops(occupied, sq, d, k, dest);
        return;
      }
    }
    StepOn(sq, d, k, s);
    BeamEnds(occupied, sq, d, k);
  }

  lemma StartWalk(sq: Square, d: Direction)
    ensures Away(sq, d, 0, sq) && Upto(sq, d, 0) == {}
  {}

  lemma UptoNext(sq: Square, d: Direction, k: int, dest: Square)
    requires d.Unit() && k >= 0 && Away(sq, d, k + 1, dest)
    ensures Upto(sq, d, k + 1) == Upto(sq, d, k) + {dest} && k + 1 <= 7
  {
    assert Distance(sq, dest) == k + 1;
    forall t: Square
      ensures t in Upto(sq, d, k + 1) <==> t in Upto(sq, d, k) || t == dest
    {
      AwayMeans(sq, d, t);
      if Distance(sq, t) == k + 1 && Away(sq, d, k + 1, t) { AwayUnique(sq, d, k + 1, t, dest); }
      AwayMeans(sq, d, dest);
    }
  }

  lemma BeamStops(occ: Bitboard, sq: Square, d: Direction, k: int, dest: Square)
    requires d.Unit() && k >= 1 && Away(sq, d, k, dest) && dest in occ
    requires forall t: Square | t in Upto(sq, d, k - 1) :: t !in occ
    ensures Upto(sq, d, k) == Beam(occ, sq, d)
  {
    assert Distance(sq, dest) == k;
    AwayMeans(sq, d, dest);
    hide Away, Aligned, Sgn, Df, Dr, Distance;
    forall t: Square | InDirection(sq, d, t)
      ensures Sees(occ, sq, t) <==> Distance(sq, t) <= k
    {
      forall m: Square ensures Between(sq, m, t) <==> InDirection(sq, d, m) && Distance(sq, m) < Distance(sq, t) {
        BetweenByDistance(sq, d, m, t);
      }
      assert Aligned(sq, t);
      if Distance(sq, t) <= k {
        forall m: Square | Between(sq, m, t) ensures m !in occ { assert m in Upto(sq, d, k - 1); }
      } else {
        assert Between(sq, dest, t);
      }
    }
  }

  lemma BeamEnds(occ: Bitboard, sq: Square, d: Direction, k: int)
    requires d.Unit() && k >= 0 && !Reaches(sq, d, k + 1)
    requires forall t: Square | t in Upto(sq, d, k) :: t !in occ
    ensures Upto(sq, d, k) == Beam(occ, sq, d)
  {
    forall t: Square | InDirection(sq, d, t)
      ensures Distance(sq, t) <= k
    {
      AwayMeans(sq, d, t);
      if Distance(sq, t) > k { OnTheWay(sq, d, k + 1, t); }
    }
    hide Away, Aligned, Sgn, Df, Dr, Distance;
    forall t: Square | InDirection(sq, d, t)
      ensures Sees(occ, sq, t)
    {
      forall m: Square ensures Between(sq, m, t) <==> InDirection(sq, d, m) && Distance(sq, m) < Distance(sq, t) {
        BetweenByDistance(sq, d, m, t);
      }
      forall m: Square | Between(sq, m, t) ensures m !in occ { assert m in Upto(sq, d, k); }
      assert Aligned(sq, t);
    }
  }

  /** The board is convex: every square on the way is on the board. */
  lemma OnTheWay(sq: Square, d: Direction, j: int, t: Square)
    requires d.Unit() && 0 <= j <= Distance(sq, t) && Away(sq, d, Distance(sq, t), t)
    ensures Reaches(sq, d, j)
  {
    var f, r := File(sq) + Times(j, d.df), Rank(sq) + Times(j, d.dr);
    assert 0 <= f < 8 && 0 <= r < 8;
    var u: Square := 8 * r + f;
    assert Away(sq, d, j, u);
  }

  /** `sliding_attack`: all four directions of a rook or a bishop. */
  method SlidingAttack(rook: bool, sq: Square, occupied: Bitboard) returns (attacks: Bitboard)
    ensures attacks == if rook then RookBB(occupied, sq) else BishopBB(occupied, sq)
  {
    attacks := {};
    var directions := if rook then ROOK_DIRECTIONS else BISHOP_DIRECTIONS;
    for k := 0 to 4
      invariant attacks == Beams(occupied, sq, directions, k)
    {
      hide Beam;
      attacks := WalkRay(sq, occupied, directions[k], attacks);
    }
    BeamsAll(occupied, sq, rook);
  }

  function Beams(occ: Bitboard, s: Square, ds: seq<Direction>, k: nat): Bitboard
    requires k <= |ds|
  {
    if k == 0 then {} else Beams(occ, s, ds, k - 1) + Beam(occ, s, ds[k - 1])
  }

  lemma BeamsAll(occ: Bitboard, s: Square, rook: bool)
    ensures Beams(occ, s, if rook then ROOK_DIRECTIONS else BISHOP_DIRECTIONS, 4) == if rook then RookBB(occ, s)
        else BishopBB(occ, s)
  {
    var ds := if rook then ROOK_DIRECTIONS else BISHOP_DIRECTIONS;
    assert Beams(occ, s, ds, 4) == Beam(occ, s, ds[0]) + Beam(occ, s, ds[1]) + Beam(occ, s, ds[2])
        + Beam(occ, s, ds[3]) by {
      assert Beams(occ, s, ds, 1) == Beam(occ, s, ds[0]);
      assert Beams(occ, s, ds, 2) == Beam(occ, s, ds[0]) + Beam(occ, s, ds[1]);
    }
    forall t: Square
      ensures t in Beams(occ, s, ds, 4) <==> t in if rook then RookBB(occ, s) else BishopBB(occ, s)
    {
      DirectionOf(s, t, rook);
      hide Sees;
    }
  }

  lemma RookBeams(occ: Bitboard, s: Square)
    ensures RookBB(occ, s) == Beam(occ, s, Direction(0, 1)) + Beam(occ, s, Direction(0, -1))
        + Beam(occ, s, Direction(1, 0)) + Beam(occ, s, Direction(-1, 0))
  {
    forall t: Square ensures t in RookBB(occ, s) <==>
        t in Beam(occ, s, NORTH) + Beam(occ, s, SOUTH) + Beam(occ, s, EAST) + Beam(occ, s, WEST) {
      DirectionOf(s, t, true);
      hide Sees, InDirection, RookLine;
    }
  }

  lemma BishopBeams(occ: Bitboard, s: Square)
    ensures BishopBB(occ, s) == Beam(occ, s, Direction(1, 1)) + Beam(occ, s, Direction(-1, -1))
        + Beam(occ, s, Direction(-1, 1)) + Beam(occ, s, Direction(1, -1))
  {
    forall t: Square ensures t in BishopBB(occ, s) <==>
        t in Beam(occ, s, Direction(1, 1)) + Beam(occ, s, Direction(-1, -1)) + Beam(occ, s, Direction(-1, 1))
        + Beam(occ, s, Direction(1, -1)) {
      DirectionOf(s, t, false);
      hide Sees, InDirection, BishopLine;
    }
  }

  lemma DirectionOf(s: Square, t: Square, rook: bool)
    ensures (if rook then RookLine(s, t) else BishopLine(s, t)) <==>
            (var ds := if rook then ROOK_DIRECTIONS else BISHOP_DIRECTIONS;
             InDirection(s, ds[0], t) || InDirection(s, ds[1], t) || InDirection(s, ds[2], t)
                 || InDirection(s, ds[3], t))
  {}

  const KNIGHT_STEPS := [-17, -15, -10, -6, 6, 10, 15, 17]
  const KING_STEPS := [-9, -8, -7, -1, 1, 7, 8, 9]

  function Landings(s: Square, steps: seq<int>, k: nat): Bitboard
    requires k <= |steps|
  {
    set t: Square | 0 <= t < 64 && LandsOn(s, steps, k, t)
  }

  predicate LandsOn(s: Square, steps: seq<int>, k: nat, t: Square)
    requires k <= |steps|
  {
    exists i | 0 <= i < k :: SafeDestination(s, steps[i]) == Some(t)
  }

  /** `knight_attack` and `king_attack`. */
  method LeaperAttack(knight: bool, sq: Square) returns (b: Bitboard)
    ensures b == if knight then KnightBB(sq) else KingBB(sq)
  {
    b := {};
    var steps := if knight then KNIGHT_STEPS else KING_STEPS;
    for k := 0 to 8
      invariant b == Landings(sq, steps, k)
    {
      hide SafeDestination;
      var dest := SafeDestination(sq, steps[k]);
      LandingsNext(sq, steps, k);
      if dest.Some? { b := b + {dest.value}; }
    }
    forall t: Square
      ensures t in Landings(sq, steps, 8) <==> t in if knight then KnightBB(sq) else KingBB(sq)
    {
      if knight { KnightLands(sq, t); } else { KingLands(sq, t); }
    }
  }

  lemma LandingsNext(s: Square, steps: seq<int>, k: nat)
    requires k < |steps|
    ensures Landings(s, steps, k + 1) == Landings(s, steps, k)
        + (match SafeDestination(s, steps[k]) case Some(t) => {t} case None => {})
  {
    hide SafeDestination;
    forall t: Square
      ensures LandsOn(s, steps, k + 1, t) <==> LandsOn(s, steps, k, t) || SafeDestination(s, steps[k]) == Some(t)
    {
      if SafeDestination(s, steps[k]) == Some(t) { assert LandsOn(s, steps, k + 1, t); }
    }
  }

  lemma KnightLands(s: Square, t: Square)
    ensures LandsOn(s, KNIGHT_STEPS, 8, t) <==> KnightAttacks(s, t)
  {
    if KnightAttacks(s, t) {
      var i := IndexOf(KNIGHT_STEPS, t - s);
      assert KNIGHT_STEPS[i] == t - s;
      assert SafeDestination(s, KNIGHT_STEPS[i]) == Some(t);
    }
  }

  lemma KingLands(s: Square, t: Square)
    ensures LandsOn(s, KING_STEPS, 8, t) <==> KingAttacks(s, t)
  {
    KingStep(s, t);
    if KingAttacks(s, t) {
      var i := IndexOf(KING_STEPS, t - s);
      assert SafeDestination(s, KING_STEPS[i]) == Some(t);
    }
    if LandsOn(s, KING_STEPS, 8, t) {
      var i :| 0 <= i < 8 && SafeDestination(s, KING_STEPS[i]) == Some(t);
      assert t - s == KING_STEPS[i];
    }
  }

  lemma KingStep(s: Square, t: Square)
    ensures KingAttacks(s, t) <==> t - s in KING_STEPS && Abs(File(s) - File(t)) <= 2
  {
    var f, r := Df(s, t), Dr(s, t);
    assert t - s == 8 * r + f;
    assert Abs(File(s) - File(t)) <= 2 <==> -2 <= f <= 2;
    assert KingAttacks(s, t) <==> (f != 0 || r != 0) && -1 <= f <= 1 && -1 <= r <= 1;
    KingOffsets(f, r);
    hide *;
  }

  lemma KingOffsets(f: int, r: int)
    requires -7 <= f <= 7 && -7 <= r <= 7
    ensures (f != 0 || r != 0) && -1 <= f <= 1 && -1 <= r <= 1 <==> 8 * r + f in KING_STEPS && -2 <= f <= 2
  {
    KingStepsAre(8 * r + f);
    hide *;
  }

  lemma KingStepsAre(x: int)
    ensures x in KING_STEPS <==> x == -9 || x == -8 || x == -7 || x == -1 || x == 1 || x == 7 || x == 8 || x == 9
  {
    if x in KING_STEPS {
      var i :| 0 <= i < 8 && KING_STEPS[i] == x;
    } else {
      var k := KING_STEPS;
      assert k[0] in k && k[1] in k && k[2] in k && k[3] in k && k[4] in k && k[5] in k && k[6] in k && k[7] in k;
    }
  }

  function IndexOf(steps: seq<int>, x: int): (i: nat)
    requires |steps| == 8
    ensures i < 8
    ensures x in steps ==> steps[i] == x
  {
    if steps[0] == x then 0 else if steps[1] == x then 1 else if steps[2] == x then 2 else if steps[3] == x then 3
    else if steps[4] == x then 4 else if steps[5] == x then 5 else if steps[6] == x then 6 else 7
  }

  // ----- Line, between and ray-pass tables -----

  lemma LineFormula(a: Square, b: Square, rook: bool)
    requires if rook then RookLine(a, b) else BishopLine(a, b)
    ensures var x, y := if rook then RookBB({}, a) else BishopBB({}, a), if rook then RookBB({}, b)
        else BishopBB({}, b);
            x * y + {a, b} == LineBB(a, b)
  {
    hide File, Rank;
    AlignedSym(a, b);
    forall t: Square
      ensures OnLine(a, b, t) <==>
              || t == a || t == b
              || (if rook then RookLine(a, t) && RookLine(b, t) else BishopLine(a, t) && BishopLine(b, t))
    {
    }
  }

  lemma BetweenFormula(a: Square, b: Square, rook: bool)
    requires if rook then RookLine(a, b) else BishopLine(a, b)
    ensures var x, y := if rook then RookBB({b}, a) else BishopBB({b}, a), if rook then RookBB({a}, b)
        else BishopBB({a}, b);
            x * y + {b} == BetweenBB(a, b)
  {
    AlignedSym(a, b);
    forall t: Square
      ensures (if rook then RookLine(a, t) && Sees({b}, a, t) && RookLine(b, t) && Sees({a}, b, t)
          else BishopLine(a, t) && Sees({b}, a, t) && BishopLine(b, t) && Sees({a}, b, t)) || t == b
              <==> t == b || Between(a, t, b)
    {
      SeesPast(a, b, t);
      SeesPast(b, a, t);
      SidesOf(a, b, t, rook);
      hide *;
    }
  }

  lemma SeesPast(a: Square, b: Square, t: Square)
    ensures Sees({b}, a, t) <==> Aligned(a, t) && !Between(a, b, t)
  {
    hide Aligned, SameRay;
  }

  lemma SidesOf(a: Square, b: Square, t: Square, rook: bool)
    requires if rook then RookLine(a, b) else BishopLine(a, b)
    ensures if rook
            then RookLine(a, t) && !Between(a, b, t) && RookLine(b, t) && !Between(b, a, t) <==> Between(a, t, b)
            else BishopLine(a, t) && !Between(a, b, t) && BishopLine(b, t) && !Between(b, a, t) <==> Between(a, t, b)
    ensures rook ==> (RookLine(a, t) ==> Aligned(a, t)) && (RookLine(b, t) ==> Aligned(b, t))
    ensures !rook ==> (BishopLine(a, t) ==> Aligned(a, t)) && (BishopLine(b, t) ==> Aligned(b, t))
  {
    hide File, Rank;
  }

  lemma RayFormula(a: Square, b: Square, rook: bool)
    requires if rook then RookLine(a, b) else BishopLine(a, b)
    ensures var x, y := if rook then RookBB({}, a) else BishopBB({}, a), if rook then RookBB({a}, b)
        else BishopBB({a}, b);
            x * (y + {b}) == RayPass(a, b)
  {
    forall t: Square
      ensures (if rook then RookLine(a, t) && (t == b || (RookLine(b, t) && Sees({a}, b, t)))
          else BishopLine(a, t) && (t == b || (BishopLine(b, t) && Sees({a}, b, t)))) <==> SameRay(a, b, t)
    {
      SeesPast(b, a, t);
      RaysOf(a, b, t, rook);
      hide Between, SameRay, RookLine, BishopLine;
    }
    forall t: Square ensures Sees({}, a, t) == Aligned(a, t) {}
  }

  lemma RaysOf(a: Square, b: Square, t: Square, rook: bool)
    requires if rook then RookLine(a, b) else BishopLine(a, b)
    ensures if rook then RookLine(a, t) && (t == b || (RookLine(b, t) && !Between(b, a, t))) <==> SameRay(a, b, t)
            else BishopLine(a, t) && (t == b || (BishopLine(b, t) && !Between(b, a, t))) <==> SameRay(a, b, t)
  {
    if rook {
    } else {
    }
  }

  /** The entry of each table once the bishop lines, and then the rook lines, have been treated. */
  function LineEntry(rookDone: bool, a: Square, b: Square): Bitboard {
    if BishopLine(a, b) || (rookDone && RookLine(a, b)) then LineBB(a, b) else {}
  }

  function BetweenEntry(rookDone: bool, a: Square, b: Square): Bitboard {
    if BishopLine(a, b) || (rookDone && RookLine(a, b)) then BetweenBB(a, b) else {b}
  }

  function RayEntry(rookDone: bool, a: Square, b: Square): Bitboard {
    if BishopLine(a, b) || (rookDone && RookLine(a, b)) then RayPass(a, b) else {}
  }

  lemma EntriesFinal(a: Square, b: Square)
    ensures LineEntry(true, a, b) == LineBB(a, b) && BetweenEntry(true, a, b) == BetweenBB(a, b)
        && RayEntry(true, a, b) == RayPass(a, b)
  {
    hide RookLine, BishopLine, Df, Dr, Sgn;
  }

  /** One row of the tables for one slider type. */
  method InitRow(rook: bool, a: Square, line: array2<Bitboard>, between: array2<Bitboard>, rays: array2<Bitboard>)
    requires line.Length0 == line.Length1 == between.Length0 == between.Length1 == rays.Length0 == rays.Length1 == 64
    requires line != between && line != rays && between != rays
    requires rook ==>
        forall b: Square ::
        line[a, b] == LineEntry(false, a, b) && between[a, b] == BetweenEntry(false, a, b)
        && rays[a, b] == RayEntry(false, a, b)
    requires !rook ==> forall b: Square :: line[a, b] == {} && between[a, b] == {} && rays[a, b] == {}
    modifies line, between, rays
    ensures forall b: Square ::
        line[a, b] == LineEntry(rook, a, b) && between[a, b] == BetweenEntry(rook, a, b)
        && rays[a, b] == RayEntry(rook, a, b)
    ensures forall s: Square, t: Square | s != a ::
        line[s, t] == old(line[s, t]) && between[s, t] == old(between[s, t]) && rays[s, t] == old(rays[s, t])
  {
    hide LineBB, BetweenBB, RayPass, RookLine, BishopLine, RookBB, BishopBB, Aligned;
    for b := 0 to 64
      invariant forall t: Square | t < b ::
          line[a, t] == LineEntry(rook, a, t) && between[a, t] == BetweenEntry(rook, a, t)
          && rays[a, t] == RayEntry(rook, a, t)
      invariant forall t: Square | t >= b ::
          line[a, t] == old(line[a, t]) && between[a, t] == old(between[a, t]) && rays[a, t] == old(rays[a, t])
      invariant forall s: Square, t: Square | s != a ::
          line[s, t] == old(line[s, t]) && between[s, t] == old(between[s, t]) && rays[s, t] == old(rays[s, t])
    {
      AlignedSym(a, b);
      BetweenHas(a, b);
      if if rook then RookLine(a, b) else BishopLine(a, b) {
        var x, y := if rook then RookBB({}, a) else BishopBB({}, a), if rook then RookBB({}, b) else BishopBB({}, b);
        var xb, ya := if rook then RookBB({b}, a) else BishopBB({b}, a), if rook then RookBB({a}, b)
            else BishopBB({a}, b);
        LineFormula(a, b, rook);
        BetweenFormula(a, b, rook);
        RayFormula(a, b, rook);
        line[a, b] := x * y + {a} + {b};
        assert x * y + {a} + {b} == x * y + {a, b};
        between[a, b] := xb * ya;
        rays[a, b] := x * (ya + {b});
      }
      between[a, b] := between[a, b] + {b};
    }
  }

  lemma BetweenHas(a: Square, b: Square)
    ensures BetweenBB(a, b) + {b} == BetweenBB(a, b)
  {}

  /** `Attacks::init`: the three tables hold exactly the lines, gaps and rays of the board. */
  method InitTables() returns (line: array2<Bitboard>, between: array2<Bitboard>, rays: array2<Bitboard>)
    ensures line.Length0 == line.Length1 == between.Length0 == between.Length1 == rays.Length0 == rays.Length1 == 64
    ensures forall a: Square, b: Square ::
        line[a, b] == LineBB(a, b) && between[a, b] == BetweenBB(a, b) && rays[a, b] == RayPass(a, b)
  {
    hide LineBB, BetweenBB, RayPass, RookLine, BishopLine, LineEntry, BetweenEntry, RayEntry;
    line := new Bitboard[64, 64]((_, _) => {});
    between := new Bitboard[64, 64]((_, _) => {});
    rays := new Bitboard[64, 64]((_, _) => {});
    for a := 0 to 64
      invariant forall s: Square, t: Square | s < a ::
          line[s, t] == LineEntry(true, s, t) && between[s, t] == BetweenEntry(true, s, t)
          && rays[s, t] == RayEntry(true, s, t)
      invariant forall s: Square, t: Square | s >= a :: line[s, t] == {} && between[s, t] == {} && rays[s, t] == {}
    {
      InitRow(false, a, line, between, rays);
      InitRow(true, a, line, between, rays);
    }
    forall a: Square, b: Square
      ensures LineEntry(true, a, b) == LineBB(a, b) && BetweenEntry(true, a, b) == BetweenBB(a, b)
          && RayEntry(true, a, b) == RayPass(a, b)
    {
      EntriesFinal(a, b);
    }
  }
}
