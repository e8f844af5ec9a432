/**
 * En passant.  A double step is recorded by a quick test on masks, a string by trying every
 * capture; the two agree.  And the pin test alone tells which of the captures are legal.
 */
module EnPassant {
  import opened Options
  import opened Types
  import opened Geometry
  import opened Board
  import opened Checks
  import opened Legality
  import opened Making
  import opened States
  import Fen

  // ----- Lines near a pawn -----

  /** A neighbour on the line of a square between two others is between them too, unless it is one of them. */
  lemma NeighbourBetween(q: Square, p: Square, k: Square, e: Square)
    requires Between(q, p, k) && KingAttacks(p, e) && OnLine(e, k, p) && e != q && e != k
    ensures Between(q, e, k)
  {
    hide RookLine, BishopLine, SameRay, Df, Dr, KingAttacks;
    BetweenDistinct(q, p, k);
    Neighbours(p, e);
    BetweenSym(q, p, k);
    BetweenSym(p, e, k);
    BetweenSym(e, p, k);
    if Between(p, e, k) {
      BetweenInner(k, e, p, q);
    } else {
      assert Between(e, p, k) by { BetweenSym(e, k, p); }
      SameRayFromBetween(k, p, q, e);
      SameRayTotal(k, q, e);
      if Between(k, q, e) { BetweenInner(k, p, q, e); }
    }
    BetweenSym(k, e, q);
  }

  lemma Neighbours(p: Square, e: Square)
    requires KingAttacks(p, e)
    ensures p != e && forall x: Square :: !Between(p, x, e) && !Between(e, x, p)
  {
    forall x: Square ensures !Between(p, x, e) && !Between(e, x, p) { NoBetweenNear(p, e, x); NoBetweenNear(e, p, x); }
  }

  /** Two squares between the same two squares lie on one line with either end. */
  lemma BothBetween(k: Square, p: Square, e: Square, z: Square)
    requires Between(k, p, z) && Between(k, e, z) && p != e
    ensures OnLine(e, k, p) && OnLine(p, e, k) && Aligned(p, e)
  {
    hide RookLine, BishopLine, Df, Dr, SameRay;
    BetweenSplit(k, p, e, z);
    if Between(k, e, p) {
      BetweenSym(k, e, p);
      BetweenDistinct(k, e, p);
    } else {
      BetweenSym(k, p, z);
      BetweenSym(p, e, z);
      BetweenInner(z, e, p, k);
      BetweenDistinct(e, p, k);
    }
    AlignedSym(p, e);
    AlignedSym(e, k);
  }

  // ----- What a change of occupancy does to the attackers of a king -----

  /** Does a piece of colour c attack k once the squares of occ are the occupied ones? */
  ghost predicate Reached(b: Board, k: Square, occ: Bitboard, c: Color) {
    exists q: Square :: Reaches(b, k, occ, c, q)
  }

  predicate Reaches(b: Board, k: Square, occ: Bitboard, c: Color, q: Square) {
    b[q].Man? && b[q].color == c && Attacks(occ, b[q], q, k)
  }

  /** A lone shield gone and nothing put on its line: the slider behind it attacks the king. */
  lemma ShieldGone(b: Board, c: Color, k: Square, x: Square, occ: Bitboard, e: Square) returns (z: Square)
    requires x in Blockers(b, c, k) && !Attacked(b, k, c.Other()) && !OnLine(e, k, x) && x != e
    requires occ <= Occ(b) - {x} + {e}
    ensures Reaches(b, k, occ, c.Other(), z) && IsSlider(b[z].kind)
  {
    hide RookLine, BishopLine, SameRay, Between, Blockers, OnLine;
    z := BehindBlocker(b, c, k, x);
    SniperAligned(b, c, k, z);
    assert b[z].Man? && b[z].color == c.Other() && IsSlider(b[z].kind) && SlidesAlong(b[z].kind, z, k);
    assert !Attacks(Occ(b), b[z], z, k);
    assert Between(k, x, z);
    forall y: Square | Between(z, y, k) ensures y !in occ {
      BetweenSym(z, y, k);
      if y == e { BothBetween(k, x, e, z); }
    }
  }

  /** A line opened by a change of occupancy was blocked by squares vacated, and by no others. */
  lemma OpenedLine(b: Board, k: Square, occ: Bitboard, c: Color, q: Square) returns (x: Square)
    requires Reaches(b, k, occ, c, q) && !Attacks(Occ(b), b[q], q, k)
    ensures IsSlider(b[q].kind) && SlidesAlong(b[q].kind, q, k)
    ensures Between(q, x, k) && x in Occ(b) && x !in occ
    ensures forall y: Square :: Between(q, y, k) ==> y !in occ
  {
    hide RookLine, BishopLine, SameRay, Between;
    x :| 0 <= x < 64 && Between(q, x, k) && x in Occ(b);
  }

  // ----- Recording the square -----

  /** A pawn of us is about to step from its first square over e to the one beyond. */
  ghost predicate DoubleStep(b: Board, us: Color, m: Move, e: Square) {
    && m.mtype == Normal && b[m.from] == Man(us, Pawn) && RelativeRank(us, m.from) == 1
    && m.from + PawnPush(us) == e && e + PawnPush(us) == m.to && b[e] == Empty && b[m.to] == Empty
  }

  /** A pawn of the other side that could take it on e. */
  predicate Taker(b: Board, us: Color, e: Square, p: Square) { b[p] == Man(us.Other(), Pawn) && PawnAttacks(us, e, p) }

  /** The squares occupied once p has taken. */
  function OccTaken(b: Board, from: Square, p: Square, e: Square): Bitboard { Occ(b) - {from, p} + {e} }

  /** The quick test for one pawn. */
  predicate QuickTest(b: Board, us: Color, from: Square, e: Square, p: Square, ksq: Square, theirBlockers: Bitboard) {
    && (from !in theirBlockers || File(from) == File(ksq))
    && (p !in theirBlockers || p in LineBB(e, ksq))
  }

  /** The pawn that steps and the pawn that takes stand a knight's move apart. */
  lemma KnightApart(us: Color, from: Square, e: Square, p: Square)
    requires from + PawnPush(us) == e && RelativeRank(us, from) == 1 && PawnAttacks(us, e, p)
    ensures !Aligned(from, p) && KingAttacks(from, e) && KingAttacks(p, e) && from != p && from != e
  {}

  lemma FileLine(us: Color, from: Square, e: Square, k: Square)
    requires from + PawnPush(us) == e && e != k
    ensures OnLine(e, k, from) <==> File(k) == File(from)
  {
    hide Between, SameRay, RookLine, BishopLine;
    SameFile(from, e);
    if File(k) == File(from) {
      OnFile(from, e, k);
    } else if OnLine(e, k, from) {
      OffFile(from, e, k);
    }
  }

  lemma SameFile(from: Square, e: Square)
    requires from - e == 8 || e - from == 8
    ensures File(from) == File(e) && from != e && (Rank(from) == Rank(e) + 1 || Rank(from) == Rank(e) - 1)
  {}

  lemma OnFile(f: Square, e: Square, k: Square)
    requires File(f) == File(e) == File(k) && (Rank(f) == Rank(e) + 1 || Rank(f) == Rank(e) - 1) && e != k
    ensures OnLine(e, k, f)
  {
    if f != k { assert Rank(f) != Rank(k); }
    hide File, Rank;
  }

  lemma OffFile(f: Square, e: Square, k: Square)
    requires File(f) == File(e) != File(k) && (Rank(f) == Rank(e) + 1 || Rank(f) == Rank(e) - 1) && e != k
    ensures !OnLine(e, k, f)
  {
    hide File, Rank;
  }

  /** What the quick test objects to would leave the king attacked. */
  lemma RefusedIsUnsafe(b: Board, us: Color, m: Move, e: Square, p: Square)
    requires DoubleStep(b, us, m, e) && KingsOk(b, us) && Taker(b, us, e, p)
    requires !QuickTest(b, us, m.from, e, p, KingSq(b, us.Other()), Blockers(b, us.Other(), KingSq(b, us.Other())))
    ensures Reached(b, KingSq(b, us.Other()), OccTaken(b, m.from, p, e), us)
  {
    hide Blockers, Occ, OnLine, Attacked, OneKingEach, KingAttacks, PawnAttacks, Reaches, Aligned;
    var k := KingSq(b, us.Other());
    KnightApart(us, m.from, e, p);
    var x := if m.from in Blockers(b, us.Other(), k) && File(m.from) != File(k) then m.from else p;
    FileLine(us, m.from, e, k);
    var z := ShieldGone(b, us.Other(), k, x, OccTaken(b, m.from, p, e), e);
  }

  /** What it lets pass leaves the king safe. */
  lemma PassedIsSafe(b: Board, us: Color, m: Move, e: Square, p: Square)
    requires DoubleStep(b, us, m, e) && KingsOk(b, us) && Taker(b, us, e, p)
    requires QuickTest(b, us, m.from, e, p, KingSq(b, us.Other()), Blockers(b, us.Other(), KingSq(b, us.Other())))
    ensures !Reached(b, KingSq(b, us.Other()), OccTaken(b, m.from, p, e), us)
  {
    hide RookLine, BishopLine, SameRay, Between, Blockers, OnLine, OneKingEach, KingAttacks, PawnAttacks, Attacks;
    var k, occ := KingSq(b, us.Other()), OccTaken(b, m.from, p, e);
    if q: Square :| Reaches(b, k, occ, us, q) {
      assert !Attacks(Occ(b), b[q], q, k);
      var x := OpenedLine(b, k, occ, us, q);
      KnightApart(us, m.from, e, p);
      assert x == m.from || x == p;
      forall y: Square | Between(q, y, k) && y in Occ(b) ensures y == x {
        assert y !in occ;
        assert y == m.from || y == p;
        if y != x { BothBetweenAligned(q, x, y, k); }
      }
      assert q in Snipers(b, us.Other(), k);
      AloneIsBlocker(b, us.Other(), k, q, x);
      FileLine(us, m.from, e, k);
      NeighbourBetween(q, x, k, e);
    }
  }

  lemma BothBetweenAligned(q: Square, x: Square, y: Square, k: Square)
    requires Between(q, x, k) && Between(q, y, k) && x != y
    ensures Aligned(x, y) && Aligned(y, x)
  {
    BothBetween(q, x, y, k);
    AlignedSym(x, y);
  }

  // ----- Taking en passant -----

  /** The pawn on p may take a pawn on c by passing over e behind it. */
  ghost predicate MayTake(b: Board, us: Color, e: Square, c: Square, p: Square) {
    && b[e] == Empty && c + PawnPush(us) == e && b[c] == Man(us.Other(), Pawn)
    && b[p] == Man(us, Pawn) && PawnAttacks(us, p, e)
  }

  /** Only the pawn taken could still reach the king. */
  ghost predicate TakesSafely(b: Board, us: Color, e: Square, c: Square, p: Square)
    requires Pieces(b, us, King) != {}
  {
    forall q: Square :: Reaches(b, KingSq(b, us), OccTaken(b, c, p, e), us.Other(), q) ==> q == c
  }

  function TakeMove(p: Square, e: Square): Move { Move(p, e, EnPassant, Knight) }

  lemma TakenOcc(b: Board, us: Color, e: Square, c: Square, p: Square)
    requires MayTake(b, us, e, c, p)
    ensures Occ(ApplyMove(b, us, TakeMove(p, e))) == OccTaken(b, c, p, e)
  {}

  lemma TakenKing(b: Board, us: Color, e: Square, c: Square, p: Square, d: Color)
    requires MayTake(b, us, e, c, p) && Pieces(b, d, King) != {}
    ensures var a := ApplyMove(b, us, TakeMove(p, e));
        Pieces(a, d, King) == Pieces(b, d, King) && KingSq(a, d) == KingSq(b, d)
  {
    var a := ApplyMove(b, us, TakeMove(p, e));
    assert Pieces(a, d, King) == Pieces(b, d, King);
  }

  /** Taking leaves the own king safe exactly when nothing but the pawn taken could reach it. */
  lemma TakenSafe(b: Board, us: Color, e: Square, c: Square, p: Square)
    requires MayTake(b, us, e, c, p) && Pieces(b, us, King) != {}
    ensures var a := ApplyMove(b, us, TakeMove(p, e));
            && Pieces(a, us, King) != {}
            && (TakesSafely(b, us, e, c, p) <==> !Attacked(a, KingSq(a, us), us.Other()))
  {
    var a, k := ApplyMove(b, us, TakeMove(p, e)), KingSq(b, us);
    TakenKing(b, us, e, c, p, us);
    TakenOcc(b, us, e, c, p);
    hide Attacks, Pieces, KingSq, PawnAttacks, OccTaken;
    forall q: Square
      ensures a[q].Man? && a[q].color == us.Other() && Attacks(Occ(a), a[q], q, k) <==>
              q != c && Reaches(b, k, OccTaken(b, c, p, e), us.Other(), q)
    {}
    hide Occ;
  }

  lemma TargetIs(b: Board, us: Color, e: Square, c: Square, p: Square)
    requires MayTake(b, us, e, c, p)
    ensures Fen.EpTarget(b, us, e) == {c}
  {}

  lemma ToggledOcc(b: Board, us: Color, e: Square, c: Square, p: Square)
    requires MayTake(b, us, e, c, p)
    ensures Toggle(Toggle(Toggle(Occ(b), {c}), {e}), {p}) == OccTaken(b, c, p, e)
  {
    assert e !in Occ(b) && c in Occ(b) && p in Occ(b) && p != c;
    hide PawnAttacks, Occ;
  }

  /** The test of a string for one pawn. */
  lemma SafeCaptureMeans(b: Board, us: Color, e: Square, c: Square, p: Square)
    requires MayTake(b, us, e, c, p) && Fen.HasKings(b)
    ensures Fen.SafeCapture(b, us, Toggle(Toggle(Occ(b), {c}), {e}), {c}, p) <==> TakesSafely(b, us, e, c, p)
  {
    hide Attacks, Pieces, PawnAttacks, OccTaken, AttackersTo, Toggle, Reaches, ByColor, MayTake, Occ;
    var k, occ := KingSq(b, us), OccTaken(b, c, p, e);
    ToggledOcc(b, us, e, c, p);
    forall q: Square
      ensures q in AttackersTo(b, k, occ) * ByColor(b, us.Other()) <==> Reaches(b, k, occ, us.Other(), q)
    {
      AttackersToMeaning(b, k, occ, q);
      ReachesMeans(b, k, occ, us.Other(), q);
    }
    var l := AttackersTo(b, k, occ) * ByColor(b, us.Other());
    NothingElse(l, c);
  }

  lemma ReachesMeans(b: Board, k: Square, occ: Bitboard, d: Color, q: Square)
    ensures Reaches(b, k, occ, d, q) <==> q in ByColor(b, d) && Attacks(occ, b[q], q, k)
  {
    hide Attacks;
  }

  lemma NothingElse(l: Bitboard, c: Square)
    ensures l - {c} == {} <==> forall q | q in l :: q == c
  {
    if q: Square :| q in l && q != c { assert q in l - {c}; }
  }

  // ----- The two ways of recording agree -----

  /** Before and after the step, the capture is safe in the same cases. */
  lemma StepThenTake(b: Board, us: Color, m: Move, e: Square, p: Square)
    requires DoubleStep(b, us, m, e) && KingsOk(b, us) && Taker(b, us, e, p)
    ensures var a := ApplyMove(b, us, m);
            && MayTake(a, us.Other(), e, m.to, p)
            && Pieces(a, us.Other(), King) != {} && KingSq(a, us.Other()) == KingSq(b, us.Other())
            && (TakesSafely(a, us.Other(), e, m.to, p) <==>
                QuickTest(b, us, m.from, e, p, KingSq(b, us.Other()), Blockers(b, us.Other(), KingSq(b, us.Other()))))
  {
    var a, them := ApplyMove(b, us, m), us.Other();
    StepKeeps(b, us, m, e, p);
    var k := KingSq(b, them);
    StepReaches(b, us, m, e, p, k);
    if QuickTest(b, us, m.from, e, p, k, Blockers(b, them, k)) {
      PassedIsSafe(b, us, m, e, p);
    } else {
      RefusedIsUnsafe(b, us, m, e, p);
    }
    hide *;
  }

  lemma StepKeeps(b: Board, us: Color, m: Move, e: Square, p: Square)
    requires DoubleStep(b, us, m, e) && KingsOk(b, us) && Taker(b, us, e, p)
    ensures var a := ApplyMove(b, us, m);
            MayTake(a, us.Other(), e, m.to, p) && Pieces(a, us.Other(), King) == Pieces(b, us.Other(), King)
  {
    PawnAttacksReverse(us, e, p);
    assert Pieces(ApplyMove(b, us, m), us.Other(), King) == Pieces(b, us.Other(), King);
  }

  /** Who reaches the king once the pawn has stepped and been taken. */
  lemma StepReaches(b: Board, us: Color, m: Move, e: Square, p: Square, k: Square)
    requires DoubleStep(b, us, m, e) && Taker(b, us, e, p) && !Attacked(b, k, us)
    ensures var a := ApplyMove(b, us, m);
            && OccTaken(a, m.to, p, e) == OccTaken(b, m.from, p, e)
            && forall q: Square :: Reaches(a, k, OccTaken(a, m.to, p, e), us, q) && q != m.to <==>
                                   Reaches(b, k, OccTaken(b, m.from, p, e), us, q)
  {
    var a, occ := ApplyMove(b, us, m), OccTaken(b, m.from, p, e);
    assert OccTaken(a, m.to, p, e) == occ;
    hide PawnAttacks, OccTaken, Occ;
    forall q: Square ensures Reaches(a, k, occ, us, q) && q != m.to <==> Reaches(b, k, occ, us, q) {
      if q == m.from { assert !Attacks(Occ(b), b[q], q, k); }
    }
  }

  /** On the board of the capture: an enemy pawn has just come to c, by e and from the square beyond it. */
  ghost predicate JustPassed(b: Board, us: Color, e: Square, c: Square) {
    && b[e] == Empty && c + PawnPush(us) == e && b[c] == Man(us.Other(), Pawn)
    && (0 <= e + PawnPush(us) < 64 ==> b[e + PawnPush(us)] == Empty)
  }

  lemma PawnsMean(b: Board, us: Color, e: Square, c: Square, p: Square)
    requires b[e] == Empty && c + PawnPush(us) == e && b[c] == Man(us.Other(), Pawn)
    ensures p in Fen.EpPawns(b, us, e) <==> MayTake(b, us, e, c, p)
  {
    PawnAttacksReverse(us, p, e);
    hide PawnAttacks;
  }

  /** A string records a square exactly when an enemy pawn has just passed and some capture is safe. */
  lemma CountsMeans(b: Board, us: Color, e: Square, c: Square)
    requires Fen.HasKings(b) && c + PawnPush(us) == e
    ensures Fen.EpCounts(b, us, e) <==>
            JustPassed(b, us, e, c) && exists p :: MayTake(b, us, e, c, p) && TakesSafely(b, us, e, c, p)
  {
    hide PawnAttacks, TakesSafely, Fen.SafeCapture, Fen.EpPawns, Toggle, Pieces;
    assert Fen.EpTarget(b, us, e) == if b[c] == Man(us.Other(), Pawn) then {c} else {};
    NothingBeyond(b, us, e);
    if b[c] == Man(us.Other(), Pawn) && b[e] == Empty {
      forall p: Square
        ensures p in Fen.EpPawns(b, us, e) <==> MayTake(b, us, e, c, p)
        ensures MayTake(b, us, e, c, p) ==>
          (Fen.SafeCapture(b, us, Toggle(Toggle(Occ(b), {c}), {e}), {c}, p) <==> TakesSafely(b, us, e, c, p))
      {
        PawnsMean(b, us, e, c, p);
        if MayTake(b, us, e, c, p) { SafeCaptureMeans(b, us, e, c, p); }
      }
      hide MayTake, Occ;
      if p :| MayTake(b, us, e, c, p) && TakesSafely(b, us, e, c, p) { assert p in Fen.EpPawns(b, us, e); }
    }
  }

  lemma NothingBeyond(b: Board, us: Color, e: Square)
    ensures (forall t | t in Occ(b) :: t != e + PawnPush(us)) <==>
        (0 <= e + PawnPush(us) < 64 ==> b[e + PawnPush(us)] == Empty)
    ensures e !in Occ(b) <==> b[e] == Empty
  {
    if 0 <= e + PawnPush(us) < 64 && b[e + PawnPush(us)] != Empty { assert e + PawnPush(us) in Occ(b); }
  }

  /** The quick test looks for a pawn that passes it. */
  lemma NewEpMeans(b: Board, us: Color, m: Move, e: Square, theirBlockers: Bitboard)
    requires DoubleStep(b, us, m, e) && Pieces(b, us.Other(), King) != {}
    ensures var how := NewEp(b, us, m, theirBlockers);
            && (how == None || how == Some(e))
            && (how == Some(e) <==>
                exists p :: Taker(b, us, e, p) && QuickTest(b, us, m.from, e, p, KingSq(b, us.Other()), theirBlockers))
  {
    var pawns := PawnBB(us, e) * Pieces(b, us.Other(), Pawn);
    forall p: Square ensures p in pawns <==> Taker(b, us, e, p) {}
    hide PawnAttacks, LineBB, KingSq, Taker, PawnBB, Pieces, RelativeRank;
    if NewEp(b, us, m, theirBlockers) == Some(e) {
      var p: Square :| p in pawns && (p !in theirBlockers || p in LineBB(e, KingSq(b, us.Other())));
      assert QuickTest(b, us, m.from, e, p, KingSq(b, us.Other()), theirBlockers);
    }
  }

  lemma StepBoard(b: Board, us: Color, m: Move, e: Square)
    requires DoubleStep(b, us, m, e) && KingsOk(b, us)
    ensures var a := ApplyMove(b, us, m); Fen.HasKings(a) && OneKingEach(a) && JustPassed(a, us.Other(), e, m.to)
  {
    var a := ApplyMove(b, us, m);
    KingsStay(b, us, None, m);
    forall c ensures Pieces(a, c, King) != {} { KingUnique(a, c, 0); }
  }

  /**
   * The square do_move records after a double step, by its quick test on the masks of the
   * state before, is the one a string of the new position would have recorded, by trying
   * every capture.
   */
  lemma RecordedExactly(b: Board, us: Color, m: Move, e: Square)
    requires DoubleStep(b, us, m, e) && KingsOk(b, us)
    ensures var a := ApplyMove(b, us, m);
            && Fen.HasKings(a)
            && NewEp(b, us, m, Blockers(b, us.Other(), KingSq(b, us.Other()))) ==
               if Fen.EpCounts(a, us.Other(), e) then Some(e) else None
  {
    var a, them, k := ApplyMove(b, us, m), us.Other(), KingSq(b, us.Other());
    StepBoard(b, us, m, e);
    NewEpMeans(b, us, m, e, Blockers(b, them, k));
    CountsMeans(a, them, e, m.to);
    forall p: Square
      ensures Taker(b, us, e, p) <==> MayTake(a, them, e, m.to, p)
      ensures Taker(b, us, e, p) ==>
          (TakesSafely(a, them, e, m.to, p) <==> QuickTest(b, us, m.from, e, p, k, Blockers(b, them, k)))
    {
      TakerAfter(b, us, m, e, p);
      if Taker(b, us, e, p) { StepThenTake(b, us, m, e, p); }
    }
    hide *;
  }

  lemma TakerAfter(b: Board, us: Color, m: Move, e: Square, p: Square)
    requires DoubleStep(b, us, m, e)
    ensures Taker(b, us, e, p) <==> MayTake(ApplyMove(b, us, m), us.Other(), e, m.to, p)
  {
    PawnAttacksReverse(us, e, p);
    hide PawnAttacks;
  }

  // ----- Which captures are legal -----

  /** Two pawns that may take the same pawn stand on either side of it. */
  lemma EitherSide(b: Board, us: Color, e: Square, c: Square, p: Square, o: Square)
    requires MayTake(b, us, e, c, p) && MayTake(b, us, e, c, o) && p != o
    ensures Between(p, c, o) && KingAttacks(c, p) && KingAttacks(c, o) && KingAttacks(p, e)
  {}

  lemma BesideAndNear(b: Board, us: Color, e: Square, c: Square, p: Square)
    requires MayTake(b, us, e, c, p)
    ensures KingAttacks(c, p) && KingAttacks(p, e) && p != c && p != e
  {}

  /** In the order q, c, p, k, with o next to c on the far side of p. */
  lemma PastNext(q: Square, p: Square, c: Square, k: Square, o: Square)
    requires Between(q, p, k) && Between(q, c, p) && Between(p, c, o) && KingAttacks(c, o) && o != q
    ensures Between(q, o, k)
  {
    hide RookLine, BishopLine, Df, Dr, SameRay, KingAttacks;
    Neighbours(c, o);
    BetweenSym(q, c, p);
    SameRayFromBetween(p, c, q, o);
    SameRayTotal(p, q, o);
    if Between(p, q, o) { BetweenInner(p, c, q, o); }
    BetweenSym(p, o, q);
    BetweenInner(q, o, p, k);
  }

  /** If two neighbours stand between two squares, so does a third beyond one of them, or it is an end. */
  lemma ThirdBetween(q: Square, p: Square, c: Square, k: Square, o: Square)
    requires Between(q, p, k) && Between(q, c, k) && Between(p, c, o) && KingAttacks(c, o) && o != q && o != k
    ensures Between(q, o, k)
  {
    hide RookLine, BishopLine, Df, Dr, SameRay, KingAttacks;
    BetweenDistinct(p, c, o);
    BetweenSplit(q, p, c, k);
    if Between(q, c, p) {
      PastNext(q, p, c, k, o);
    } else {
      BetweenSym(q, p, k);
      BetweenSym(p, c, k);
      PastNext(k, p, c, q, o);
      BetweenSym(k, o, q);
    }
  }

  /** Where some capture is safe, every unsafe one is by a pinned pawn that leaves its line. */
  lemma UnsafeIsPinned(b: Board, us: Color, k: Square, e: Square, c: Square, p: Square, o: Square, q: Square)
    requires MayTake(b, us, e, c, p) && MayTake(b, us, e, c, o) && p != o && b[k] == Man(us, King)
    requires Reaches(b, k, OccTaken(b, c, p, e), us.Other(), q) && q != c
    requires !Reaches(b, k, OccTaken(b, c, o, e), us.Other(), q)
    ensures p in Blockers(b, us, k) && k !in LineBB(p, e)
  {
    hide RookLine, BishopLine, SameRay, Between, Blockers, OnLine, KingAttacks, PawnAttacks;
    EitherSide(b, us, e, c, p, o);
    var occ, occ' := OccTaken(b, c, p, e), OccTaken(b, c, o, e);
    assert IsSlider(b[q].kind) && SlidesAlong(b[q].kind, q, k) && !Sees(occ', q, k);
    var x: Square :| 0 <= x < 64 && Between(q, x, k) && x in occ';
    assert x !in occ;
    assert x == p;
    assert !Between(q, o, k);
    if Between(q, c, k) { ThirdBetween(q, p, c, k, o); }
    forall y: Square | Between(q, y, k) && y in Occ(b) ensures y == p { assert y !in occ; }
    assert q in Snipers(b, us, k);
    AloneIsBlocker(b, us, k, q, p);
    if OnLine(p, e, k) {
      LineTurns(p, e, k);
      NeighbourBetween(q, p, k, e);
    }
  }

  lemma LineTurns(p: Square, e: Square, k: Square)
    requires OnLine(p, e, k) && p != k && e != k
    ensures OnLine(e, k, p)
  {
    hide RookLine, BishopLine, Df, Dr, SameRay;
    AlignedSym(e, k);
    if Between(p, k, e) {
      BetweenDistinct(p, k, e);
      BetweenSym(p, k, e);
    } else if Between(p, e, k) {
      BetweenDistinct(p, e, k);
    } else {
      BetweenDistinct(k, p, e);
      BetweenSym(k, p, e);
    }
  }

  /** A pinned pawn that leaves its line exposes the king. */
  lemma PinnedIsUnsafe(b: Board, us: Color, k: Square, e: Square, c: Square, p: Square, o: Square)
    requires MayTake(b, us, e, c, p) && MayTake(b, us, e, c, o) && b[k] == Man(us, King)
    requires p in Blockers(b, us, k) && k !in LineBB(p, e)
    requires forall q: Square :: Reaches(b, k, OccTaken(b, c, o, e), us.Other(), q) ==> q == c
    ensures exists q: Square :: q != c && Reaches(b, k, OccTaken(b, c, p, e), us.Other(), q)
  {
    hide RookLine, BishopLine, SameRay, Between, Blockers, OnLine, KingAttacks, PawnAttacks;
    BesideAndNear(b, us, e, c, p);
    var occ, occ' := OccTaken(b, c, p, e), OccTaken(b, c, o, e);
    var z := BehindBlocker(b, us, k, p);
    SniperAligned(b, us, k, z);
    assert z != c && b[z].Man? && b[z].color == us.Other() && IsSlider(b[z].kind) && SlidesAlong(b[z].kind, z, k);
    if Between(k, e, z) {
      if Between(k, p, z) {
        BothBetween(k, p, e, z);
      } else {
        BeyondChecker(k, e, z, p);
      }
    } else {
      assert Sees(occ, z, k) by {
        forall y: Square | Between(z, y, k) ensures y !in occ { BetweenSym(z, y, k); }
      }
      assert Reaches(b, k, occ, us.Other(), z);
    }
  }

  /** A pawn on the line behind a checker is not next to a square in front of it. */
  lemma BeyondChecker(k: Square, e: Square, z: Square, p: Square)
    requires Between(k, e, z) && SameRay(k, p, z) && p != z && !Between(k, p, z)
    ensures !KingAttacks(p, e)
  {
    hide RookLine, BishopLine, Df, Dr, SameRay;
    SameRayTotal(k, p, z);
    BetweenInner(k, e, z, p);
    if KingAttacks(p, e) { Neighbours(p, e); }
  }

  /**
   * The pin test is exact for en passant wherever the square was recorded: a capture passes it
   * exactly when the mover's king is unattacked on the board after it, both pawns gone.
   */
  lemma CaptureLegalExact(v: View, e: Square, p: Square)
    requires ViewOk(v) && Fen.HasKings(v.board) && Fen.EpCounts(v.board, v.us, e) && p in Fen.EpPawns(v.board, v.us, e)
    ensures var a := ApplyMove(v.board, v.us, TakeMove(p, e));
            && Pieces(a, v.us, King) != {}
            && (Legal(v, TakeMove(p, e)) <==> !Attacked(a, KingSq(a, v.us), v.us.Other()))
  {
    var b, us, k := v.board, v.us, KingSq(v.board, v.us);
    var c := PassedTo(b, us, e);
    CountsMeans(b, us, e, c);
    PawnsMean(b, us, e, c, p);
    TakenSafe(b, us, e, c, p);
    var o: Square :| MayTake(b, us, e, c, o) && TakesSafely(b, us, e, c, o);
    LegalIsPinTest(v, e, p);
    hide MayTake, Legal, Blockers, LineBB, Attacked, Reaches, Fen.EpCounts, Fen.EpPawns, ViewOk, JustPassed, OccTaken;
    if p in Blockers(b, us, k) && k !in LineBB(p, e) {
      PinnedIsUnsafe(b, us, k, e, c, p, o);
    } else if q: Square :| Reaches(b, k, OccTaken(b, c, p, e), us.Other(), q) && q != c {
      UnsafeIsPinned(b, us, k, e, c, p, o, q);
    }
  }

  /** The square the captured pawn stands on. */
  lemma PassedTo(b: Board, us: Color, e: Square) returns (c: Square)
    requires Fen.HasKings(b) && Fen.EpCounts(b, us, e)
    ensures c + PawnPush(us) == e
  {
    var t: Square :| t in Fen.EpTarget(b, us, e);
    c := t;
  }

  lemma LegalIsPinTest(v: View, e: Square, p: Square)
    requires ViewOk(v) && v.board[p] == Man(v.us, Pawn)
    ensures v.us in v.blockers ==>
      (Legal(v, TakeMove(p, e)) <==>
       !(p in Blockers(v.board, v.us, KingSq(v.board, v.us)) && KingSq(v.board, v.us) !in LineBB(p, e)))
  {
    KingOnLine(v.board, v.us, TakeMove(p, e));
    hide LineBB, Blockers;
  }
}
