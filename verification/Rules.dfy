/**
 * `legal` and `gives_check` for the moves that are not NORMAL: promotions, en passant and
 * castling, each against the board after the move.
 */
module Rules {
  import opened Types
  import opened Geometry
  import opened Board
  import opened Checks
  import opened Legality
  import opened Making
  import opened EnPassant

  /** `Position::gives_check` for every type of move. */
  predicate ChecksKing(v: View, m: Move)
    requires Pieces(v.board, v.us.Other(), King) != {} && v.us.Other() in v.blockers
    requires v.board[m.from].Man? && v.board[m.from].kind in v.checkSquares && Rook in v.checkSquares
  {
    var b, us, them := v.board, v.us, v.us.Other();
    if m.to in v.checkSquares[b[m.from].kind] then true
    else if m.from in v.blockers[them] then LineBB(m.from, m.to) * Pieces(b, them, King) == {} || m.mtype == Castling
    else match m.mtype
      case Normal => false
      case Promotion => AttackBB(Toggle(Occ(b), {m.from}), Man(us, m.promo), m.to) * Pieces(b, them, King) != {}
      case EnPassant =>
        var capsq: Square := 8 * Rank(m.from) + File(m.to);
        var occ := Toggle(Toggle(Occ(b), {m.from}), {capsq}) + {m.to};
        RookBB(occ, KingSq(b, them)) * (Pieces(b, us, Queen) + Pieces(b, us, Rook))
        + BishopBB(occ, KingSq(b, them)) * (Pieces(b, us, Queen) + Pieces(b, us, Bishop)) != {}
      case Castling => RookTo(us, m) in v.checkSquares[Rook]
  }

  // ----- Promotions -----

  /** A pawn on its seventh rank pushes to an empty square or takes, and answers a check. */
  ghost predicate Promotes(v: View, m: Move)
    requires Pieces(v.board, v.us, King) != {}
  {
    var b, us := v.board, v.us;
    && m.mtype == Promotion && b[m.from] == Man(us, Pawn) && RelativeRank(us, m.from) == 6
    && (m.promo == Knight || m.promo == Bishop || m.promo == Rook || m.promo == Queen)
    && (|| (m.from + PawnPush(us) == m.to && b[m.to] == Empty)
        || (PawnAttacks(us, m.from, m.to) && b[m.to].Man? && b[m.to].color == us.Other()))
    && (v.checkers != {} ==> !MoreThanOne(v.checkers) && m.to in BetweenBB(KingSq(b, us), Lsb(v.checkers)))
  }

  lemma OneStep(us: Color, from: Square, to: Square)
    requires RelativeRank(us, from) == 6 && (from + PawnPush(us) == to || PawnAttacks(us, from, to))
    ensures KingAttacks(from, to) && RelativeRank(us, to) == 7
  {}

  lemma PromotionSteps(v: View, m: Move)
    requires ViewOk(v) && Promotes(v, m)
    ensures Steps(v, m) && KingAttacks(m.from, m.to) && RelativeRank(v.us, m.to) == 7
  {
    OneStep(v.us, m.from, m.to);
    Neighbours(m.from, m.to);
    hide Between, Occ, BetweenBB, KingSq, PawnAttacks, ViewOk, RelativeRank;
  }

  /** The piece a pawn becomes matters to nobody but the king it attacks. */
  lemma PromotedBoard(v: View, m: Move)
    requires ViewOk(v) && Promotes(v, m)
    ensures var a, p := ApplyMove(v.board, v.us, m), AfterMove(v.board, m);
            && Occ(a) == Occ(p) == Occ(v.board) - {m.from} + {m.to}
            && (forall q: Square | q != m.to :: a[q] == p[q])
            && Pieces(a, v.us, King) == Pieces(p, v.us, King)
            && a[m.to] == Man(v.us, m.promo) && p[m.to] == Man(v.us, Pawn)
  {
    var a, p := ApplyMove(v.board, v.us, m), AfterMove(v.board, m);
    hide PawnAttacks, ViewOk, BetweenBB, RelativeRank;
    assert Occ(a) == Occ(p);
    assert m.from != m.to;
    MoveOcc(v.board, m);
  }

  /** `legal` is exact for promotions. */
  lemma PromotionLegalExact(v: View, m: Move)
    requires ViewOk(v) && Promotes(v, m)
    ensures var a := ApplyMove(v.board, v.us, m);
            && Pieces(a, v.us, King) != {}
            && (Legal(v, m) <==> !Attacked(a, KingSq(a, v.us), v.us.Other()))
  {
    var a, p, k, them := ApplyMove(v.board, v.us, m), AfterMove(v.board, m), KingSq(v.board, v.us), v.us.Other();
    PromotionSteps(v, m);
    LegalOtherMove(v, m);
    KingAfter(v, m);
    PromotedBoard(v, m);
    hide Legal, Steps, Attacks, Occ, ViewOk, ApplyMove, AfterMove, Promotes, KingAttacks, Pieces;
    forall q: Square
      ensures a[q].Man? && a[q].color == them && Attacks(Occ(a), a[q], q, k) <==>
              p[q].Man? && p[q].color == them && Attacks(Occ(p), p[q], q, k)
    {}
  }

  /** A square on the edge of the board lies between others only along the edge. */
  lemma EdgeLine(us: Color, z: Square, t: Square, k: Square, f: Square)
    requires Between(z, t, k) && (RelativeRank(us, t) == 7 || RelativeRank(us, t) == 0)
    ensures Rank(z) == Rank(t) == Rank(k)
    ensures Between(z, f, k) ==> Rank(f) == Rank(t)
  {}

  /** A promoting pawn never moves along the line on which it shields the enemy king. */
  lemma LeavesItsLine(v: View, m: Move)
    requires ViewOk(v) && Promotes(v, m) && EnemyKingSafe(v) && m.from in v.blockers[v.us.Other()]
    requires m.to != KingSq(v.board, v.us.Other())
    ensures LineBB(m.from, m.to) * Pieces(v.board, v.us.Other(), King) == {}
  {
    hide RookLine, BishopLine, SameRay, Between, AttackersTo, LineBB, BetweenBB, Blockers, PawnAttacks, KingAttacks,
        RelativeRank, OnLine;
    var b, them, k := v.board, v.us.Other(), KingSq(v.board, v.us.Other());
    PromotionSteps(v, m);
    hide Promotes;
    var z := BehindBlocker(b, them, k, m.from);
    assert !Attacks(Occ(b), b[z], z, k);
    BetweenSym(k, m.from, z);
    KingOnLine(b, them, m);
    LineOf(m.from, m.to, k);
    if OnLine(m.from, m.to, k) {
      assert b[z].color == v.us && m.to !in ByColor(b, v.us);
      LineTurns(m.from, m.to, k);
      NeighbourBetween(z, m.from, k, m.to);
      EdgeLine(v.us, z, m.to, k, m.from);
      assert Rank(m.from) == Rank(m.to);
      RanksDiffer(v, m);
    }
  }

  lemma LineOf(a: Square, b: Square, t: Square)
    ensures t in LineBB(a, b) <==> OnLine(a, b, t)
  {}

  lemma RanksDiffer(v: View, m: Move)
    requires Pieces(v.board, v.us, King) != {} && Promotes(v, m)
    ensures Rank(m.from) != Rank(m.to)
  {
    OneStep(v.us, m.from, m.to);
  }

  /** A promotion does not take the enemy king, and from its square the pawn gives no check. */
  lemma PromotionMisses(v: View, m: Move)
    requires ViewOk(v) && Promotes(v, m) && EnemyKingSafe(v)
    ensures m.to != KingSq(v.board, v.us.Other()) && m.to !in v.checkSquares[Pawn]
  {
    hide RookLine, BishopLine, SameRay, Between, AttackersTo, BetweenBB, Blockers, KingAttacks;
    OneStep(v.us, m.from, m.to);
    var k := KingSq(v.board, v.us.Other());
    PawnAttacksReverse(v.us, m.to, k);
    assert !Attacks(Occ(v.board), v.board[m.from], m.from, k);
  }

  /** The piece on its last square attacks under the occupancy the code looks with. */
  lemma PromotedAttacks(v: View, m: Move, k: Square)
    requires ViewOk(v) && Promotes(v, m)
    ensures var a := ApplyMove(v.board, v.us, m);
            Attacks(Occ(a), a[m.to], m.to, k) <==> Attacks(Toggle(Occ(v.board), {m.from}), Man(v.us, m.promo), m.to, k)
  {
    var a := ApplyMove(v.board, v.us, m);
    PromotedBoard(v, m);
    assert m.from in Occ(v.board);
    assert Occ(a) - {m.to} == Toggle(Occ(v.board), {m.from}) - {m.to};
    SeesEnds(Occ(a), Toggle(Occ(v.board), {m.from}), m.to, k);
    hide ApplyMove, AfterMove, Occ, ViewOk, Sees, Toggle, RookLine, BishopLine, PawnAttacks, KnightAttacks, KingAttacks;
  }

  /** `gives_check` is exact for promotions. */
  lemma PromotionCheckExact(v: View, m: Move)
    requires ViewOk(v) && Promotes(v, m) && EnemyKingSafe(v)
    ensures ChecksKing(v, m) <==> Attacked(ApplyMove(v.board, v.us, m), KingSq(v.board, v.us.Other()), v.us)
  {
    var b, a, p, k, us, them := v.board, ApplyMove(v.board, v.us, m), AfterMove(v.board, m),
        KingSq(v.board, v.us.Other()), v.us, v.us.Other();
    PromotionMisses(v, m);
    PromotionSteps(v, m);
    PromotedBoard(v, m);
    PromotedAttacks(v, m, k);
    hide Steps, Attacks, Occ, ViewOk, ApplyMove, AfterMove, Toggle, EnemyKingSafe, LineBB, KingAttacks, RookBB,
        BishopBB, RelativeRank, PawnAttacks;
    KingMaskHolds(b, them, AttackBB(Toggle(Occ(b), {m.from}), Man(us, m.promo), m.to));
    if m.from in v.blockers[them] {
      LeavesItsLine(v, m);
      DiscoveryIsReal(v, m);
      var q: Square :| p[q].Man? && p[q].color == us && !p[q].kind.King? && Attacks(Occ(p), p[q], q, k);
      if q == m.to { PawnSilent(v, m, Occ(p)); }
      assert Attacks(Occ(a), a[q], q, k);
    } else if q: Square :| q != m.to && a[q].Man? && a[q].color == us && Attacks(Occ(a), a[q], q, k) {
      DiscoveredCheck(v, m, q);
    }
  }

  lemma PawnSilent(v: View, m: Move, occ: Bitboard)
    requires ViewOk(v) && Promotes(v, m)
    ensures !Attacks(occ, Man(v.us, Pawn), m.to, KingSq(v.board, v.us.Other()))
  {
    OneStep(v.us, m.from, m.to);
    hide ViewOk, BetweenBB;
  }

  lemma KingMaskHolds(b: Board, c: Color, bb: Bitboard)
    requires OneKingEach(b) && Pieces(b, c, King) != {}
    ensures bb * Pieces(b, c, King) != {} <==> KingSq(b, c) in bb
  {
    var k := KingSq(b, c);
    assert k in Pieces(b, c, King);
    forall s: Square | s in Pieces(b, c, King) ensures s == k { KingUnique(b, c, s); }
    if k in bb { assert k in bb * Pieces(b, c, King); }
  }

  // ----- En passant -----

  /** The pawn taken is on no line with a square on the line of the capture. */
  lemma VictimAside(us: Color, p: Square, e: Square, c: Square, k: Square)
    requires PawnAttacks(us, p, e) && c + PawnPush(us) == e && OnLine(e, k, p) && k != p && k != e
    ensures !Aligned(c, k)
  {
    hide Between, SameRay;
    assert BishopLine(p, e);
    DiagonalThrough(p, e, k);
    Coordinates(us, p, e, c);
    hide File, Rank;
  }

  lemma Coordinates(us: Color, p: Square, e: Square, c: Square)
    requires PawnAttacks(us, p, e) && c + PawnPush(us) == e
    ensures File(c) == File(e) && Rank(c) == Rank(p)
  {}

  /** A square on the diagonal through two neighbours. */
  lemma DiagonalThrough(p: Square, e: Square, k: Square)
    requires BishopLine(p, e) && OnLine(e, k, p) && k != p && k != e
    ensures BishopLine(p, k) && BishopLine(e, k) && Df(p, k) * Dr(p, e) == Dr(p, k) * Df(p, e)
  {
    hide File, Rank;
  }

  lemma LineTurnsBack(p: Square, e: Square, k: Square)
    requires OnLine(e, k, p) && p != e && p != k
    ensures OnLine(p, e, k)
  {
    hide RookLine, BishopLine, Df, Dr, SameRay;
    BetweenSym(e, p, k);
    BetweenSym(p, e, k);
    BetweenSym(e, k, p);
    if Between(e, p, k) {
      BetweenDistinct(e, p, k);
    } else if Between(e, k, p) {
      BetweenDistinct(e, k, p);
    } else {
      BetweenDistinct(p, e, k);
    }
    AlignedSym(e, p);
  }

  /** The two masks hold exactly the sliders of the colour that reach the king. */
  lemma SliderMasks(b: Board, k: Square, occ: Bitboard, us: Color, q: Square)
    ensures Reaches(b, k, occ, us, q) && IsSlider(b[q].kind) <==>
            q in RookBB(occ, k) * (Pieces(b, us, Queen) + Pieces(b, us, Rook))
                 + BishopBB(occ, k) * (Pieces(b, us, Queen) + Pieces(b, us, Bishop))
  {
    hide RookLine, BishopLine, Between, SameRay, Sees, PawnAttacks, KnightAttacks, KingAttacks;
    AlignedSym(q, k);
    SeesSym(occ, q, k);
    if b[q].Man? { assert b[q] == Man(b[q].color, b[q].kind); }
  }

  /**
   * Whoever reaches the enemy king after the capture, other than the capturing pawn, reached it
   * through the two pawns.
   */
  lemma TakenReaches(v: View, e: Square, c: Square, p: Square)
    requires ViewOk(v) && MayTake(v.board, v.us, e, c, p) && EnemyKingSafe(v)
    ensures var b, us, k := v.board, v.us, KingSq(v.board, v.us.Other());
            Attacked(ApplyMove(b, us, TakeMove(p, e)), k, us) <==>
                PawnAttacks(us, e, k) || Reached(b, k, OccTaken(b, c, p, e), us)
  {
    var b, us, k := v.board, v.us, KingSq(v.board, v.us.Other());
    PawnSafe(v, p);
    TakenOcc(b, us, e, c, p);
    hide Attacks, Occ, ViewOk, EnemyKingSafe, OccTaken, PawnAttacks;
    forall q: Square { TakenReach(b, us, k, e, c, p, q); }
    AnyReaches(ApplyMove(b, us, TakeMove(p, e)), b, us, k, e, OccTaken(b, c, p, e));
  }

  lemma PawnSafe(v: View, p: Square)
    requires ViewOk(v) && EnemyKingSafe(v) && v.board[p] == Man(v.us, Pawn)
    ensures !PawnAttacks(v.us, p, KingSq(v.board, v.us.Other()))
  {
    hide PawnAttacks, Occ, AttackersTo, CheckSquaresOk, Blockers;
    assert !Attacks(Occ(v.board), v.board[p], p, KingSq(v.board, v.us.Other()));
  }

  /** One piece at a time. */
  lemma TakenReach(b: Board, us: Color, k: Square, e: Square, c: Square, p: Square, q: Square)
    requires MayTake(b, us, e, c, p) && !PawnAttacks(us, p, k)
    ensures var a, occ := ApplyMove(b, us, TakeMove(p, e)), OccTaken(b, c, p, e);
            a[q].Man? && a[q].color == us && Attacks(occ, a[q], q, k) <==>
                (q == e && PawnAttacks(us, e, k)) || Reaches(b, k, occ, us, q)
  {
    var a, occ := ApplyMove(b, us, TakeMove(p, e)), OccTaken(b, c, p, e);
    PawnPattern(occ, us, q, k);
    hide Attacks, PawnAttacks, OccTaken;
  }

  lemma PawnPattern(occ: Bitboard, us: Color, s: Square, k: Square)
    ensures Attacks(occ, Man(us, Pawn), s, k) <==> PawnAttacks(us, s, k)
  {}

  lemma AnyReaches(a: Board, b: Board, us: Color, k: Square, e: Square, occ: Bitboard)
    requires forall q: Square :: a[q].Man? && a[q].color == us && Attacks(Occ(a), a[q], q, k) <==>
                                 (q == e && PawnAttacks(us, e, k)) || Reaches(b, k, occ, us, q)
    ensures Attacked(a, k, us) <==> PawnAttacks(us, e, k) || Reached(b, k, occ, us)
  {
    hide Attacks, PawnAttacks, Reaches, Occ;
    if PawnAttacks(us, e, k) { assert a[e].Man? && a[e].color == us && Attacks(Occ(a), a[e], e, k); }
  }

  /** Behind the shield of a capturing pawn. */
  lemma PinnedTake(v: View, e: Square, c: Square, p: Square)
    requires ViewOk(v) && MayTake(v.board, v.us, e, c, p) && EnemyKingSafe(v)
    requires p in v.blockers[v.us.Other()]
    ensures var k := KingSq(v.board, v.us.Other());
            Reached(v.board, k, OccTaken(v.board, c, p, e), v.us) <==>
                LineBB(p, e) * Pieces(v.board, v.us.Other(), King) == {}
  {
    var b, us, them, k := v.board, v.us, v.us.Other(), KingSq(v.board, v.us.Other());
    var occ := OccTaken(b, c, p, e);
    BesideAndNear(b, us, e, c, p);
    KingOnLine(b, them, TakeMove(p, e));
    LineOf(p, e, k);
    assert k != p && k != e;
    hide RookLine, BishopLine, SameRay, Between, Blockers, OnLine, KingAttacks, PawnAttacks, LineBB, Attacks,
        CheckSquaresOk, AttackersTo;
    if OnLine(p, e, k) {
      LineTurns(p, e, k);
      if q: Square :| Reaches(b, k, occ, us, q) {
        assert !Attacks(Occ(b), b[q], q, k);
        var x := OpenedLine(b, k, occ, us, q);
        assert x == p || x == c;
        if x == p {
          assert e in occ && q != e;
          NeighbourBetween(q, p, k, e);
        } else {
          BetweenDistinct(q, c, k);
          VictimAside(us, p, e, c, k);
        }
      }
    } else {
      if OnLine(e, k, p) { LineTurnsBack(p, e, k); }
      var z := ShieldGone(b, them, k, p, occ, e);
    }
  }

  /** `gives_check` is exact for en passant, the pawn captured and the pawn capturing both gone from their lines. */
  lemma CaptureCheckExact(v: View, e: Square, c: Square, p: Square)
    requires ViewOk(v) && MayTake(v.board, v.us, e, c, p) && EnemyKingSafe(v)
    ensures ChecksKing(v, TakeMove(p, e)) <==>
            Attacked(ApplyMove(v.board, v.us, TakeMove(p, e)), KingSq(v.board, v.us.Other()), v.us)
  {
    var b, us, them, k := v.board, v.us, v.us.Other(), KingSq(v.board, v.us.Other());
    var occ := OccTaken(b, c, p, e);
    hide RookLine, BishopLine, Sees, AttackersTo, Blockers, SlidesAlong;
    TakenReaches(v, e, c, p);
    PawnAttacksReverse(us, e, k);
    assert e in v.checkSquares[Pawn] <==> PawnAttacks(us, e, k);
    hide PawnAttacks, Occ, Attacks;
    if p in v.blockers[them] {
      PinnedTake(v, e, c, p);
    } else {
      VictimSquare(b, us, e, c, p);
      forall q: Square { SliderMasks(b, k, occ, us, q); }
      OnlySliders(v, e, c, p);
    }
    hide ViewOk, RookBB, BishopBB, Pieces, KingSq, LineBB, OccTaken, Attacked, PawnAttacks, MayTake, EnemyKingSafe,
        Toggle, Reaches;
  }

  lemma VictimSquare(b: Board, us: Color, e: Square, c: Square, p: Square)
    requires MayTake(b, us, e, c, p)
    ensures 8 * Rank(p) + File(e) == c && Toggle(Toggle(Occ(b), {p}), {c}) + {e} == OccTaken(b, c, p, e)
  {
    Coordinates(us, p, e, c);
    hide PawnAttacks;
  }

  /** Only a slider can newly reach the king. */
  lemma OnlySliders(v: View, e: Square, c: Square, p: Square)
    requires ViewOk(v) && EnemyKingSafe(v)
    ensures var k := KingSq(v.board, v.us.Other());
            forall q: Square :: Reaches(v.board, k, OccTaken(v.board, c, p, e), v.us, q) ==> IsSlider(v.board[q].kind)
  {
    var b, us, k := v.board, v.us, KingSq(v.board, v.us.Other());
    forall q: Square | Reaches(b, k, OccTaken(b, c, p, e), us, q) ensures IsSlider(b[q].kind) {
      assert !Attacks(Occ(b), b[q], q, k);
    }
    hide ViewOk, RookLine, BishopLine, Sees, Occ;
  }
}
