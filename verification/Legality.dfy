/**
 * `legal`, `pseudo_legal` and `gives_check`: answered from masks, without making the move,
 * and proved to agree with what the board looks like after the move is made.
 */
module Legality {
  import opened Types
  import opened Geometry
  import opened Board
  import opened Checks

  /** The fields of the position that these questions read. */
  datatype View = View(
    board: Board,
    us: Color,
    checkers: Bitboard,
    blockers: map<Color, Bitboard>,
    checkSquares: map<PieceType, Bitboard>,
    chess960: bool)

  /** The masks are those set_check_info computes for the board. */
  ghost predicate ViewOk(v: View) {
    var them := v.us.Other();
    && OneKingEach(v.board)
    && Pieces(v.board, v.us, King) != {} && Pieces(v.board, them, King) != {}
    && (forall c {:trigger v.blockers[c]} {:trigger c in v.blockers} ::
        c in v.blockers && Pieces(v.board, c, King) != {} &&
                    v.blockers[c] == Blockers(v.board, c, KingSq(v.board, c)))
    && v.checkers == AttackersTo(v.board, KingSq(v.board, v.us), Occ(v.board)) * ByColor(v.board, them)
    && CheckSquaresOk(v.board, them, v.checkSquares)
  }

  /** From where each piece type would attack the enemy king as the board stands. */
  ghost predicate CheckSquaresOk(b: Board, them: Color, cs: map<PieceType, Bitboard>)
    requires Pieces(b, them, King) != {}
  {
    var k := KingSq(b, them);
    && (forall t :: t in cs)
    && cs[Pawn] == PawnBB(them, k)
    && cs[Knight] == KnightBB(k)
    && cs[Bishop] == BishopBB(Occ(b), k)
    && cs[Rook] == RookBB(Occ(b), k)
    && cs[Queen] == cs[Bishop] + cs[Rook]
    && cs[King] == {}
  }

  /** `Position::pseudo_legal` for a NORMAL move with no promotion piece. */
  predicate PseudoLegal(v: View, m: Move)
    requires Pieces(v.board, v.us, King) != {}
  {
    var us, from, to, pc := v.us, m.from, m.to, v.board[m.from];
    && pc.Man? && pc.color == us
    && to !in ByColor(v.board, us)
    && (if pc.kind.Pawn? then PawnMoveOk(v.board, us, from, to)
        else to in AttackBB(Occ(v.board), pc, from))
    && (v.checkers != {} && !pc.kind.King? ==>
          && !MoreThanOne(v.checkers)
          && to in BetweenBB(KingSq(v.board, us), Lsb(v.checkers)))
  }

  predicate PawnMoveOk(b: Board, us: Color, from: Square, to: Square) {
    && Rank(to) != 7 && Rank(to) != 0
    && (|| to in PawnBB(us, from) * ByColor(b, us.Other())
        || (from + PawnPush(us) == to && b[to] == Empty)
        || (from + 2 * PawnPush(us) == to && RelativeRank(us, from) == 1 && b[to] == Empty
            && b[to - PawnPush(us)] == Empty))
  }

  /**
   * What the pin test needs of a move: it passes over no piece, does not take an own one, and
   * answers a check.  NORMAL moves and promotions alike are of this kind.
   */
  ghost predicate Steps(v: View, m: Move)
    requires Pieces(v.board, v.us, King) != {}
  {
    var b, us := v.board, v.us;
    && b[m.from].Man? && b[m.from].color == us && m.from != m.to && m.to !in ByColor(b, us)
    && (forall x: Square :: Between(m.from, x, m.to) ==> x !in Occ(b))
    && (v.checkers != {} && !b[m.from].kind.King? ==>
          && !MoreThanOne(v.checkers)
          && m.to in BetweenBB(KingSq(b, us), Lsb(v.checkers)))
  }

  /** The tail of `Position::legal`, for every move that does not castle. */
  predicate Legal(v: View, m: Move)
    requires Pieces(v.board, v.us, King) != {} && v.us in v.blockers
  {
    var us, from, to, b := v.us, m.from, m.to, v.board;
    if b[from] == Man(us, King) then
      !AttackersToExist(b, to, Toggle(Occ(b), {from}), us.Other())
    else
      from !in v.blockers[us] || LineBB(from, to) * Pieces(b, us, King) != {}
  }

  /** `Position::gives_check` for a NORMAL move. */
  predicate GivesCheck(v: View, m: Move)
    requires Pieces(v.board, v.us.Other(), King) != {} && v.us.Other() in v.blockers
    requires v.board[m.from].Man? && v.board[m.from].kind in v.checkSquares
  {
    var them := v.us.Other();
    if m.to in v.checkSquares[v.board[m.from].kind] then true
    else if m.from in v.blockers[them] then LineBB(m.from, m.to) * Pieces(v.board, them, King) == {}
    else false
  }

  /** The board after a NORMAL move. */
  function AfterMove(b: Board, m: Move): Board { b[m.from := Empty][m.to := b[m.from]] }

  /** Some piece other than a king attacks s. */
  ghost predicate AttackedByNonKing(b: Board, s: Square, c: Color) {
    exists q: Square :: b[q].Man? && b[q].color == c && !b[q].kind.King? && Attacks(Occ(b), b[q], q, s)
  }

  // ----- Geometry of a single move -----

  lemma NoBetweenNear(s: Square, t: Square, x: Square)
    requires -1 <= Df(s, t) <= 1 && -1 <= Dr(s, t) <= 1
    ensures !Between(s, x, t)
  {}

  lemma NoBetweenKnight(s: Square, t: Square, x: Square)
    requires KnightAttacks(s, t)
    ensures !Between(s, x, t)
  {}

  lemma BetweenDoublePush(s: Square, t: Square, x: Square, push: int)
    requires (push == 8 || push == -8) && s + 2 * push == t && Between(s, x, t)
    ensures x == t - push
  {}

  /** A pseudo-legal move passes over no piece. */
  lemma PathOpen(v: View, m: Move, x: Square)
    requires Pieces(v.board, v.us, King) != {} && PseudoLegal(v, m)
    requires Between(m.from, x, m.to)
    ensures x !in Occ(v.board)
  {
    hide RookLine, BishopLine, Between, SameRay;
    var pc := v.board[m.from];
    match pc.kind {
      case Pawn =>
        if m.to in PawnBB(v.us, m.from) {
          NoBetweenNear(m.from, m.to, x);
        } else if m.from + PawnPush(v.us) == m.to {
          NoBetweenNear(m.from, m.to, x);
        } else {
          BetweenDoublePush(m.from, m.to, x, PawnPush(v.us));
        }
      case Knight => NoBetweenKnight(m.from, m.to, x);
      case King => NoBetweenNear(m.from, m.to, x);
      case _ =>
    }
  }

  /** A pseudo-legal move is of the kind the pin test understands. */
  lemma PseudoLegalSteps(v: View, m: Move)
    requires ViewOk(v) && PseudoLegal(v, m)
    ensures Steps(v, m)
  {
    forall x: Square | Between(m.from, x, m.to) ensures x !in Occ(v.board) { PathOpen(v, m, x); }
    hide Between, Occ, AttackBB, PawnMoveOk, BetweenBB, KingSq;
    assert m.from in ByColor(v.board, v.us);
  }

  lemma MoveOcc(b: Board, m: Move)
    requires b[m.from].Man? && m.from != m.to
    ensures Occ(AfterMove(b, m)) == Occ(b) - {m.from} + {m.to}
  {
    var c := AfterMove(b, m);
    forall s: Square ensures s in Occ(c) <==> s in Occ(b) - {m.from} + {m.to} {}
  }

  /** A line newly opened by the move was blocked by the moving piece alone. */
  lemma LineOpened(b: Board, m: Move, q: Square, k: Square)
    requires b[m.from].Man? && m.from != m.to
    requires Sees(Occ(AfterMove(b, m)), q, k) && !Sees(Occ(b), q, k) && q != m.to && k != m.to
    ensures Between(q, m.from, k) && !Between(q, m.to, k)
    ensures forall x: Square :: Between(q, x, k) && x in Occ(b) ==> x == m.from
  {
    hide RookLine, BishopLine, SameRay;
    MoveOcc(b, m);
    assert m.to in Occ(AfterMove(b, m));
    var x: Square :| 0 <= x < 64 && Between(q, x, k) && x in Occ(b);
    assert x !in Occ(AfterMove(b, m));
    assert x == m.from;
  }

  /** With the shielding piece gone off the line, the line is open. */
  lemma LineOpens(b: Board, m: Move, q: Square, k: Square)
    requires b[m.from].Man? && m.from != m.to
    requires Aligned(q, k) && !Between(q, m.to, k)
    requires forall x: Square :: Between(q, x, k) && x in Occ(b) ==> x == m.from
    ensures Sees(Occ(AfterMove(b, m)), q, k)
  {
    hide RookLine, BishopLine, SameRay, Between;
    MoveOcc(b, m);
  }

  /**
   * A square on the line through the king and the moving piece: the move stays between
   * king and sniper, takes the sniper, or would have to jump over a piece.
   */
  lemma OffLine(v: View, m: Move, q: Square, k: Square)
    requires Pieces(v.board, v.us, King) != {} && Steps(v, m)
    requires Between(q, m.from, k) && !Between(q, m.to, k) && q != m.to && k != m.to
    requires q in Occ(v.board) && k in Occ(v.board)
    ensures k !in LineBB(m.from, m.to)
  {
    hide RookLine, BishopLine, Df, Dr, SameRay;
    var from, to := m.from, m.to;
    BetweenDistinct(q, from, k);
    if OnLine(from, to, k) {
      if Between(from, k, to) {
      } else if Between(from, to, k) {
        BetweenSym(from, to, k); BetweenSym(q, from, k);
        BetweenInner(k, to, from, q);
        BetweenSym(k, to, q);
      } else {
        assert Between(k, from, to);
        BetweenSym(q, from, k);
        SameRayFromBetween(k, from, q, to);
        SameRayTotal(k, q, to);
        if Between(k, q, to) {
          BetweenSplit(k, from, q, to);
          BetweenDistinct(k, from, q);
        } else {
          BetweenSym(k, to, q);
        }
      }
    }
  }

  lemma SameRayFromBetween(k: Square, f: Square, q: Square, t: Square)
    requires Between(k, f, q) && Between(k, f, t)
    ensures SameRay(k, q, t)
  {
    SameRayTrans(k, q, f, t);
  }

  // ----- Blockers -----

  /** A piece alone between the king and an enemy slider is a blocker. */
  lemma AloneIsBlocker(b: Board, c: Color, k: Square, q: Square, x: Square)
    requires q in Snipers(b, c, k) && x in Occ(b) && x !in Snipers(b, c, k)
    requires Between(q, x, k)
    requires forall y: Square :: Between(q, y, k) && y in Occ(b) ==> y == x
    ensures x in Blockers(b, c, k)
  {
    hide RookLine, BishopLine, SameRay, Between, SlidesAlong;
    forall y: Square
      ensures y in Shield(b, c, k, q) <==> y == x
    {
      BetweenSym(k, y, q);
    }
    assert Shield(b, c, k, q) == {x};
    assert ShieldsAlone(b, c, k, q, x);
  }

  /** The snipers standing between the king and q. */
  ghost function Nearer(b: Board, c: Color, k: Square, q: Square): Bitboard {
    set y: Square | 0 <= y < 64 && y in Snipers(b, c, k) && Between(k, y, q)
  }

  /** Walking from a sniper towards the king ends at one with no sniper before it. */
  lemma NearestSniper(b: Board, c: Color, k: Square, q: Square, x: Square) returns (z: Square)
    requires q in Snipers(b, c, k) && SameRay(k, x, q)
    requires forall y: Square :: Between(k, y, q) && y in Occ(b) && y !in Snipers(b, c, k) ==> y == x
    ensures z in Snipers(b, c, k) && SameRay(k, x, z)
    ensures forall y: Square :: Between(k, y, z) && y in Occ(b) ==> y == x
    decreases |Nearer(b, c, k, q)|
  {
    hide RookLine, BishopLine, SameRay, Between, SlidesAlong;
    var nearer := Nearer(b, c, k, q);
    if nearer == {} {
      z := q;
      forall y: Square | Between(k, y, z) && y in Occ(b)
        ensures y == x
      {
        assert y !in nearer;
      }
    } else {
      var y :| y in nearer;
      forall w: Square | Between(k, w, y) ensures Between(k, w, q) { BetweenInner(k, w, y, q); }
      BetweenDistinct(k, y, q);
      assert Nearer(b, c, k, y) < nearer by {
        assert y !in Nearer(b, c, k, y) by { NotBetweenSelf(k, y); }
        assert Nearer(b, c, k, y) <= nearer;
      }
      ProperSubsetCard(Nearer(b, c, k, y), nearer);
      RayToNearer(k, x, y, q);
      z := NearestSniper(b, c, k, y, x);
    }
  }

  lemma NotBetweenSelf(k: Square, y: Square)
    ensures !Between(k, y, y)
  {}

  lemma RayToNearer(k: Square, x: Square, y: Square, q: Square)
    requires SameRay(k, x, q) && Between(k, y, q)
    ensures SameRay(k, x, y)
  {}

  lemma ProperSubsetCard(a: Bitboard, b: Bitboard)
    requires a < b
    ensures |a| < |b|
  {
    assert !(b <= a);
    var x :| x in b && x !in a;
    SubsetCard(a, b - {x});
  }

  /** Behind every blocker is a slider that it alone holds off, or one already giving check. */
  lemma BehindBlocker(b: Board, c: Color, k: Square, x: Square) returns (z: Square)
    requires x in Blockers(b, c, k)
    ensures x in Occ(b) && x !in Snipers(b, c, k)
    ensures z in Snipers(b, c, k) && SameRay(k, x, z) && z != x
    ensures forall y: Square :: Between(k, y, z) && y in Occ(b) ==> y == x
    ensures Between(k, x, z) || Sees(Occ(b), z, k)
  {
    hide RookLine, BishopLine, SameRay, Between, SlidesAlong;
    var q: Square :| 0 <= q < 64 && ShieldsAlone(b, c, k, q, x);
    assert x in Shield(b, c, k, q);
    assert q in Snipers(b, c, k) && Between(k, x, q);
    forall y: Square | Between(k, y, q) && y in Occ(b) && y !in Snipers(b, c, k)
      ensures y == x
    {
      assert y in Shield(b, c, k, q);
    }
    SameRayOfBetween(k, x, q);
    z := NearestSniper(b, c, k, q, x);
    SniperAligned(b, c, k, z);
    if !Between(k, x, z) {
      forall m: Square | 0 <= m < 64 && Between(z, m, k)
        ensures m !in Occ(b)
      {
        BetweenSym(z, m, k);
      }
    }
  }

  lemma SameRayOfBetween(k: Square, x: Square, q: Square)
    requires Between(k, x, q)
    ensures SameRay(k, x, q)
  {}

  lemma SniperAligned(b: Board, c: Color, k: Square, z: Square)
    requires z in Snipers(b, c, k)
    ensures Aligned(z, k) && z in Occ(b)
  {}

  // ----- Legal means the king is left unattacked -----

  lemma LegalKingMove(v: View, m: Move)
    requires ViewOk(v) && PseudoLegal(v, m) && v.board[m.from] == Man(v.us, King)
    ensures Legal(v, m) <==> !Attacked(AfterMove(v.board, m), m.to, v.us.Other())
  {
    hide RookLine, BishopLine, SameRay, Between, SlidesAlong, AttackersToExist, Sees, PawnAttacks, KnightAttacks,
        KingAttacks, AttackersTo, Blockers;
    var b, a, them := v.board, AfterMove(v.board, m), v.us.Other();
    var occ := Toggle(Occ(b), {m.from});
    NoSelfAttack(Occ(b), b[m.from], m.from);
    MoveOcc(b, m);
    AttackersToExistMeaning(b, m.to, occ, them);
    forall q: Square
      ensures b[q].Man? && b[q].color == them && Attacks(occ, b[q], q, m.to) <==>
              a[q].Man? && a[q].color == them && Attacks(Occ(a), a[q], q, m.to)
    {
      if q == m.to {
        NoSelfAttack(occ, b[q], q);
        NoSelfAttack(Occ(a), a[q], q);
      } else if q != m.from {
        SeesFarEnd(occ, Occ(a), q, m.to);
      }
    }
  }

  /** The far end of a line never blocks it. */
  lemma SeesFarEnd(occ: Bitboard, occ': Bitboard, q: Square, t: Square)
    requires occ - {t} == occ' - {t}
    ensures Sees(occ, q, t) == Sees(occ', q, t)
  {
    forall m: Square | 0 <= m < 64 && Between(q, m, t)
      ensures m in occ <==> m in occ'
    {
      BetweenDistinct(q, m, t);
      assert m in occ <==> m in occ - {t};
      assert m in occ' <==> m in occ' - {t};
    }
  }

  /** A checker that was there before the move is captured or cut off by a pseudo-legal one. */
  lemma OldCheckAnswered(v: View, m: Move, q: Square)
    requires ViewOk(v) && Steps(v, m) && v.board[m.from].kind != King
    requires v.board[q].Man? && v.board[q].color == v.us.Other() && q != m.to
    requires Attacks(Occ(v.board), v.board[q], q, KingSq(v.board, v.us))
    ensures Between(q, m.to, KingSq(v.board, v.us)) && IsSlider(v.board[q].kind)
  {
    hide RookLine, BishopLine, SameRay, SlidesAlong, Sees, AttackersTo, Blockers, AttackBB, PawnMoveOk;
    var b, k := v.board, KingSq(v.board, v.us);
    AttackersToMeaning(b, k, Occ(b), q);
    assert q in v.checkers;
    var w := Lsb(v.checkers);
    SingleIs(v.checkers, q);
    assert v.checkers == {q} by {
      assert Single(v.checkers);
    }
    assert Between(k, m.to, q);
    hide Between;
    BetweenSym(k, m.to, q);
    if !IsSlider(b[q].kind) {
      if b[q].kind == Knight { NoBetweenKnight(q, k, m.to); } else { NoBetweenNear(q, k, m.to); }
    }
  }

  /** The part of legality that concerns the other pieces, one attacker at a time. */
  lemma NewAttacker(v: View, m: Move, q: Square)
    requires ViewOk(v) && Steps(v, m) && v.board[m.from].kind != King
    requires var a := AfterMove(v.board, m);
             a[q].Man? && a[q].color == v.us.Other() && Attacks(Occ(a), a[q], q, KingSq(v.board, v.us))
    ensures !Legal(v, m)
  {
    hide RookLine, BishopLine, SameRay, Between, AttackersTo, AttackBB, PawnMoveOk, LineBB, BetweenBB,
        AttackersToExist, Blockers, PawnAttacks, KnightAttacks, KingAttacks;
    var b, a, us, k := v.board, AfterMove(v.board, m), v.us, KingSq(v.board, v.us);
    MovedAway(v, m);
    MoveOcc(b, m);
    assert m.to in Occ(a);
    if Attacks(Occ(b), b[q], q, k) {
      OldCheckAnswered(v, m, q);
      assert false;
    }
    LineOpened(b, m, q, k);
    assert q in Snipers(b, us, k);
    AloneIsBlocker(b, us, k, q, m.from);
    OffLine(v, m, q, k);
    KingOnLine(b, us, m);
  }

  lemma MovedAway(v: View, m: Move)
    requires ViewOk(v) && Steps(v, m)
    ensures m.from != m.to
    ensures v.board[m.from].kind != King ==> m.to != KingSq(v.board, v.us) && m.from != KingSq(v.board, v.us)
  {
    assert m.from in ByColor(v.board, v.us);
    assert KingSq(v.board, v.us) in ByColor(v.board, v.us);
  }

  lemma KingOnLine(b: Board, c: Color, m: Move)
    requires OneKingEach(b) && Pieces(b, c, King) != {}
    ensures LineBB(m.from, m.to) * Pieces(b, c, King) != {} <==> KingSq(b, c) in LineBB(m.from, m.to)
  {
    hide LineBB;
    var k := KingSq(b, c);
    assert k in Pieces(b, c, King);
    forall s: Square | s in Pieces(b, c, King) ensures s == k { KingUnique(b, c, s); }
    if LineBB(m.from, m.to) * Pieces(b, c, King) == {} {
      assert k !in LineBB(m.from, m.to) * Pieces(b, c, King);
    }
  }

  /** If the piece is pinned and leaves the line, the slider behind it attacks the king. */
  lemma PinBroken(v: View, m: Move)
    requires ViewOk(v) && Steps(v, m) && v.board[m.from].kind != King && !Legal(v, m)
    ensures Attacked(AfterMove(v.board, m), KingSq(v.board, v.us), v.us.Other())
  {
    hide RookLine, BishopLine, SameRay, Between, AttackersTo, AttackBB, PawnMoveOk, LineBB, BetweenBB,
        AttackersToExist, Blockers, PawnAttacks, KnightAttacks, KingAttacks;
    var b, a, us, k := v.board, AfterMove(v.board, m), v.us, KingSq(v.board, v.us);
    MovedAway(v, m);
    var z := BehindBlocker(b, us, k, m.from);
    KingOnLine(b, us, m);
    if Between(k, m.from, z) {
      StaysOff(k, m.from, z, m.to);
    } else {
      CheckOnLine(v, m, z, k);
    }
    BetweenSym(k, m.from, z);
    BetweenSym(k, m.to, z);
    forall y: Square | Between(z, y, k) && y in Occ(b) ensures y == m.from { BetweenSym(z, y, k); }
    SniperAligned(b, us, k, z);
    LineOpens(b, m, z, k);
    assert a[z] == b[z];
  }

  /** Leaving the line through the king keeps clear of everything on it. */
  lemma StaysOff(k: Square, f: Square, z: Square, t: Square)
    requires Between(k, f, z) && f != t && k !in LineBB(f, t)
    ensures t != z && !Between(k, t, z)
  {
    if t == z || Between(k, t, z) {
      LineHolds(k, f, z, t);
    }
  }

  lemma LineHolds(k: Square, f: Square, z: Square, t: Square)
    requires SameRay(k, f, z) && f != t && (t == z || Between(k, t, z))
    ensures k in LineBB(f, t)
  {
    hide *;
    if t != z { RayToNearer(k, f, t, z); }
    RayOnLine(k, f, t);
  }

  lemma RayOnLine(k: Square, f: Square, t: Square)
    requires SameRay(k, f, t) && f != t
    ensures k in LineBB(f, t)
  {
    hide RookLine, BishopLine, SameRay, Between;
    SameRayTotal(k, f, t);
    if Between(k, f, t) {
      BetweenDistinct(k, f, t);
    } else {
      BetweenDistinct(k, t, f);
      BetweenSym(k, t, f);
      AlignedSym(f, t);
    }
  }

  /** When the slider beyond already gives check, answering the check keeps to the line. */
  lemma CheckOnLine(v: View, m: Move, z: Square, k: Square)
    requires ViewOk(v) && Steps(v, m) && v.board[m.from].kind != King && k == KingSq(v.board, v.us)
    requires z in Snipers(v.board, v.us, k) && SameRay(k, m.from, z) && Sees(Occ(v.board), z, k)
    ensures k in LineBB(m.from, m.to)
  {
    hide RookLine, BishopLine, Between, SameRay, LineBB, AttackersTo, Blockers, BetweenBB, AttackBB, PawnMoveOk;
    if z != m.to { OldCheckAnswered(v, m, z); BetweenSym(z, m.to, k); }
    MovedAway(v, m);
    LineHolds(k, m.from, z, m.to);
  }

  /** Where the mover's king stands after the move. */
  lemma KingAfter(v: View, m: Move)
    requires ViewOk(v) && Steps(v, m)
    ensures var a := AfterMove(v.board, m);
            && Pieces(a, v.us, King) != {}
            && KingSq(a, v.us) == if v.board[m.from].kind == King then m.to else KingSq(v.board, v.us)
  {
    var b, a, us := v.board, AfterMove(v.board, m), v.us;
    MovedAway(v, m);
    var k := if b[m.from].kind == King then m.to else KingSq(b, us);
    forall s: Square ensures s in Pieces(a, us, King) <==> s == k { KingUnique(b, us, s); KingUnique(b, us, m.from); }
    assert k in Pieces(a, us, King);
    hide *;
  }

  /** The part of legality that concerns the other pieces. */
  lemma LegalOtherMove(v: View, m: Move)
    requires ViewOk(v) && Steps(v, m) && v.board[m.from].kind != King
    ensures Legal(v, m) <==> !Attacked(AfterMove(v.board, m), KingSq(v.board, v.us), v.us.Other())
  {
    hide Legal, PseudoLegal, AfterMove, Attacks, Occ, Pieces, CheckSquaresOk, AttackersTo, Blockers;
    var a, k, them := AfterMove(v.board, m), KingSq(v.board, v.us), v.us.Other();
    if !Legal(v, m) { PinBroken(v, m); }
    if Attacked(a, k, them) {
      var q: Square :| a[q].Man? && a[q].color == them && Attacks(Occ(a), a[q], q, k);
      NewAttacker(v, m, q);
    }
  }

  lemma MoverIsOwn(v: View, m: Move)
    requires ViewOk(v) && PseudoLegal(v, m)
    ensures v.board[m.from].Man? && v.board[m.from].color == v.us && Pieces(v.board, v.us, King) != {}
  {}

  /** `legal` is exact: a pseudo-legal move is legal just when it leaves the mover's king unattacked. */
  lemma LegalExact(v: View, m: Move)
    requires ViewOk(v) && PseudoLegal(v, m)
    ensures var a := AfterMove(v.board, m);
            && Pieces(a, v.us, King) != {}
            && (Legal(v, m) <==> !Attacked(a, KingSq(a, v.us), v.us.Other()))
  {
    hide *;
    MoverIsOwn(v, m);
    PseudoLegalSteps(v, m);
    KingAfter(v, m);
    if v.board[m.from].kind == King { LegalKingMove(v, m); } else { LegalOtherMove(v, m); }
  }

  // ----- Gives check means the other king is attacked -----

  /** The precondition of the check test: the side to move does not already attack the king. */
  ghost predicate EnemyKingSafe(v: View)
    requires ViewOk(v)
  {
    !Attacked(v.board, KingSq(v.board, v.us.Other()), v.us)
  }

  /** The piece that moves does not take the enemy king, and does not yet attack it. */
  lemma EnemyKingStays(v: View, m: Move)
    requires ViewOk(v) && PseudoLegal(v, m) && EnemyKingSafe(v)
    ensures var k := KingSq(v.board, v.us.Other());
            && m.to != k && m.from != k && m.from != m.to && v.board[k] == Man(v.us.Other(), King)
            && !Attacks(Occ(v.board), v.board[m.from], m.from, k)
  {
    hide RookLine, BishopLine, Between, Sees, SlidesAlong, PawnAttacks, KnightAttacks, KingAttacks, AttackersTo,
        Blockers, KingBB, KnightBB, RookBB, BishopBB;
    var b, k := v.board, KingSq(v.board, v.us.Other());
    PseudoLegalSteps(v, m);
    hide Steps;
    MovedAway(v, m);
  }

  /** From the new square, the moved piece attacks the king just when the masks say so. */
  lemma DirectCheck(v: View, m: Move)
    requires ViewOk(v) && PseudoLegal(v, m) && EnemyKingSafe(v)
    requires v.board[m.from].kind != King
    ensures var a := AfterMove(v.board, m);
            m.to in v.checkSquares[v.board[m.from].kind] <==>
            Attacks(Occ(a), v.board[m.from], m.to, KingSq(v.board, v.us.Other()))
  {
    hide RookLine, BishopLine, Between, SameRay, Sees, PawnAttacks, KnightAttacks, KingAttacks, AttackersTo, Blockers,
        PawnMoveOk, AttackBB;
    var b, a, pc, k := v.board, AfterMove(v.board, m), v.board[m.from], KingSq(v.board, v.us.Other());
    EnemyKingStays(v, m);
    hide PseudoLegal;
    MoveOcc(b, m);
    PawnAttacksReverse(v.us, m.to, k);
    KnightAttacksSym(m.to, k);
    SeesSym(Occ(b), k, m.to);
    AlignedSym(k, m.to);
    if IsSlider(pc.kind) && SlidesAlong(pc.kind, m.to, k) {
      SlideFrom(b, m, pc, k);
    }
  }

  /** Vacating the from square cannot open a line for the piece that left it. */
  lemma SlideFrom(b: Board, m: Move, pc: Piece, k: Square)
    requires b[m.from] == pc && pc.Man? && m.from != m.to && m.to != k && m.from != k
    requires !Attacks(Occ(b), pc, m.from, k) && IsSlider(pc.kind) && SlidesAlong(pc.kind, m.to, k)
    ensures Sees(Occ(AfterMove(b, m)), m.to, k) <==> Sees(Occ(b), m.to, k)
  {
    hide RookLine, BishopLine, SameRay, Between, Sees;
    MoveOcc(b, m);
    var occ, occ' := Occ(b), Occ(AfterMove(b, m));
    SeesEnds(occ', occ - {m.from}, m.to, k);
    SeesThrough(occ, m.from, m.to, k);
    if Sees(occ - {m.from}, m.to, k) && !Sees(occ, m.to, k) {
      BetweenLineTypes(m.to, m.from, k);
    }
  }

  lemma BetweenLineTypes(a: Square, m: Square, b: Square)
    requires Between(a, m, b)
    ensures RookLine(a, b) == RookLine(m, b) && BishopLine(a, b) == BishopLine(m, b)
  {
    SameRayType(b, m, a);
    AlignedSym(a, b);
    AlignedSym(m, b);
  }

  /** A piece that attacks the king only after the move was shielded by the piece that moved. */
  lemma DiscoveredCheck(v: View, m: Move, q: Square)
    requires ViewOk(v) && Steps(v, m) && EnemyKingSafe(v) && m.to != KingSq(v.board, v.us.Other())
    requires var a := AfterMove(v.board, m);
             q != m.to && a[q].Man? && a[q].color == v.us && Attacks(Occ(a), a[q], q, KingSq(v.board, v.us.Other()))
    ensures m.from in v.blockers[v.us.Other()] && LineBB(m.from, m.to) * Pieces(v.board, v.us.Other(), King) == {}
  {
    hide RookLine, BishopLine, SameRay, Between, AttackersTo, AttackBB, PawnMoveOk, LineBB, BetweenBB, Blockers,
        PawnAttacks, KnightAttacks, KingAttacks;
    var b, a, them, k := v.board, AfterMove(v.board, m), v.us.Other(), KingSq(v.board, v.us.Other());
    assert m.from != k;
    MoveOcc(b, m);
    assert a[q] == b[q];
    assert !Attacks(Occ(b), b[q], q, k);
    LineOpened(b, m, q, k);
    assert q in Snipers(b, them, k);
    assert m.from !in Snipers(b, them, k) by {
      BetweenTail(b, q, m.from, k);
    }
    AloneIsBlocker(b, them, k, q, m.from);
    assert m.to !in ByColor(b, v.us) && q in ByColor(b, v.us);
    OffLine(v, m, q, k);
    KingOnLine(b, them, m);
  }

  lemma BetweenTail(b: Board, q: Square, f: Square, k: Square)
    requires Between(q, f, k)
    requires forall x: Square :: Between(q, x, k) && x in Occ(b) ==> x == f
    ensures Sees(Occ(b), f, k)
  {
    hide RookLine, BishopLine, SameRay;
    BetweenDistinct(q, f, k);
    forall x: Square | 0 <= x < 64 && Between(f, x, k)
      ensures x !in Occ(b)
    {
      BetweenSym(f, x, k); BetweenSym(q, f, k);
      BetweenInner(k, x, f, q);
      BetweenSym(k, x, q);
      BetweenDistinct(f, x, k);
    }
  }

  /** When the masks report a discovered check, the slider behind does attack the king. */
  lemma DiscoveryIsReal(v: View, m: Move)
    requires ViewOk(v) && Steps(v, m) && EnemyKingSafe(v) && m.to != KingSq(v.board, v.us.Other())
    requires m.from in v.blockers[v.us.Other()] && LineBB(m.from, m.to) * Pieces(v.board, v.us.Other(), King) == {}
    ensures AttackedByNonKing(AfterMove(v.board, m), KingSq(v.board, v.us.Other()), v.us)
  {
    hide RookLine, BishopLine, SameRay, Between, AttackersTo, AttackBB, PawnMoveOk, LineBB, BetweenBB, Blockers,
        PawnAttacks, KnightAttacks, KingAttacks;
    var b, a, them, k := v.board, AfterMove(v.board, m), v.us.Other(), KingSq(v.board, v.us.Other());
    assert m.from != k;
    var z := BehindBlocker(b, them, k, m.from);
    assert !Attacks(Occ(b), b[z], z, k);
    assert Between(k, m.from, z);
    KingOnLine(b, them, m);
    StaysOff(k, m.from, z, m.to);
    BetweenSym(k, m.from, z);
    BetweenSym(k, m.to, z);
    forall y: Square | Between(z, y, k) && y in Occ(b) ensures y == m.from { BetweenSym(z, y, k); }
    SniperAligned(b, them, k, z);
    LineOpens(b, m, z, k);
    assert a[z] == b[z];
  }

  /** `gives_check` is exact about attackers other than the kings. */
  lemma GivesCheckExact(v: View, m: Move)
    requires ViewOk(v) && PseudoLegal(v, m) && EnemyKingSafe(v)
    ensures GivesCheck(v, m) <==>
            AttackedByNonKing(AfterMove(v.board, m), KingSq(v.board, v.us.Other()), v.us)
  {
    var b, a, k := v.board, AfterMove(v.board, m), KingSq(v.board, v.us.Other());
    EnemyKingStays(v, m);
    PseudoLegalSteps(v, m);
    if b[m.from].kind != King { DirectCheck(v, m); }
    hide Steps, PseudoLegal, Attacks, Blockers, AttackersTo, LineBB, EnemyKingSafe;
    if GivesCheck(v, m) {
      if m.to in v.checkSquares[b[m.from].kind] {
        assert a[m.to] == b[m.from];
        assert AttackedByNonKing(a, k, v.us);
      } else {
        DiscoveryIsReal(v, m);
      }
    }
    if AttackedByNonKing(a, k, v.us) {
      var q: Square :| a[q].Man? && a[q].color == v.us && !a[q].kind.King? && Attacks(Occ(a), a[q], q, k);
      if q != m.to { DiscoveredCheck(v, m, q); }
    }
  }

  /**
   * The whole truth about the enemy king: it is attacked after the move exactly when
   * gives_check says so or the king itself has stepped next to it.
   */
  lemma GivesCheckOrKingsTouch(v: View, m: Move)
    requires ViewOk(v) && PseudoLegal(v, m) && EnemyKingSafe(v)
    ensures var k := KingSq(v.board, v.us.Other());
            Attacked(AfterMove(v.board, m), k, v.us) <==>
            GivesCheck(v, m) || (v.board[m.from].kind == King && KingAttacks(m.to, k))
  {
    var b, a, k := v.board, AfterMove(v.board, m), KingSq(v.board, v.us.Other());
    GivesCheckExact(v, m);
    SplitAttackers(a, k, v.us);
    KingTouches(v, m);
  }

  ghost predicate KingNextTo(b: Board, k: Square, c: Color) {
    exists q: Square :: b[q] == Man(c, King) && KingAttacks(q, k)
  }

  lemma SplitAttackers(b: Board, k: Square, c: Color)
    ensures Attacked(b, k, c) <==> AttackedByNonKing(b, k, c) || KingNextTo(b, k, c)
  {
    hide RookLine, BishopLine, Sees, SlidesAlong, PawnAttacks, KnightAttacks, KingAttacks, Occ;
    if q: Square :| b[q] == Man(c, King) && KingAttacks(q, k) {
      assert Attacks(Occ(b), b[q], q, k);
    }
  }

  lemma KingTouches(v: View, m: Move)
    requires ViewOk(v) && PseudoLegal(v, m) && EnemyKingSafe(v)
    ensures var k := KingSq(v.board, v.us.Other());
            KingNextTo(AfterMove(v.board, m), k, v.us) <==> v.board[m.from].kind == King && KingAttacks(m.to, k)
  {
    hide RookLine, BishopLine, Sees, SlidesAlong, PawnAttacks, KnightAttacks, KingAttacks, Blockers, AttackersTo,
        PawnMoveOk, AttackBB;
    var b, a, k := v.board, AfterMove(v.board, m), KingSq(v.board, v.us.Other());
    EnemyKingStays(v, m);
    assert a[m.to] == b[m.from];
    if q: Square :| a[q] == Man(v.us, King) && KingAttacks(q, k) {
      assert q == m.to || !Attacks(Occ(b), b[q], q, k);
    }
  }

  /** For legal moves gives_check is exact without qualification: legal kings never touch. */
  lemma LegalGivesCheckExact(v: View, m: Move)
    requires ViewOk(v) && PseudoLegal(v, m) && EnemyKingSafe(v) && Legal(v, m)
    ensures GivesCheck(v, m) <==>
            Attacked(AfterMove(v.board, m), KingSq(v.board, v.us.Other()), v.us)
  {
    hide Legal, PseudoLegal, EnemyKingSafe, GivesCheck, KingAttacks, AfterMove, CheckSquaresOk, AttackersTo, Blockers,
        Occ, Pieces;
    GivesCheckOrKingsTouch(v, m);
    MoverIsOwn(v, m);
    if v.board[m.from].kind == King && KingAttacks(m.to, KingSq(v.board, v.us.Other())) {
      TouchIsAttack(v, m);
      LegalKingMove(v, m);
    }
  }

  /** A king next to the other is attacked by it. */
  lemma TouchIsAttack(v: View, m: Move)
    requires ViewOk(v) && PseudoLegal(v, m) && EnemyKingSafe(v)
    requires v.board[m.from].kind == King && KingAttacks(m.to, KingSq(v.board, v.us.Other()))
    ensures Attacked(AfterMove(v.board, m), m.to, v.us.Other())
  {
    var b, a, k := v.board, AfterMove(v.board, m), KingSq(v.board, v.us.Other());
    EnemyKingStays(v, m);
    KingAttacksSym(m.to, k);
    assert a[k] == b[k];
    assert Attacks(Occ(a), a[k], k, m.to);
  }

  /** Two kings alone: white on a1, black on c3. */
  function TwoKings(): Board {
    seq(64, i => if i == 0 then Man(White, King) else if i == 18 then Man(Black, King) else Empty)
  }

  /** The masks set_check_info would leave for a board with c to move. */
  function ViewOf(b: Board, us: Color, chess960: bool): View
    requires forall c :: Pieces(b, c, King) != {}
  {
    var them := us.Other();
    var k := KingSq(b, them);
    View(b, us, AttackersTo(b, KingSq(b, us), Occ(b)) * ByColor(b, them),
         map[White := Blockers(b, White, KingSq(b, White)), Black := Blockers(b, Black, KingSq(b, Black))],
         CheckSquaresOf(b, them, k), chess960)
  }

  function CheckSquaresOf(b: Board, them: Color, k: Square): map<PieceType, Bitboard> {
    map[Pawn := PawnBB(them, k), Knight := KnightBB(k), Bishop := BishopBB(Occ(b), k), Rook := RookBB(Occ(b), k),
        Queen := BishopBB(Occ(b), k) + RookBB(Occ(b), k), King := {}]
  }

  lemma CheckSquaresOfOk(b: Board, them: Color)
    requires Pieces(b, them, King) != {}
    ensures CheckSquaresOk(b, them, CheckSquaresOf(b, them, KingSq(b, them)))
  {
    hide PawnBB, KnightBB, BishopBB, RookBB, Occ, Pieces;
    var cs := CheckSquaresOf(b, them, KingSq(b, them));
    forall t: PieceType
      ensures t in cs
    {
      match t { case Pawn => case Knight => case Bishop => case Rook => case Queen => case King => }
    }
  }

  lemma ViewOfOk(b: Board, us: Color, chess960: bool)
    requires OneKingEach(b)
    ensures forall c :: Pieces(b, c, King) != {}
    ensures ViewOk(ViewOf(b, us, chess960))
  {
    hide Blockers, AttackersTo, Occ, Pieces, CheckSquaresOk, CheckSquaresOf;
    forall c ensures Pieces(b, c, King) != {} { KingUnique(b, c, 0); }
    CheckSquaresOfOk(b, us.Other());
    hide OneKingEach, KingSq, ByColor;
    var v := ViewOf(b, us, chess960);
    forall c: Color ensures c in v.blockers { match c { case White => case Black => } }
  }

  lemma TwoKingsStand()
    ensures var b := TwoKings();
            && OneKingEach(b) && (forall c :: Pieces(b, c, King) != {}) && KingSq(b, White) == 0
                && KingSq(b, Black) == 18
            && (forall s: Square ::
                b[s] == if s == 0 then Man(White, King) else if s == 18 then Man(Black, King) else Empty)
  {
    var b := TwoKings();
    assert Pieces(b, White, King) == {0} && Pieces(b, Black, King) == {18};
    forall c ensures |Pieces(b, c, King)| == 1 { assert c == White || c == Black; }
  }

  lemma TwoKingsQuiet(v: View, m: Move)
    requires v.board == TwoKings() && v.us == White && ViewOk(v) && m == Move(0, 9, Normal, Knight)
    ensures PseudoLegal(v, m) && EnemyKingSafe(v)
  {
    hide CheckSquaresOk, AttackersTo, Blockers, Snipers, TwoKings;
    TwoKingsStand();
    var b := v.board;
    assert 9 !in ByColor(b, White);
    assert 9 in AttackBB(Occ(b), Man(White, King), 0);
    assert !Attacked(b, 18, White) by {
      forall q: Square | b[q].Man? && b[q].color == White ensures !Attacks(Occ(b), b[q], q, 18) { assert q == 0; }
    }
  }

  lemma TwoKingsSilent(v: View, m: Move)
    requires v.board == TwoKings() && v.us == White && ViewOk(v) && m == Move(0, 9, Normal, Knight)
    ensures !GivesCheck(v, m)
  {
    TwoKingsStand();
    hide TwoKings, AttackersTo;
    assert Snipers(v.board, Black, 18) == {};
    hide Snipers, OneKingEach, Pieces, KingSq;
    assert Blockers(v.board, Black, 18) == {};
  }

  /** The exception does occur: a pseudo-legal king step next to the other king is not reported. */
  lemma KingsTouchUnreported()
    ensures exists v, m :: ViewOk(v) && PseudoLegal(v, m) && EnemyKingSafe(v) && !GivesCheck(v, m)
                           && Attacked(AfterMove(v.board, m), KingSq(v.board, v.us.Other()), v.us)
  {
    TwoKingsStand();
    hide TwoKings, OneKingEach, Pieces, KingSq, ViewOk, PseudoLegal, EnemyKingSafe, GivesCheck, Attacked, AfterMove;
    ViewOfOk(TwoKings(), White, false);
    var v := ViewOf(TwoKings(), White, false);
    var m := Move(0, 9, Normal, Knight);
    TwoKingsQuiet(v, m);
    TwoKingsSilent(v, m);
    GivesCheckOrKingsTouch(v, m);
  }
}
