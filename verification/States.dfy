/**
 * What must hold of a recorded state and of two consecutive ones, as plain values; the
 * position object keeps these along its whole chain of states.
 */
module States {
  import opened Options
  import opened Types
  import opened Geometry
  import opened Board
  import opened Checks
  import opened Legality
  import opened Keys
  import opened Making

  /** The position a state belongs to. */
  datatype Snap = Snap(board: Board, stm: Color, ply: int)

  /** What led from one state to the next. */
  datatype Played = Made(m: Move) | Null

  /** The masks of set_check_info. */
  ghost predicate MasksOk(b: Board, stm: Color, blockers: map<Color, Bitboard>, pinners: map<Color, Bitboard>,
      cs: map<PieceType, Bitboard>) {
    && (forall c :: c in blockers && c in pinners && Pieces(b, c, King) != {})
    && (forall c :: blockers[c] == Blockers(b, c, KingSq(b, c)) && pinners[c.Other()] == Pinners(b, c, KingSq(b, c)))
    && CheckSquaresOk(b, stm.Other(), cs)
  }

  /** The checkers are the enemy pieces attacking the king of the side to move. */
  ghost predicate CheckersOk(b: Board, stm: Color, checkers: Bitboard) {
    Pieces(b, stm, King) != {} && checkers == AttackersTo(b, KingSq(b, stm), Occ(b)) * ByColor(b, stm.Other())
  }

  /** One king a side, and the side that has just moved is not in check. */
  ghost predicate KingsOk(b: Board, stm: Color) {
    && OneKingEach(b) && Pieces(b, stm.Other(), King) != {}
    && !Attacked(b, KingSq(b, stm.Other()), stm)
  }

  ghost predicate Sound(z: Zobrist, p: Snap, c: Carried, key: Key, checkers: Bitboard,
                        blockers: map<Color, Bitboard>, pinners: map<Color, Bitboard>, cs: map<PieceType, Bitboard>)
  {
    && KeysOk(z, p.board, p.stm, c, key)
    && KingsOk(p.board, p.stm)
    && CheckersOk(p.board, p.stm, checkers)
    && MasksOk(p.board, p.stm, blockers, pinners, cs)
  }

  /** A legal move, as do_move may assume it: sound in form and leaving the mover's king safe. */
  ghost predicate Playable(b: Board, us: Color, ep: Option<Square>, m: Move) {
    && MoveOk(b, us, ep, m)
    && Pieces(ApplyMove(b, us, m), us, King) != {}
    && !Attacked(ApplyMove(b, us, m), KingSq(ApplyMove(b, us, m), us), us.Other())
  }

  /** How one recorded position leads to the next. */
  ghost predicate Link(p: Snap, ep: Option<Square>, how: Played, q: Snap, captured: Piece) {
    match how
    case Made(m) => MoveOk(p.board, p.stm, ep, m) && q == Snap(ApplyMove(p.board, p.stm, m), p.stm.Other(), p.ply + 1)
                    && captured == Captured(p.board, p.stm, m)
    case Null => q == p.(stm := p.stm.Other()) && captured == Empty
  }

  /** The en passant square after a double step: only when some pawn could really take. */
  function NewEp(b: Board, us: Color, m: Move, theirBlockers: Bitboard): Option<Square>
    requires 0 <= m.to - PawnPush(us) < 64 && Pieces(b, us.Other(), King) != {}
  {
    var them := us.Other();
    var epSquare: Square := m.to - PawnPush(us);
    var pawns := PawnBB(us, epSquare) * Pieces(b, them, Pawn);
    var ksq := KingSq(b, them);
    var noDiscovery := m.from !in theirBlockers || File(m.from) == File(ksq);
    if pawns != {} && noDiscovery && (exists p :: p in pawns && (p !in theirBlockers || p in LineBB(epSquare, ksq)))
    then Some(epSquare) else None
  }

  /** A move neither adds nor removes a king. */
  lemma KingsStay(b: Board, us: Color, ep: Option<Square>, m: Move)
    requires OneKingEach(b) && MoveOk(b, us, ep, m)
    ensures OneKingEach(ApplyMove(b, us, m))
  {
    var a := ApplyMove(b, us, m);
    forall c
      ensures |Pieces(a, c, King)| == 1
    {
      KingCount(b, us, ep, m, c);
    }
  }

  lemma KingCount(b: Board, us: Color, ep: Option<Square>, m: Move, c: Color)
    requires OneKingEach(b) && MoveOk(b, us, ep, m)
    ensures |Pieces(ApplyMove(b, us, m), c, King)| == 1
  {
    hide RelativeSquare, PawnAttacks, Xor16;
    CastlingTargets(us, m);
    var a := ApplyMove(b, us, m);
    KingUnique(b, c, m.from);
    if c == us && b[m.from].kind == King {
      forall s: Square ensures s in Pieces(a, c, King) <==> s == Target(us, m) { KingUnique(b, c, s); }
      assert Pieces(a, c, King) == {Target(us, m)};
    } else {
      forall s: Square ensures s in Pieces(a, c, King) <==> s in Pieces(b, c, King) {}
      assert Pieces(a, c, King) == Pieces(b, c, King);
    }
  }

  /** Passing the move changes the key by the side and the en passant file. */
  lemma NullKeys(z: Zobrist, b: Board, stm: Color, c: Carried, key: Key)
    requires KeysOk(z, b, stm, c, key)
    ensures KeysOk(z, b, stm.Other(), c.(epSquare := None, pliesFromNull := 0),
                   Xor(if c.epSquare.Some? then Xor(key, z.enpassant(File(c.epSquare.value))) else key, z.side))
  {
    hide BoardKey, MaterialKey, NonPawnMaterial;
    var k, e, s, r := BoardKey(z, Whole, b), EpKey(z, c.epSquare), SideKey(z, stm), z.castling(c.castlingRights);
    assert key == Xor(Xor(Xor(k, e), s), r);
    NullAlgebra(k, e, s, r, z.side);
    SideFlip(z, stm);
    XorZeros(k, {});
    XorZeros(key, {});
    hide Xor;
  }

  lemma NullAlgebra(k: Key, e: Key, s: Key, r: Key, side: Key)
    ensures Xor(Xor(Xor(Xor(Xor(k, e), s), r), e), side) == Xor(Xor(k, Xor(s, side)), r)
    ensures Xor(Xor(Xor(Xor(k, {}), s), r), side) == Xor(Xor(k, Xor(s, side)), r)
  {}

  /** Does the move leave the other side in check? */
  ghost predicate InCheckAfter(b: Board, us: Color, m: Move) {
    var a := ApplyMove(b, us, m);
    Pieces(a, us.Other(), King) != {} && Attacked(a, KingSq(a, us.Other()), us)
  }
}
