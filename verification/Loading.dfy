/** A parsed string becomes a position ready to be played on. */
module Loading {
  import opened Options
  import opened Types
  import opened Geometry
  import opened Board
  import opened Checks
  import opened Legality
  import opened Keys
  import opened States
  import opened Castling
  import opened Position
  import opened Runs
  import Placement
  import Fen

  /** What the moves start from holds of every string accepted: one king a side, and none to be captured. */
  lemma AcceptedIsPlayable(s: string, chess960: bool)
    requires Fen.Set(s, chess960).Ok?
    ensures var p := Fen.Set(s, chess960).value; KingsOk(p.board, p.side) && 0 <= p.rule50 && 0 <= p.ply
  {
    Fen.AcceptedIsProper(s, chess960);
    var p := Fen.Set(s, chess960).value;
    Fen.KingsThere(p.board);
    AttackersToExistMeaning(p.board, KingSq(p.board, p.side.Other()), Occ(p.board), p.side);
    hide Fen.Set, AttackersToExist, Fen.BoardError, Attacks, Occ, OneKingEach, Pieces;
  }

  lemma AcceptedHasKings(s: string, chess960: bool)
    requires Fen.Set(s, chess960).Ok?
    ensures var p := Fen.Set(s, chess960).value; Fen.Proper(p) && Fen.HasKings(p.board) && p.chess960 == chess960
  {
    Fen.AcceptedIsProper(s, chess960);
    Fen.KingsThere(Fen.Set(s, chess960).value.board);
    hide Fen.Set, AttackersToExist, Fen.BoardError, Occ, OneKingEach, Pieces, Fen.EpCounts, Fen.WellPlaced;
  }

  /**
   * `Position::set`: on success the position is valid and holds what the string says, rights
   * mask, rook squares and paths with it; and it is ready to be played on.  No rook is an inner
   * one unless the mode is standard and a rook with a castling right is not in its corner.
   */
  method SetFrom(s: string, chess960: bool, z: Zobrist, si: StateInfo)
      returns (r: Placement.Result<Fen.Setup>, q: Position?, h: Home)
    requires ZobristOk(z)
    modifies si
    ensures r == Fen.Set(s, chess960) && (r.Ok? <==> q != null)
    ensures r.Ok? ==>
              && fresh(q) && fresh(q.board) && q.Valid() && q.Pieces64() == r.value.board
                  && q.sideToMove == r.value.side
                  && q.gamePly == r.value.ply
              && q.line == [si] && q.st.carried.castlingRights == RightsOf(r.value.rights)
              && q.st.carried.epSquare == r.value.ep && q.st.carried.rule50 == r.value.rule50
              && Fen.HasKings(r.value.board) && h == HomeOf(r.value) && q.castlingMask == MaskOf(r.value)
    ensures r.Ok? ==> Ready(q, h) && (chess960 || InCorners(r.value.rights) ==> Outer(h))
  {
    hide *;
    r := Fen.SetPosition(s, chess960);
    q := null;
    h := Home(_ => 0, _ => {}, chess960);
    if r.Ok? {
      AcceptedIsPlayable(s, chess960);
      AcceptedHasKings(s, chess960);
      var p := r.value;
      h := HomeOf(p);
      q := new Position(z, MaskOf(p), si);
      q.SetUp(p.board, p.side, RightsOf(p.rights), p.ep, p.rule50, p.ply, si);
      StringReady(p, q.st.carried);
      FirstReady(q, h, p);
    }
  }

  /** A run of one state that is in order. */
  lemma FirstReady(q: Position, h: Home, p: Fen.Setup)
    requires q.Valid() && ZobristOk(q.z) && |q.line| == 1
    requires q.Pieces64() == p.board && q.sideToMove == p.side && q.gamePly == p.ply
    requires StateReady(h, q.castlingMask, Snap(p.board, p.side, p.ply), q.st.carried)
    ensures Ready(q, h)
  {
    q.TopOfRun();
    hide StateReady, Position.Valid, ZobristOk;
  }

  // ----- A string that leads to a castling missed -----

  /** The board of `Castling.InnerBoard`, White to move, with the queen-side right on b1. */
  function InnerSetup(chess960: bool): Fen.Setup {
    Fen.Setup(InnerBoard(), White, Fen.Rights(None, Some(1), None, None), None, 0, 0, chess960)
  }

  lemma InnerCounted(k: PieceType, c: Color)
    ensures Where(InnerBoard(), Man(c, k)) ==
            if k == King then (if c == White then {4} else {63})
            else if k == Rook then (if c == White then {1} else {0}) else {}
    ensures ByType(InnerBoard(), Pawn) == {} && Pieces(InnerBoard(), c, k) == Where(InnerBoard(), Man(c, k))
  {
    InnerBoardStands();
    hide InnerBoard, OneKingEach, KingSq, Occ;
  }

  lemma InnerFine()
    ensures Fen.BoardError(InnerBoard()) == None && |Occ(InnerBoard())| <= Placement.MAX_MEN
    ensures Fen.HasKings(InnerBoard()) && KingSq(InnerBoard(), White) == 4 && KingSq(InnerBoard(), Black) == 63
  {
    var b := InnerBoard();
    InnerBoardStands();
    forall k, c { InnerCounted(k, c); }
    hide InnerBoard, Where, ByType, Pieces, Occ;
    KingUnique(b, Black, 63);
    assert Fen.ColorError(b, White) == None && Fen.ColorError(b, Black) == None;
  }

  /** The Black king on h8 is out of reach of the White pieces. */
  lemma CornerKingSafe(occ: Bitboard)
    ensures !Attacks(occ, Man(White, Rook), 1, 63) && !Attacks(occ, Man(White, King), 4, 63)
  {
    hide Sees;
    assert File(63) == 7 && Rank(63) == 7 && File(1) == 1 && Rank(1) == 0 && File(4) == 4 && Rank(4) == 0;
  }

  lemma InnerBlackSafe()
    ensures !AttackersToExist(InnerBoard(), 63, Occ(InnerBoard()), White)
  {
    var b := InnerBoard();
    InnerBoardStands();
    AttackersToExistMeaning(b, 63, Occ(b), White);
    hide InnerBoard, AttackersToExist, Occ, Attacks, OneKingEach, Pieces, KingSq;
    forall q: Square | b[q].Man? && b[q].color == White ensures !Attacks(Occ(b), b[q], q, 63) {
      assert q == 1 || q == 4;
      CornerKingSafe(Occ(b));
    }
  }

  lemma InnerPlaced()
    ensures Fen.HasKings(InnerBoard()) && Fen.WellPlaced(InnerBoard(), InnerSetup(true).rights)
  {
    InnerFine();
    InnerBoardStands();
    hide InnerBoard, Fen.BoardError, Occ, Pieces, KingSq;
    assert Fen.KingAt(InnerBoard(), White, 4);
  }

  lemma InnerProper()
    ensures Fen.Proper(InnerSetup(true))
  {
    InnerFine();
    InnerPlaced();
    InnerBlackSafe();
    hide InnerBoard, Fen.BoardError, Occ, AttackersToExist, Fen.WellPlaced, Fen.HasKings, KingSq;
  }

  /** A string for it is accepted in standard mode: there the right is on b1, not on the corner. */
  lemma InnerAccepted() returns (s: string)
    ensures Fen.Set(s, false) == Placement.Ok(InnerSetup(false))
  {
    InnerProper();
    s := Fen.FenText(InnerSetup(true));
    Fen.ProperBack(InnerSetup(true), false);
    Fen.SeenIn960(InnerBoard(), InnerSetup(true).rights);
    hide InnerBoard, Fen.Set, Fen.FenText, Fen.Seen, Fen.Proper;
  }

  /**
   * In the position of that string `legal` passes the castling to the queen side, and the king
   * it leaves on c1 stands in check from a1.
   */
  lemma AcceptedMissesCastling() returns (s: string, v: View, m: Move)
    ensures Fen.Set(s, false).Ok? && var p := Fen.Set(s, false).value;
            && Fen.HasKings(p.board) && v == ViewOf(p.board, p.side, p.chess960)
            && m == Move(4, 1, Types.Castling, Knight) && p.rights.Rook(White, false) == Some(m.to)
    ensures ViewOk(v) && Castles(v, m) && CastlingLegal(v, m) && !CastlingByRules(v, m)
  {
    s := InnerAccepted();
    InnerFine();
    hide InnerBoard, Fen.Set, Fen.BoardError, Pieces, KingSq, Occ, ViewOk, ViewOf, Castles, CastlingLegal,
        CastlingByRules;
    v, m := ViewOf(InnerBoard(), White, false), Move(4, 1, Types.Castling, Knight);
    InnerCastlingMissed(v, m);
  }
}
