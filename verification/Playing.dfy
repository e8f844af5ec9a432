/**
 * From generated moves to moves made: what the generator lists and `legal` lets pass is what
 * do_move relies on, and a position set up from a string stays so whatever is played.
 */
module Playing {
  import opened Options
  import opened Types
  import opened Geometry
  import opened Board
  import opened Threats
  import opened Checks
  import opened Legality
  import opened Making
  import opened States
  import opened Rules
  import EnPassant
  import Castling
  import MoveGen
  import Fen

  /** `Position::legal`. */
  predicate PassesLegal(v: View, m: Move)
    requires Pieces(v.board, v.us, King) != {} && v.us in v.blockers
  {
    if m.mtype == MoveType.Castling then Castling.CastlingLegal(v, m) else Legal(v, m)
  }

  /** The rook of a right is at home, the king on its other side, and the path is the one between them. */
  ghost predicate RookHome(g: MoveGen.Source, kingSide: bool)
    requires Pieces(g.v.board, g.v.us, King) != {}
  {
    var b, us, cr := g.v.board, g.v.us, MoveGen.RightOf(g.v.us, kingSide);
    var k, r := KingSq(b, us), g.rookSquare(cr);
    && RelativeRank(us, k) == 0 && RelativeRank(us, r) == 0 && b[r] == Man(us, Rook) && (kingSide <==> r > k)
    && g.path(cr) == Castling.PathOf(us, Move(k, r, MoveType.Castling, Knight))
  }

  /** The position as generator and legality test may rely on it. */
  ghost predicate Coherent(g: MoveGen.Source) {
    && ViewOk(g.v) && EnemyKingSafe(g.v) && Fen.HasKings(g.v.board)
    && (g.ep.Some? ==> RelativeRank(g.v.us, g.ep.value) == 5 && Fen.EpCounts(g.v.board, g.v.us, g.ep.value))
    && forall kingSide :: MoveGen.RightOf(g.v.us, kingSide) in g.rights ==> RookHome(g, kingSide)
  }

  ghost predicate Generated(g: MoveGen.Source, m: Move)
    requires Pieces(g.v.board, g.v.us, King) != {}
  {
    MoveGen.Listed(g, MoveGen.Kind(g), m)
  }

  lemma CoherentSource(g: MoveGen.Source)
    requires Coherent(g)
    ensures MoveGen.SourceOk(g, MoveGen.Kind(g)) && Pieces(g.v.board, g.v.us, King) != {} && g.v.us in g.v.blockers
    ensures Pieces(g.v.board, g.v.us.Other(), King) != {} && g.v.us.Other() in g.v.blockers
  {
    hide Fen.EpCounts, AttackersTo, Blockers, KingSq, CheckSquaresOk, EnemyKingSafe;
    var us := g.v.us;
    if MoveGen.RightOf(us, true) in g.rights && MoveGen.RightOf(us, false) in g.rights {
      assert RookHome(g, true) && RookHome(g, false);
    }
  }

  // ----- The four kinds of generated moves -----

  lemma GeneratedNormal(g: MoveGen.Source, m: Move)
    requires Coherent(g) && Pieces(g.v.board, g.v.us, King) != {} && Generated(g, m) && m.mtype == Normal
    ensures PseudoLegal(g.v, m)
  {
    CoherentSource(g);
    hide Coherent, PseudoLegal, MoveGen.SourceOk, RelativeRank, KingSq;
    assert MoveGen.IsPlain(m);
    MoveGen.ListedIsPseudoLegal(g, MoveGen.Kind(g), m);
  }

  /** Which part of the generator a special move comes from. */
  lemma SpecialParts(g: MoveGen.Source, t: MoveGen.GenType, m: Move)
    requires Pieces(g.v.board, g.v.us, King) != {} && (t == MoveGen.Evasions ==> g.v.checkers != {})
    requires MoveGen.Listed(g, t, m) && m.mtype != Normal
    ensures if m.mtype == MoveType.Castling
        then MoveGen.CastlingListed(g, t, true, m) || MoveGen.CastlingListed(g, t, false, m)
            else !MoveGen.DoubleCheck(g, t) && MoveGen.PawnListed(g, t, MoveGen.Target(g, t), m)
  {
    hide PawnAttacks, PawnBB, KingSq, MoveGen.Target, MoveGen.PawnOn7, MoveGen.PawnNotOn7, MoveGen.Enemies,
        RelativeRank, MoveGen.RightOf, MoveGen.Impeded;
  }

  lemma GeneratedPromotion(g: MoveGen.Source, m: Move)
    requires Coherent(g) && Pieces(g.v.board, g.v.us, King) != {} && Generated(g, m) && m.mtype == Promotion
    ensures Promotes(g.v, m)
  {
    CoherentSource(g);
    SpecialParts(g, MoveGen.Kind(g), m);
    if m.to in g.v.checkers && !MoreThanOne(g.v.checkers) { CheckerTaken(g.v, m.to); }
    hide PawnAttacks, KingSq, Fen.EpCounts, BetweenBB, Coherent, ViewOk, RelativeRank, MoveGen.Listed;
  }

  /** Taking the only checker answers the check. */
  lemma CheckerTaken(v: View, t: Square)
    requires ViewOk(v) && t in v.checkers && !MoreThanOne(v.checkers)
    ensures v.board[t].Man? && v.board[t].color == v.us.Other()
        && t in BetweenBB(KingSq(v.board, v.us), Lsb(v.checkers))
  {
    hide KingSq, AttackersTo, Blockers, CheckSquaresOk, Between, Pieces;
    SingleMeans(v.checkers);
    SingleIs(v.checkers, t);
  }

  lemma GeneratedEnPassant(g: MoveGen.Source, m: Move)
    requires Coherent(g) && Pieces(g.v.board, g.v.us, King) != {} && Generated(g, m) && m.mtype == EnPassant
    ensures g.ep == Some(m.to) && m == EnPassant.TakeMove(m.from, m.to)
        && m.from in Fen.EpPawns(g.v.board, g.v.us, m.to)
  {
    CoherentSource(g);
    SpecialParts(g, MoveGen.Kind(g), m);
    ListedTake(g, MoveGen.Kind(g), MoveGen.Target(g, MoveGen.Kind(g)), m);
    hide *;
  }

  lemma ListedTake(g: MoveGen.Source, t: MoveGen.GenType, target: Bitboard, m: Move)
    requires MoveGen.PawnListed(g, t, target, m) && m.mtype == EnPassant
    ensures g.ep == Some(m.to) && m == EnPassant.TakeMove(m.from, m.to)
        && m.from in Fen.EpPawns(g.v.board, g.v.us, m.to)
  {
    PawnAttacksReverse(g.v.us, m.from, m.to);
    hide PawnAttacks, RelativeRank;
  }

  lemma GeneratedCastling(g: MoveGen.Source, m: Move)
    requires Coherent(g) && Pieces(g.v.board, g.v.us, King) != {} && Generated(g, m) && m.mtype == MoveType.Castling
    ensures Castling.Castles(g.v, m)
  {
    SpecialParts(g, MoveGen.Kind(g), m);
    hide KingSq, Fen.EpCounts, BetweenBB, ViewOk, RelativeRank, MoveGen.Listed, Castling.PathOf, Occ;
    var side := MoveGen.CastlingListed(g, MoveGen.Kind(g), true, m);
    assert MoveGen.CastlingListed(g, MoveGen.Kind(g), side, m);
    assert RookHome(g, side);
  }

  // ----- What is generated is well formed -----

  /** A pawn that moves by two ranks passes over a square of the board. */
  lemma StepInside(b: Board, us: Color, from: Square, to: Square)
    requires PawnMoveOk(b, us, from, to)
    ensures Xor16(from, to) ==> 0 <= to - PawnPush(us) < 64
  {
    if to in PawnBB(us, from) { NotTwoRanks(us, from, to); }
    hide PawnBB, ByColor;
  }

  lemma NotTwoRanks(us: Color, from: Square, to: Square)
    requires PawnAttacks(us, from, to)
    ensures !Xor16(from, to)
  {}

  lemma NormalWellFormed(v: View, m: Move, ep: Option<Square>)
    requires ViewOk(v) && PseudoLegal(v, m) && EnemyKingSafe(v) && m.mtype == Normal
    ensures MoveOk(v.board, v.us, ep, m)
  {
    EnemyKingStays(v, m);
    KingUnique(v.board, v.us.Other(), m.to);
    if v.board[m.from].kind == Pawn { StepInside(v.board, v.us, m.from, m.to); }
    hide AttackBB, BetweenBB, PawnMoveOk, Xor16, ViewOk, EnemyKingSafe, KingSq;
  }

  lemma PromotionWellFormed(v: View, m: Move, ep: Option<Square>)
    requires ViewOk(v) && Promotes(v, m) && EnemyKingSafe(v)
    ensures MoveOk(v.board, v.us, ep, m)
  {
    PromotionMisses(v, m);
    PromotionSteps(v, m);
    KingUnique(v.board, v.us.Other(), m.to);
    NoDoubleStep(v.us, m.from, m.to);
    hide Steps, BetweenBB, Xor16, ViewOk, EnemyKingSafe, KingSq, PawnAttacks, RelativeRank, KingAttacks;
  }

  lemma NoDoubleStep(us: Color, from: Square, to: Square)
    requires KingAttacks(from, to)
    ensures !Xor16(from, to)
  {}

  lemma TakeWellFormed(v: View, m: Move)
    requires Fen.HasKings(v.board) && Fen.EpCounts(v.board, v.us, m.to) && RelativeRank(v.us, m.to) == 5
    requires m == EnPassant.TakeMove(m.from, m.to) && m.from in Fen.EpPawns(v.board, v.us, m.to)
    ensures MoveOk(v.board, v.us, Some(m.to), m)
    ensures 0 <= m.to - PawnPush(v.us) < 64 && EnPassant.MayTake(v.board, v.us, m.to, m.to - PawnPush(v.us), m.from)
  {
    var c := EnPassant.PassedTo(v.board, v.us, m.to);
    EnPassant.CountsMeans(v.board, v.us, m.to, c);
    EnPassant.PawnsMean(v.board, v.us, m.to, c, m.from);
    hide Fen.EpCounts, Fen.EpPawns, RelativeRank, PawnAttacks, EnPassant.TakesSafely;
  }

  /** Whatever the generator lists meets the assertions of do_move. */
  lemma GeneratedWellFormed(g: MoveGen.Source, m: Move)
    requires Coherent(g) && Pieces(g.v.board, g.v.us, King) != {} && Generated(g, m)
    ensures MoveOk(g.v.board, g.v.us, g.ep, m)
  {
    hide MoveOk, Generated, PseudoLegal, Promotes, ViewOk, RookHome, EnemyKingSafe, Fen.EpCounts, Fen.EpPawns,
        RelativeRank, Castling.Castles;
    match m.mtype {
      case Normal =>
        GeneratedNormal(g, m);
        NormalWellFormed(g.v, m, g.ep);
      case Promotion =>
        GeneratedPromotion(g, m);
        PromotionWellFormed(g.v, m, g.ep);
      case EnPassant =>
        GeneratedEnPassant(g, m);
        TakeWellFormed(g.v, m);
      case Castling =>
        GeneratedCastling(g, m);
        Castling.CastlingWellFormed(g.v, m, g.ep);
    }
  }

  // ----- Legal means what the rules say -----

  /** The rules: the king is safe after the move, and in castling on its way. */
  ghost predicate ByRules(g: MoveGen.Source, m: Move)
    requires ViewOk(g.v)
  {
    Playable(g.v.board, g.v.us, g.ep, m) && (m.mtype == MoveType.Castling ==> Castling.WaySafe(g.v, m))
  }

  /**
   * The one case the test does not see: castling in standard mode, over a safe way, with a rook
   * that alone shields its king.
   */
  ghost predicate Missed(v: View, m: Move)
    requires v.us in v.blockers
  {
    m.mtype == MoveType.Castling && !v.chess960 && m.to in v.blockers[v.us] && Castling.WaySafe(v, m)
  }

  /** Of the moves generated, whatever their type, `legal` lets pass those the rules allow and those it misses. */
  lemma LegalIsByRules(g: MoveGen.Source, m: Move)
    requires Coherent(g) && Pieces(g.v.board, g.v.us, King) != {} && g.v.us in g.v.blockers && Generated(g, m)
    ensures PassesLegal(g.v, m) <==> ByRules(g, m) || Missed(g.v, m)
    ensures !(ByRules(g, m) && Missed(g.v, m))
  {
    hide MoveOk, Generated, PseudoLegal, Promotes, ViewOk, RookHome, EnemyKingSafe, Fen.EpCounts, Fen.EpPawns,
        RelativeRank, Castling.Castles,
         Legal, Castling.CastlingLegal, Castling.WaySafe, Attacked, ApplyMove, AfterMove;
    GeneratedWellFormed(g, m);
    match m.mtype {
      case Normal =>
        GeneratedNormal(g, m);
        LegalExact(g.v, m);
        NormalBoard(g.v.board, g.v.us, m);
      case Promotion =>
        GeneratedPromotion(g, m);
        PromotionLegalExact(g.v, m);
      case EnPassant =>
        GeneratedEnPassant(g, m);
        EnPassant.CaptureLegalExact(g.v, m.to, m.from);
      case Castling =>
        GeneratedCastling(g, m);
        Castling.CastlingLegalExact(g.v, m);
        Castling.CastlingLegalMeans(g.v, m);
        Castling.CastledKings(g.v, m);
    }
  }

  /** In Chess960 mode, and with a rook in its corner, no castling is missed. */
  lemma NothingMissed(g: MoveGen.Source, m: Move)
    requires Coherent(g) && Pieces(g.v.board, g.v.us, King) != {} && g.v.us in g.v.blockers && Generated(g, m)
    requires g.v.chess960 || File(m.to) == 0 || File(m.to) == 7
    ensures !Missed(g.v, m)
  {
    hide Generated, Castling.Castles, Castling.WaySafe, Blockers, RookHome, Fen.EpCounts, KingSq, AttackersTo;
    if Missed(g.v, m) {
      GeneratedCastling(g, m);
      Castling.CastledKings(g.v, m);
      Castling.CornerNoShield(g.v, m);
    }
  }

  lemma NormalBoard(b: Board, us: Color, m: Move)
    requires m.mtype == Normal
    ensures ApplyMove(b, us, m) == AfterMove(b, m)
  {}

  // ----- What the rules allow is generated -----

  /** How a piece may move, checks apart. */
  ghost predicate Moves(g: MoveGen.Source, m: Move)
    requires Pieces(g.v.board, g.v.us, King) != {}
  {
    var b, us := g.v.board, g.v.us;
    match m.mtype
    case Normal =>
      && m.promo == Knight && b[m.from].Man? && b[m.from].color == us && m.to !in ByColor(b, us)
      && (if b[m.from].kind.Pawn? then PawnMoveOk(b, us, m.from, m.to) else m.to in AttackBB(Occ(b), b[m.from], m.from))
    case Promotion => PawnPromotes(b, us, m)
    case EnPassant => g.ep == Some(m.to) && m == EnPassant.TakeMove(m.from, m.to) && m.from in Fen.EpPawns(b, us, m.to)
    case Castling => exists kingSide :: CastlesOn(g, kingSide, m)
  }

  predicate PawnPromotes(b: Board, us: Color, m: Move) {
    && b[m.from] == Man(us, Pawn) && RelativeRank(us, m.from) == 6
    && (m.promo == Knight || m.promo == Bishop || m.promo == Rook || m.promo == Queen)
    && (|| (m.from + PawnPush(us) == m.to && b[m.to] == Empty)
        || (PawnAttacks(us, m.from, m.to) && b[m.to].Man? && b[m.to].color == us.Other()))
  }

  /** Out of check, with the right still there and the way empty. */
  ghost predicate CastlesOn(g: MoveGen.Source, kingSide: bool, m: Move)
    requires Pieces(g.v.board, g.v.us, King) != {}
  {
    var cr := MoveGen.RightOf(g.v.us, kingSide);
    && g.v.checkers == {} && cr in g.rights && !MoveGen.Impeded(g, cr)
    && m == Move(KingSq(g.v.board, g.v.us), g.rookSquare(cr), MoveType.Castling, Knight)
  }

  /** A checker that is silenced by a change of occupancy was cut off on the one square newly occupied. */
  lemma CutOff(b: Board, k: Square, q: Square, occ: Bitboard, e: Square)
    requires Attacks(Occ(b), b[q], q, k) && !Attacks(occ, b[q], q, k) && occ <= Occ(b) + {e}
    ensures IsSlider(b[q].kind) && Between(k, e, q) && Sees(Occ(b), q, k)
  {
    hide RookLine, BishopLine, SameRay, Between, PawnAttacks, KnightAttacks, KingAttacks, Occ;
    var x: Square :| 0 <= x < 64 && Between(q, x, k) && x in occ;
    BetweenSym(q, x, k);
  }

  /** One square cuts off one checker only. */
  lemma OneCutOff(b: Board, k: Square, e: Square, q: Square, r: Square)
    requires Between(k, e, q) && Between(k, e, r) && Sees(Occ(b), q, k) && Sees(Occ(b), r, k) && q in Occ(b)
        && r in Occ(b)
    ensures q == r
  {
    hide RookLine, BishopLine, SameRay, Between, Occ, Df, Dr;
    SameRayFromBetween(k, e, q, r);
    SameRayTotal(k, q, r);
    BetweenSym(k, q, r);
    BetweenSym(k, r, q);
  }

  /** Every checker is taken or cut off by a move that leaves the king safe. */
  lemma CheckersAnswered(v: View, t: Square, occ: Bitboard, a: Board)
    requires ViewOk(v) && Occ(a) == occ && occ <= Occ(v.board) + {t}
        && !Attacked(a, KingSq(v.board, v.us), v.us.Other())
    requires forall q: Square | v.board[q].Man? && v.board[q].color == v.us.Other() && q != t :: a[q] == v.board[q]
    ensures v.checkers != {} ==> !MoreThanOne(v.checkers) && t in BetweenBB(KingSq(v.board, v.us), Lsb(v.checkers))
  {
    var b, k, them := v.board, KingSq(v.board, v.us), v.us.Other();
    hide ViewOk, Attacks, Between, Sees, Occ, KingSq;
    forall q: Square ensures q in v.checkers ==>
        b[q].Man? && b[q].color == them && q in Occ(b) && Attacks(Occ(b), b[q], q, k) {
      CheckerMeans(v, q);
    }
    forall q: Square | q in v.checkers && q != t ensures Between(k, t, q) && Sees(Occ(b), q, k) {
      assert !Attacks(Occ(a), a[q], q, k);
      CutOff(b, k, q, occ, t);
    }
    forall q: Square, r: Square | q in v.checkers && r in v.checkers && q != t ensures q == r {
      if r != t { OneCutOff(b, k, t, q, r); } else { TakenShields(b, k, q, t); }
    }
    OnlyOne(v.checkers);
  }

  lemma CheckerMeans(v: View, q: Square)
    requires ViewOk(v)
    ensures q in v.checkers <==>
        v.board[q].Man? && v.board[q].color == v.us.Other()
        && Attacks(Occ(v.board), v.board[q], q, KingSq(v.board, v.us))
    ensures q in v.checkers ==> q in Occ(v.board)
  {
    AttackersToMeaning(v.board, KingSq(v.board, v.us), Occ(v.board), q);
    hide Attacks, AttackersTo, Blockers, CheckSquaresOk, Pieces, KingSq;
  }

  /** An occupied square does not let a checker through. */
  lemma TakenShields(b: Board, k: Square, q: Square, t: Square)
    requires Between(k, t, q) && Sees(Occ(b), q, k)
    ensures t !in Occ(b)
  {
    BetweenSym(k, t, q);
    hide RookLine, BishopLine, SameRay, Between, Occ;
  }

  lemma OnlyOne(bb: Bitboard)
    requires forall q: Square, r: Square | q in bb && r in bb :: q == r
    ensures bb != {} ==> !MoreThanOne(bb)
  {
    if bb != {} {
      var q := Lsb(bb);
      assert bb == {q};
      SingleIs(bb, q);
      SingleMeans(bb);
    }
  }

  /** The king stays where it is when another piece moves. */
  lemma KingRemains(v: View, ep: Option<Square>, m: Move)
    requires ViewOk(v) && MoveOk(v.board, v.us, ep, m) && v.board[m.from].kind != King
    ensures var a := ApplyMove(v.board, v.us, m);
            Pieces(a, v.us, King) != {} && KingSq(a, v.us) == KingSq(v.board, v.us)
  {
    var b, us, a := v.board, v.us, ApplyMove(v.board, v.us, m);
    KingsStay(b, us, ep, m);
    KingUnique(a, us, KingSq(b, us));
    KingNotTouched(b, us, ep, m, KingSq(b, us));
    hide *;
  }

  lemma KingNotTouched(b: Board, us: Color, ep: Option<Square>, m: Move, k: Square)
    requires MoveOk(b, us, ep, m) && b[m.from].kind != King && b[k] == Man(us, King)
    ensures ApplyMove(b, us, m)[k] == Man(us, King)
  {
    hide PawnAttacks, RelativeRank, Xor16;
  }

  /** A plain move or promotion of another piece that leaves the king safe answers every check. */
  lemma SafeAnswers(v: View, ep: Option<Square>, m: Move)
    requires ViewOk(v) && Playable(v.board, v.us, ep, m) && v.board[m.from].kind != King
        && (m.mtype == Normal || m.mtype == Promotion)
    ensures v.checkers != {} ==> !MoreThanOne(v.checkers) && m.to in BetweenBB(KingSq(v.board, v.us), Lsb(v.checkers))
  {
    var b, a := v.board, ApplyMove(v.board, v.us, m);
    KingRemains(v, ep, m);
    OccGrows(b, v.us, ep, m);
    hide ViewOk, ApplyMove, Attacked, KingSq, BetweenBB, MoveOk, Occ, Pieces;
    CheckersAnswered(v, m.to, Occ(a), a);
  }

  lemma OccGrows(b: Board, us: Color, ep: Option<Square>, m: Move)
    requires MoveOk(b, us, ep, m) && (m.mtype == Normal || m.mtype == Promotion)
    ensures Occ(ApplyMove(b, us, m)) <= Occ(b) + {m.to}
    ensures forall q: Square | b[q].Man? && b[q].color == us.Other() && q != m.to :: ApplyMove(b, us, m)[q] == b[q]
  {
    hide PawnAttacks, RelativeRank, Xor16, Landing;
  }

  lemma SafeNormal(g: MoveGen.Source, m: Move)
    requires Coherent(g) && Pieces(g.v.board, g.v.us, King) != {} && Moves(g, m) && m.mtype == Normal
    requires Playable(g.v.board, g.v.us, g.ep, m)
    ensures Generated(g, m)
  {
    CoherentSource(g);
    if g.v.board[m.from].kind != King { SafeAnswers(g.v, g.ep, m); }
    hide Coherent, MoveGen.SourceOk, RelativeRank, KingSq, AttackBB, BetweenBB, PawnMoveOk, Playable, ViewOk,
        MoveGen.Listed;
    assert PseudoLegal(g.v, m);
    MoveGen.ListedIsPseudoLegal(g, MoveGen.Kind(g), m);
  }

  lemma SafePromotion(g: MoveGen.Source, m: Move)
    requires Coherent(g) && Pieces(g.v.board, g.v.us, King) != {} && Moves(g, m) && m.mtype == Promotion
    requires Playable(g.v.board, g.v.us, g.ep, m)
    ensures Generated(g, m)
  {
    CoherentSource(g);
    SafeAnswers(g.v, g.ep, m);
    if g.v.checkers != {} {
      EvasionTarget(g, m.to);
      OnlyChecker(g.v, m.to);
    }
    hide Coherent, MoveGen.SourceOk, RelativeRank, KingSq, BetweenBB, Playable, ViewOk, PawnPromotes, MoveGen.Listed,
        MoveGen.Target, MoveGen.Enemies;
    PromotionIsListed(g, MoveGen.Kind(g), m);
  }

  lemma PromotionIsListed(g: MoveGen.Source, t: MoveGen.GenType, m: Move)
    requires Pieces(g.v.board, g.v.us, King) != {} && (t == MoveGen.Evasions ==> g.v.checkers != {}) && MoveGen.All(t)
    requires m.mtype == Promotion && PawnPromotes(g.v.board, g.v.us, m)
    requires t == MoveGen.Evasions ==> !MoreThanOne(g.v.checkers) && m.to in MoveGen.Target(g, t)
                                       && (g.v.board[m.to] != Empty ==> m.to in g.v.checkers)
    ensures MoveGen.Listed(g, t, m)
  {
    hide KingSq, MoveGen.Target, PawnAttacks, MoreThanOne, MoveGen.KingListed, MoveGen.CastlingListed,
        MoveGen.PieceListed, RelativeRank;
    assert MoveGen.PawnListed(g, t, MoveGen.Target(g, t), m);
  }

  lemma EvasionTarget(g: MoveGen.Source, t: Square)
    requires Pieces(g.v.board, g.v.us, King) != {} && g.v.checkers != {}
    ensures MoveGen.Target(g, MoveGen.Evasions) == BetweenBB(KingSq(g.v.board, g.v.us), Lsb(g.v.checkers))
    ensures MoveGen.Enemies(g, MoveGen.Evasions) == g.v.checkers
  {}

  /** A piece standing where a check is answered is the checker. */
  lemma OnlyChecker(v: View, t: Square)
    requires ViewOk(v) && v.checkers != {} && t in BetweenBB(KingSq(v.board, v.us), Lsb(v.checkers))
    ensures v.board[t] != Empty ==> t in v.checkers
  {
    MoveGen.EvasionSquares(v, t);
    hide *;
  }

  lemma SafeCastling(g: MoveGen.Source, m: Move)
    requires Coherent(g) && Pieces(g.v.board, g.v.us, King) != {} && Moves(g, m) && m.mtype == MoveType.Castling
    ensures Generated(g, m)
  {
    var side :| CastlesOn(g, side, m);
    hide Coherent, MoveGen.RightOf, MoveGen.Impeded, KingSq, MoveGen.PawnListed, MoveGen.PieceListed,
        MoveGen.KingListed;
    assert MoveGen.CastlingListed(g, MoveGen.Kind(g), side, m);
  }

  /** A pawn that gives check leaves no line from the square behind it to the king. */
  lemma PawnCheckAside(us: Color, c: Square, e: Square, k: Square)
    requires c + PawnPush(us) == e && PawnAttacks(us.Other(), c, k)
    ensures !Aligned(k, e)
  {}

  /** En passant does not leave the king open to a checker coming over the square the pawn came from. */
  lemma NotFromBehind(b: Board, us: Color, e: Square, c: Square, k: Square, q: Square)
    requires EnPassant.JustPassed(b, us, e, c) && b[k] == Man(us, King) && q in Occ(b) && Sees(Occ(b), q, k)
        && Between(k, e, q) && q != c
    ensures 0 <= e + PawnPush(us) < 64 ==> e + PawnPush(us) !in BetweenBB(k, q)
  {
    hide Between, Aligned;
    if 0 <= e + PawnPush(us) < 64 {
      var f: Square := e + PawnPush(us);
      assert f !in Occ(b);
      if Between(k, f, q) {
        VerticalPast(us, c, e, f, k, q);
        TakenShields(b, k, q, c);
      }
    }
  }

  lemma VerticalPast(us: Color, c: Square, e: Square, f: Square, k: Square, q: Square)
    requires c + PawnPush(us) == e && e + PawnPush(us) == f && Between(k, e, q) && Between(k, f, q)
    ensures c == k || c == q || Between(k, c, q)
  {
    Column(us, c, e, f);
    EnPassant.BothBetween(k, e, f, q);
    hide File, Rank;
  }

  lemma Column(us: Color, c: Square, e: Square, f: Square)
    requires c + PawnPush(us) == e && e + PawnPush(us) == f
    ensures File(c) == File(e) == File(f) && Rank(e) - Rank(c) == Rank(f) - Rank(e)
        && (Rank(f) - Rank(e) == 1 || Rank(f) - Rank(e) == -1)
  {}

  /** A safe capture en passant meets the only check there is: by the pawn taken, or along a line it closes. */
  lemma TakeAnswers(v: View, e: Square, c: Square, p: Square)
    requires ViewOk(v) && Fen.HasKings(v.board) && EnPassant.MayTake(v.board, v.us, e, c, p)
        && EnPassant.JustPassed(v.board, v.us, e, c)
    requires EnPassant.TakesSafely(v.board, v.us, e, c, p)
    ensures !MoreThanOne(v.checkers)
    ensures v.checkers != {} && 0 <= e + PawnPush(v.us) < 64 ==>
              e + PawnPush(v.us) !in BetweenBB(KingSq(v.board, v.us), Lsb(v.checkers))
  {
    var b, us, them, k := v.board, v.us, v.us.Other(), KingSq(v.board, v.us);
    forall q: Square { CheckerMeans(v, q); }
    forall q: Square | q in v.checkers && q != c { CheckerCut(v, e, c, p, q); }
    hide ViewOk, Attacks, Between, Sees, Occ, KingSq, Aligned, PawnAttacks, EnPassant.TakesSafely, BetweenBB;
    if c in v.checkers {
      PawnPattern(Occ(b), them, c, k);
      PawnCheckAside(us, c, e, k);
      forall q: Square | q in v.checkers ensures q == c { if q != c { BetweenDistinct(k, e, q); } }
      NearChecker(us, b, e, c, k);
    } else {
      forall q: Square, r: Square | q in v.checkers && r in v.checkers ensures q == r { OneCutOff(b, k, e, q, r); }
    }
    OnlyOne(v.checkers);
    if v.checkers != {} && Lsb(v.checkers) != c { NotFromBehind(b, us, e, c, k, Lsb(v.checkers)); }
  }

  lemma CheckerCut(v: View, e: Square, c: Square, p: Square, q: Square)
    requires ViewOk(v) && Fen.HasKings(v.board) && EnPassant.MayTake(v.board, v.us, e, c, p)
    requires EnPassant.TakesSafely(v.board, v.us, e, c, p) && q in v.checkers && q != c
    ensures Between(KingSq(v.board, v.us), e, q) && Sees(Occ(v.board), q, KingSq(v.board, v.us))
  {
    CheckerMeans(v, q);
    hide ViewOk, Attacks, Between, Sees, Occ, KingSq, PawnAttacks;
    var b, k, occ := v.board, KingSq(v.board, v.us), EnPassant.OccTaken(v.board, c, p, e);
    assert !EnPassant.Reaches(b, k, occ, v.us.Other(), q);
    CutOff(b, k, q, occ, e);
  }

  /** Next to the king nothing lies between it and a checking pawn. */
  lemma NearChecker(us: Color, b: Board, e: Square, c: Square, k: Square)
    requires PawnAttacks(us.Other(), c, k) && c + PawnPush(us) == e
    ensures 0 <= e + PawnPush(us) < 64 ==> e + PawnPush(us) !in BetweenBB(k, c)
  {
    if 0 <= e + PawnPush(us) < 64 { NoBetweenNear(k, c, e + PawnPush(us)); }
    hide Between;
  }

  lemma SafeTake(g: MoveGen.Source, m: Move)
    requires Coherent(g) && Pieces(g.v.board, g.v.us, King) != {} && Moves(g, m) && m.mtype == EnPassant
    requires Playable(g.v.board, g.v.us, g.ep, m)
    ensures Generated(g, m)
  {
    hide *;
    CoherentSource(g);
    TakeMoves(g, m);
    CoherentEp(g, m.to);
    TakeLeavesSafe(g.v, m.to, m.from);
    KindMeans(g, m);
    TakeIsListed(g, MoveGen.Kind(g), m);
  }

  lemma TakeMoves(g: MoveGen.Source, m: Move)
    requires Pieces(g.v.board, g.v.us, King) != {} && Moves(g, m) && m.mtype == EnPassant
    ensures g.ep == Some(m.to) && m == EnPassant.TakeMove(m.from, m.to)
        && m.from in Fen.EpPawns(g.v.board, g.v.us, m.to)
  {
    hide Fen.EpPawns;
  }

  lemma KindMeans(g: MoveGen.Source, m: Move)
    requires Pieces(g.v.board, g.v.us, King) != {}
    ensures MoveGen.All(MoveGen.Kind(g)) && (MoveGen.Kind(g) == MoveGen.Evasions <==> g.v.checkers != {})
    ensures Generated(g, m) <==> MoveGen.Listed(g, MoveGen.Kind(g), m)
  {
    hide MoveGen.Listed;
  }

  lemma CoherentEp(g: MoveGen.Source, e: Square)
    requires Coherent(g) && g.ep == Some(e)
    ensures ViewOk(g.v) && Fen.HasKings(g.v.board) && RelativeRank(g.v.us, e) == 5 && Fen.EpCounts(g.v.board, g.v.us, e)
  {
    hide ViewOk, Fen.EpCounts, RookHome, RelativeRank;
  }

  /** A capture after which the king is safe, and what that says of the checkers. */
  lemma TakeLeavesSafe(v: View, e: Square, p: Square)
    requires ViewOk(v) && Fen.HasKings(v.board) && RelativeRank(v.us, e) == 5 && Fen.EpCounts(v.board, v.us, e)
    requires p in Fen.EpPawns(v.board, v.us, e) && Playable(v.board, v.us, Some(e), EnPassant.TakeMove(p, e))
    ensures !MoreThanOne(v.checkers)
    ensures v.checkers != {} && 0 <= e + PawnPush(v.us) < 64 ==>
        e + PawnPush(v.us) !in BetweenBB(KingSq(v.board, v.us), Lsb(v.checkers))
  {
    hide ViewOk, Fen.EpCounts, Fen.EpPawns, RelativeRank, MoveOk, Attacked, ApplyMove, KingSq, BetweenBB,
        EnPassant.MayTake,
         EnPassant.JustPassed, EnPassant.TakesSafely;
    assert Pieces(v.board, v.us, King) != {};
    hide Pieces;
    TakeWellFormed(v, EnPassant.TakeMove(p, e));
    var c: Square := e - PawnPush(v.us);
    EnPassant.CountsMeans(v.board, v.us, e, c);
    EnPassant.TakenSafe(v.board, v.us, e, c, p);
    TakeAnswers(v, e, c, p);
  }

  lemma TakeIsListed(g: MoveGen.Source, t: MoveGen.GenType, m: Move)
    requires Pieces(g.v.board, g.v.us, King) != {} && (t == MoveGen.Evasions ==> g.v.checkers != {}) && MoveGen.All(t)
    requires g.ep == Some(m.to) && m == EnPassant.TakeMove(m.from, m.to)
        && m.from in Fen.EpPawns(g.v.board, g.v.us, m.to)
    requires RelativeRank(g.v.us, m.to) == 5 && !MoreThanOne(g.v.checkers)
    requires t == MoveGen.Evasions && 0 <= m.to + PawnPush(g.v.us) < 64 ==>
               m.to + PawnPush(g.v.us) !in BetweenBB(KingSq(g.v.board, g.v.us), Lsb(g.v.checkers))
    ensures MoveGen.Listed(g, t, m)
  {
    PawnAttacksReverse(g.v.us, m.from, m.to);
    OneRankUp(g.v.us, m.from, m.to);
    if t == MoveGen.Evasions { EvasionTarget(g, m.to); }
    hide KingSq, PawnAttacks, MoreThanOne, MoveGen.KingListed, MoveGen.CastlingListed, MoveGen.PieceListed,
        RelativeRank, BetweenBB;
    assert MoveGen.PawnListed(g, t, MoveGen.Target(g, t), m);
  }

  lemma OneRankUp(us: Color, from: Square, to: Square)
    ensures PawnAttacks(us, from, to) ==> RelativeRank(us, to) == RelativeRank(us, from) + 1
  {}

  /** Nothing the rules allow is missing from the list. */
  lemma AllowedIsGenerated(g: MoveGen.Source, m: Move)
    requires Coherent(g) && Pieces(g.v.board, g.v.us, King) != {} && Moves(g, m) && Playable(g.v.board, g.v.us, g.ep, m)
    ensures Generated(g, m)
  {
    match m.mtype {
      case Normal => SafeNormal(g, m);
      case Promotion => SafePromotion(g, m);
      case EnPassant => SafeTake(g, m);
      case Castling => SafeCastling(g, m);
    }
    hide *;
  }

  /** Whatever the list holds moves as the rules say. */
  lemma GeneratedMoves(g: MoveGen.Source, m: Move)
    requires Coherent(g) && Pieces(g.v.board, g.v.us, King) != {} && Generated(g, m)
    ensures Moves(g, m)
  {
    hide Coherent, Generated, Fen.EpPawns, Fen.EpCounts, RelativeRank, PawnMoveOk, AttackBB, KingSq, BetweenBB,
        ViewOk, Occ, PawnAttacks;
    match m.mtype {
      case Normal =>
        GeneratedNormal(g, m);
        PlainListed(g, m);
      case Promotion => GeneratedPromotion(g, m);
      case EnPassant => GeneratedEnPassant(g, m);
      case Castling =>
        CoherentSource(g);
        CastlingSide(g, m);
    }
  }

  lemma PlainListed(g: MoveGen.Source, m: Move)
    requires Coherent(g) && Pieces(g.v.board, g.v.us, King) != {} && Generated(g, m) && m.mtype == Normal
    ensures m.promo == Knight
  {
    hide Coherent, RelativeRank, KingSq, PawnBB, AttackBB, KingBB, MoveGen.Target, MoveGen.KingTargets, MoveGen.Enemies;
  }

  lemma CastlingSide(g: MoveGen.Source, m: Move)
    requires Coherent(g) && Pieces(g.v.board, g.v.us, King) != {} && Generated(g, m) && m.mtype == MoveType.Castling
    ensures exists kingSide :: CastlesOn(g, kingSide, m)
  {
    SpecialParts(g, MoveGen.Kind(g), m);
    hide Coherent, MoveGen.Listed, KingSq, MoveGen.RightOf, MoveGen.Impeded;
    assert CastlesOn(g, true, m) || CastlesOn(g, false, m);
  }

  /**
   * The legal moves are exact: what is generated and passes `legal` is what a piece may do by
   * the rules, leaving its king safe; nothing is missing, and the castlings `legal` does not see
   * through are all there is too much.
   */
  lemma LegalMovesExact(g: MoveGen.Source, m: Move)
    requires Coherent(g) && Pieces(g.v.board, g.v.us, King) != {} && g.v.us in g.v.blockers
    ensures Generated(g, m) && PassesLegal(g.v, m) <==> Moves(g, m) && (ByRules(g, m) || Missed(g.v, m))
    ensures Moves(g, m) ==> !(ByRules(g, m) && Missed(g.v, m))
  {
    if Generated(g, m) {
      GeneratedMoves(g, m);
      LegalIsByRules(g, m);
    } else if Moves(g, m) {
      if ByRules(g, m) { AllowedIsGenerated(g, m); }
      if Missed(g.v, m) { SafeCastling(g, m); }
    }
    hide *;
  }

  // ----- A recorded square can be taken on -----

  /** The pawns the generator looks for are those that may take en passant: there are some, as it asserts. */
  lemma TakersFound(g: MoveGen.Source)
    requires Coherent(g) && g.ep.Some?
    ensures var takers := MoveGen.NotOn7(g) * PawnBB(g.v.us.Other(), g.ep.value);
            takers != {} && takers == Fen.EpPawns(g.v.board, g.v.us, g.ep.value)
  {
    var us, e := g.v.us, g.ep.value;
    hide ViewOk, EnemyKingSafe, RookHome, Fen.SafeCapture, Pieces, PawnAttacks, RelativeRank, MoveGen.OnRank,
        MoveGen.NotOn7;
    forall p: Square | p in Fen.EpPawns(g.v.board, us, e) ensures p in MoveGen.NotOn7(g) {
      MoveGen.On7Means(g, p);
      PieceOn(g.v.board, us, Pawn, p);
      BesideThePassed(us, e, p);
    }
  }

  lemma PieceOn(b: Board, c: Color, k: PieceType, s: Square)
    ensures s in Pieces(b, c, k) <==> b[s] == Man(c, k)
  {}

  lemma BesideThePassed(us: Color, e: Square, p: Square)
    requires RelativeRank(us, e) == 5 && PawnAttacks(us.Other(), e, p)
    ensures RelativeRank(us, p) == 4
  {}

  /** And one of the captures is among the moves generated and passes `legal`. */
  lemma SomeTakeIsLegal(g: MoveGen.Source) returns (m: Move)
    requires Coherent(g) && g.ep.Some? && Pieces(g.v.board, g.v.us, King) != {} && g.v.us in g.v.blockers
    ensures m.mtype == EnPassant && g.ep == Some(m.to) && Generated(g, m) && PassesLegal(g.v, m)
  {
    var v, us, e := g.v, g.v.us, g.ep.value;
    hide ViewOk, EnemyKingSafe, RookHome, Fen.EpCounts, Fen.EpPawns, RelativeRank, MoveOk, Attacked, ApplyMove,
        Generated, PassesLegal, EnPassant.TakesSafely, EnPassant.JustPassed, EnPassant.MayTake, Pieces, KingSq;
    var c := EnPassant.PassedTo(v.board, us, e);
    EnPassant.CountsMeans(v.board, us, e, c);
    var p: Square :| EnPassant.MayTake(v.board, us, e, c, p) && EnPassant.TakesSafely(v.board, us, e, c, p);
    m := EnPassant.TakeMove(p, e);
    TakerMeans(v.board, us, e, c, p);
    TakeWellFormed(v, m);
    EnPassant.TakenSafe(v.board, us, e, c, p);
    LegalMovesExact(g, m);
  }

  lemma TakerMeans(b: Board, us: Color, e: Square, c: Square, p: Square)
    requires EnPassant.JustPassed(b, us, e, c) && EnPassant.MayTake(b, us, e, c, p) && c + PawnPush(us) == e
    ensures p in Fen.EpPawns(b, us, e)
  {
    EnPassant.PawnsMean(b, us, e, c, p);
    hide Fen.EpPawns, PawnAttacks;
  }

  // ----- The filter -----

  /** The filter may spare itself the moves it does not look at. */
  lemma SparedIsLegal(g: MoveGen.Source, legal: Move -> bool, m: Move)
    requires Coherent(g) && Pieces(g.v.board, g.v.us, King) != {} && g.v.us in g.v.blockers && Generated(g, m)
    requires legal(m) == PassesLegal(g.v, m)
    ensures MoveGen.Kept(g, legal, m) <==> PassesLegal(g.v, m)
  {
    GeneratedWellFormed(g, m);
    if m.mtype == MoveType.Castling { GeneratedCastling(g, m); }
    CoherentSource(g);
    Movers(g, m);
    hide Coherent, Generated, MoveOk, KingSq, Castling.CastlingLegal, LineBB, MoveGen.SourceOk, AttackersToExist,
        Castling.Castles;
  }

  /** A king that moves stands on the king's square, and what moves is the mover's own. */
  lemma Movers(g: MoveGen.Source, m: Move)
    requires Coherent(g) && Pieces(g.v.board, g.v.us, King) != {} && MoveOk(g.v.board, g.v.us, g.ep, m)
    ensures g.v.board[m.from] == Man(g.v.us, King) <==> m.from == KingSq(g.v.board, g.v.us)
    ensures m.from in ByColor(g.v.board, g.v.us)
        && (m.mtype == MoveType.Castling ==> g.v.board[m.from] == Man(g.v.us, King))
  {
    KingUnique(g.v.board, g.v.us, m.from);
    hide KingSq, Fen.EpCounts, AttackersTo, Blockers, CheckSquaresOk, RelativeRank, PawnAttacks, Xor16, RookHome;
  }

  /** The legality test as a function of the move. */
  function LegalTest(g: MoveGen.Source): (legal: Move -> bool)
    requires Pieces(g.v.board, g.v.us, King) != {} && g.v.us in g.v.blockers
    ensures forall m :: legal(m) == PassesLegal(g.v, m)
  {
    var v := g.v;
    (m: Move) => if Pieces(v.board, v.us, King) != {} && v.us in v.blockers then PassesLegal(v, m) else false
  }

  /** `generate<LEGAL>`: every move the rules allow, and every castling missed, is listed once, and no other. */
  method GenerateLegal(g: MoveGen.Source) returns (l: seq<Move>)
    requires Coherent(g)
    ensures Pieces(g.v.board, g.v.us, King) != {} && ViewOk(g.v) && g.v.us in g.v.blockers
    ensures forall m :: multiset(l)[m] == if Moves(g, m) && (ByRules(g, m) || Missed(g.v, m)) then 1 else 0
  {
    hide *;
    CoherentSource(g);
    var all := MoveGen.GenerateAll(g, MoveGen.Kind(g));
    var moves := new Move[|all|](i requires 0 <= i < |all| => all[i]);
    assert moves[..|all|] == all;
    var end := MoveGen.FilterLegal(g, LegalTest(g), moves, |all|);
    l := moves[..end];
    ListIsExact(g, all, l);
  }

  lemma ListIsExact(g: MoveGen.Source, all: seq<Move>, l: seq<Move>)
    requires Coherent(g) && MoveGen.SourceOk(g, MoveGen.Kind(g)) && Pieces(g.v.board, g.v.us, King) != {}
        && g.v.us in g.v.blockers
    requires MoveGen.Grown([], all, MoveGen.ListedMoves(g, MoveGen.Kind(g)))
    requires forall m :: multiset(l)[m] == if MoveGen.Kept(g, LegalTest(g), m) then multiset(all)[m] else 0
    ensures ViewOk(g.v)
    ensures forall m :: multiset(l)[m] == if Moves(g, m) && (ByRules(g, m) || Missed(g.v, m)) then 1 else 0
  {
    hide Moves, ByRules, Missed, MoveGen.Kept, PassesLegal, MoveGen.SourceOk, Generated, MoveGen.Listed;
    forall m ensures multiset(l)[m] == if Moves(g, m) && (ByRules(g, m) || Missed(g.v, m)) then 1 else 0 {
      MoveGen.GrownFromNothing(all, MoveGen.ListedMoves(g, MoveGen.Kind(g)), m);
      LegalMovesExact(g, m);
      InList(g, m);
      if Generated(g, m) { SparedIsLegal(g, LegalTest(g), m); }
    }
  }

  lemma InList(g: MoveGen.Source, m: Move)
    requires MoveGen.SourceOk(g, MoveGen.Kind(g)) && Pieces(g.v.board, g.v.us, King) != {}
    ensures m in MoveGen.ListedMoves(g, MoveGen.Kind(g)) <==> Generated(g, m)
  {
    hide MoveGen.Listed;
  }

  // ----- What else do_move is told -----

  /** No move takes or moves the other king. */
  lemma EnemyKingRemains(b: Board, us: Color, ep: Option<Square>, m: Move)
    requires OneKingEach(b) && MoveOk(b, us, ep, m) && Pieces(b, us.Other(), King) != {}
    ensures var a := ApplyMove(b, us, m);
            Pieces(a, us.Other(), King) != {} && KingSq(a, us.Other()) == KingSq(b, us.Other())
  {
    var k := KingSq(b, us.Other());
    KingsStay(b, us, ep, m);
    KingUnique(ApplyMove(b, us, m), us.Other(), k);
    NotTouched(b, us, ep, m, k);
    hide *;
  }

  /** What is neither on one of the squares of the move nor taken stays. */
  lemma NotTouched(b: Board, us: Color, ep: Option<Square>, m: Move, s: Square)
    requires MoveOk(b, us, ep, m) && b[s].Man?
    requires s != m.from && (m.mtype == MoveType.Castling ==> s != m.to)
        && (b[s].color == us.Other() ==> b[s].kind != Pawn && (s == m.to ==> b[s].kind == King))
    ensures ApplyMove(b, us, m)[s] == b[s]
  {
    hide PawnAttacks, RelativeRank, Xor16;
  }

  lemma NormalChecks(v: View, m: Move)
    requires ViewOk(v) && v.board[m.from].Man? && m.mtype == Normal && Pieces(v.board, v.us.Other(), King) != {}
    ensures v.us.Other() in v.blockers && (ChecksKing(v, m) <==> GivesCheck(v, m))
  {
    hide AttackersTo, Blockers, KingSq, LineBB, RookBB, BishopBB;
  }

  lemma CheckMeans(b: Board, us: Color, ep: Option<Square>, m: Move)
    requires OneKingEach(b) && MoveOk(b, us, ep, m) && Pieces(b, us.Other(), King) != {}
    ensures InCheckAfter(b, us, m) <==> Attacked(ApplyMove(b, us, m), KingSq(b, us.Other()), us)
  {
    EnemyKingRemains(b, us, ep, m);
    hide MoveOk, ApplyMove, Attacked, KingSq, OneKingEach, Pieces;
  }

  lemma ChecksOfNormal(v: View, m: Move)
    requires ViewOk(v) && EnemyKingSafe(v) && PseudoLegal(v, m) && Legal(v, m) && m.mtype == Normal
    ensures v.us.Other() in v.blockers && Pieces(v.board, v.us.Other(), King) != {}
    ensures ChecksKing(v, m) <==> Attacked(ApplyMove(v.board, v.us, m), KingSq(v.board, v.us.Other()), v.us)
  {
    MoverIsOwn(v, m);
    NormalChecks(v, m);
    LegalGivesCheckExact(v, m);
    NormalBoard(v.board, v.us, m);
    hide PseudoLegal, Legal, EnemyKingSafe, ChecksKing, GivesCheck, Attacked, ApplyMove, AfterMove, KingSq;
  }

  /** For generated legal moves of every type `gives_check` says whether the other side is in check after the move. */
  lemma ChecksRight(g: MoveGen.Source, m: Move)
    requires Coherent(g) && Pieces(g.v.board, g.v.us, King) != {} && g.v.us in g.v.blockers && Generated(g, m)
        && PassesLegal(g.v, m)
    ensures g.v.us.Other() in g.v.blockers && Pieces(g.v.board, g.v.us.Other(), King) != {} && g.v.board[m.from].Man?
    ensures g.v.board[m.from].kind in g.v.checkSquares && Rook in g.v.checkSquares
    ensures ChecksKing(g.v, m) <==> InCheckAfter(g.v.board, g.v.us, m)
  {
    hide AttackersTo, Blockers, KingSq, MoveOk, Generated, Fen.EpCounts, Legal, Castling.CastlingLegal, RookHome,
        ChecksKing, InCheckAfter;
    GeneratedWellFormed(g, m);
    Movers(g, m);
    CoherentSource(g);
    CheckMeans(g.v.board, g.v.us, g.ep, m);
    hide ViewOk, EnemyKingSafe, Attacked, ApplyMove, Coherent;
    ChecksOfKind(g, m);
  }

  lemma ChecksOfKind(g: MoveGen.Source, m: Move)
    requires Coherent(g) && Pieces(g.v.board, g.v.us, King) != {} && g.v.us in g.v.blockers && Generated(g, m)
        && PassesLegal(g.v, m)
    requires g.v.us.Other() in g.v.blockers && Pieces(g.v.board, g.v.us.Other(), King) != {} && g.v.board[m.from].Man?
    requires g.v.board[m.from].kind in g.v.checkSquares && Rook in g.v.checkSquares
    ensures ChecksKing(g.v, m) <==> Attacked(ApplyMove(g.v.board, g.v.us, m), KingSq(g.v.board, g.v.us.Other()), g.v.us)
  {
    hide Generated, RookHome, Fen.EpCounts, Fen.EpPawns, KingSq, ViewOk, EnemyKingSafe, Attacked, ApplyMove,
        ChecksKing, Legal, Castling.CastlingLegal, ByRules;
    match m.mtype {
      case Normal =>
        GeneratedNormal(g, m);
        ChecksOfNormal(g.v, m);
      case Promotion =>
        GeneratedPromotion(g, m);
        PromotionCheckExact(g.v, m);
      case EnPassant =>
        GeneratedEnPassant(g, m);
        TakeWellFormed(g.v, m);
        CaptureCheckExact(g.v, m.to, m.to - PawnPush(g.v.us), m.from);
      case Castling =>
        GeneratedCastling(g, m);
        PassedWay(g.v, m);
        Castling.CastlingCheckExact(g.v, m);
    }
  }

  lemma PassedWay(v: View, m: Move)
    requires Pieces(v.board, v.us, King) != {} && v.us in v.blockers && PassesLegal(v, m)
        && m.mtype == MoveType.Castling
    ensures Castling.WaySafe(v, m)
  {
    Castling.CastlingLegalMeans(v, m);
    hide Castling.CastlingLegal, Castling.WaySafe;
  }

  /** A plain move passes over empty squares only. */
  lemma PathIsClear(g: MoveGen.Source, m: Move)
    requires Coherent(g) && Pieces(g.v.board, g.v.us, King) != {} && Generated(g, m) && m.mtype == Normal
    ensures PathClear(g.v.board, m.from, m.to)
  {
    GeneratedNormal(g, m);
    hide Coherent, Generated, PseudoLegal, KingSq, Between;
    forall x: Square | Between(m.from, x, m.to) ensures g.v.board[x] == Empty {
      PathOpen(g.v, m, x);
      Castling.Occupied(g.v.board, x);
    }
  }
}
