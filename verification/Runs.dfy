/**
 * Playing on from a string: whatever generated legal moves, passes and take-backs follow, the
 * position stays one that generator, legality test and do_move may rely on.
 */
module Runs {
  import opened Options
  import opened Types
  import opened Board
  import opened Threats
  import opened Checks
  import opened Legality
  import opened Keys
  import opened Making
  import opened States
  import opened Playing
  import opened Position
  import EnPassant
  import Castling
  import Features
  import Fen
  import MoveGen
  import Rules

  /** What `set_castling_right` records of the rooks, fixed from then on. */
  datatype Home = Home(rookSquare: CastlingRight -> Square, path: CastlingRight -> Bitboard, chess960: bool)

  function Owner(cr: CastlingRight): Color { if cr == WhiteOO || cr == WhiteOOO then White else Black }

  function KingSide(cr: CastlingRight): bool { cr == WhiteOO || cr == BlackOO }

  /** King and rook of a right are where they were when it was recorded, and moving either takes it away. */
  ghost predicate Held(h: Home, mask: Square -> set<CastlingRight>, b: Board, cr: CastlingRight) {
    var c := Owner(cr);
    Pieces(b, c, King) != {} && HeldAt(h, mask, b, cr, KingSq(b, c))
  }

  ghost predicate HeldAt(h: Home, mask: Square -> set<CastlingRight>, b: Board, cr: CastlingRight, k: Square) {
    var c, r := Owner(cr), h.rookSquare(cr);
    && RelativeRank(c, k) == 0 && RelativeRank(c, r) == 0 && b[r] == Man(c, Rook) && (KingSide(cr) <==> r > k)
    && h.path(cr) == Castling.PathOf(c, Move(k, r, MoveType.Castling, Knight))
    && cr in mask(k) && cr in mask(r)
  }

  /** The rights of a state are held, and its en passant square is one a string would record. */
  ghost predicate StateReady(h: Home, mask: Square -> set<CastlingRight>, p: Snap, c: Carried) {
    && Fen.HasKings(p.board)
    && (c.epSquare.Some? ==>
        RelativeRank(p.stm, c.epSquare.value) == 5 && Fen.EpCounts(p.board, p.stm, c.epSquare.value))
    && forall cr :: cr in c.castlingRights ==> Held(h, mask, p.board, cr)
  }

  /** Whose king moves, and whose does not. */
  lemma KingsMove(b: Board, us: Color, ep: Option<Square>, m: Move, c: Color)
    requires OneKingEach(b) && MoveOk(b, us, ep, m) && Pieces(b, c, King) != {} && m.from != KingSq(b, c)
    ensures Pieces(ApplyMove(b, us, m), c, King) != {} && KingSq(ApplyMove(b, us, m), c) == KingSq(b, c)
  {
    var a, k := ApplyMove(b, us, m), KingSq(b, c);
    KingsStay(b, us, ep, m);
    KingUnique(a, c, k);
    KingUnique(b, us, m.from);
    if c == us { KingNotTouched(b, us, ep, m, k); } else { NotTouched(b, us, ep, m, k); }
    hide *;
  }

  /** A right that survives the mask is held on the new board. */
  lemma RightStays(h: Home, mask: Square -> set<CastlingRight>, b: Board, us: Color, ep: Option<Square>, m: Move,
      cr: CastlingRight)
    requires OneKingEach(b) && MoveOk(b, us, ep, m) && Held(h, mask, b, cr) && cr !in mask(m.from) + mask(Target(us, m))
    ensures Held(h, mask, ApplyMove(b, us, m), cr)
  {
    var c, k, r := Owner(cr), KingSq(b, Owner(cr)), h.rookSquare(cr);
    KingsMove(b, us, ep, m, c);
    CastlingIsKings(b, us, ep, m);
    KingUnique(b, us, m.from);
    hide MoveOk, ApplyMove, KingSq, Castling.PathOf, RelativeRank, OneKingEach, Pieces;
    NotTouched(b, us, ep, m, r);
  }

  lemma CastlingIsKings(b: Board, us: Color, ep: Option<Square>, m: Move)
    requires MoveOk(b, us, ep, m)
    ensures m.mtype == MoveType.Castling ==> b[m.from] == Man(us, King) && b[m.to] == Man(us, Rook)
    ensures m.mtype != MoveType.Castling ==> Target(us, m) == m.to
  {
    hide PawnAttacks, RelativeRank, Xor16, Landing;
  }

  /** A pawn that moves by two ranks steps from its first square over an empty one. */
  lemma TwoRanks(v: View, m: Move)
    requires Pieces(v.board, v.us, King) != {} && PseudoLegal(v, m) && m.mtype == Normal
        && v.board[m.from].kind == Pawn && Xor16(m.from, m.to)
    ensures 0 <= m.to - PawnPush(v.us) < 64 && EnPassant.DoubleStep(v.board, v.us, m, m.to - PawnPush(v.us))
  {
    if m.to in PawnBB(v.us, m.from) { NotTwoRanks(v.us, m.from, m.to); }
    hide PawnBB, ByColor, KingSq;
  }

  /** Only a plain pawn move can be by two ranks. */
  lemma PlainStep(b: Board, us: Color, ep: Option<Square>, m: Move)
    requires MoveOk(b, us, ep, m) && b[m.from].kind == Pawn && Xor16(m.from, m.to)
    ensures m.mtype == Normal
  {
    if m.mtype == EnPassant { NotTwoRanks(us, m.from, m.to); }
    hide RelativeRank, PawnAttacks;
  }

  /** The square recorded after a move is one a string of the new position would record. */
  lemma EpFollows(g: MoveGen.Source, m: Move)
    requires Coherent(g) && KingsOk(g.v.board, g.v.us) && Pieces(g.v.board, g.v.us, King) != {} && Generated(g, m)
    requires g.v.board[m.from].Man? && g.v.board[m.from].kind == Pawn && Xor16(m.from, m.to)
    ensures 0 <= m.to - PawnPush(g.v.us) < 64 && g.v.us.Other() in g.v.blockers
    ensures var us, a := g.v.us, ApplyMove(g.v.board, g.v.us, m);
            var how := NewEp(g.v.board, us, m, g.v.blockers[us.Other()]);
            how.Some? ==>
                RelativeRank(us.Other(), how.value) == 5 && Fen.HasKings(a) && Fen.EpCounts(a, us.Other(), how.value)
  {
    var b, us := g.v.board, g.v.us;
    CoherentSource(g);
    GeneratedWellFormed(g, m);
    PlainStep(b, us, g.ep, m);
    GeneratedNormal(g, m);
    TwoRanks(g.v, m);
    var e: Square := m.to - PawnPush(us);
    EnPassant.RecordedExactly(b, us, m, e);
    SixthRank(b, us, m, e);
    hide Generated, MoveOk, Fen.EpCounts, ApplyMove, KingSq, KingsOk, AttackersTo, Blockers, CheckSquaresOk,
        PseudoLegal, NewEp, RelativeRank, EnPassant.DoubleStep;
  }

  lemma SixthRank(b: Board, us: Color, m: Move, e: Square)
    requires EnPassant.DoubleStep(b, us, m, e)
    ensures RelativeRank(us.Other(), e) == 5
  {}

  /** The masks of a sound state are those the questions are asked of. */
  lemma SoundView(z: Zobrist, p: Snap, c: Carried, key: Key, checkers: Bitboard, blockers: map<Color, Bitboard>,
                  pinners: map<Color, Bitboard>, cs: map<PieceType, Bitboard>, chess960: bool)
    requires Sound(z, p, c, key, checkers, blockers, pinners, cs)
    ensures var v := View(p.board, p.stm, checkers, blockers, cs, chess960);
        ViewOk(v) && EnemyKingSafe(v) && KingsOk(p.board, p.stm)
  {
    hide KeysOk, Attacked, AttackersTo, Blockers, Pinners, KingSq, OneKingEach, Occ, ByColor, Pieces;
  }

  /** The position as generator and legality test read it. */
  function SourceOf(h: Home, b: Board, stm: Color, c: Carried, checkers: Bitboard, blockers: map<Color, Bitboard>,
                    cs: map<PieceType, Bitboard>): MoveGen.Source {
    MoveGen.Source(View(b, stm, checkers, blockers, cs, h.chess960), c.epSquare, c.castlingRights, h.path, h.rookSquare)
  }

  lemma SourceCoherent(h: Home, mask: Square -> set<CastlingRight>, z: Zobrist, p: Snap, c: Carried, key: Key,
      checkers: Bitboard,
                       blockers: map<Color, Bitboard>, pinners: map<Color, Bitboard>, cs: map<PieceType, Bitboard>)
    requires Sound(z, p, c, key, checkers, blockers, pinners, cs) && StateReady(h, mask, p, c)
    ensures Coherent(SourceOf(h, p.board, p.stm, c, checkers, blockers, cs)) && KingsOk(p.board, p.stm)
  {
    hide Sound, ViewOk, EnemyKingSafe, KingsOk, Fen.EpCounts, KingSq, Castling.PathOf, RelativeRank, Held, RookHome;
    SoundView(z, p, c, key, checkers, blockers, pinners, cs, h.chess960);
    forall kingSide | MoveGen.RightOf(p.stm, kingSide) in c.castlingRights
      ensures Pieces(p.board, p.stm, King) != {} && RookHome(SourceOf(h, p.board, p.stm, c, checkers, blockers, cs),
          kingSide)
    {
      HeldIsHome(h, mask, SourceOf(h, p.board, p.stm, c, checkers, blockers, cs), kingSide);
    }
  }

  lemma HeldIsHome(h: Home, mask: Square -> set<CastlingRight>, g: MoveGen.Source, kingSide: bool)
    requires Held(h, mask, g.v.board, MoveGen.RightOf(g.v.us, kingSide))
    requires g.rookSquare == h.rookSquare && g.path == h.path && g.v.chess960 == h.chess960
    ensures Pieces(g.v.board, g.v.us, King) != {} && RookHome(g, kingSide)
  {
    var cr := MoveGen.RightOf(g.v.us, kingSide);
    assert Owner(cr) == g.v.us && KingSide(cr) == kingSide;
    hide KingSq, Castling.PathOf, RelativeRank, Pieces;
  }

  /** What the state after a move records of rights and en passant is in order again. */
  lemma StateFollows(h: Home, mask: Square -> set<CastlingRight>, g: MoveGen.Source, m: Move, ply: int, c: Carried,
      next: Carried)
    requires Coherent(g) && KingsOk(g.v.board, g.v.us) && Pieces(g.v.board, g.v.us, King) != {} && Generated(g, m)
    requires g.ep == c.epSquare && g.rights == c.castlingRights && StateReady(h, mask, Snap(g.v.board, g.v.us, ply), c)
    requires g.v.us.Other() in g.v.blockers && Pieces(g.v.board, g.v.us.Other(), King) != {} && g.v.board[m.from].Man?
    requires g.v.board[m.from].kind == Pawn && Xor16(m.from, m.to) ==> 0 <= m.to - PawnPush(g.v.us) < 64
    requires next.castlingRights == c.castlingRights - (mask(m.from) + mask(Target(g.v.us, m)))
    requires next.epSquare == if g.v.board[m.from].kind == Pawn && Xor16(m.from, m.to)
                              then NewEp(g.v.board, g.v.us, m, g.v.blockers[g.v.us.Other()]) else None
    ensures StateReady(h, mask, Snap(ApplyMove(g.v.board, g.v.us, m), g.v.us.Other(), ply + 1), next)
  {
    var b, us, a := g.v.board, g.v.us, ApplyMove(g.v.board, g.v.us, m);
    GeneratedWellFormed(g, m);
    KingsStay(b, us, g.ep, m);
    BothKings(a);
    if b[m.from].kind == Pawn && Xor16(m.from, m.to) { EpFollows(g, m); }
    hide Coherent, Generated, Held, Fen.EpCounts, MoveOk, ApplyMove, NewEp, Xor16, RelativeRank, Target, Pieces;
    forall cr | cr in next.castlingRights ensures Held(h, mask, a, cr) { RightStays(h, mask, b, us, g.ep, m, cr); }
  }

  lemma BothKings(b: Board)
    requires OneKingEach(b)
    ensures Fen.HasKings(b)
  {
    forall c ensures Pieces(b, c, King) != {} { KingUnique(b, c, 0); }
    hide OneKingEach, Pieces;
  }

  /** Passing keeps what the rights rest on and leaves no square to take on. */
  lemma PassFollows(h: Home, mask: Square -> set<CastlingRight>, p: Snap, c: Carried, next: Carried)
    requires StateReady(h, mask, p, c) && next.castlingRights == c.castlingRights && next.epSquare == None
    ensures StateReady(h, mask, p.(stm := p.stm.Other()), next)
  {
    hide Held, Fen.EpCounts, RelativeRank;
  }

  // ----- The position object -----

  /** A sound run every state of which generator, legality test and do_move may rely on. */
  ghost predicate Ready(q: Position, h: Home)
    reads q, q.board, q.line
  {
    q.Valid() && ZobristOk(q.z) && AllReady(h, q.castlingMask, q.past, q.line)
  }

  ghost predicate AllReady(h: Home, mask: Square -> set<CastlingRight>, snaps: seq<Snap>, states: seq<StateInfo>)
    reads states
  {
    |snaps| == |states| && forall i :: 0 <= i < |states| ==> StateReady(h, mask, snaps[i], states[i].carried)
  }

  /** The position as the generator reads it. */
  function Here(q: Position, h: Home): MoveGen.Source
    requires q.board.Length == 64
    reads q, q.board, q.st
  {
    SourceOf(h, q.board[..], q.sideToMove, q.st.carried, q.st.checkersBB, q.st.blockersForKing, q.st.checkSquares)
  }

  lemma HereCoherent(q: Position, h: Home)
    requires Ready(q, h)
    ensures q.Valid() && ZobristOk(q.z) && AllReady(h, q.castlingMask, q.past, q.line)
    ensures q.board.Length == 64 && |q.line| == |q.past| > 0 && q.st == q.line[|q.line| - 1]
    ensures q.past[|q.line| - 1] == Snap(q.Pieces64(), q.sideToMove, q.gamePly)
    ensures var g := Here(q, h);
            && Coherent(g) && KingsOk(g.v.board, g.v.us)
            && g.v.board == q.Pieces64() && g.v.us == q.sideToMove && g.ep == q.st.carried.epSquare
            && g.rights == q.st.carried.castlingRights && g.v.blockers == q.st.blockersForKing
                && g.v.checkers == q.st.checkersBB
    ensures StateReady(h, q.castlingMask, Snap(q.Pieces64(), q.sideToMove, q.gamePly), q.st.carried)
  {
    hide Sound, Coherent, KingsOk, StateReady, Consistent;
    var n := |q.line| - 1;
    assert Position.SoundState(q.z, q.past[n], q.st);
    SourceCoherent(h, q.castlingMask, q.z, q.past[n], q.st.carried, q.st.key, q.st.checkersBB, q.st.blockersForKing,
        q.st.pinners, q.st.checkSquares);
  }

  /** Is the move generated here, and does it pass `legal`? */
  ghost predicate Passes(q: Position, h: Home, m: Move)
    requires q.board.Length == 64
    reads q, q.board, q.st
  {
    var g := Here(q, h);
    Pieces(g.v.board, g.v.us, King) != {} && g.v.us in g.v.blockers && Generated(g, m) && PassesLegal(g.v, m)
  }

  /** Is it a castling that `legal` should not have let pass? */
  ghost predicate MissedHere(q: Position, h: Home, m: Move)
    requires q.board.Length == 64
    reads q, q.board, q.st
  {
    Passes(q, h, m) && Missed(Here(q, h).v, m)
  }

  /** May this move be played here? */
  ghost predicate MayPlay(q: Position, h: Home, m: Move)
    requires q.board.Length == 64
    reads q, q.board, q.st
  {
    Passes(q, h, m) && !MissedHere(q, h, m)
  }

  lemma MayPlayMeans(q: Position, h: Home, m: Move)
    requires q.board.Length == 64 && MayPlay(q, h, m)
    ensures var g := Here(q, h);
            Pieces(g.v.board, g.v.us, King) != {} && g.v.us in g.v.blockers && Generated(g, m) && PassesLegal(g.v, m)
            && !Missed(g.v, m)
  {
    hide Generated, PassesLegal, Missed, Here, Pieces;
  }

  /** A run ready so far and a state that follows. */
  lemma JoinReady(q: Position, h: Home, snaps: seq<Snap>, states: seq<StateInfo>)
    requires q.Valid() && ZobristOk(q.z) && AllReady(h, q.castlingMask, snaps, states)
    requires q.line == states + [q.st] && |q.past| == |states| + 1 && q.past[..|states|] == snaps
    requires StateReady(h, q.castlingMask, q.past[|states|], q.st.carried)
    ensures Ready(q, h)
  {
    hide StateReady, Position.Valid, ZobristOk;
    forall i | 0 <= i < |q.line| ensures StateReady(h, q.castlingMask, q.past[i], q.line[i].carried) {
      if i < |states| { assert q.past[i] == snaps[i] && q.line[i] == states[i]; }
    }
  }

  /** All that do_move asks for. */
  lemma PlayReady(g: MoveGen.Source, m: Move)
    requires Coherent(g) && Pieces(g.v.board, g.v.us, King) != {} && g.v.us in g.v.blockers && Generated(g, m)
        && PassesLegal(g.v, m) && !Missed(g.v, m)
    ensures Playable(g.v.board, g.v.us, g.ep, m) && MoveOk(g.v.board, g.v.us, g.ep, m)
    ensures m.mtype == Normal ==> PathClear(g.v.board, m.from, m.to)
    ensures g.v.us.Other() in g.v.blockers && Pieces(g.v.board, g.v.us.Other(), King) != {} && g.v.board[m.from].Man?
    ensures g.v.board[m.from].kind in g.v.checkSquares && Rook in g.v.checkSquares
    ensures g.v.board[m.from].kind == Pawn && Xor16(m.from, m.to) ==> 0 <= m.to - PawnPush(g.v.us) < 64
    ensures Rules.ChecksKing(g.v, m) <==> InCheckAfter(g.v.board, g.v.us, m)
  {
    LegalIsByRules(g, m);
    GeneratedWellFormed(g, m);
    CoherentSource(g);
    ChecksRight(g, m);
    hide Missed;
    if m.mtype == Normal { PathIsClear(g, m); }
    if g.v.board[m.from].kind == Pawn && Xor16(m.from, m.to) { DoubleStepInside(g.v.board, g.v.us, g.ep, m); }
    hide Xor16, Coherent, Playable, Generated, PassesLegal, PathClear, Rules.ChecksKing, InCheckAfter, MoveOk,
        MoveGen.SourceOk;
  }

  /**
   * A generated legal move is played: nothing do_move asserts can fail, the report says exactly
   * what changed on the board, and the position is ready for the next move.
   */
  method Play(q: Position, h: Home, m: Move, newSt: StateInfo) returns (d: Features.Dirties)
    requires Ready(q, h) && newSt !in q.line && MayPlay(q, h, m)
    modifies q, q.board, newSt
    ensures Ready(q, h) && q.line == old(q.line) + [newSt] && q.played == old(q.played) + [Made(m)]
    ensures q.past == old(q.past) + [Snap(q.Pieces64(), q.sideToMove, q.gamePly)]
    ensures q.Pieces64() == ApplyMove(old(q.Pieces64()), old(q.sideToMove), m)
        && q.sideToMove == old(q.sideToMove).Other()
    ensures Features.Describes(d, old(q.Pieces64()), q.Pieces64())
  {
    hide *;
    HereCoherent(q, h);
    MayPlayMeans(q, h, m);
    ghost var b, us, ply, c, snaps, states := q.Pieces64(), q.sideToMove, q.gamePly, q.st.carried, q.past, q.line;
    var g := Here(q, h);
    PlayReady(g, m);
    BoardIs(q);
    assert q.board[m.from] == b[m.from];
    var givesCheck := Rules.ChecksKing(g.v, m);
    var dts := new DirtyThreats();
    d := q.DoMove(m, newSt, givesCheck, dts);
    q.TopOfRun();
    StateFollows(h, q.castlingMask, g, m, ply, c, newSt.carried);
    JoinReady(q, h, snaps, states);
  }

  lemma BoardIs(q: Position)
    requires q.Valid()
    ensures q.board.Length == 64 && q.board[..] == q.Pieces64()
  {
    hide Consistent;
  }

  /** A pass, when not in check, leaves the position ready too. */
  method Pass(q: Position, h: Home, newSt: StateInfo)
    requires Ready(q, h) && newSt !in q.line && q.st.checkersBB == {}
    modifies q, newSt
    ensures Ready(q, h) && q.line == old(q.line) + [newSt] && q.played == old(q.played) + [Null]
    ensures q.past == old(q.past) + [Snap(q.Pieces64(), q.sideToMove, q.gamePly)]
    ensures q.Pieces64() == old(q.Pieces64()) && q.sideToMove == old(q.sideToMove).Other()
  {
    hide *;
    HereCoherent(q, h);
    ghost var p, c, snaps, states := q.past[|q.past| - 1], q.st.carried, q.past, q.line;
    q.DoNullMove(newSt);
    q.TopOfRun();
    PassFollows(h, q.castlingMask, p, c, newSt.carried);
    JoinReady(q, h, snaps, states);
  }

  /** Taking back everything since an earlier state gives that position back, ready as it was. */
  method TakeBack(q: Position, h: Home, moves: seq<Played>, n: nat)
    requires Ready(q, h) && 1 <= n <= |q.line| && |q.played| >= n - 1 && q.played[n - 1..] == moves && n <= |q.past|
    modifies q, q.board
    ensures Ready(q, h) && q.line == old(q.line[..n]) && q.past == old(q.past[..n])
        && q.played == old(q.played[..n - 1])
    ensures Snap(q.Pieces64(), q.sideToMove, q.gamePly) == old(q.past[n - 1])
  {
    hide *;
    HereCoherent(q, h);
    ghost var snaps, states := q.past, q.line;
    q.Unwind(moves, n);
    KeepReady(q, h, snaps, states, n);
  }

  lemma KeepReady(q: Position, h: Home, snaps: seq<Snap>, states: seq<StateInfo>, n: nat)
    requires q.Valid() && ZobristOk(q.z) && AllReady(h, q.castlingMask, snaps, states)
    requires n <= |states| == |snaps| && q.line == states[..n] && q.past == snaps[..n]
    ensures Ready(q, h)
  {
    hide StateReady, Position.Valid, ZobristOk;
  }

  /** No rook with a right can be an inner one: the mode allows for them, or they stand in corners. */
  ghost predicate Outer(h: Home) {
    h.chess960 || forall cr :: File(h.rookSquare(cr)) == 0 || File(h.rookSquare(cr)) == 7
  }

  /**
   * The legal moves of a ready position: each is listed once and may be played, none is missing,
   * but for castlings that `legal` does not see through; and where no rook is an inner one there
   * are none of these.
   */
  method LegalMoves(q: Position, h: Home) returns (l: seq<Move>)
    requires Ready(q, h)
    ensures q.board.Length == 64
    ensures forall m :: (m in l <==> MayPlay(q, h, m) || MissedHere(q, h, m)) && multiset(l)[m] <= 1
    ensures Outer(h) ==> forall m :: !MissedHere(q, h, m)
  {
    hide *;
    HereCoherent(q, h);
    l := GenerateLegal(Here(q, h));
    ListMayPlay(q, h, l);
    NoneMissed(q, h);
  }

  lemma ListMayPlay(q: Position, h: Home, l: seq<Move>)
    requires q.board.Length == 64 && Coherent(Here(q, h)) && Pieces(Here(q, h).v.board, Here(q, h).v.us, King) != {}
        && ViewOk(Here(q, h).v) && Here(q, h).v.us in Here(q, h).v.blockers
    requires forall m :: multiset(l)[m] ==
               if Moves(Here(q, h), m) && (ByRules(Here(q, h), m) || Missed(Here(q, h).v, m)) then 1 else 0
    ensures forall m :: (m in l <==> MayPlay(q, h, m) || MissedHere(q, h, m)) && multiset(l)[m] <= 1
  {
    hide Moves, ByRules, Missed, Coherent, Generated, PassesLegal, Here, ViewOk, Pieces;
    CoherentSource(Here(q, h));
    forall m ensures (m in l <==> MayPlay(q, h, m) || MissedHere(q, h, m)) && multiset(l)[m] <= 1 {
      LegalMovesExact(Here(q, h), m);
      assert m in l <==> multiset(l)[m] > 0;
    }
  }

  lemma NoneMissed(q: Position, h: Home)
    requires q.board.Length == 64 && Coherent(Here(q, h))
    ensures Outer(h) ==> forall m :: !MissedHere(q, h, m)
  {
    hide Coherent, Generated, PassesLegal, Missed, Pieces;
    forall m | Outer(h) && Passes(q, h, m) ensures !Missed(Here(q, h).v, m) { OuterNotMissed(Here(q, h), h, m); }
  }

  lemma OuterNotMissed(g: MoveGen.Source, h: Home, m: Move)
    requires Coherent(g) && Pieces(g.v.board, g.v.us, King) != {} && g.v.us in g.v.blockers && Generated(g, m)
    requires Outer(h) && g.rookSquare == h.rookSquare && g.v.chess960 == h.chess960
    ensures !Missed(g.v, m)
  {
    hide Coherent, Generated, Pieces, KingSq, Castling.WaySafe;
    if m.mtype == MoveType.Castling {
      CastlingSide(g, m);
      NothingMissed(g, m);
    }
  }

  // ----- From a string -----

  function RookOf(r: Fen.Rights, cr: CastlingRight): Option<Square> { r.Rook(Owner(cr), KingSide(cr)) }

  function RookSquare(r: Fen.Rights, cr: CastlingRight): Square {
    if RookOf(r, cr).Some? then RookOf(r, cr).value else 0
  }

  function RightsOf(r: Fen.Rights): set<CastlingRight> {
    set cr: CastlingRight | cr in {WhiteOO, WhiteOOO, BlackOO, BlackOOO} && RookOf(r, cr).Some?
  }

  /** `castlingRookSquare` and `castlingPath` as the rights read fill them. */
  function HomeOf(p: Fen.Setup): Home
    requires Fen.HasKings(p.board)
  {
    var kings := map[White := KingSq(p.board, White), Black := KingSq(p.board, Black)];
    var rights := p.rights;
    Home(cr => RookSquare(rights, cr),
         cr => if Owner(cr) in kings
               then Castling.PathOf(Owner(cr),
                                    Move(kings[Owner(cr)], RookSquare(rights, cr), MoveType.Castling, Knight))
               else {},
         p.chess960)
  }

  /** `castlingRightsMask`: the king's square and the rook's take the right away. */
  function MaskOf(p: Fen.Setup): Square -> set<CastlingRight>
    requires Fen.HasKings(p.board)
  {
    var kings := map[White := KingSq(p.board, White), Black := KingSq(p.board, Black)];
    var rights := p.rights;
    s => set cr: CastlingRight | cr in RightsOf(rights)
        && ((Owner(cr) in kings && s == kings[Owner(cr)]) || RookOf(rights, cr) == Some(s))
  }

  /** Every rook with a right stands in a corner. */
  predicate InCorners(r: Fen.Rights) {
    forall cr | cr in RightsOf(r) :: File(RookSquare(r, cr)) == 0 || File(RookSquare(r, cr)) == 7
  }

  lemma RightOfString(p: Fen.Setup, cr: CastlingRight)
    requires Fen.Proper(p) && Fen.HasKings(p.board) && cr in RightsOf(p.rights)
    ensures Held(HomeOf(p), MaskOf(p), p.board, cr)
  {
    var c, r := Owner(cr), RookOf(p.rights, cr).value;
    Fen.KingsThere(p.board);
    hide Castling.PathOf, Fen.KingAtHome, Fen.BoardError, Fen.EpCounts, AttackersToExist, Occ, Pieces, RelativeRank;
    assert Fen.RookOk(p.board, c, KingSide(cr), r);
    var i := Fen.HomeIndex(p.board, c);
  }

  /** Whatever position is read from a string, it is ready. */
  lemma StringReady(p: Fen.Setup, c: Carried)
    requires Fen.Proper(p) && Fen.HasKings(p.board)
    requires c.castlingRights == RightsOf(p.rights) && c.epSquare == p.ep
    ensures StateReady(HomeOf(p), MaskOf(p), Snap(p.board, p.side, p.ply), c)
    ensures p.chess960 || InCorners(p.rights) ==> Outer(HomeOf(p))
  {
    hide Held, HomeOf, MaskOf, Fen.EpCounts, Fen.BoardError, AttackersToExist, Fen.WellPlaced, Occ, Pieces, RightsOf,
        InCorners, Outer;
    if p.chess960 || InCorners(p.rights) { OuterIfCorners(p); }
    forall cr | cr in c.castlingRights ensures Held(HomeOf(p), MaskOf(p), p.board, cr) { RightOfString(p, cr); }
  }

  lemma OuterIfCorners(p: Fen.Setup)
    requires Fen.HasKings(p.board) && (p.chess960 || InCorners(p.rights))
    ensures Outer(HomeOf(p))
  {
    hide Castling.PathOf, Pieces, KingSq;
    forall cr | !p.chess960 ensures File(HomeOf(p).rookSquare(cr)) == 0 || File(HomeOf(p).rookSquare(cr)) == 7 {
      if RookOf(p.rights, cr).Some? { assert cr in RightsOf(p.rights); }
    }
  }
}
