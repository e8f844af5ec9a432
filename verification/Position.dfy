/**
 * The mutable board: the piece array, the bitboards and the piece counts kept in step,
 * and the list of threats each change creates or destroys.
 */
module Position {
  import opened Options
  import opened Types
  import opened Geometry
  import opened Board
  import opened Threats
  import opened Checks
  import opened Legality
  import opened Keys
  import opened Making
  import opened Repetition
  import opened States
  import Features

  /** What a move needs to be taken back, one object per ply, linked to the one before. */
  class StateInfo {
    var carried: Carried
    var key: Key
    var checkersBB: Bitboard
    var previous: StateInfo?
    var blockersForKing: map<Color, Bitboard>
    var pinners: map<Color, Bitboard>
    var checkSquares: map<PieceType, Bitboard>
    var capturedPiece: Piece
    var repetition: int

    constructor ()
    {
      carried := Carried({}, {}, {}, map[], map[], {}, 0, 0, None);
      key, checkersBB, previous, repetition := {}, {}, null, 0;
      blockersForKing, pinners, checkSquares, capturedPiece := map[], map[], map[], Empty;
    }
  }

  class Position {
    const board: array<Piece>
    var allBB: Bitboard
    var byTypeBB: map<PieceType, Bitboard>
    var byColorBB: map<Color, Bitboard>
    var pieceCount: map<Piece, int>
    var colorCount: map<Color, int>
    const z: Zobrist
    const castlingMask: Square -> set<CastlingRight>
    var st: StateInfo
    var gamePly: int
    var sideToMove: Color

    // The run so far: the chain of states, the position at each, and what was played between them.
    ghost var line: seq<StateInfo>
    ghost var past: seq<Snap>
    ghost var played: seq<Played>

    /** The piece array as a value. */
    ghost function Pieces64(): (b: Board)
      requires board.Length == 64
      reads this, board
    {
      board[..]
    }

    /** The three redundant forms of the board agree. */
    ghost predicate BoardOk()
      reads this, board
    {
      && board.Length == 64
      && Consistent(Pieces64(), allBB, byTypeBB, byColorBB, pieceCount, colorCount)
    }

    /** One turn of the slider loop. */
    method ProcessSlider(pc: Piece, put: bool, s: Square, dts: DirtyThreats, sliderSq: Square,
                         reach: Bitboard, occupiedNoK: Bitboard, noRays: Bitboard, addDirect: bool)
      requires BoardOk() && pc.Man? && board[s] == pc
      requires sliderSq in SlidersOn(Pieces64(), s)
      requires reach == BishopBB(Occ(Pieces64()), s) + RookBB(Occ(Pieces64()), s)
      requires occupiedNoK == OccNoKings(Pieces64())
      requires addDirect ==> !pc.kind.King?
      modifies dts
      ensures Appended(old(dts.list), dts.list, SliderWork(Pieces64(), s, put, noRays, addDirect, {sliderSq}))
    {
      hide IsThreat, Discovered, Attacks, RayPass, Consistent, BishopBB, RookBB;
      ghost var b := Pieces64();
      ghost var l0 := dts.list;
      var slider := board[sliderSq];
      var ray := RayPass(sliderSq, s);
      var discovered := ray * reach * occupiedNoK;
      forall e { BehindOne(b, s, put, noRays, sliderSq, e); }
      if discovered != {} && !(noRays <= ray) {
        var threatenedSq := Lsb(discovered);
        var threatenedPc := board[threatenedSq];
        if CanSliderThreat(threatenedPc, slider) {
          dts.list := dts.list + [DirtyThreat(Threat(slider, threatenedPc, sliderSq, threatenedSq), !put)];
        }
      }
      assert Appended(l0, dts.list, Behind(b, s, put, noRays, {sliderSq}));
      ghost var l1 := dts.list;
      if addDirect {
        forall e { IncomingOne(b, s, put, sliderSq, e); }
        if CanSliderThreat(pc, slider) {
          dts.list := dts.list + [DirtyThreat(Threat(slider, pc, sliderSq, s), put)];
        }
        assert Appended(l1, dts.list, Incoming(b, s, put, {sliderSq}));
        AppendBoth(l0, l1, dts.list, Behind(b, s, put, noRays, {sliderSq}), Incoming(b, s, put, {sliderSq}));
      }
    }

    /** The slider loop: discovered threats, and direct ones when asked for. */
    method ProcessSliders(pc: Piece, put: bool, s: Square, dts: DirtyThreats, sliders0: Bitboard,
                          reach: Bitboard, occupiedNoK: Bitboard, noRays: Bitboard, addDirect: bool)
      requires BoardOk() && pc.Man? && board[s] == pc
      requires sliders0 == SlidersOn(Pieces64(), s)
      requires reach == BishopBB(Occ(Pieces64()), s) + RookBB(Occ(Pieces64()), s)
      requires occupiedNoK == OccNoKings(Pieces64())
      requires addDirect ==> !pc.kind.King?
      modifies dts
      ensures Appended(old(dts.list), dts.list, SliderWork(Pieces64(), s, put, noRays, addDirect, sliders0))
    {
      hide Appended, BoardOk, SlidersOn, OccNoKings, BishopBB, RookBB, Occ;
      var sliders := sliders0;
      ghost var b := Pieces64();
      NoWork(b, s, put, noRays, addDirect, dts.list);
      assert sliders0 - sliders == {};
      while sliders != {}
        invariant sliders <= sliders0
        invariant Appended(old(dts.list), dts.list, SliderWork(b, s, put, noRays, addDirect, sliders0 - sliders))
      {
        ghost var l0 := dts.list;
        ghost var done := sliders0 - sliders;
        var sliderSq := Lsb(sliders);
        sliders := sliders - {sliderSq};
        assert sliders0 - sliders == done + {sliderSq};
        ProcessSlider(pc, put, s, dts, sliderSq, reach, occupiedNoK, noRays, addDirect);
        SliderWorkStep(b, s, put, noRays, addDirect, done, sliderSq);
        AppendBoth(old(dts.list), l0, dts.list, SliderWork(b, s, put, noRays, addDirect, done),
                   SliderWork(b, s, put, noRays, addDirect, {sliderSq}));
      }
      assert sliders0 - sliders == sliders0;
    }

    /** The loop over the squares the piece on s threatens. */
    method EmitOutgoing(pc: Piece, put: bool, s: Square, dts: DirtyThreats, targets: Bitboard, ghost b: Board)
      requires BoardOk() && pc.Man? && b == Pieces64()[s := pc]
      requires forall q :: q in targets ==> IsThreat(b, Threat(pc, b[q], s, q))
      modifies dts
      ensures Appended(old(dts.list), dts.list, Outgoing(b, s, put, targets))
    {
      hide Appended, BoardOk, Attacks;
      var threatened := targets;
      NoWork(b, s, put, {}, false, dts.list);
      assert targets - threatened == {};
      while threatened != {}
        invariant threatened <= targets
        invariant Appended(old(dts.list), dts.list, Outgoing(b, s, put, targets - threatened))
      {
        ghost var l0 := dts.list;
        ghost var done := targets - threatened;
        var threatenedSq := Lsb(threatened);
        threatened := threatened - {threatenedSq};
        assert targets - threatened == done + {threatenedSq};
        assert IsThreat(b, Threat(pc, b[threatenedSq], s, threatenedSq));
        NoSelfAttack(Occ(b), pc, s);
        var threatenedPc := board[threatenedSq];
        var x := DirtyThreat(Threat(pc, threatenedPc, s, threatenedSq), put);
        dts.list := dts.list + [x];
        OutgoingStep(b, s, put, done, threatenedSq);
        assert Outgoing(b, s, put, {threatenedSq}) == iset{x};
        AppendOne(old(dts.list), l0, Outgoing(b, s, put, done), x);
      }
      assert targets - threatened == targets;
    }

    /** The loop over the pieces that threaten s. */
    method EmitIncoming(pc: Piece, put: bool, s: Square, dts: DirtyThreats, sources: Bitboard, ghost b: Board)
      requires BoardOk() && pc.Man? && b == Pieces64()[s := pc]
      requires forall q :: q in sources ==> IsThreat(b, Threat(b[q], pc, q, s))
      modifies dts
      ensures Appended(old(dts.list), dts.list, Incoming(b, s, put, sources))
    {
      hide Appended, BoardOk, Attacks;
      var incoming := sources;
      NoWork(b, s, put, {}, false, dts.list);
      assert sources - incoming == {};
      while incoming != {}
        invariant incoming <= sources
        invariant Appended(old(dts.list), dts.list, Incoming(b, s, put, sources - incoming))
      {
        ghost var l0 := dts.list;
        ghost var done := sources - incoming;
        var srcSq := Lsb(incoming);
        incoming := incoming - {srcSq};
        assert sources - incoming == done + {srcSq};
        assert IsThreat(b, Threat(b[srcSq], pc, srcSq, s));
        NoSelfAttack(Occ(b), pc, s);
        var srcPc := board[srcSq];
        var x := DirtyThreat(Threat(srcPc, pc, srcSq, s), put);
        dts.list := dts.list + [x];
        IncomingStep(b, s, put, done, srcSq);
        assert Incoming(b, s, put, {srcSq}) == iset{x};
        AppendOne(old(dts.list), l0, Incoming(b, s, put, done), x);
      }
      assert sources - incoming == sources;
    }

    /**
     * Reports what changes around square s when pc is put there or taken away.  The square
     * holds pc, or, while one piece replaces another, is momentarily empty.
     */
    method UpdatePieceThreats(pc: Piece, put: bool, s: Square, dts: DirtyThreats, computeRay: bool, noRays: Bitboard)
      requires BoardOk() && pc.Man?
      requires board[s] == pc || (board[s] == Empty && !computeRay)
      modifies dts
      ensures Appended(old(dts.list), dts.list,
                       Reported(Pieces64()[s := pc], s, put, computeRay, noRays))
    {
      hide Occ, ByType, ByColor, Pieces, OccNoKings, BishopBB, RookBB, KnightBB, PawnBB, AttackBB;
      hide Appended, Reported, SliderWork, Incoming, Outgoing, IsThreat, SlidersOn;
      ghost var a: Board := Pieces64();
      ghost var b: Board := a[s := pc];
      MaskAlgebra(a);
      assert computeRay ==> a == b;
      var occupied := allBB;
      var rookQueens := byTypeBB[Rook] + byTypeBB[Queen];
      var bishopQueens := byTypeBB[Bishop] + byTypeBB[Queen];
      var bAttacks := BishopBB(occupied, s);
      var rAttacks := RookBB(occupied, s);
      var occupiedNoK := occupied - byTypeBB[King];
      assert occupiedNoK == OccNoKings(a);

      var sliders := rookQueens * rAttacks + bishopQueens * bAttacks;
      var directSliders := if pc.kind.Queen? then sliders * byTypeBB[Queen] else sliders;
      assert sliders == SliderMask(a, s) && directSliders == DirectSliderMask(a, s, pc);
      MasksIgnoreSelf(a, s, pc);
      SliderMaskMeaning(b, s);
      ghost var l0 := dts.list;

      if pc.kind.King? {
        if computeRay {
          ProcessSliders(pc, put, s, dts, sliders, bAttacks + rAttacks, occupiedNoK, noRays, false);
        }
        KingAssembled(b, s, put, computeRay, noRays, l0, dts.list);
        return;
      }

      var whitePawns := byTypeBB[Pawn] * byColorBB[White];
      var blackPawns := byTypeBB[Pawn] * byColorBB[Black];
      assert whitePawns == Pieces(a, White, Pawn) && blackPawns == Pieces(a, Black, Pawn);
      var threatened := AttackBB(occupied, pc, s) * occupiedNoK;
      var incoming := KnightBB(s) * byTypeBB[Knight];
      if pc.kind.Knight? || pc.kind.Rook? {
        incoming := incoming + (PawnBB(White, s) * blackPawns + PawnBB(Black, s) * whitePawns);
      }
      assert incoming == LeaperMask(a, s, pc);
      match pc.kind {
        case Pawn => threatened := threatened * (byTypeBB[Knight] + byTypeBB[Rook]);
        case Bishop => threatened := threatened * (byTypeBB[Pawn] + byTypeBB[Knight] + byTypeBB[Bishop]
            + byTypeBB[Rook]);
        case Rook => threatened := threatened * (byTypeBB[Pawn] + byTypeBB[Knight] + byTypeBB[Bishop] + byTypeBB[Rook]);
        case _ => threatened := threatened * occupiedNoK;
      }
      assert threatened == ThreatenedMask(a, s, pc);
      hide ThreatenedMask, LeaperMask, SliderMask, DirectSliderMask, BoardOk;
      MasksMeaning(b, s);
      ghost var leapers := incoming;

      EmitOutgoing(pc, put, s, dts, threatened, b);
      ghost var l1 := dts.list;
      if computeRay {
        ProcessSliders(pc, put, s, dts, sliders, bAttacks + rAttacks, occupiedNoK, noRays, true);
      } else {
        incoming := incoming + directSliders;
      }
      assert incoming == leapers + (if computeRay then {} else DirectSliderMask(b, s, pc));
      ghost var l2 := dts.list;
      EmitIncoming(pc, put, s, dts, incoming, b);
      Assembled(b, s, put, computeRay, noRays, l0, l1, l2, dts.list);
    }

    /** The bookkeeping half of put_piece. */
    method Place(pc: Piece, s: Square)
      requires BoardOk() && pc.Man? && board[s] == Empty
      modifies this`allBB, this`byTypeBB, this`byColorBB, this`pieceCount, this`colorCount, board
      ensures BoardOk() && Pieces64() == old(Pieces64())[s := pc]
    {
      hide Consistent, Including, Adding;
      ghost var b: Board := Pieces64();
      PutConsistent(b, allBB, byTypeBB, byColorBB, pieceCount, colorCount, s, pc);
      board[s] := pc;
      byTypeBB := Including(byTypeBB, pc.kind, s);
      allBB := allBB + {s};
      byColorBB := Including(byColorBB, pc.color, s);
      pieceCount := Adding(pieceCount, pc, 1);
      colorCount := Adding(colorCount, pc.color, 1);
      assert Pieces64() == b[s := pc];
    }

    /** The bookkeeping half of remove_piece. */
    method Take(s: Square)
      requires BoardOk() && board[s].Man?
      modifies this`allBB, this`byTypeBB, this`byColorBB, this`pieceCount, this`colorCount, board
      ensures BoardOk() && Pieces64() == old(Pieces64())[s := Empty]
    {
      hide Consistent, Excluding, Adding;
      ghost var b: Board := Pieces64();
      TakeConsistent(b, allBB, byTypeBB, byColorBB, pieceCount, colorCount, s);
      var pc := board[s];
      allBB := allBB - {s};
      byTypeBB := Excluding(byTypeBB, pc.kind, s);
      byColorBB := Excluding(byColorBB, pc.color, s);
      board[s] := Empty;
      pieceCount := Adding(pieceCount, pc, -1);
      colorCount := Adding(colorCount, pc.color, -1);
      assert Pieces64() == b[s := Empty];
    }

    method PutPiece(pc: Piece, s: Square, dts: DirtyThreats?)
      requires BoardOk() && pc.Man? && board[s] == Empty
      modifies this`allBB, this`byTypeBB, this`byColorBB, this`pieceCount, this`colorCount, board, dts
      ensures BoardOk() && Pieces64() == old(Pieces64())[s := pc]
      ensures dts != null ==> Tracks(old(dts.list), dts.list, old(Pieces64()), Pieces64())
    {
      hide Appended, Tracks, Reported, Consistent;
      ghost var b: Board := Pieces64();
      Place(pc, s);
      if dts != null {
        assert Pieces64()[s := pc] == b[s := pc];
        ghost var l := dts.list;
        UpdatePieceThreats(pc, true, s, dts, true, AllSquares());
        PutTracks(b, s, pc, l, dts.list);
      }
    }

    method RemovePiece(s: Square, dts: DirtyThreats?)
      requires BoardOk() && board[s].Man?
      modifies this`allBB, this`byTypeBB, this`byColorBB, this`pieceCount, this`colorCount, board, dts
      ensures BoardOk() && Pieces64() == old(Pieces64())[s := Empty]
      ensures dts != null ==> Tracks(old(dts.list), dts.list, old(Pieces64()), Pieces64())
    {
      hide Appended, Tracks, Reported, Consistent;
      ghost var b: Board := Pieces64();
      var pc := board[s];
      if dts != null {
        assert b[s := pc] == b;
        ghost var l := dts.list;
        UpdatePieceThreats(pc, false, s, dts, true, AllSquares());
        TakeTracks(b, s, l, dts.list);
      }
      Take(s);
    }

    method SwapPiece(s: Square, pc: Piece, dts: DirtyThreats?)
      requires BoardOk() && board[s].Man? && pc.Man?
      modifies this`allBB, this`byTypeBB, this`byColorBB, this`pieceCount, this`colorCount, board, dts
      ensures BoardOk() && Pieces64() == old(Pieces64())[s := pc]
      ensures dts != null ==> Tracks(old(dts.list), dts.list, old(Pieces64()), Pieces64())
    {
      hide Consistent, Appended, Tracks, Reported;
      ghost var b: Board := Pieces64();
      ghost var l0 := if dts != null then dts.list else [];
      var previous := board[s];
      RemovePiece(s, null);
      assert b[s := Empty][s := previous] == b;
      if dts != null {
        UpdatePieceThreats(previous, false, s, dts, false, AllSquares());
      }
      ghost var l1 := if dts != null then dts.list else [];
      PutPiece(pc, s, null);
      assert b[s := Empty][s := pc] == b[s := pc] && Pieces64()[s := pc] == b[s := pc];
      if dts != null {
        UpdatePieceThreats(pc, true, s, dts, false, AllSquares());
        ExchangeTracks(b, s, pc, l0, l1, dts.list);
      }
    }

    method MovePiece(from: Square, to: Square, dts: DirtyThreats?)
      requires BoardOk() && board[from].Man? && board[to] == Empty
      requires dts != null ==> PathClear(Pieces64(), from, to)
      modifies this`allBB, this`byTypeBB, this`byColorBB, board, dts
      ensures BoardOk() && Pieces64() == old(Pieces64())[from := Empty][to := old(board[from])]
      ensures dts != null ==> Tracks(old(dts.list), dts.list, old(Pieces64()), Pieces64())
    {
      hide Appended, Tracks, Reported;
      ghost var b: Board := Pieces64();
      var pc := board[from];
      var fromTo := {from, to};
      ghost var l0 := if dts != null then dts.list else [];
      assert b[from := pc] == b;
      if dts != null {
        UpdatePieceThreats(pc, false, from, dts, true, fromTo);
      }
      ghost var l1 := if dts != null then dts.list else [];
      hide Consistent, Toggling;
      ToggleConsistent(b, allBB, byTypeBB, byColorBB, pieceCount, colorCount, from, to);
      allBB := Toggle(allBB, fromTo);
      byTypeBB := Toggling(byTypeBB, pc.kind, fromTo);
      byColorBB := Toggling(byColorBB, pc.color, fromTo);
      board[from] := Empty;
      board[to] := pc;
      ghost var c: Board := b[from := Empty][to := pc];
      assert Pieces64() == c && c[to := pc] == c;
      if dts != null {
        UpdatePieceThreats(pc, true, to, dts, true, fromTo);
        MoveTracks(b, from, to, l0, l1, dts.list);
      }
    }

    // ----- Pins and checks -----

    /** The sniper loop of update_slider_blockers. */
    method ScanSnipers(c: Color) returns (blockers: Bitboard, pinners: Bitboard)
      requires BoardOk() && Pieces(Pieces64(), c, King) != {}
      ensures blockers == Blockers(Pieces64(), c, KingSq(Pieces64(), c))
      ensures pinners == Pinners(Pieces64(), c, KingSq(Pieces64(), c))
    {
      ghost var b: Board := Pieces64();
      KingMask(b, c);
      var ksq := Lsb(byTypeBB[King] * byColorBB[c]);
      assert ksq == KingSq(b, c);
      blockers, pinners := {}, {};
      var snipers := (RookBB({}, ksq) * (byTypeBB[Queen] + byTypeBB[Rook])
                      + BishopBB({}, ksq) * (byTypeBB[Queen] + byTypeBB[Bishop])) * byColorBB[c.Other()];
      var occupancy := allBB - snipers;
      var own := byColorBB[c];
      assert own == ByColor(b, c);
      ghost var all := snipers;
      SnipersMask(b, c, ksq);
      assert snipers == Snipers(b, c, ksq);
      BlockersComplete(b, c, ksq);
      assert forall q: Square :: BetweenBB(ksq, q) * occupancy == Shield(b, c, ksq, q);
      hide *;
      assert all - snipers == {};
      while snipers != {}
        invariant snipers <= all
        invariant blockers == BlockersIn(b, c, ksq, all - snipers)
        invariant pinners == PinnersIn(b, c, ksq, all - snipers)
      {
        ghost var done := all - snipers;
        var sniperSq := Lsb(snipers);
        snipers := snipers - {sniperSq};
        assert all - snipers == done + {sniperSq};
        BlockerStep(b, c, ksq, done, sniperSq);
        var between := BetweenBB(ksq, sniperSq) * occupancy;
        assert between == Shield(b, c, ksq, sniperSq);
        SingleMeans(between);
        if between != {} && !MoreThanOne(between) {
          blockers := blockers + between;
          if between * own != {} {
            pinners := pinners + {sniperSq};
          }
        }
      }
      assert all - snipers == all;
    }

    /** `update_slider_blockers`. */
    method UpdateSliderBlockers(c: Color, st: StateInfo)
      requires BoardOk() && Pieces(Pieces64(), c, King) != {}
      modifies st`blockersForKing, st`pinners
      ensures var k := KingSq(Pieces64(), c);
              && st.blockersForKing == old(st.blockersForKing)[c := Blockers(Pieces64(), c, k)]
              && st.pinners == old(st.pinners)[c.Other() := Pinners(Pieces64(), c, k)]
    {
      hide Consistent, Blockers, Pinners;
      var blockers, pinners := ScanSnipers(c);
      st.blockersForKing := st.blockersForKing[c := blockers];
      st.pinners := st.pinners[c.Other() := pinners];
    }

    // ----- Moving the pieces of a move -----

    /** `do_castling`: both pieces are lifted first, since in Chess960 the squares may overlap. */
    method DoCastling(forward: bool, us: Color, m: Move, dts: DirtyThreats?)
      requires BoardOk()
      requires var (kf, rf, kt, rt) := CastlingSquares(forward, us, m);
               CastlingReady(Pieces64(), us, kf, rf, kt, rt)
      modifies this`allBB, this`byTypeBB, this`byColorBB, this`pieceCount, this`colorCount, board, dts
      ensures BoardOk()
      ensures var (kf, rf, kt, rt) := CastlingSquares(forward, us, m);
              Pieces64() == old(Pieces64())[kf := Empty][rf := Empty][kt := Man(us, King)][rt := Man(us, Rook)]
      ensures dts != null ==> Tracks(old(dts.list), dts.list, old(Pieces64()), Pieces64())
    {
      hide Tracks, Consistent, CastlingReady, KingTo, RookTo;
      var (kf, rf, kt, rt) := CastlingSquares(forward, us, m);
      ghost var b0: Board := Pieces64();
      ghost var l0 := if dts != null then dts.list else [];
      CastlingReadyMeans(b0, us, kf, rf, kt, rt);
      RemovePiece(kf, dts);
      ghost var l1 := if dts != null then dts.list else [];
      ghost var b1: Board := Pieces64();
      RemovePiece(rf, dts);
      ghost var l2 := if dts != null then dts.list else [];
      ghost var b2: Board := Pieces64();
      PutPiece(Man(us, King), kt, dts);
      ghost var l3 := if dts != null then dts.list else [];
      ghost var b3: Board := Pieces64();
      PutPiece(Man(us, Rook), rt, dts);
      if dts != null {
        TracksJoin(l0, l1, l2, b0, b1, b2);
        TracksJoin(l0, l2, l3, b0, b2, b3);
        TracksJoin(l0, l3, dts.list, b0, b3, Pieces64());
      }
    }

    /** The non-castling half of do_move's board update; an en passant victim is already gone. */
    method RelocatePieces(us: Color, m: Move, pc: Piece, captured: Piece, dts: DirtyThreats)
      requires BoardOk() && m.from != m.to && board[m.from] == pc && pc.Man?
      requires m.mtype != Castling && (m.mtype == EnPassant ==> board[m.to] == Empty && captured.Man?)
      requires m.mtype != EnPassant ==> board[m.to] == captured
      requires m.mtype == Promotion ==> m.promo != pc.kind
      requires captured == Empty || m.mtype == EnPassant ==> m.mtype == Promotion || PathClear(Pieces64(), m.from, m.to)
      modifies this`allBB, this`byTypeBB, this`byColorBB, this`pieceCount, this`colorCount, board, dts
      ensures BoardOk()
      ensures Pieces64() == old(Pieces64())[m.from := Empty][m.to := if m.mtype == Promotion then Man(us, m.promo)
          else pc]
      ensures Tracks(old(dts.list), dts.list, old(Pieces64()), Pieces64())
    {
      hide Tracks, Consistent, PathClear;
      ghost var b: Board := Pieces64();
      ghost var l0 := dts.list;
      var toPc := if m.mtype == Promotion then Man(us, m.promo) else pc;
      if captured.Man? && m.mtype != EnPassant {
        RemovePiece(m.from, dts);
        ghost var l1 := dts.list;
        ghost var b1: Board := Pieces64();
        SwapPiece(m.to, toPc, dts);
        TracksJoin(l0, l1, dts.list, b, b1, Pieces64());
      } else if pc == toPc {
        MovePiece(m.from, m.to, dts);
      } else {
        RemovePiece(m.from, dts);
        ghost var l1 := dts.list;
        ghost var b1: Board := Pieces64();
        PutPiece(toPc, m.to, dts);
        TracksJoin(l0, l1, dts.list, b, b1, Pieces64());
      }
    }

    // ----- The chain of states -----

    /** The states are distinct objects, linked backwards to the one set up first. */
    static ghost predicate Linked(states: seq<StateInfo>)
      reads states
    {
      && |states| > 0
      && (forall i, j :: 0 <= i < j < |states| ==> states[i] != states[j])
      && states[0].previous == null
      && (forall i :: 0 < i < |states| ==> states[i].previous == states[i - 1])
    }

    ghost predicate ChainOk()
      reads this, line
    {
      Linked(line) && st == line[|line| - 1]
    }

    static ghost function NodeOf(s: StateInfo): Node
      reads s
    {
      Node(s.key, s.carried.rule50, s.carried.pliesFromNull, s.repetition)
    }

    /** The run as the repetition test sees it. */
    ghost function Hist(): (h: seq<Node>)
      reads this, line
      ensures |h| == |line|
    {
      NodesOf(line)
    }

    static ghost function NodesOf(states: seq<StateInfo>): (h: seq<Node>)
      reads states
      ensures |h| == |states| && forall i :: 0 <= i < |states| ==> h[i] == NodeOf(states[i])
    {
      seq(|states|, i requires 0 <= i < |states| reads states => NodeOf(states[i]))
    }

    /** The walk of do_move back through the previous pointers, two plies at a time. */
    method FindRepetition() returns (repetition: int)
      requires ChainOk() && CountersOk(Hist(), |line| - 1)
      ensures RepetitionIs(Hist(), |line| - 1, repetition)
    {
      ghost var n := |line| - 1;
      ghost var h := Hist();
      repetition := 0;
      var end := Min(st.carried.rule50, st.carried.pliesFromNull);
      assert h[n] == NodeOf(st);
      if end >= 4 {
        var stp := st.previous.previous;
        assert stp == line[n - 2];
        var i := 4;
        while i <= end
          invariant 4 <= i && i % 2 == 0 && i - 2 <= n && stp == line[n - i + 2]
          invariant forall e :: SameAt(h, n, e) ==> e >= i
        {
          assert stp.previous == line[n - i + 1];
          stp := stp.previous.previous;
          assert stp == line[n - i] && h[n - i] == NodeOf(stp);
          if stp.key == st.key {
            assert SameAt(h, n, i);
            repetition := if stp.repetition != 0 then -i else i;
            break;
          }
          i := i + 2;
        }
      }
    }

    /** `has_repeated`: the walk back through the window, one state at a time. */
    method HasRepeated() returns (repeated: bool)
      requires ChainOk() && History(Hist())
      ensures repeated <==> SomeRepeat(Hist(), |line| - 1)
    {
      hide History, SameAt;
      ghost var n := |line| - 1;
      ghost var h := Hist();
      var stc: StateInfo? := st;
      var end := Min(st.carried.rule50, st.carried.pliesFromNull);
      assert h[n] == NodeOf(st);
      ghost var k := 0;
      repeated := false;
      while end >= 4
        invariant 0 <= k && k + end == Window(h, n) && (end >= 4 ==> k <= n && stc == line[n - k])
        invariant forall j, e | 0 <= j < k :: !Repeats(h, n, j, e)
        decreases end
      {
        SeenBack(h, n, k);
        assert h[n - k] == NodeOf(line[n - k]);
        if stc.repetition != 0 { return true; }
        if end > 4 { SeenBack(h, n, k + 1); }
        stc := stc.previous;
        end := end - 1;
        k := k + 1;
      }
      NoneLeft(h, n, k);
    }

    // ----- Computing everything from scratch -----

    /** `compute_material_key`. */
    method ComputeMaterialKey() returns (k: Key)
      requires BoardOk()
      ensures k == MaterialKey(z, Pieces64())
    {
      ghost var b: Board := Pieces64();
      k := {};
      var i := 0;
      while i < |ALL_PIECES|
        invariant 0 <= i <= |ALL_PIECES|
        invariant k == MaterialTo(z, b, i)
      {
        var pc := ALL_PIECES[i];
        assert pc.Man?;
        var cnt := 0;
        ghost var k0 := k;
        XorZeroRight(k0);
        while cnt < pieceCount[pc]
          invariant 0 <= cnt <= pieceCount[pc] == Count(b, pc)
          invariant k == Xor(k0, CountKey(z, pc, cnt))
        {
          hide Xor, Count;
          k := Xor(k, z.psq(pc, 8 + cnt));
          XorAssoc(k0, CountKey(z, pc, cnt), z.psq(pc, 8 + cnt));
          cnt := cnt + 1;
        }
        i := i + 1;
      }
    }

    /** The key loop of set_state. */
    method ScanKeys(carried: Carried) returns (c: Carried, key: Key)
      requires BoardOk()
      ensures c == carried.(pawnKey := Xor(z.noPawns, BoardKey(z, Pawns, Pieces64())),
                            minorPieceKey := BoardKey(z, Minors, Pieces64()),
                            nonPawnKey := map[White := BoardKey(z, NonPawns(White), Pieces64()),
                                Black := BoardKey(z, NonPawns(Black), Pieces64())],
                            nonPawnMaterial := map[White := NonPawnMaterial(Pieces64(), White),
                                Black := NonPawnMaterial(Pieces64(), Black)])
      ensures key == BoardKey(z, Whole, Pieces64())
    {
      ghost var b: Board := Pieces64();
      var totals := Totals({}, z.noPawns, {}, {}, {}, 0, 0);
      var left := allBB;
      ghost var lo: nat := 0;
      ScanStart(z, b);
      OccMeans(b);
      assert left == Occ(b);
      hide Occ, TotalsIs, ScanSquare, Xor, BoardKey, NonPawnMaterial, Consistent;
      while left != {}
        invariant 0 <= lo <= 64
        invariant forall s: Square :: s in left <==> b[s] != Empty && s >= lo
        invariant TotalsIs(z, b, lo, totals)
        decreases |left|
      {
        var s := Lsb(left);
        left := left - {s};
        ScanSquareOk(z, b, lo, s, totals);
        totals := ScanSquare(z, totals, board[s], s);
        lo := s as int + 1;
      }
      ScanDone(z, b, lo, totals);
      key := totals.key;
      c := carried.(pawnKey := totals.pawnKey, minorPieceKey := totals.minorKey,
                    nonPawnKey := map[White := totals.whiteKey, Black := totals.blackKey],
                    nonPawnMaterial := map[White := totals.whiteSum, Black := totals.blackSum]);
    }

    // ----- What holds of the whole object -----

    /** A recorded state carries what would be recomputed for its position. */
    static ghost predicate SoundState(z: Zobrist, p: Snap, s: StateInfo)
      reads s
    {
      Sound(z, p, s.carried, s.key, s.checkersBB, s.blockersForKing, s.pinners, s.checkSquares)
    }

    /** Every recorded state is sound, each follows from the one before, and the counters fit. */
    static ghost predicate RunOk(z: Zobrist, states: seq<StateInfo>, snaps: seq<Snap>, moves: seq<Played>)
      reads states
    {
      && |snaps| == |states| == |moves| + 1
      && (forall i {:trigger SoundState(z, snaps[i], states[i])} ::
          0 <= i < |states| ==> SoundState(z, snaps[i], states[i]))
      && (forall i :: 0 <= i < |moves| ==>
            Link(snaps[i], states[i].carried.epSquare, moves[i], snaps[i + 1], states[i + 1].capturedPiece))
      && History(NodesOf(states))
    }

    /** The board is consistent and is the position of the last state of a good run. */
    ghost predicate Valid()
      reads this, board, line
    {
      && BoardOk() && ChainOk() && RunOk(z, line, past, played)
      && past[|line| - 1] == Snap(Pieces64(), sideToMove, gamePly)
    }

    /** A good run stays good when a sound state that follows from its last one is added. */
    static lemma ExtendRun(z: Zobrist, states: seq<StateInfo>, snaps: seq<Snap>, moves: seq<Played>, s: StateInfo,
        q: Snap, how: Played)
      requires Linked(states) && RunOk(z, states, snaps, moves)
      requires s !in states && s.previous == states[|states| - 1] && SoundState(z, q, s)
      requires Link(snaps[|states| - 1], states[|states| - 1].carried.epSquare, how, q, s.capturedPiece)
      requires CountersOk(NodesOf(states + [s]), |states|)
      requires RepetitionIs(NodesOf(states + [s]), |states|, s.repetition)
      ensures Linked(states + [s]) && RunOk(z, states + [s], snaps + [q], moves + [how])
    {
      hide SoundState, Link, CountersOk, RepetitionIs;
      assert NodesOf(states + [s]) == NodesOf(states) + [NodeOf(s)];
      assert StateIs(NodesOf(states + [s]), |states|);
      HistoryExtend(NodesOf(states), NodeOf(s));
    }

    /** `attackers_to(square<KING>(c)) & pieces(~c)`. */
    method Attackers(c: Color) returns (bb: Bitboard)
      requires BoardOk() && OneKingEach(Pieces64())
      ensures CheckersOk(Pieces64(), c, bb)
    {
      KingUnique(Pieces64(), c, 0);
      hide AttackersTo;
      assert c.Other() in byColorBB;
      bb := AttackersTo(board[..], KingSq(board[..], c), allBB) * byColorBB[c.Other()];
    }

    /** `set_check_info`. */
    method SetCheckInfo(s: StateInfo)
      requires BoardOk() && OneKingEach(Pieces64())
      modifies s`blockersForKing, s`pinners, s`checkSquares
      ensures MasksOk(Pieces64(), sideToMove, s.blockersForKing, s.pinners, s.checkSquares)
    {
      hide Consistent, Blockers, Pinners, CheckSquaresOk, CheckSquaresOf, Occ;
      ghost var b: Board := Pieces64();
      forall c ensures Pieces(b, c, King) != {} { KingUnique(b, c, 0); }
      UpdateSliderBlockers(White, s);
      UpdateSliderBlockers(Black, s);
      var them := sideToMove.Other();
      var ksq := KingSq(board[..], them);
      s.checkSquares := CheckSquaresOf(board[..], them, ksq);
      CheckSquaresOfOk(b, them);
      forall c: Color ensures c in s.blockersForKing && c in s.pinners { match c { case White => case Black => } }
      forall c: Color
        ensures s.blockersForKing[c] == Blockers(b, c, KingSq(b, c))
            && s.pinners[c.Other()] == Pinners(b, c, KingSq(b, c))
      {
        match c { case White => case Black => }
      }
    }

    /** A cleared board, as `set` leaves it before placing pieces. */
    constructor (tables: Zobrist, mask: Square -> set<CastlingRight>, si: StateInfo)
      ensures BoardOk() && fresh(board) && z == tables && castlingMask == mask
      ensures forall s: Square :: board[s] == Empty
    {
      board := new Piece[64](_ => Empty);
      allBB := {};
      byTypeBB := map[Pawn := {}, Knight := {}, Bishop := {}, Rook := {}, Queen := {}, King := {}];
      byColorBB := map[White := {}, Black := {}];
      pieceCount := map p: Piece | p in ALL_PIECES :: 0;
      colorCount := map[White := 0, Black := 0];
      z, castlingMask := tables, mask;
      st, gamePly, sideToMove := si, 0, White;
      line, past, played := [], [], [];
      new;
      EmptyConsistent(board[..], byTypeBB, byColorBB, pieceCount, colorCount);
    }

    /** Places the pieces of a parsed position on a cleared board and computes its state. */
    method SetUp(pieces: Board, stm: Color, rights: set<CastlingRight>, ep: Option<Square>, rule50: int, ply: int,
        si: StateInfo)
      requires BoardOk() && forall s: Square :: board[s] == Empty
      requires KingsOk(pieces, stm) && 0 <= rule50
      modifies this, board, si
      ensures Valid() && line == [si] && played == []
      ensures Pieces64() == pieces && sideToMove == stm && gamePly == ply
      ensures st.carried.castlingRights == rights && st.carried.epSquare == ep && st.carried.rule50 == rule50
    {
      hide Consistent, Valid, SoundState, KingsOk, History, ChainOk;
      PutAll(pieces);
      st, gamePly, sideToMove := si, ply, stm;
      line, past, played := [si], [Snap(pieces, stm, ply)], [];
      si.previous, si.capturedPiece, si.repetition := null, Empty, 0;
      si.carried := Carried({}, {}, {}, map[], map[], rights, rule50, 0, ep);
      SetState(si);
      FirstValid(si);
    }

    method PutAll(pieces: Board)
      requires BoardOk() && forall s: Square :: board[s] == Empty
      modifies this`allBB, this`byTypeBB, this`byColorBB, this`pieceCount, this`colorCount, board
      ensures BoardOk() && Pieces64() == pieces
    {
      hide Consistent;
      for s := 0 to 64
        invariant BoardOk()
        invariant forall i :: 0 <= i < 64 ==> board[i] == if i < s then pieces[i] else Empty
      {
        if pieces[s].Man? {
          PutPiece(pieces[s], s, null);
          assert forall i :: 0 <= i < 64 ==> board[i] == Pieces64()[i];
        }
      }
      assert Pieces64() == pieces;
    }

    /** `set_state`: every key, sum and mask of a position, from the board alone. */
    method SetState(s: StateInfo)
      requires BoardOk() && KingsOk(Pieces64(), sideToMove)
      modifies s
      ensures SoundState(z, Snap(Pieces64(), sideToMove, gamePly), s)
      ensures s.previous == old(s.previous) && s.capturedPiece == old(s.capturedPiece)
          && s.repetition == old(s.repetition)
      ensures s.carried.castlingRights == old(s.carried.castlingRights) && s.carried.epSquare == old(s.carried.epSquare)
      ensures s.carried.rule50 == old(s.carried.rule50) && s.carried.pliesFromNull == old(s.carried.pliesFromNull)
    {
      hide Consistent, KeysOk, CheckersOk, MasksOk;
      s.checkersBB := Attackers(sideToMove);
      SetCheckInfo(s);
      s.carried, s.key := StateKeys(s.carried);
    }

    /** The keys and sums of set_state. */
    method StateKeys(carried: Carried) returns (c: Carried, key: Key)
      requires BoardOk()
      ensures KeysOk(z, Pieces64(), sideToMove, c, key)
      ensures c.castlingRights == carried.castlingRights && c.epSquare == carried.epSquare
      ensures c.rule50 == carried.rule50 && c.pliesFromNull == carried.pliesFromNull
    {
      hide Consistent, BoardKey, NonPawnMaterial, MaterialKey, Xor;
      ghost var b: Board := Pieces64();
      c, key := ScanKeys(carried);
      if c.epSquare.Some? { key := Xor(key, z.enpassant(File(c.epSquare.value))); }
      if sideToMove == Black { key := Xor(key, z.side); }
      key := Xor(key, z.castling(c.castlingRights));
      var materialKey := ComputeMaterialKey();
      c := c.(materialKey := materialKey);
      FromScratch(z, b, sideToMove, c, key);
    }

    /** A run that has just begun. */
    lemma FirstValid(si: StateInfo)
      requires BoardOk() && line == [si] && st == si && played == [] && past == [Snap(Pieces64(), sideToMove, gamePly)]
      requires si.previous == null && SoundState(z, past[0], si)
      requires 0 <= si.carried.rule50 && si.carried.pliesFromNull == 0 && si.repetition == 0
      ensures Valid()
    {
      hide Consistent, Sound;
      assert NodesOf(line) == [NodeOf(si)];
      FirstState(NodesOf(line));
    }

    // ----- Making and taking back moves -----

    /** The pieces, keys and counters of do_move. */
    method MakeOnBoard(m: Move, dts: DirtyThreats) returns (c: Carried, key: Key, captured: Piece)
      requires BoardOk() && ZobristOk(z) && Pieces(Pieces64(), sideToMove.Other(), King) != {}
      requires KeysOk(z, Pieces64(), sideToMove, st.carried, st.key)
      requires MoveOk(Pieces64(), sideToMove, st.carried.epSquare, m) && sideToMove.Other() in st.blockersForKing
      requires m.mtype == Normal && board[m.to] == Empty ==> PathClear(Pieces64(), m.from, m.to)
      modifies this`allBB, this`byTypeBB, this`byColorBB, this`pieceCount, this`colorCount, board, dts
      ensures BoardOk() && Pieces64() == old(ApplyMove(Pieces64(), sideToMove, m))
      ensures Tracks(old(dts.list), dts.list, old(Pieces64()), Pieces64())
      ensures KeysOk(z, Pieces64(), sideToMove.Other(), c, key)
      ensures captured == old(Captured(Pieces64(), sideToMove, m))
      ensures c.pliesFromNull == st.carried.pliesFromNull + 1
      ensures c.rule50 == if captured.Man? || old(board[m.from]).kind == Pawn then 0 else st.carried.rule50 + 1
      ensures c.castlingRights == st.carried.castlingRights - (castlingMask(m.from)
          + castlingMask(Target(sideToMove, m)))
      ensures c.epSquare == (if old(board[m.from]).kind == Pawn && Xor16(m.from, m.to)
                             then old(NewEp(Pieces64(), sideToMove, m, st.blockersForKing[sideToMove.Other()]))
                                 else None)
    {
      hide Consistent, KeysOk, MoveOk, Tracks, NewEp, CountsOk, Xor16, ApplyMove, PathClear, Captured, Victim, KingTo,
          RookTo, Target, ZobristOk, CastlingReady, Pieces, Advance;
      ghost var b: Board := Pieces64();
      ghost var l0 := dts.list;
      var us, them := sideToMove, sideToMove.Other();
      VictimIs(b, us, m);
      StepReady(b, us, st.carried.epSquare, m);
      var pc := board[m.from];
      var victim := if m.mtype == EnPassant then Man(them, Pawn) else board[m.to];
      captured := if m.mtype == Castling then Empty else victim;
      if pc.kind == Pawn && Xor16(m.from, m.to) { DoubleStepInside(b, us, st.carried.epSquare, m); }
      var newEp := if pc.kind == Pawn && Xor16(m.from, m.to) then NewEp(board[..], us, m, st.blockersForKing[them])
          else None;
      if m.mtype == EnPassant { RemovePiece(m.to - PawnPush(us), dts); }
      ghost var b1: Board := Pieces64();
      ghost var l1 := dts.list;
      c, key := MoveKeys(m, pc, victim, newEp, b);
      if m.mtype == Castling {
        DoCastling(true, us, m, dts);
      } else {
        RelocatePieces(us, m, pc, captured, dts);
      }
      StepDone(b, us, m, b1, Pieces64());
      if m.mtype == EnPassant { TracksJoin(l0, l1, dts.list, b, b1, Pieces64()); }
    }

    /** The keys and counters of do_move, once an en passant victim has left the board. */
    method MoveKeys(m: Move, pc: Piece, victim: Piece, newEp: Option<Square>, ghost b: Board)
        returns (c: Carried, key: Key)
      requires BoardOk() && ZobristOk(z) && KeysOk(z, b, sideToMove, st.carried, st.key)
      requires MoveOk(b, sideToMove, st.carried.epSquare, m) && pc == b[m.from] && victim == Victim(b, sideToMove, m)
      requires Pieces64() == if m.mtype == EnPassant then b[m.to - PawnPush(sideToMove) := Empty] else b
      ensures KeysOk(z, ApplyMove(b, sideToMove, m), sideToMove.Other(), c, key)
      ensures c.pliesFromNull == st.carried.pliesFromNull + 1
      ensures c.rule50 == if (m.mtype != Castling && victim.Man?) || pc.kind == Pawn then 0 else st.carried.rule50 + 1
      ensures c.castlingRights == st.carried.castlingRights - (castlingMask(m.from)
          + castlingMask(Target(sideToMove, m)))
      ensures c.epSquare == if pc.kind == Pawn && Xor16(m.from, m.to) then newEp else None
    {
      hide *;
      AdvanceHere(m, newEp, b);
      var r := Advance(z, sideToMove, m, pc, victim, pieceCount, castlingMask, newEp, st.carried, st.key);
      c, key := r.0, r.1;
    }

    lemma AdvanceHere(m: Move, newEp: Option<Square>, b: Board)
      requires BoardOk() && ZobristOk(z) && KeysOk(z, b, sideToMove, st.carried, st.key)
      requires MoveOk(b, sideToMove, st.carried.epSquare, m)
      requires Pieces64() == if m.mtype == EnPassant then b[m.to - PawnPush(sideToMove) := Empty] else b
      ensures Callable(sideToMove, m, b[m.from], Victim(b, sideToMove, m), pieceCount, st.carried)
      ensures var pc, victim := b[m.from], Victim(b, sideToMove, m);
              && pc.Man? && (m.mtype == Castling ==> victim.Man?) && HasBoth(st.carried)
              && sideToMove in st.carried.nonPawnKey && sideToMove.Other() in st.carried.nonPawnKey
              && sideToMove in st.carried.nonPawnMaterial && sideToMove.Other() in st.carried.nonPawnMaterial
              && (victim.Man? ==> victim in pieceCount) && pc in pieceCount && Man(sideToMove, m.promo) in pieceCount
              && var r := Advance(z, sideToMove, m, pc, victim, pieceCount, castlingMask, newEp, st.carried, st.key);
              && KeysOk(z, ApplyMove(b, sideToMove, m), sideToMove.Other(), r.0, r.1)
              && r.0.pliesFromNull == st.carried.pliesFromNull + 1
              && r.0.rule50 == (if (m.mtype != Castling && victim.Man?) || pc.kind == Pawn then 0
                  else st.carried.rule50 + 1)
              && r.0.castlingRights == st.carried.castlingRights - (castlingMask(m.from)
                  + castlingMask(Target(sideToMove, m)))
              && r.0.epSquare == (if pc.kind == Pawn && Xor16(m.from, m.to) then newEp else None)
    {
      hide KeysOk, MoveOk, CountsOk, Consistent, ApplyMove, Advance, Victim, Xor16, Target, ZobristOk;
      CountsReady(b, sideToMove, st.carried.epSquare, m, Pieces64(), allBB, byTypeBB, byColorBB, pieceCount,
          colorCount);
      AdvanceAll(z, b, sideToMove, m, pieceCount, castlingMask, newEp, st.carried, st.key);
      AdvanceCallable(z, b, sideToMove, m, pieceCount, st.carried, st.key);
    }

    /** What do_move may count on before it starts. */
    lemma ReadyToMove(m: Move)
      requires Valid() && Playable(Pieces64(), sideToMove, st.carried.epSquare, m)
      ensures BoardOk() && ChainOk() && RunOk(z, line, past, played)
      ensures Pieces(Pieces64(), sideToMove.Other(), King) != {} && sideToMove.Other() in st.blockersForKing
      ensures KeysOk(z, Pieces64(), sideToMove, st.carried, st.key) && OneKingEach(Pieces64())
      ensures MoveOk(Pieces64(), sideToMove, st.carried.epSquare, m)
      ensures |past| == |line| > 0 && past[|line| - 1] == Snap(Pieces64(), sideToMove, gamePly)
          && line[|line| - 1] == st
      ensures st in line
      ensures CountersOk(NodesOf(line), |line| - 1)
    {
      hide KeysOk, MoveOk, Consistent, OneKingEach, Link, CountersOk, RepetitionIs, Blockers, Pinners, Attacked,
          ApplyMove;
      assert SoundState(z, past[|line| - 1], st);
      assert StateIs(NodesOf(line), |line| - 1);
    }

    /** Counters of a state that follows by a move. */
    static lemma CountersStep(states: seq<StateInfo>, s: StateInfo)
      requires |states| > 0 && CountersOk(NodesOf(states), |states| - 1)
      requires s.carried.pliesFromNull == states[|states| - 1].carried.pliesFromNull + 1
      requires s.carried.rule50 == 0 || s.carried.rule50 == states[|states| - 1].carried.rule50 + 1
      ensures CountersOk(NodesOf(states + [s]), |states|)
    {
      var h, g := NodesOf(states), NodesOf(states + [s]);
      assert g[|states|] == NodeOf(s) && g[|states| - 1] == NodeOf(states[|states| - 1]) == h[|states| - 1];
    }

    /** The pawns of both sides, as the report holds them. */
    method ReadPawns() returns (w: Features.Pawns)
      requires BoardOk()
      ensures w == Features.PawnsOf(Pieces64())
    {
      w := Features.Pawns(byColorBB[White] * byTypeBB[Pawn], byColorBB[Black] * byTypeBB[Pawn]);
    }

    /** The dirty piece as do_move writes it: what moves, what leaves and what arrives. */
    method WritePiece(m: Move) returns (dp: Features.DirtyPiece)
      requires BoardOk() && MoveOk(Pieces64(), sideToMove, st.carried.epSquare, m)
      ensures dp == Features.DirtyPieceOf(Pieces64(), sideToMove, m)
    {
      hide Consistent, PawnAttacks, Xor16, KingTo, RookTo, CastlingReady;
      var us := sideToMove;
      var captured := if m.mtype == EnPassant then Man(us.Other(), Pawn) else board[m.to];
      dp := Features.DirtyPiece(board[m.from], m.from, Some(m.to), None, None);
      if m.mtype == Castling {
        dp := dp.(to := Some(KingTo(us, m)), remove := Some((m.to, Man(us, Rook))),
            add := Some((RookTo(us, m), Man(us, Rook))));
      } else if captured.Man? {
        var capsq := m.to;
        if m.mtype == EnPassant { capsq := capsq - PawnPush(us); }
        dp := dp.(remove := Some((capsq, captured)));
      }
      if m.mtype == Promotion { dp := dp.(add := Some((m.to, Man(us, m.promo))), to := None); }
    }

    /**
     * `Position::do_move`, for a legal move.  The new state joins the chain; everything the
     * chain recorded before stays as it was.  The report, its threat list started empty, tells
     * exactly what changed on the board.
     */
    method DoMove(m: Move, newSt: StateInfo, givesCheck: bool, dts: DirtyThreats) returns (d: Features.Dirties)
      requires Valid() && ZobristOk(z) && newSt !in line
      requires Playable(Pieces64(), sideToMove, st.carried.epSquare, m)
      requires givesCheck <==> InCheckAfter(Pieces64(), sideToMove, m)
      requires m.mtype == Normal && board[m.to] == Empty ==> PathClear(Pieces64(), m.from, m.to)
      modifies this, board, newSt, dts
      ensures Valid()
      ensures line == old(line) + [newSt] && played == old(played) + [Made(m)]
      ensures past == old(past) + [Snap(old(ApplyMove(Pieces64(), sideToMove, m)), old(sideToMove).Other(),
          old(gamePly) + 1)]
      ensures Tracks(old(dts.list), dts.list, old(Pieces64()), Pieces64()) && d.threats == dts.list
      ensures old(dts.list) == [] ==> Features.Describes(d, old(Pieces64()), Pieces64())
      ensures d.piece.remove.Some? <==> newSt.capturedPiece.Man? || m.mtype == Castling
      ensures d.piece.add.Some? <==> m.mtype == Promotion || m.mtype == Castling
      ensures st == newSt && newSt.previous == old(st)
          && newSt.capturedPiece == old(Captured(Pieces64(), sideToMove, m))
      ensures newSt.carried.pliesFromNull == old(st.carried.pliesFromNull) + 1
      ensures newSt.carried.rule50 ==
              if newSt.capturedPiece.Man? || old(board[m.from]).kind == Pawn then 0 else old(st.carried.rule50) + 1
      ensures newSt.carried.castlingRights ==
              old(st.carried.castlingRights) - (castlingMask(m.from) + castlingMask(Target(old(sideToMove), m)))
      ensures old(Pieces(Pieces64(), sideToMove.Other(), King) != {} && sideToMove.Other() in st.blockersForKing)
      ensures newSt.carried.epSquare ==
              if old(board[m.from]).kind == Pawn && Xor16(m.from, m.to)
              then old(NewEp(Pieces64(), sideToMove, m, st.blockersForKing[sideToMove.Other()])) else None
    {
      hide Consistent, KeysOk, MoveOk, Tracks, ApplyMove, PathClear, ZobristOk, Pieces, OneKingEach, Playable,
          InCheckAfter,
           RunOk, CountersOk, Linked, Captured, Attacked, Target, Xor16, NewEp, Valid, NodesOf, Features.Describes,
           Features.DirtyPieceOf, Features.PawnsOf;
      ghost var b, ep, l0 := Pieces64(), st.carried.epSquare, dts.list;
      var us := sideToMove;
      ReadyToMove(m);
      MoveSucceeds(m);
      var before := ReadPawns();
      var dp := WritePiece(m);
      var c, key, captured := MakeOnBoard(m, dts);
      CompleteMove(newSt, c, key, captured, givesCheck, m, b);
      var after := ReadPawns();
      d := Features.Dirties(dp, dts.list, before, after);
      Features.ReportDescribes(b, us, ep, m, l0, d);
    }

    /** The second half of do_move: the new state is filled in and joins the run. */
    method CompleteMove(newSt: StateInfo, c: Carried, key: Key, captured: Piece, givesCheck: bool, ghost m: Move,
        ghost b: Board)
      requires BoardOk() && |line| > 0 && Linked(line) && st == line[|line| - 1] && RunOk(z, line, past, played)
      requires |past| == |line| && past[|line| - 1] == Snap(b, sideToMove, gamePly)
      requires CountersOk(NodesOf(line), |line| - 1) && newSt !in line
      requires MoveOk(b, sideToMove, st.carried.epSquare, m) && captured == Captured(b, sideToMove, m)
      requires Pieces64() == ApplyMove(b, sideToMove, m)
      requires OneKingEach(Pieces64()) && Pieces(Pieces64(), sideToMove, King) != {}
      requires !Attacked(Pieces64(), KingSq(Pieces64(), sideToMove), sideToMove.Other())
      requires givesCheck <==> InCheckAfter(b, sideToMove, m)
      requires KeysOk(z, Pieces64(), sideToMove.Other(), c, key)
      requires c.pliesFromNull == st.carried.pliesFromNull + 1 && (c.rule50 == 0 || c.rule50 == st.carried.rule50 + 1)
      modifies this`st, this`gamePly, this`sideToMove, this`line, this`past, this`played, newSt
      ensures Valid()
      ensures line == old(line) + [newSt] && played == old(played) + [Made(m)]
      ensures past == old(past) + [Snap(Pieces64(), old(sideToMove).Other(), old(gamePly) + 1)]
      ensures Pieces64() == old(Pieces64())
      ensures st == newSt && newSt.carried == c && newSt.previous == old(st) && newSt.capturedPiece == captured
    {
      hide Consistent, KeysOk, MoveOk, ApplyMove, Pieces, OneKingEach, InCheckAfter, RunOk, CountersOk, Linked,
          Captured, Attacked, Valid, NodesOf, Sound;
      ghost var l0 := line;
      LinkMade(past[|line| - 1], st.carried.epSquare, m, Snap(Pieces64(), sideToMove.Other(), gamePly + 1), captured);
      hide Link, SoundState;
      assert l0[|l0| - 1] != newSt;
      FillState(newSt, c, key, captured, givesCheck, m, b);
      assert CountersOk(NodesOf(l0), |l0| - 1);
      CountersStep(l0, newSt);
      FinishState(newSt, Snap(Pieces64(), sideToMove, gamePly), Made(m));
    }

    /** What the position after a legal move is known to satisfy. */
    lemma MoveSucceeds(m: Move)
      requires Valid() && Playable(Pieces64(), sideToMove, st.carried.epSquare, m)
      ensures var a := ApplyMove(Pieces64(), sideToMove, m);
              OneKingEach(a) && Pieces(a, sideToMove, King) != {}
                  && !Attacked(a, KingSq(a, sideToMove), sideToMove.Other())
    {
      hide KeysOk, Consistent, OneKingEach, Link, CountersOk, RepetitionIs, Blockers, Pinners, Attacked;
      assert SoundState(z, past[|line| - 1], st);
      KingsStay(Pieces64(), sideToMove, st.carried.epSquare, m);
    }

    /** The fields of the new state, which becomes the current one. */
    method FillState(newSt: StateInfo, c: Carried, key: Key, captured: Piece, givesCheck: bool, ghost m: Move,
        ghost b: Board)
      requires BoardOk() && newSt != st
      requires Pieces64() == ApplyMove(b, sideToMove, m)
      requires OneKingEach(Pieces64()) && Pieces(Pieces64(), sideToMove, King) != {}
      requires !Attacked(Pieces64(), KingSq(Pieces64(), sideToMove), sideToMove.Other())
      requires givesCheck <==> InCheckAfter(b, sideToMove, m)
      requires KeysOk(z, Pieces64(), sideToMove.Other(), c, key)
      modifies this`st, this`gamePly, this`sideToMove, newSt
      ensures st == newSt && sideToMove == old(sideToMove).Other() && gamePly == old(gamePly) + 1
      ensures newSt.carried == c && newSt.capturedPiece == captured && newSt.previous == old(st)
          && newSt.repetition == 0
      ensures SoundState(z, Snap(Pieces64(), sideToMove, gamePly), newSt)
    {
      hide Consistent, KeysOk, ApplyMove, Pieces, OneKingEach, InCheckAfter, Attacked, SoundState, MasksOk, CheckersOk;
      ghost var us := sideToMove;
      StartState(newSt, c, key, captured, givesCheck);
      SetCheckInfo(newSt);
      newSt.repetition := 0;
      SoundAfter(b, us, m, Snap(Pieces64(), sideToMove, gamePly), newSt, givesCheck);
    }

    /** The new state is linked in and the turn passes. */
    method StartState(newSt: StateInfo, c: Carried, key: Key, captured: Piece, givesCheck: bool)
      requires BoardOk() && newSt != st && OneKingEach(Pieces64())
      modifies this`st, this`gamePly, this`sideToMove, newSt
      ensures st == newSt && sideToMove == old(sideToMove).Other() && gamePly == old(gamePly) + 1
      ensures newSt.carried == c && newSt.key == key && newSt.capturedPiece == captured && newSt.previous == old(st)
      ensures if givesCheck then CheckersOk(Pieces64(), sideToMove, newSt.checkersBB) else newSt.checkersBB == {}
    {
      hide Consistent, OneKingEach, CheckersOk;
      gamePly := gamePly + 1;
      newSt.carried, newSt.key, newSt.previous, newSt.capturedPiece := c, key, st, captured;
      st := newSt;
      newSt.checkersBB := CheckersIf(givesCheck, sideToMove.Other());
      sideToMove := sideToMove.Other();
    }

    /** The checkers are looked up only when the move is known to give check. */
    method CheckersIf(givesCheck: bool, c: Color) returns (bb: Bitboard)
      requires BoardOk() && OneKingEach(Pieces64())
      ensures if givesCheck then CheckersOk(Pieces64(), c, bb) else bb == {}
    {
      hide Consistent, OneKingEach, CheckersOk;
      bb := {};
      if givesCheck {
        bb := Attackers(c);
      }
    }

    /** The repetition field is computed last. */
    method StoreRepetition(newSt: StateInfo, ghost q: Snap)
      requires |line| > 0 && Linked(line) && newSt !in line && st == newSt
      requires newSt.previous == line[|line| - 1] && SoundState(z, q, newSt)
      requires CountersOk(NodesOf(line + [newSt]), |line|)
      modifies this`line, newSt`repetition
      ensures line == old(line) + [newSt] && SoundState(z, q, newSt)
      ensures CountersOk(NodesOf(line), |line| - 1) && RepetitionIs(NodesOf(line), |line| - 1, newSt.repetition)
    {
      hide Sound, CountersOk, RepetitionIs, Linked;
      ghost var n := |line|;
      LinkedStep(line, newSt);
      line := line + [newSt];
      ghost var h := NodesOf(line);
      var r := FindRepetition();
      newSt.repetition := r;
      RepetitionStored(h, n, r);
      assert NodesOf(line) == h[n := h[n].(repetition := r)];
    }

    /** The run grows by the new state. */
    method FinishState(newSt: StateInfo, ghost q: Snap, ghost how: Played)
      requires BoardOk() && |line| > 0 && Linked(line) && RunOk(z, line, past, played) && newSt !in line && st == newSt
      requires newSt.previous == line[|line| - 1] && SoundState(z, q, newSt)
          && q == Snap(Pieces64(), sideToMove, gamePly)
      requires |past| == |line| && Link(past[|line| - 1], line[|line| - 1].carried.epSquare, how, q,
          newSt.capturedPiece)
      requires CountersOk(NodesOf(line + [newSt]), |line|)
      modifies this`line, this`past, this`played, newSt`repetition
      ensures Valid() && line == old(line) + [newSt] && past == old(past) + [q] && played == old(played) + [how]
    {
      hide Consistent, SoundState, RunOk, CountersOk, RepetitionIs, Linked, Link, NodesOf;
      ghost var l0 := line;
      assert l0[|l0| - 1] != newSt;
      StoreRepetition(newSt, q);
      ExtendRun(z, l0, past, played, newSt, q, how);
      past, played := past + [q], played + [how];
    }

    /** What undo_move finds: the board of the state before, with the move applied. */
    lemma ReadyToUndo(m: Move)
      requires Valid() && |played| > 0 && played[|played| - 1] == Made(m)
      ensures BoardOk() && Linked(line) && RunOk(z, line, past, played) && |past| == |line| == |played| + 1
      ensures st.previous == line[|line| - 2]
      ensures var b, us := past[|past| - 2].board, sideToMove.Other();
              && past[|past| - 2] == Snap(b, us, gamePly - 1)
              && MoveOk(b, us, line[|line| - 2].carried.epSquare, m)
              && Pieces64() == ApplyMove(b, us, m) && st.capturedPiece == Captured(b, us, m)
    {
      hide Consistent, MoveOk, ApplyMove, Captured, History, SoundState;
      assert Link(past[|played| - 1], line[|played| - 1].carried.epSquare, played[|played| - 1], past[|played|],
          line[|played|].capturedPiece);
    }

    /** The object is in order once its board and its run are. */
    lemma ValidIntro()
      requires BoardOk() && Linked(line) && RunOk(z, line, past, played) && |past| == |line|
      requires st == line[|line| - 1] && past[|line| - 1] == Snap(Pieces64(), sideToMove, gamePly)
      ensures Valid()
    {
      hide Consistent, Linked, RunOk;
    }

    /** Dropping the last state of a good run leaves a good run. */
    static lemma ShortenRun(z: Zobrist, states: seq<StateInfo>, snaps: seq<Snap>, moves: seq<Played>)
      requires Linked(states) && RunOk(z, states, snaps, moves) && |moves| > 0
      ensures var n := |moves|;
              Linked(states[..n]) && RunOk(z, states[..n], snaps[..n], moves[..n - 1])
    {
      hide SoundState, Link;
      var n := |moves|;
      var h := NodesOf(states);
      assert NodesOf(states[..n]) == h[..n];
      HistoryPrefix(h, n);
    }

    /** The board operations of undo_move. */
    method UnmakeOnBoard(m: Move, captured: Piece, ghost b: Board, ghost ep: Option<Square>)
      requires BoardOk() && MoveOk(b, sideToMove, ep, m)
      requires Pieces64() == ApplyMove(b, sideToMove, m) && captured == Captured(b, sideToMove, m)
      modifies this`allBB, this`byTypeBB, this`byColorBB, this`pieceCount, this`colorCount, board
      ensures BoardOk() && Pieces64() == b
    {
      var us := sideToMove;
      UndoReady(b, us, ep, m);
      hide Consistent, MoveOk, ApplyMove, Captured, KingTo, RookTo, CastlingReady;
      if m.mtype == Promotion {
        SwapPiece(m.to, Man(us, Pawn), null);
      }
      if m.mtype == Castling {
        DoCastling(false, us, m, null);
      } else {
        MovePiece(m.to, m.from, null);
        if captured.Man? {
          var capsq := if m.mtype == EnPassant then m.to - PawnPush(us) else m.to;
          PutPiece(captured, capsq, null);
        }
      }
    }

    /** `Position::undo_move`: takes back the last move of the run. */
    method UndoMove(m: Move)
      requires Valid() && |played| > 0 && played[|played| - 1] == Made(m)
      modifies this, board
      ensures Valid()
      ensures line == old(line[..|played|]) && past == old(past[..|played|]) && played == old(played[..|played| - 1])
      ensures st == old(st.previous) && gamePly == old(gamePly) - 1 && sideToMove == old(sideToMove).Other()
    {
      hide Consistent, MoveOk, ApplyMove, Captured, RunOk, Linked, Valid;
      ReadyToUndo(m);
      ghost var n := |played|;
      ghost var b, ep := past[n - 1].board, line[n - 1].carried.epSquare;
      ShortenRun(z, line, past, played);
      sideToMove := sideToMove.Other();
      UnmakeOnBoard(m, st.capturedPiece, b, ep);
      st := st.previous;
      gamePly := gamePly - 1;
      line, past, played := line[..n], past[..n], played[..n - 1];
      ValidIntro();
    }

    /** What do_null_move may count on before it starts. */
    lemma ReadyToPass()
      requires Valid() && st.checkersBB == {}
      ensures BoardOk() && Linked(line) && RunOk(z, line, past, played) && |past| == |line| > 0
      ensures past[|line| - 1] == Snap(Pieces64(), sideToMove, gamePly) && line[|line| - 1] == st
      ensures KeysOk(z, Pieces64(), sideToMove, st.carried, st.key) && OneKingEach(Pieces64())
      ensures KingsOk(Pieces64(), sideToMove.Other()) && CheckersOk(Pieces64(), sideToMove.Other(), {})
      ensures CountersOk(NodesOf(line), |line| - 1)
    {
      assert SoundState(z, past[|line| - 1], st);
      assert StateIs(NodesOf(line), |line| - 1);
      PassKeepsPeace(Pieces64(), sideToMove);
      hide KeysOk, Consistent, OneKingEach, Link, CountersOk, RepetitionIs, Blockers, Pinners, Attacked, MasksOk,
          AttackersTo;
    }

    /** Counters of a state that follows by a null move. */
    static lemma CountersPassed(states: seq<StateInfo>, s: StateInfo)
      requires |states| > 0 && CountersOk(NodesOf(states), |states| - 1)
      requires s.carried.pliesFromNull == 0 && s.carried.rule50 == states[|states| - 1].carried.rule50
          && s.repetition == 0
      ensures CountersOk(NodesOf(states + [s]), |states|) && RepetitionIs(NodesOf(states + [s]), |states|, s.repetition)
    {
      var h, g := NodesOf(states), NodesOf(states + [s]);
      assert g[|states|] == NodeOf(s) && g[|states| - 1] == NodeOf(states[|states| - 1]) == h[|states| - 1];
    }

    /** `Position::do_null_move`: passes the move, which is allowed out of check only. */
    method DoNullMove(newSt: StateInfo)
      requires Valid() && newSt !in line && st.checkersBB == {}
      modifies this`st, this`sideToMove, this`line, this`past, this`played, newSt
      ensures Valid() && Pieces64() == old(Pieces64())
      ensures line == old(line) + [newSt] && played == old(played) + [Null]
      ensures past == old(past) + [Snap(Pieces64(), old(sideToMove).Other(), gamePly)]
      ensures st == newSt && st.previous == old(st) && st.checkersBB == {} && st.repetition == 0
      ensures st.carried == old(st.carried).(epSquare := None, pliesFromNull := 0)
    {
      hide Consistent, KeysOk, OneKingEach, RunOk, CountersOk, Linked, Valid, NodesOf, KingsOk, CheckersOk, MasksOk,
          RepetitionIs, Link;
      ghost var l0 := line;
      ReadyToPass();
      assert l0[|l0| - 1] != newSt;
      FillNull(newSt);
      assert CountersOk(NodesOf(l0), |l0| - 1);
      CountersPassed(l0, newSt);
      ghost var q := Snap(Pieces64(), sideToMove, gamePly);
      LinkNull(past[|l0| - 1], l0[|l0| - 1].carried.epSquare);
      ExtendRun(z, l0, past, played, newSt, q, Null);
      line, past, played := line + [newSt], past + [q], played + [Null];
      ValidIntro();
    }

    /** The copied state, adjusted for the pass. */
    method FillNull(newSt: StateInfo)
      requires BoardOk() && newSt != st && OneKingEach(Pieces64()) && st.checkersBB == {}
      requires KeysOk(z, Pieces64(), sideToMove, st.carried, st.key)
      requires KingsOk(Pieces64(), sideToMove.Other()) && CheckersOk(Pieces64(), sideToMove.Other(), {})
      modifies this`st, this`sideToMove, newSt
      ensures st == newSt && sideToMove == old(sideToMove).Other()
      ensures SoundState(z, Snap(Pieces64(), sideToMove, gamePly), newSt)
      ensures newSt.previous == old(st) && newSt.repetition == 0 && newSt.capturedPiece == Empty
          && newSt.checkersBB == {}
      ensures newSt.carried == old(st.carried).(epSquare := None, pliesFromNull := 0)
    {
      hide Consistent, KeysOk, OneKingEach, KingsOk, CheckersOk, MasksOk, Xor;
      NullKeys(z, Pieces64(), sideToMove, st.carried, st.key);
      newSt.carried, newSt.key, newSt.checkersBB, newSt.previous := st.carried, st.key, st.checkersBB, st;
      newSt.blockersForKing, newSt.pinners, newSt.checkSquares := st.blockersForKing, st.pinners, st.checkSquares;
      st := newSt;
      PassKeys();
      sideToMove := sideToMove.Other();
      SetCheckInfo(newSt);
      newSt.repetition := 0;
    }

    /** The key and counters of a pass. */
    method PassKeys()
      modifies st`key, st`carried, st`capturedPiece
      ensures st.carried == old(st.carried).(epSquare := None, pliesFromNull := 0) && st.capturedPiece == Empty
      ensures st.key == Xor(if old(st.carried).epSquare.Some?
          then Xor(old(st.key), z.enpassant(File(old(st.carried).epSquare.value))) else old(st.key), z.side)
    {
      if st.carried.epSquare.Some? {
        st.key := Xor(st.key, z.enpassant(File(st.carried.epSquare.value)));
        st.carried := st.carried.(epSquare := None);
      }
      st.key := Xor(st.key, z.side);
      st.carried := st.carried.(pliesFromNull := 0);
      st.capturedPiece := Empty;
    }

    /** `Position::undo_null_move`: takes back a pass. */
    method UndoNullMove()
      requires Valid() && |played| > 0 && played[|played| - 1] == Null
      modifies this`st, this`sideToMove, this`line, this`past, this`played
      ensures Valid() && Pieces64() == old(Pieces64())
      ensures line == old(line[..|played|]) && past == old(past[..|played|]) && played == old(played[..|played| - 1])
      ensures st == old(st.previous) && sideToMove == old(sideToMove).Other()
    {
      hide Consistent, RunOk, Linked, Valid;
      ReadyToUnpass();
      ghost var n := |played|;
      ShortenRun(z, line, past, played);
      st := st.previous;
      sideToMove := sideToMove.Other();
      line, past, played := line[..n], past[..n], played[..n - 1];
      ValidIntro();
    }

    lemma ReadyToUnpass()
      requires Valid() && |played| > 0 && played[|played| - 1] == Null
      ensures BoardOk() && Linked(line) && RunOk(z, line, past, played) && |past| == |line| == |played| + 1
      ensures st.previous == line[|line| - 2] && past[|past| - 2] == Snap(Pieces64(), sideToMove.Other(), gamePly)
    {
      hide Consistent, History, SoundState;
      assert Link(past[|played| - 1], line[|played| - 1].carried.epSquare, played[|played| - 1], past[|played|],
          line[|played|].capturedPiece);
    }

    lemma TopOfRun()
      requires Valid()
      ensures BoardOk() && |past| == |line| == |played| + 1
      ensures st == line[|line| - 1] && past[|past| - 1] == Snap(Pieces64(), sideToMove, gamePly)
    {
      hide Consistent;
    }

    /** A move made and taken back leaves nothing behind: board, bitboards, counts, side, ply and state. */
    method MakeAndTakeBack(m: Move, newSt: StateInfo, givesCheck: bool, dts: DirtyThreats)
      requires Valid() && ZobristOk(z) && newSt !in line
      requires Playable(Pieces64(), sideToMove, st.carried.epSquare, m)
      requires givesCheck <==> InCheckAfter(Pieces64(), sideToMove, m)
      requires m.mtype == Normal && board[m.to] == Empty ==> PathClear(Pieces64(), m.from, m.to)
      modifies this, board, newSt, dts
      ensures Valid() && Pieces64() == old(Pieces64())
      ensures allBB == old(allBB) && byTypeBB == old(byTypeBB) && byColorBB == old(byColorBB)
      ensures colorCount == old(colorCount) && forall p: Piece | p.Man? :: pieceCount[p] == old(pieceCount[p])
      ensures st == old(st) && sideToMove == old(sideToMove) && gamePly == old(gamePly)
      ensures line == old(line) && past == old(past) && played == old(played)
    {
      hide Consistent, Valid, Playable, InCheckAfter, Tracks, ApplyMove, PathClear;
      ghost var b: Board := Pieces64();
      TopOfRun();
      ghost var all, byType, byColor, counts, byCount := allBB, byTypeBB, byColorBB, pieceCount, colorCount;
      var _ := DoMove(m, newSt, givesCheck, dts);
      UndoMove(m);
      TopOfRun();
      SameBitboards(b, all, byType, byColor, counts, byCount, allBB, byTypeBB, byColorBB, pieceCount, colorCount);
    }

    /**
     * Taking back everything played since the run had n states: whatever was played, moves and passes in any
     * order, the position is again the one it was.
     */
    method Unwind(moves: seq<Played>, n: nat)
      requires Valid() && 1 <= n <= |line| && played[n - 1..] == moves
      modifies this, board
      ensures Valid() && line == old(line[..n]) && past == old(past[..n]) && played == old(played[..n - 1])
      ensures Snap(Pieces64(), sideToMove, gamePly) == old(past[n - 1]) && st == old(line[n - 1])
    {
      hide Consistent, RunOk, Linked, Valid;
      TopOfRun();
      var k := |moves|;
      while k > 0
        invariant Valid() && 0 <= k <= |moves| && |line| == n + k && |played| == n - 1 + k
        invariant line == old(line[..n + k]) && past == old(past[..n + k]) && played == old(played[..n - 1 + k])
      {
        k := k - 1;
        assert moves[k] == old(played)[n - 1 + k] == played[|played| - 1];
        if moves[k].Made? { UndoMove(moves[k].m); } else { UndoNullMove(); }
      }
      TopOfRun();
    }

    static lemma LinkedStep(states: seq<StateInfo>, s: StateInfo)
      requires Linked(states) && s !in states && s.previous == states[|states| - 1]
      ensures Linked(states + [s])
    {}

    /** The new state is sound. */
    lemma SoundAfter(b: Board, us: Color, m: Move, q: Snap, s: StateInfo, givesCheck: bool)
      requires BoardOk() && OneKingEach(Pieces64()) && sideToMove == us.Other()
      requires Pieces64() == ApplyMove(b, us, m) && q.board == Pieces64() && q.stm == sideToMove
      requires Pieces(Pieces64(), us, King) != {} && !Attacked(Pieces64(), KingSq(Pieces64(), us), us.Other())
      requires givesCheck <==> InCheckAfter(b, us, m)
      requires KeysOk(z, q.board, q.stm, s.carried, s.key)
      requires if givesCheck then CheckersOk(Pieces64(), sideToMove, s.checkersBB) else s.checkersBB == {}
      requires MasksOk(Pieces64(), sideToMove, s.blockersForKing, s.pinners, s.checkSquares)
      ensures SoundState(z, q, s)
    {
      hide KeysOk, ApplyMove, MasksOk, Consistent, Attacks, Occ, ByType, Blockers, RookBB, BishopBB;
      KingUnique(q.board, sideToMove, 0);
      if !givesCheck {
        forall x: Square | x in AttackersTo(q.board, KingSq(q.board, sideToMove), Occ(q.board)) * ByColor(q.board, us)
          ensures false
        {
          AttackersToMeaning(q.board, KingSq(q.board, sideToMove), Occ(q.board), x);
        }
      }
    }
  }

  /** The bitboards and counts of a board are determined by it. */
  lemma SameBitboards(b: Board, all: Bitboard, byType: map<PieceType, Bitboard>, byColor: map<Color, Bitboard>,
                      counts: map<Piece, int>, byCount: map<Color, int>,
                      all': Bitboard, byType': map<PieceType, Bitboard>, byColor': map<Color, Bitboard>,
                      counts': map<Piece, int>, byCount': map<Color, int>)
    requires Consistent(b, all, byType, byColor, counts, byCount)
        && Consistent(b, all', byType', byColor', counts', byCount')
    ensures all == all' && byType == byType' && byColor == byColor' && byCount == byCount'
    ensures forall p: Piece | p.Man? :: p in counts && p in counts' && counts[p] == counts'[p]
  {
    hide Occ, ByType, ByColor, Count, CountColor;
  }

  lemma LinkNull(p: Snap, ep: Option<Square>)
    ensures Link(p, ep, Null, p.(stm := p.stm.Other()), Empty)
  {}

  /** Out of check, either side may be thought of as to move. */
  lemma PassKeepsPeace(b: Board, stm: Color)
    requires KingsOk(b, stm) && CheckersOk(b, stm, {})
    ensures KingsOk(b, stm.Other()) && CheckersOk(b, stm.Other(), {})
  {
    hide Attacks, Occ, AttackersTo;
    var k, e := KingSq(b, stm), KingSq(b, stm.Other());
    forall q: Square
      ensures !(b[q].Man? && b[q].color == stm.Other() && Attacks(Occ(b), b[q], q, k))
      ensures q !in AttackersTo(b, e, Occ(b)) * ByColor(b, stm)
    {
      AttackersToMeaning(b, k, Occ(b), q);
      AttackersToMeaning(b, e, Occ(b), q);
      assert q in AttackersTo(b, k, Occ(b)) * ByColor(b, stm.Other()) ==> q in {};
    }
    assert AttackersTo(b, e, Occ(b)) * ByColor(b, stm) == {};
  }

  /** After the move, undoing it puts every piece back. */
  lemma UndoReady(b: Board, us: Color, ep: Option<Square>, m: Move)
    requires MoveOk(b, us, ep, m)
    ensures var a, captured := ApplyMove(b, us, m), Captured(b, us, m);
            && (m.mtype == Castling ==>
                  && CastlingReady(a, us, KingTo(us, m), RookTo(us, m), m.from, m.to)
                  && a[KingTo(us, m) := Empty][RookTo(us, m) := Empty][m.from := Man(us, King)][m.to := Man(us, Rook)]
                      == b)
            && (m.mtype != Castling ==>
                  && a[m.to].Man? && a[m.from] == Empty && m.from != m.to
                  && (m.mtype == EnPassant ==> 0 <= m.to - PawnPush(us) < 64)
                  && var a1: Board := if m.mtype == Promotion then a[m.to := Man(us, Pawn)] else a;
                  && var a2: Board := a1[m.to := Empty][m.from := a1[m.to]];
                  && var capsq := if m.mtype == EnPassant then m.to - PawnPush(us) else m.to;
                  && (captured.Man? ==> a2[capsq] == Empty && a2[capsq := captured] == b)
                  && (captured == Empty ==> a2 == b))
  {
    hide PawnAttacks, RelativeSquare;
    CastlingTargets(us, m);
    if m.mtype == EnPassant { SamePawnFile(us, m.from, m.to); }
  }

  lemma LinkMade(p: Snap, ep: Option<Square>, m: Move, q: Snap, captured: Piece)
    requires MoveOk(p.board, p.stm, ep, m) && q == Snap(ApplyMove(p.board, p.stm, m), p.stm.Other(), p.ply + 1)
    requires captured == Captured(p.board, p.stm, m)
    ensures Link(p, ep, Made(m), q, captured)
  {}

  lemma VictimIs(b: Board, us: Color, m: Move)
    ensures Victim(b, us, m) == if m.mtype == EnPassant then Man(us.Other(), Pawn) else b[m.to]
    ensures Captured(b, us, m) == if m.mtype == Castling then Empty else Victim(b, us, m)
  {}

  /** The counts the key update reads. */
  lemma CountsReady(b: Board, us: Color, ep: Option<Square>, m: Move, b1: Board, all: Bitboard, byType: map<PieceType,
      Bitboard>,
                    byColor: map<Color, Bitboard>, pieceCount: map<Piece, int>, colorCount: map<Color, int>)
    requires MoveOk(b, us, ep, m) && Consistent(b1, all, byType, byColor, pieceCount, colorCount)
    requires b1 == if m.mtype == EnPassant then b[m.to - PawnPush(us) := Empty] else b
    ensures CountsOk(b, us, m, pieceCount)
  {
    hide Count, RelativeSquare, PawnAttacks;
    if m.mtype == EnPassant {
      var capsq: Square := m.to - PawnPush(us);
      var pc := Man(us.Other(), Pawn);
      assert b1[capsq := pc] == b;
      FillSquare(b1, capsq, pc);
    }
  }

  /** What the board operations of a move require. */
  lemma StepReady(b: Board, us: Color, ep: Option<Square>, m: Move)
    requires MoveOk(b, us, ep, m)
    ensures m.from != m.to && b[m.from].Man?
    ensures m.mtype == EnPassant ==>
              && 0 <= m.to - PawnPush(us) < 64 && b[m.to - PawnPush(us)].Man? && b[m.to] == Empty
              && m.from != m.to - PawnPush(us) && m.to != m.to - PawnPush(us)
              && PathClear(b[m.to - PawnPush(us) := Empty], m.from, m.to)
    ensures m.mtype == Promotion ==> m.promo != b[m.from].kind
    ensures m.mtype == Castling ==> CastlingReady(b, us, m.from, m.to, KingTo(us, m), RookTo(us, m))
    ensures m.mtype == EnPassant || m.mtype == Castling || Victim(b, us, m) == b[m.to]
  {
    CastlingTargets(us, m);
    if m.mtype == EnPassant {
      forall x: Square ensures !Between(m.from, x, m.to) { NoBetweenNear(m.from, m.to, x); }
      SamePawnFile(us, m.from, m.to);
    }
  }

  lemma SamePawnFile(us: Color, from: Square, to: Square)
    requires PawnAttacks(us, from, to) && 0 <= to - PawnPush(us) < 64
    ensures from != to - PawnPush(us)
  {}

  lemma StepDone(b: Board, us: Color, m: Move, b1: Board, c: Board)
    requires b[m.from].Man? && m.from != m.to
    requires m.mtype == EnPassant ==> 0 <= m.to - PawnPush(us) < 64
    requires b1 == if m.mtype == EnPassant then b[m.to - PawnPush(us) := Empty] else b
    requires m.mtype == Castling ==>
        c == b[m.from := Empty][m.to := Empty][KingTo(us, m) := Man(us, King)][RookTo(us, m) := Man(us, Rook)]
    requires m.mtype != Castling ==>
        c == b1[m.from := Empty][m.to := if m.mtype == Promotion then Man(us, m.promo) else b[m.from]]
    ensures c == ApplyMove(b, us, m)
  {}

  /** Only a double step differs in bit 4 alone, and the square it jumps is on the board. */
  lemma DoubleStepInside(b: Board, us: Color, ep: Option<Square>, m: Move)
    requires MoveOk(b, us, ep, m) && b[m.from].kind == Pawn && Xor16(m.from, m.to)
    ensures m.mtype == Normal && 0 <= m.to - PawnPush(us) < 64
  {}

  /** The order of the final toggles of set_state. */
  lemma FromScratch(z: Zobrist, b: Board, stm: Color, c: Carried, key: Key)
    requires c.materialKey == MaterialKey(z, b) && c.pawnKey == Xor(z.noPawns, BoardKey(z, Pawns, b))
        && c.minorPieceKey == BoardKey(z, Minors, b)
    requires c.nonPawnKey == map[White := BoardKey(z, NonPawns(White), b), Black := BoardKey(z, NonPawns(Black), b)]
    requires c.nonPawnMaterial == map[White := NonPawnMaterial(b, White), Black := NonPawnMaterial(b, Black)]
    requires var k := BoardKey(z, Whole, b);
             var k1 := if c.epSquare.Some? then Xor(k, z.enpassant(File(c.epSquare.value))) else k;
             var k2 := if stm == Black then Xor(k1, z.side) else k1;
             key == Xor(k2, z.castling(c.castlingRights))
    ensures KeysOk(z, b, stm, c, key)
  {
    hide BoardKey, MaterialKey, NonPawnMaterial, Xor;
    var k := BoardKey(z, Whole, b);
    XorZeroRight(k);
    XorZeroRight(Xor(k, EpKey(z, c.epSquare)));
    forall d: Color
      ensures d in c.nonPawnKey && d in c.nonPawnMaterial
    {
      match d { case White => case Black => }
    }
    forall d: Color
      ensures c.nonPawnKey[d] == BoardKey(z, NonPawns(d), b) && c.nonPawnMaterial[d] == NonPawnMaterial(b, d)
    {
      match d { case White => case Black => }
    }
  }

  lemma OccMeans(b: Board)
    ensures forall s: Square :: s in Occ(b) <==> b[s] != Empty
  {}

  lemma EmptyConsistent(b: Board, byType: map<PieceType, Bitboard>, byColor: map<Color, Bitboard>,
                        pieceCount: map<Piece, int>, colorCount: map<Color, int>)
    requires forall s: Square :: b[s] == Empty
    requires byType == map[Pawn := {}, Knight := {}, Bishop := {}, Rook := {}, Queen := {}, King := {}]
    requires byColor == map[White := {}, Black := {}] && colorCount == map[White := 0, Black := 0]
    requires pieceCount == map p: Piece | p in ALL_PIECES :: 0
    ensures Consistent(b, {}, byType, byColor, pieceCount, colorCount)
  {
    assert Occ(b) == {};
    forall k: PieceType
      ensures k in byType && byType[k] == ByType(b, k)
    {
      assert ByType(b, k) == {};
      match k { case Pawn => case Knight => case Bishop => case Rook => case Queen => case King => }
    }
    forall c: Color
      ensures c in byColor && byColor[c] == ByColor(b, c) && c in colorCount && colorCount[c] == CountColor(b, c)
    {
      assert ByColor(b, c) == {};
      match c { case White => case Black => }
    }
    forall p: Piece | p.Man?
      ensures p in pieceCount && pieceCount[p] == Count(b, p)
    {
      assert Where(b, p) == {};
      EveryPieceListed(p);
    }
  }

  lemma FirstState(h: seq<Node>)
    requires |h| == 1 && 0 <= h[0].rule50 && h[0].pliesFromNull == 0 && h[0].repetition == 0
    ensures History(h)
  {
    assert StateIs(h, 0);
  }

  /** King and rook squares, from and to, in the direction the castling is played. */
  function CastlingSquares(forward: bool, us: Color, m: Move): (Square, Square, Square, Square) {
    if forward then (m.from, m.to, KingTo(us, m), RookTo(us, m)) else (KingTo(us, m), RookTo(us, m), m.from, m.to)
  }

  /** The pieces stand on their squares, and the destinations are free once they are lifted. */
  predicate CastlingReady(b: Board, us: Color, kf: Square, rf: Square, kt: Square, rt: Square) {
    && b[kf] == Man(us, King) && b[rf] == Man(us, Rook) && kt != rt
    && (b[kt] == Empty || kt == kf || kt == rf) && (b[rt] == Empty || rt == kf || rt == rf)
  }

  lemma CastlingReadyMeans(b: Board, us: Color, kf: Square, rf: Square, kt: Square, rt: Square)
    requires CastlingReady(b, us, kf, rf, kt, rt)
    ensures var b1: Board := b[kf := Empty]; var b2: Board := b1[rf := Empty]; var b3: Board := b2[kt := Man(us, King)];
            b[kf].Man? && b1[rf].Man? && b2[kt] == Empty && b3[rt] == Empty
  {}
}
