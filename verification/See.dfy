/**
 * Static exchange evaluation.  `SeeGe` answers "does this move win at least t?" with a
 * null-window loop over an incrementally updated attacker set; the meaning it is proved
 * to have is the plain recursive swap-off below.
 */
module See {
  import opened Types
  import opened Geometry
  import opened Board
  import opened Checks

  const PAWN_VALUE := 208
  const KNIGHT_VALUE := 781
  const BISHOP_VALUE := 825
  const ROOK_VALUE := 1276
  const QUEEN_VALUE := 2538

  /** `PieceValue`: kings and empty squares are worth nothing. */
  function Value(p: Piece): (v: int)
    ensures 0 <= v <= QUEEN_VALUE
  {
    match p
    case Empty => 0
    case Man(_, k) =>
      match k
      case Pawn => PAWN_VALUE
      case Knight => KNIGHT_VALUE
      case Bishop => BISHOP_VALUE
      case Rook => ROOK_VALUE
      case Queen => QUEEN_VALUE
      case King => 0
  }

  /** What the exchange needs to know: the board, and the pins recorded for it. */
  datatype Scene = Scene(board: Board, to: Square, blockers: map<Color, Bitboard>, pinners: map<Color, Bitboard>)

  ghost predicate SceneOk(sc: Scene) {
    forall c :: c in sc.blockers && c in sc.pinners
  }

  /** Everyone still on the board who bears on the square. */
  function Bearing(sc: Scene, occ: Bitboard): Bitboard { AttackersTo(sc.board, sc.to, occ) * occ }

  /** Those of one side who may capture: pinned pieces stay put while a pinner remains. */
  function Captors(sc: Scene, occ: Bitboard, side: Color): Bitboard
    requires SceneOk(sc)
  {
    var mine := Bearing(sc, occ) * ByColor(sc.board, side);
    if sc.pinners[side.Other()] * occ != {} then mine - sc.blockers[side] else mine
  }

  /** The cheapest type present, in the order pawn, knight, bishop, rook, queen, king. */
  function Cheapest(b: Board, s: Bitboard): PieceType {
    if s * ByType(b, Pawn) != {} then Pawn
    else if s * ByType(b, Knight) != {} then Knight
    else if s * ByType(b, Bishop) != {} then Bishop
    else if s * ByType(b, Rook) != {} then Rook
    else if s * ByType(b, Queen) != {} then Queen
    else King
  }

  /** The least valuable captor, lowest square first among equals. */
  function Least(b: Board, s: Bitboard): (x: Square)
    requires s != {} && Manned(b, s)
    ensures x in s && b[x].Man? && b[x].kind == Cheapest(b, s)
  {
    var k := Cheapest(b, s);
    assert s * ByType(b, k) != {} by {
      var q :| q in s;
      assert b[q].Man? && q in s * ByType(b, b[q].kind);
    }
    Lsb(s * ByType(b, k))
  }

  lemma LeastIs(b: Board, s: Bitboard)
    requires s != {} && Manned(b, s)
    ensures s * ByType(b, Cheapest(b, s)) != {} && Least(b, s) == Lsb(s * ByType(b, Cheapest(b, s)))
  {
    assert Least(b, s) in s * ByType(b, Cheapest(b, s));
  }

  ghost predicate Manned(b: Board, s: Bitboard) { forall q :: q in s ==> b[q].Man? }

  function Max(a: int, b: int): int { if a < b then b else a }

  /**
   * The best the given side can make by capturing a piece worth v on the square, or by
   * leaving it alone.  A king may take only what nobody defends.
   */
  function Gain(sc: Scene, occ: Bitboard, side: Color, v: int): (g: int)
    requires SceneOk(sc) && 0 <= v
    ensures 0 <= g <= v
    decreases |occ|
  {
    var captors := Captors(sc, occ, side);
    if captors == {} then 0
    else
      var x := Least(sc.board, captors);
      if sc.board[x].kind == King then
        if Bearing(sc, occ) - ByColor(sc.board, side) != {} then 0 else v
      else
        Max(0, v - Gain(sc, occ - {x}, side.Other(), Value(sc.board[x])))
  }

  /** What a NORMAL move is worth once every recapture has been considered. */
  function SeeValue(sc: Scene, from: Square, us: Color): int
    requires SceneOk(sc)
  {
    Value(sc.board[sc.to]) - Gain(sc, Toggle(Toggle(Occ(sc.board), {from}), {sc.to}), us.Other(), Value(sc.board[from]))
  }

  /** The sliders added to the attackers once a piece of type k has left its square. */
  function Uncovered(b: Board, to: Square, occ: Bitboard, k: PieceType): Bitboard {
    (if k == Pawn || k == Bishop || k == Queen then BishopBB(occ, to) * (ByType(b, Bishop) + ByType(b, Queen)) else {})
    + (if k == Rook || k == Queen then RookBB(occ, to) * (ByType(b, Rook) + ByType(b, Queen)) else {})
  }

  /** Once x has captured, the newly visible attackers are those behind x on its own kind of line. */
  lemma XRay(sc: Scene, occ: Bitboard, x: Square)
    requires x in Bearing(sc, occ) && sc.board[x].Man? && sc.board[x].kind != King
    ensures var occ' := occ - {x};
            (Bearing(sc, occ) + Uncovered(sc.board, sc.to, occ', sc.board[x].kind)) * occ' == Bearing(sc, occ')
  {
    hide RookLine, BishopLine, SameRay, Between, Sees, PawnAttacks, KnightAttacks, KingAttacks, AttackersTo;
    var b, to, occ' := sc.board, sc.to, occ - {x};
    AttackersToMeaning(b, to, occ, x);
    forall q: Square
      ensures Attacks(occ, b[q], q, to) ==> Attacks(occ', b[q], q, to)
      ensures Attacks(occ', b[q], q, to) && !Attacks(occ, b[q], q, to) ==>
                IsSlider(b[q].kind) && SlidesAlong(b[q].kind, q, to) && Sees(occ', q, to) && SameKind(b[x], q, to)
      ensures q in AttackersTo(b, to, occ) <==> Attacks(occ, b[q], q, to)
      ensures q in AttackersTo(b, to, occ') <==> Attacks(occ', b[q], q, to)
      ensures q in BishopBB(occ', to) <==> BishopLine(q, to) && Sees(occ', q, to)
      ensures q in RookBB(occ', to) <==> RookLine(q, to) && Sees(occ', q, to)
    {
      SeesThrough(occ, x, q, to);
      AttackersToMeaning(b, to, occ, q);
      AttackersToMeaning(b, to, occ', q);
      AlignedSym(q, to);
      SeesSym(occ', q, to);
      if Sees(occ', q, to) && !Sees(occ, q, to) { RayOfCaptor(occ, b[x], q, x, to); }
    }
  }

  /** q lies on a line a piece like pc slides, or a pawn captures, along. */
  predicate SameKind(pc: Piece, q: Square, to: Square)
    requires pc.Man?
  {
    && (BishopLine(q, to) ==> pc.kind == Pawn || pc.kind == Bishop || pc.kind == Queen)
    && (RookLine(q, to) ==> pc.kind == Rook || pc.kind == Queen)
  }

  lemma RayOfCaptor(occ: Bitboard, pc: Piece, q: Square, x: Square, to: Square)
    requires pc.Man? && pc.kind != King && Attacks(occ, pc, x, to) && Between(q, x, to)
    ensures SameKind(pc, q, to)
  {
    SameRayType(to, x, q);
    AlignedSym(q, to);
    AlignedSym(x, to);
    hide Between, SameRay, Sees;
  }

  /**
   * What the loop knows: the answer to the original question, restated as a bound on what
   * the side about to recapture can gain.
   */
  ghost predicate Window(answer: bool, res: int, swap: int, v: int, gain: int) {
    if res == 1 then 0 < swap <= v && (answer <==> gain <= v - swap)
    else res == 0 && 0 <= swap < v && (answer <==> gain >= v - swap)
  }

  /** One recapture by a piece worth w: the window narrows to the other side, or the answer is known. */
  lemma WindowStep(answer: bool, res: int, swap: int, v: int, gain: int, w: int, next: int)
    requires Window(answer, res, swap, v, gain)
    requires gain == Max(0, v - next) && 0 <= next <= w
    ensures w - swap < 1 - res ==> (answer <==> 1 - res == 1)
    ensures w - swap >= 1 - res ==> Window(answer, 1 - res, w - swap, w, next)
  {}

  /** The recapture the code is about to make, in terms of the recursive value. */
  lemma Recapture(sc: Scene, occ: Bitboard, side: Color, answer: bool, res: int, swap: int, v: int, w: int)
    requires SceneOk(sc) && 0 <= v <= QUEEN_VALUE && Captors(sc, occ, side) != {}
    requires Window(answer, res, swap, v, Gain(sc, occ, side, v))
    requires var k := Cheapest(sc.board, Captors(sc, occ, side)); k != King && w == Value(Man(side, k))
    ensures CaptorsManned(sc, occ, side)
    ensures var x := Least(sc.board, Captors(sc, occ, side));
            && (w - swap < 1 - res ==> (answer <==> 1 - res == 1))
            && (w - swap >= 1 - res ==>
                  Window(answer, 1 - res, w - swap, w, Gain(sc, occ - {x}, side.Other(), w)))
            && (Cheapest(sc.board, Captors(sc, occ, side)) == Queen ==> w - swap >= 1 - res)
  {
    hide Captors, Cheapest;
    CaptorsAreManned(sc, occ, side);
    var x := Least(sc.board, Captors(sc, occ, side));
    hide Least;
    var next := Gain(sc, occ - {x}, side.Other(), w);
    assert w == Value(sc.board[x]);
    WindowStep(answer, res, swap, v, Gain(sc, occ, side, v), w, next);
  }

  ghost predicate CaptorsManned(sc: Scene, occ: Bitboard, side: Color)
    requires SceneOk(sc)
  {
    Manned(sc.board, Captors(sc, occ, side))
  }

  lemma CaptorsAreManned(sc: Scene, occ: Bitboard, side: Color)
    requires SceneOk(sc)
    ensures CaptorsManned(sc, occ, side) && Captors(sc, occ, side) <= Bearing(sc, occ)
    ensures Captors(sc, occ, side) <= occ
  {
    hide AttackersTo;
  }

  /** With nobody, or only a king facing defenders, left to capture, the gain is settled. */
  lemma LastWord(sc: Scene, occ: Bitboard, side: Color, answer: bool, res: int, swap: int, v: int)
    requires SceneOk(sc) && 0 <= v
    requires Window(answer, res, swap, v, Gain(sc, occ, side, v))
    ensures var captors := Captors(sc, occ, side);
            && (captors == {} ==> (answer <==> res == 1))
            && (captors != {} && Cheapest(sc.board, captors) == King ==>
                  (answer <==> (if Bearing(sc, occ) - ByColor(sc.board, side) != {} then res == 1 else res == 0)))
  {
    hide Captors, Cheapest, Bearing;
    CaptorsAreManned(sc, occ, side);
  }

  /** The two early exits, and the window the loop starts with. */
  lemma Entry(sc: Scene, from: Square, us: Color, threshold: int)
    requires SceneOk(sc)
    ensures var answer := SeeValue(sc, from, us) >= threshold;
            var swap0, v := Value(sc.board[sc.to]) - threshold, Value(sc.board[from]);
            var occ := Toggle(Toggle(Occ(sc.board), {from}), {sc.to});
            && (swap0 < 0 ==> !answer)
            && (swap0 >= 0 && v - swap0 <= 0 ==> answer)
            && (swap0 >= 0 && v - swap0 > 0 ==> Window(answer, 1, v - swap0, v, Gain(sc, occ, us.Other(), v)))
            && AttackersTo(sc.board, sc.to, occ) * occ == Bearing(sc, occ)
  {
    hide AttackersTo, Occ;
  }

  /** `stmAttackers`: one side's attackers, less its pinned pieces while a pinner remains. */
  function StmAttackers(sc: Scene, occ: Bitboard, attackers: Bitboard, stm: Color): Bitboard
    requires SceneOk(sc)
  {
    var mine := attackers * ByColor(sc.board, stm);
    if mine == {} then {}
    else if sc.pinners[stm.Other()] * occ != {} then mine - sc.blockers[stm]
    else mine
  }

  /** Everything one turn of the loop relies on. */
  lemma Turn(sc: Scene, occ: Bitboard, attackers: Bitboard, stm: Color)
    requires SceneOk(sc) && attackers == Bearing(sc, occ)
    ensures StmAttackers(sc, occ, attackers, stm) == Captors(sc, occ, stm)
    ensures Manned(sc.board, Captors(sc, occ, stm))
    ensures var b, captors := sc.board, Captors(sc, occ, stm);
            captors != {} ==>
              var kind := Cheapest(b, captors);
              && captors * ByType(b, kind) != {}
              && var x := Lsb(captors * ByType(b, kind));
              && x == Least(b, captors) && x in occ
              && (kind != King ==>
                  (attackers + Uncovered(b, sc.to, occ - {x}, kind)) * (occ - {x}) == Bearing(sc, occ - {x}))
  {
    hide AttackersTo, Least, Cheapest, BishopBB, RookBB, Uncovered;
    CaptorsAreManned(sc, occ, stm);
    var captors := Captors(sc, occ, stm);
    if captors != {} {
      LeastIs(sc.board, captors);
      var x := Least(sc.board, captors);
      if sc.board[x].kind != King { XRay(sc, occ, x); }
    }
  }

  /** The loop of see_ge, entered with side us having just moved to the square. */
  method Exchange(sc: Scene, us: Color, occ: Bitboard, swap0: int, ghost v0: int, ghost answer: bool) returns (r: bool)
    requires SceneOk(sc) && 0 <= v0 <= QUEEN_VALUE
    requires Window(answer, 1, swap0, v0, Gain(sc, occ, us.Other(), v0))
    ensures r <==> answer
  {
    hide *;
    var b, to := sc.board, sc.to;
    var swap, occupied, stm, res := swap0, occ, us, 1;
    var attackers := AttackersTo(b, to, occupied);
    ghost var v := v0;
    BearingIs(sc, occ);

    while true
      invariant attackers * occupied == Bearing(sc, occupied)
      invariant 0 <= v <= QUEEN_VALUE
      invariant res == 0 || res == 1
      invariant Window(answer, res, swap, v, Gain(sc, occupied, stm.Other(), v))
      decreases |occupied|
    {
      stm := stm.Other();
      attackers := attackers * occupied;
      LastWord(sc, occupied, stm, answer, res, swap, v);
      Turn(sc, occupied, attackers, stm);
      var stmAttackers := StmAttackers(sc, occupied, attackers, stm);
      if stmAttackers == {} { break; }
      res := 1 - res;

      // The chain of tests for the cheapest attacking type.
      var kind := Cheapest(b, stmAttackers);
      if kind == King {
        return if attackers - ByColor(b, stm) != {} then 1 - res == 1 else res == 1;
      }
      var w := Value(Man(stm, kind));
      Recapture(sc, occupied, stm, answer, 1 - res, swap, v, w);
      swap := w - swap;
      if kind != Queen && swap < res { break; }
      assert swap >= res;
      occupied := occupied - {Lsb(stmAttackers * ByType(b, kind))};
      attackers := attackers + Uncovered(b, to, occupied, kind);
      v := w;
    }
    return res == 1;
  }

  /** `Position::see_ge`. */
  method SeeGe(sc: Scene, m: Move, us: Color, threshold: int) returns (r: bool)
    requires SceneOk(sc) && m.to == sc.to && m.from != m.to
    requires sc.board[m.from].Man?
    ensures m.mtype != Normal ==> (r <==> 0 >= threshold)
    ensures m.mtype == Normal ==> (r <==> SeeValue(sc, m.from, us) >= threshold)
  {
    if m.mtype != Normal { return 0 >= threshold; }
    hide *;
    var b, from, to := sc.board, m.from, m.to;
    Entry(sc, from, us, threshold);
    var swap := Value(b[to]) - threshold;
    if swap < 0 { return false; }
    swap := Value(b[from]) - swap;
    if swap <= 0 { return true; }
    var occupied := Toggle(Toggle(Occ(b), {from}), {to});
    r := Exchange(sc, us, occupied, swap, Value(b[from]), SeeValue(sc, from, us) >= threshold);
  }

  lemma BearingIs(sc: Scene, occ: Bitboard)
    ensures Bearing(sc, occ) == AttackersTo(sc.board, sc.to, occ) * occ
  {}
}
