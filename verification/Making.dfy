/**
 * What a move does: the board after it, and the incremental update of the keys, material
 * and counters carried from state to state, proved to give what recomputing would give.
 */
module Making {
  import opened Options
  import opened Types
  import opened Board
  import opened See
  import opened Keys

  /** The fields of StateInfo that are copied when a move is made. */
  datatype Carried = Carried(
    materialKey: Key,
    pawnKey: Key,
    minorPieceKey: Key,
    nonPawnKey: map<Color, Key>,
    nonPawnMaterial: map<Color, int>,
    castlingRights: set<CastlingRight>,
    rule50: int,
    pliesFromNull: int,
    epSquare: Option<Square>)

  function EpKey(z: Zobrist, ep: Option<Square>): Key { if ep.Some? then z.enpassant(File(ep.value)) else {} }

  function SideKey(z: Zobrist, stm: Color): Key { if stm.Black? then z.side else {} }

  /** The key `set_state` computes from scratch. */
  function PositionKey(z: Zobrist, b: Board, stm: Color, ep: Option<Square>, rights: set<CastlingRight>): Key {
    Xor(Xor(Xor(BoardKey(z, Whole, b), EpKey(z, ep)), SideKey(z, stm)), z.castling(rights))
  }

  ghost predicate HasBoth(c: Carried) {
    forall d :: d in c.nonPawnKey && d in c.nonPawnMaterial
  }

  /** Every key and sum is what it would be if recomputed from the board. */
  ghost predicate KeysOk(z: Zobrist, b: Board, stm: Color, c: Carried, key: Key) {
    && HasBoth(c)
    && c.materialKey == MaterialKey(z, b)
    && c.pawnKey == Xor(z.noPawns, BoardKey(z, Pawns, b))
    && c.minorPieceKey == BoardKey(z, Minors, b)
    && (forall d :: c.nonPawnKey[d] == BoardKey(z, NonPawns(d), b))
    && (forall d :: c.nonPawnMaterial[d] == NonPawnMaterial(b, d))
    && key == PositionKey(z, b, stm, c.epSquare, c.castlingRights)
  }

  // ----- Moves on a board -----

  function RookTo(us: Color, m: Move): Square { RelativeSquare(us, if m.to > m.from then 5 else 3) }

  function KingTo(us: Color, m: Move): Square { RelativeSquare(us, if m.to > m.from then 6 else 2) }

  /** What the assertions of do_move demand of a move. */
  ghost predicate MoveOk(b: Board, us: Color, ep: Option<Square>, m: Move) {
    var pc := b[m.from];
    && m.from != m.to && pc.Man? && pc.color == us
    && (match m.mtype
        case Normal => Landing(b, us, m) && (pc.kind == Pawn && Xor16(m.from, m.to) ==> 0 <= m.to - PawnPush(us) < 64)
        case Promotion => Landing(b, us, m) && pc.kind == Pawn && RelativeRank(us, m.to) == 7 && !Xor16(m.from, m.to)
                          && (m.promo == Knight || m.promo == Bishop || m.promo == Rook || m.promo == Queen)
        case EnPassant => pc.kind == Pawn && ep == Some(m.to) && RelativeRank(us, m.to) == 5 && b[m.to] == Empty
                          && PawnAttacks(us, m.from, m.to)
                          && 0 <= m.to - PawnPush(us) < 64 && b[m.to - PawnPush(us)] == Man(us.Other(), Pawn)
        case Castling => pc.kind == King && b[m.to] == Man(us, Rook)
                         && Vacant(b, m, KingTo(us, m)) && Vacant(b, m, RookTo(us, m)))
  }

  predicate Landing(b: Board, us: Color, m: Move) {
    b[m.to] == Empty || (b[m.to].color == us.Other() && b[m.to].kind != King)
  }

  /** A castling destination is empty, or is one of the two squares being vacated. */
  predicate Vacant(b: Board, m: Move, s: Square) { b[s] == Empty || s == m.from || s == m.to }

  /** The test `(int(to) ^ int(from)) == 16`: the squares differ in bit 4 alone. */
  predicate Xor16(from: Square, to: Square) {
    (to - from == 16 && from % 32 < 16) || (from - to == 16 && to % 32 < 16)
  }

  function Captured(b: Board, us: Color, m: Move): Piece {
    match m.mtype
    case EnPassant => Man(us.Other(), Pawn)
    case Castling => Empty
    case _ => b[m.to]
  }

  function CaptureSquare(us: Color, m: Move): int { if m.mtype == EnPassant then m.to - PawnPush(us) else m.to }

  /** The board after the move. */
  function ApplyMove(b: Board, us: Color, m: Move): Board {
    match m.mtype
    case Normal => b[m.from := Empty][m.to := b[m.from]]
    case Promotion => b[m.from := Empty][m.to := Man(us, m.promo)]
    case EnPassant =>
      if 0 <= m.to - PawnPush(us) < 64 then b[m.to - PawnPush(us) := Empty][m.from := Empty][m.to := b[m.from]] else b
    case Castling => b[m.from := Empty][m.to := Empty][KingTo(us, m) := Man(us, King)][RookTo(us, m) := Man(us, Rook)]
  }

  // ----- The incremental update, in the order of do_move -----

  /** Castling's rook, or the captured piece. */
  function CaptureStep(z: Zobrist, us: Color, m: Move, captured: Piece, pieceCount: map<Piece, int>, c: Carried,
      k: Key): (r: (Carried, Key))
    requires us in c.nonPawnKey && us.Other() in c.nonPawnKey && us.Other() in c.nonPawnMaterial
    requires m.mtype == Castling ==> captured.Man?
    requires captured.Man? ==> captured in pieceCount
  {
    var them := us.Other();
    if m.mtype == Castling then
      var rook := Xor(z.psq(captured, m.to), z.psq(captured, RookTo(us, m)));
      (c.(nonPawnKey := c.nonPawnKey[us := Xor(c.nonPawnKey[us], rook)]), Xor(k, rook))
    else if captured.Man? then
      var capsq := CaptureSquare(us, m);
      var toggle := z.psq(captured, capsq);
      var c1 :=
        if captured.kind == Pawn then c.(pawnKey := Xor(c.pawnKey, toggle))
        else c.(nonPawnMaterial := c.nonPawnMaterial[them := c.nonPawnMaterial[them] - Value(captured)],
                nonPawnKey := c.nonPawnKey[them := Xor(c.nonPawnKey[them], toggle)],
                minorPieceKey := if captured.kind == Knight
                    || captured.kind == Bishop then Xor(c.minorPieceKey, toggle) else c.minorPieceKey);
      (c1.(materialKey := Xor(c1.materialKey,
          z.psq(captured, 8 + pieceCount[captured] - (if m.mtype == EnPassant then 0 else 1))),
           rule50 := 0),
       Xor(k, toggle))
    else (c, k)
  }

  /** The moving piece's key, the old en passant square and the castling rights. */
  function MoveStep(z: Zobrist, m: Move, to: Square, pc: Piece, mask: Square -> set<CastlingRight>, c: Carried,
      k: Key): (r: (Carried, Key)) {
    var k1 := Xor(k, Xor(z.psq(pc, m.from), z.psq(pc, to)));
    var k2 := if c.epSquare.Some? then Xor(k1, z.enpassant(File(c.epSquare.value))) else k1;
    var k3 := Xor(k2, z.castling(c.castlingRights));
    var rights := c.castlingRights - (mask(m.from) + mask(to));
    (c.(epSquare := None, castlingRights := rights), Xor(k3, z.castling(rights)))
  }

  /** Double steps, promotions and the keys the moving piece belongs to. */
  function PieceStep(z: Zobrist, us: Color, m: Move, to: Square, pc: Piece, pieceCount: map<Piece, int>,
                     newEp: Option<Square>, c: Carried, k: Key): (r: (Carried, Key))
    requires pc.Man? && us in c.nonPawnKey && us in c.nonPawnMaterial
    requires pc in pieceCount && Man(us, m.promo) in pieceCount
  {
    var toggle := Xor(z.psq(pc, m.from), z.psq(pc, to));
    if pc.kind == Pawn then
      var (c1, k1) :=
        if Xor16(m.from, m.to) then
          if newEp.Some? then (c.(epSquare := newEp), Xor(k, z.enpassant(File(newEp.value)))) else (c, k)
        else if m.mtype == Promotion then
          var promotion := Man(us, m.promo);
          (c.(materialKey := Xor(c.materialKey, Xor(z.psq(promotion, 8 + pieceCount[promotion]),
              z.psq(pc, 8 + pieceCount[pc] - 1))),
              nonPawnKey := c.nonPawnKey[us := Xor(c.nonPawnKey[us], z.psq(promotion, to))],
              minorPieceKey := if m.promo == Knight
                  || m.promo == Bishop then Xor(c.minorPieceKey, z.psq(promotion, to)) else c.minorPieceKey,
              nonPawnMaterial := c.nonPawnMaterial[us := c.nonPawnMaterial[us] + Value(promotion)]),
           Xor(k, z.psq(promotion, to)))
        else (c, k);
      (c1.(pawnKey := Xor(c1.pawnKey, toggle), rule50 := 0), k1)
    else
      (c.(nonPawnKey := c.nonPawnKey[us := Xor(c.nonPawnKey[us], toggle)],
          minorPieceKey := if pc.kind == Knight || pc.kind == Bishop then Xor(c.minorPieceKey, toggle)
              else c.minorPieceKey),
       k)
  }

  /** The whole update of the carried fields and the key. */
  function Advance(z: Zobrist, us: Color, m: Move, pc: Piece, captured: Piece, pieceCount: map<Piece, int>,
                   mask: Square -> set<CastlingRight>, newEp: Option<Square>, c: Carried, key: Key): (r: (Carried, Key))
    requires pc.Man? && us in c.nonPawnKey && us.Other() in c.nonPawnKey && us in c.nonPawnMaterial
        && us.Other() in c.nonPawnMaterial
    requires m.mtype == Castling ==> captured.Man?
    requires captured.Man? ==> captured in pieceCount
    requires pc in pieceCount && Man(us, m.promo) in pieceCount
  {
    var c0 := c.(rule50 := c.rule50 + 1, pliesFromNull := c.pliesFromNull + 1);
    var (c1, k1) := CaptureStep(z, us, m, captured, pieceCount, c0, Xor(key, z.side));
    var to := if m.mtype == Castling then KingTo(us, m) else m.to;
    var (c2, k2) := MoveStep(z, m, to, pc, mask, c1, k1);
    PieceStep(z, us, m, to, pc, pieceCount, newEp, c2, k2)
  }

  // ----- Recomputing after the move -----

  /** The piece named by the code before castling resets it. */
  function Victim(b: Board, us: Color, m: Move): Piece {
    if m.mtype == EnPassant then Man(us.Other(), Pawn) else b[m.to]
  }

  /** What the pieces that leave or shift beside the mover contribute to a key. */
  function Aside(z: Zobrist, part: Part, b: Board, us: Color, m: Move): Key {
    match m.mtype
    case Castling => Xor(Weight(z, part, b[m.to], m.to), Weight(z, part, b[m.to], RookTo(us, m)))
    case EnPassant => if 0 <= CaptureSquare(us, m) < 64 then Weight(z, part, Victim(b, us, m), CaptureSquare(us, m))
        else {}
    case _ => Weight(z, part, b[m.to], m.to)
  }

  function Arrival(b: Board, us: Color, m: Move): Piece { if m.mtype == Promotion then Man(us, m.promo) else b[m.from] }

  function Target(us: Color, m: Move): Square { if m.mtype == Castling then KingTo(us, m) else m.to }

  lemma KeySimple(z: Zobrist, part: Part, b: Board, s: Square, t: Square, x: Piece)
    requires s != t
    ensures BoardKey(z, part, b[s := Empty][t := x]) ==
            Xor(Xor(Xor(BoardKey(z, part, b), Weight(z, part, b[t], t)), Weight(z, part, b[s], s)),
                Weight(z, part, x, t))
  {
    hide BoardKey;
    KeyUpdate(z, part, b, s, Empty);
    KeyUpdate(z, part, b[s := Empty], t, x);
    assert Weight(z, part, Empty, s) == {};
    var k, p, q, r := BoardKey(z, part, b), Weight(z, part, b[s], s), Weight(z, part, b[t], t), Weight(z, part, x, t);
    hide Weight;
    assert Flip(Flip(k, p, {}), q, r) == Xor(Xor(Xor(k, q), p), r);
  }

  lemma BoardKeyAfter(z: Zobrist, part: Part, b: Board, us: Color, ep: Option<Square>, m: Move)
    requires MoveOk(b, us, ep, m)
    ensures BoardKey(z, part, ApplyMove(b, us, m)) ==
            Xor(Xor(Xor(BoardKey(z, part, b), Aside(z, part, b, us, m)), Weight(z, part, b[m.from], m.from)),
                Weight(z, part, Arrival(b, us, m), Target(us, m)))
  {
    hide BoardKey, Weight, Xor;
    match m.mtype {
      case Normal => KeySimple(z, part, b, m.from, m.to, b[m.from]);
      case Promotion => KeySimple(z, part, b, m.from, m.to, Man(us, m.promo));
      case EnPassant =>
        var capsq: Square := m.to - PawnPush(us);
        var c: Board := b[capsq := Empty];
        KeySimple(z, part, c, m.from, m.to, b[m.from]);
        KeyUpdate(z, part, b, capsq, Empty);
        assert Weight(z, part, Empty, capsq) == {} && Weight(z, part, Empty, m.to) == {} by {
            EmptyWeight(z, part, capsq); EmptyWeight(z, part, m.to); }
        XorAlgebraEp(BoardKey(z, part, b), Weight(z, part, b[capsq], capsq));
      case Castling => CastlingKey(z, part, b, us, ep, m);
    }
  }

  lemma EmptyWeight(z: Zobrist, part: Part, s: Square)
    ensures Weight(z, part, Empty, s) == {}
  {}

  lemma XorAlgebraEp(k: Key, a: Key)
    ensures Xor(Flip(k, a, {}), {}) == Xor(k, a)
  {}

  lemma CastlingKey(z: Zobrist, part: Part, b: Board, us: Color, ep: Option<Square>, m: Move)
    requires MoveOk(b, us, ep, m) && m.mtype == Castling
    ensures BoardKey(z, part, ApplyMove(b, us, m)) ==
            Xor(Xor(Xor(BoardKey(z, part, b), Aside(z, part, b, us, m)), Weight(z, part, b[m.from], m.from)),
                Weight(z, part, b[m.from], KingTo(us, m)))
  {
    hide BoardKey, Weight, Xor, Flip;
    var king, rook, kto, rto := Man(us, King), Man(us, Rook), KingTo(us, m), RookTo(us, m);
    var b1: Board := b[m.from := Empty];
    var b2: Board := b1[m.to := Empty];
    var b3: Board := b2[kto := king];
    KeyUpdate(z, part, b, m.from, Empty);
    KeyUpdate(z, part, b1, m.to, Empty);
    KeyUpdate(z, part, b2, kto, king);
    KeyUpdate(z, part, b3, rto, rook);
    EmptyWeight(z, part, m.from); EmptyWeight(z, part, m.to); EmptyWeight(z, part, kto); EmptyWeight(z, part, rto);
    assert kto != rto;
    assert b2[kto] == Empty && b3[rto] == Empty;
    CastlingAlgebra(BoardKey(z, part, b), Weight(z, part, king, m.from), Weight(z, part, rook, m.to),
                    Weight(z, part, king, kto), Weight(z, part, rook, rto));
  }

  lemma CastlingAlgebra(k: Key, kf: Key, rf: Key, kt: Key, rt: Key)
    ensures Flip(Flip(Flip(Flip(k, kf, {}), rf, {}), {}, kt), {}, rt) == Xor(Xor(Xor(k, Xor(rf, rt)), kf), kt)
  {}

  // ----- The incremental update agrees -----

  /** The counts the code reads when it updates the material key: an en passant victim is already gone. */
  ghost predicate CountsOk(b: Board, us: Color, m: Move, pieceCount: map<Piece, int>) {
    forall p: Piece | p.Man? ::
        p in pieceCount && pieceCount[p] == Count(b, p) - (if m.mtype == EnPassant
        && p == Man(us.Other(), Pawn) then 1 else 0)
  }

  ghost predicate AdvanceOk(z: Zobrist, b: Board, us: Color, m: Move, pieceCount: map<Piece, int>, c: Carried,
      key: Key) {
    && ZobristOk(z) && MoveOk(b, us, c.epSquare, m) && CountsOk(b, us, m, pieceCount) && KeysOk(z, b, us, c, key)
  }

  /** The step as do_move takes it. */
  ghost function Step(z: Zobrist, b: Board, us: Color, m: Move, pieceCount: map<Piece, int>,
                      mask: Square -> set<CastlingRight>, newEp: Option<Square>, c: Carried, key: Key): (Carried, Key)
    requires AdvanceOk(z, b, us, m, pieceCount, c, key)
  {
    Advance(z, us, m, b[m.from], Victim(b, us, m), pieceCount, mask, newEp, c, key)
  }

  lemma PromotionKeyZero(z: Zobrist, us: Color, s: Square)
    requires ZobristOk(z) && RelativeRank(us, s) == 7
    ensures z.psq(Man(us, Pawn), s) == {}
  {}

  /** The carried key of a part of the board; the whole key is kept elsewhere. */
  function Field(c: Carried, part: Part): Key
    requires HasBothFor(c, part)
  {
    match part
    case Whole => {}
    case Pawns => c.pawnKey
    case Minors => c.minorPieceKey
    case NonPawns(d) => c.nonPawnKey[d]
  }

  lemma CaptureField(z: Zobrist, b: Board, us: Color, ep: Option<Square>, m: Move, pieceCount: map<Piece, int>,
      c: Carried, k: Key, part: Part)
    requires MoveOk(b, us, ep, m) && HasBoth(c) && part != Whole && (forall p: Piece | p.Man? :: p in pieceCount)
    ensures HasBoth(CaptureStep(z, us, m, Victim(b, us, m), pieceCount, c, k).0)
    ensures Field(CaptureStep(z, us, m, Victim(b, us, m), pieceCount, c, k).0, part)
        == Xor(Field(c, part), Aside(z, part, b, us, m))
  {
    hide Vacant, RelativeSquare, Xor16, PawnAttacks;
    XorZeros(Field(c, part), {});
    hide Xor;
  }

  lemma PieceField(z: Zobrist, b: Board, us: Color, ep: Option<Square>, m: Move, pieceCount: map<Piece, int>,
                   newEp: Option<Square>, c: Carried, k: Key, part: Part)
    requires ZobristOk(z) && MoveOk(b, us, ep, m) && HasBoth(c) && part != Whole
        && (forall p: Piece | p.Man? :: p in pieceCount)
    ensures HasBoth(PieceStep(z, us, m, Target(us, m), b[m.from], pieceCount, newEp, c, k).0)
    ensures Field(PieceStep(z, us, m, Target(us, m), b[m.from], pieceCount, newEp, c, k).0, part) ==
            Xor(Xor(Field(c, part), Weight(z, part, b[m.from], m.from)),
                Weight(z, part, Arrival(b, us, m), Target(us, m)))
  {
    hide Vacant, RelativeSquare, PawnAttacks;
    var f, pc := Field(c, part), b[m.from];
    XorZeros(f, {});
    XorAssoc(f, z.psq(pc, m.from), z.psq(pc, Target(us, m)));
    XorZeros(f, z.psq(pc, m.from));
    if m.mtype == Promotion { PromotionKeyZero(z, us, m.to); XorZeros(z.psq(pc, m.from), {}); }
    hide Xor;
  }

  /** The counters advance and the capture is recorded. */
  ghost function AfterCapture(z: Zobrist, b: Board, us: Color, m: Move, pieceCount: map<Piece, int>, c: Carried,
      key: Key): (Carried, Key)
    requires HasBoth(c) && (forall p: Piece | p.Man? :: p in pieceCount) && (m.mtype == Castling ==> b[m.to].Man?)
  {
    CaptureStep(z, us, m, Victim(b, us, m), pieceCount,
        c.(rule50 := c.rule50 + 1, pliesFromNull := c.pliesFromNull + 1), Xor(key, z.side))
  }

  /** The state between the capture and the moving piece's own update. */
  ghost function Middle(z: Zobrist, b: Board, us: Color, m: Move, pieceCount: map<Piece, int>,
                        mask: Square -> set<CastlingRight>, c: Carried, key: Key): (Carried, Key)
    requires HasBoth(c) && (forall p: Piece | p.Man? :: p in pieceCount) && b[m.from].Man?
        && (m.mtype == Castling ==> b[m.to].Man?)
  {
    var (c1, k1) := AfterCapture(z, b, us, m, pieceCount, c, key);
    MoveStep(z, m, Target(us, m), b[m.from], mask, c1, k1)
  }

  lemma AfterCaptureField(z: Zobrist, b: Board, us: Color, m: Move, pieceCount: map<Piece, int>, c: Carried, key: Key,
      part: Part)
    requires AdvanceOk(z, b, us, m, pieceCount, c, key) && part != Whole
    ensures HasBoth(AfterCapture(z, b, us, m, pieceCount, c, key).0)
    ensures Field(AfterCapture(z, b, us, m, pieceCount, c, key).0, part)
        == Xor(Field(c, part), Aside(z, part, b, us, m))
  {
    AfterCaptureIs(z, b, us, m, pieceCount, c, key);
    var c0 := c.(rule50 := c.rule50 + 1, pliesFromNull := c.pliesFromNull + 1);
    FieldSteady(c, part);
    hide *;
    CaptureField(z, b, us, c.epSquare, m, pieceCount, c0, Xor(key, z.side), part);
  }

  lemma FieldSteady(c: Carried, part: Part)
    requires HasBoth(c)
    ensures var c0 := c.(rule50 := c.rule50 + 1, pliesFromNull := c.pliesFromNull + 1);
            HasBoth(c0) && HasBothFor(c, part) && HasBothFor(c0, part) && Field(c0, part) == Field(c, part)
  {}

  predicate HasBothFor(c: Carried, part: Part) { part.NonPawns? ==> part.color in c.nonPawnKey }

  lemma AfterCaptureIs(z: Zobrist, b: Board, us: Color, m: Move, pieceCount: map<Piece, int>, c: Carried, key: Key)
    requires AdvanceOk(z, b, us, m, pieceCount, c, key)
    ensures MoveOk(b, us, c.epSquare, m) && HasBoth(c) && (forall p: Piece | p.Man? :: p in pieceCount)
        && (m.mtype == Castling ==> b[m.to].Man?)
    ensures var c0 := c.(rule50 := c.rule50 + 1, pliesFromNull := c.pliesFromNull + 1);
            && us in c0.nonPawnKey && us.Other() in c0.nonPawnKey && us.Other() in c0.nonPawnMaterial
            && (m.mtype == Castling ==> Victim(b, us, m).Man?)
                && (Victim(b, us, m).Man? ==> Victim(b, us, m) in pieceCount)
            && AfterCapture(z, b, us, m, pieceCount, c, key)
                == CaptureStep(z, us, m, Victim(b, us, m), pieceCount, c0, Xor(key, z.side))
  {
    hide Xor, CaptureStep, Count, ZobristOk;
  }

  lemma MoveStepField(z: Zobrist, m: Move, to: Square, pc: Piece, mask: Square -> set<CastlingRight>, c: Carried,
      k: Key, part: Part)
    requires HasBoth(c)
    ensures HasBoth(MoveStep(z, m, to, pc, mask, c, k).0)
    ensures Field(MoveStep(z, m, to, pc, mask, c, k).0, part) == Field(c, part)
  {
    hide Xor;
  }

  lemma MiddleField(z: Zobrist, b: Board, us: Color, m: Move, pieceCount: map<Piece, int>,
                    mask: Square -> set<CastlingRight>, c: Carried, key: Key, part: Part)
    requires AdvanceOk(z, b, us, m, pieceCount, c, key) && part != Whole
    ensures HasBoth(Middle(z, b, us, m, pieceCount, mask, c, key).0)
    ensures Field(Middle(z, b, us, m, pieceCount, mask, c, key).0, part)
        == Xor(Field(c, part), Aside(z, part, b, us, m))
  {
    AfterCaptureField(z, b, us, m, pieceCount, c, key, part);
    var (c1, k1) := AfterCapture(z, b, us, m, pieceCount, c, key);
    MoveStepField(z, m, Target(us, m), b[m.from], mask, c1, k1, part);
    hide MoveStep, AfterCapture, Xor, Aside, AdvanceOk, Field, HasBoth;
  }

  lemma StepFromMiddle(z: Zobrist, b: Board, us: Color, m: Move, pieceCount: map<Piece, int>,
                       mask: Square -> set<CastlingRight>, newEp: Option<Square>, c: Carried, key: Key)
    requires AdvanceOk(z, b, us, m, pieceCount, c, key)
    requires var mid := Middle(z, b, us, m, pieceCount, mask, c, key); HasBoth(mid.0)
    ensures var mid := Middle(z, b, us, m, pieceCount, mask, c, key);
            Step(z, b, us, m, pieceCount, mask, newEp, c, key) ==
            PieceStep(z, us, m, Target(us, m), b[m.from], pieceCount, newEp, mid.0, mid.1)
  {
    hide Xor, CaptureStep, MoveStep, PieceStep, Count, ZobristOk, KeysOk, Target;
    assert Target(us, m) == if m.mtype == Castling then KingTo(us, m) else m.to by { TargetIs(us, m); }
  }

  /** The carried keys of parts of the board after the step. */
  lemma PartAdvances(z: Zobrist, b: Board, us: Color, m: Move, pieceCount: map<Piece, int>,
                     mask: Square -> set<CastlingRight>, newEp: Option<Square>, c: Carried, key: Key, part: Part)
    requires AdvanceOk(z, b, us, m, pieceCount, c, key) && part != Whole
    ensures HasBoth(Step(z, b, us, m, pieceCount, mask, newEp, c, key).0)
    ensures Field(Step(z, b, us, m, pieceCount, mask, newEp, c, key).0, part) ==
            (if part == Pawns then Xor(z.noPawns, BoardKey(z, part, ApplyMove(b, us, m)))
                else BoardKey(z, part, ApplyMove(b, us, m)))
  {
    assert Field(c, part) == if part == Pawns then Xor(z.noPawns, BoardKey(z, part, b)) else BoardKey(z, part, b);
    MiddleField(z, b, us, m, pieceCount, mask, c, key, part);
    var mid := Middle(z, b, us, m, pieceCount, mask, c, key);
    StepFromMiddle(z, b, us, m, pieceCount, mask, newEp, c, key);
    PieceField(z, b, us, c.epSquare, m, pieceCount, newEp, mid.0, mid.1, part);
    BoardKeyAfter(z, part, b, us, c.epSquare, m);
    hide *;
    var was, aside, from, land := BoardKey(z, part, b), Aside(z, part, b, us, m), Weight(z, part, b[m.from], m.from),
        Weight(z, part, Arrival(b, us, m), Target(us, m));
    XorAssoc(z.noPawns, was, aside);
    XorAssoc(z.noPawns, Xor(was, aside), from);
    XorAssoc(z.noPawns, Xor(Xor(was, aside), from), land);
  }

  lemma XorZeros(k: Key, a: Key)
    ensures Xor(k, {}) == k && Xor(Xor(k, a), {}) == Xor(k, a) && Xor({}, {}) == {}
  {}

  // ----- The whole key -----

  lemma CaptureWhole(z: Zobrist, b: Board, us: Color, ep: Option<Square>, m: Move, pieceCount: map<Piece, int>,
      c: Carried, k: Key)
    requires MoveOk(b, us, ep, m) && HasBoth(c) && (forall p: Piece | p.Man? :: p in pieceCount)
    ensures var r := CaptureStep(z, us, m, Victim(b, us, m), pieceCount, c, k);
            r.1 == Xor(k, Aside(z, Whole, b, us, m)) && r.0.epSquare == c.epSquare
                && r.0.castlingRights == c.castlingRights
  {
    hide Vacant, RelativeSquare, Xor16, PawnAttacks;
    XorZeros(k, {});
    hide Xor;
  }

  lemma MoveWhole(z: Zobrist, m: Move, to: Square, pc: Piece, mask: Square -> set<CastlingRight>, c: Carried, k: Key)
    ensures var r := MoveStep(z, m, to, pc, mask, c, k);
            && r.0.epSquare == None
            && r.1 == Xor(Xor(Xor(Xor(k, Xor(z.psq(pc, m.from), z.psq(pc, to))), EpKey(z, c.epSquare)),
                z.castling(c.castlingRights)),
                          z.castling(r.0.castlingRights))
  {
    XorZeros(Xor(k, Xor(z.psq(pc, m.from), z.psq(pc, to))), {});
    hide Xor;
  }

  lemma PieceWhole(z: Zobrist, b: Board, us: Color, ep: Option<Square>, m: Move, pieceCount: map<Piece, int>,
                   newEp: Option<Square>, c: Carried, k: Key)
    requires MoveOk(b, us, ep, m) && HasBoth(c) && (forall p: Piece | p.Man? :: p in pieceCount) && c.epSquare == None
    ensures var r := PieceStep(z, us, m, Target(us, m), b[m.from], pieceCount, newEp, c, k);
            && r.0.castlingRights == c.castlingRights
            && r.1 == Xor(Xor(k, EpKey(z, r.0.epSquare)), if m.mtype == Promotion then z.psq(Man(us, m.promo), m.to)
                else {})
  {
    hide Vacant, RelativeSquare, PawnAttacks, Landing;
    XorZeros(k, {});
    if newEp.Some? { XorZeros(k, z.enpassant(File(newEp.value))); }
    hide Xor;
  }

  /** The order in which do_move toggles the key does not matter. */
  lemma KeyAlgebra(k: Key, e: Key, s: Key, c: Key, side: Key, a: Key, f: Key, t: Key, c': Key, e': Key, p: Key)
    ensures Xor(Xor(Xor(Xor(Xor(Xor(Xor(Xor(Xor(Xor(Xor(k, e), s), c), side), a), Xor(f, t)), e), c), c'), e'), p)
            == Xor(Xor(Xor(Xor(Xor(Xor(Xor(k, a), f), Xor(t, p)), e'), Xor(s, side)), c'), {})
  {}

  lemma SideFlip(z: Zobrist, us: Color)
    ensures Xor(SideKey(z, us), z.side) == SideKey(z, us.Other())
  {}

  /** What the moving piece's arrival contributes: the promoted piece's key, or its own. */
  lemma ArrivalWhole(z: Zobrist, b: Board, us: Color, ep: Option<Square>, m: Move)
    requires ZobristOk(z) && MoveOk(b, us, ep, m)
    ensures Xor(z.psq(b[m.from], Target(us, m)), if m.mtype == Promotion then z.psq(Man(us, m.promo), m.to) else {})
            == Weight(z, Whole, Arrival(b, us, m), Target(us, m))
  {
    hide Vacant, RelativeSquare, PawnAttacks, Landing, Xor16;
    if m.mtype == Promotion {
      PromotionKeyZero(z, us, m.to);
      XorZeros({}, z.psq(Man(us, m.promo), m.to));
      XorCommutes({}, z.psq(Man(us, m.promo), m.to));
    }
    XorZeros(z.psq(b[m.from], Target(us, m)), {});
    XorZeros(z.psq(Man(us, m.promo), m.to), {});
    hide Xor;
  }

  lemma XorCommutes(a: Key, b: Key)
    ensures Xor(a, b) == Xor(b, a)
  {}

  lemma TargetIs(us: Color, m: Move)
    ensures Target(us, m) == if m.mtype == Castling then KingTo(us, m) else m.to
  {}

  /** The key between the two halves of the step. */
  lemma MiddleWhole(z: Zobrist, b: Board, us: Color, m: Move, pieceCount: map<Piece, int>,
                    mask: Square -> set<CastlingRight>, c: Carried, key: Key)
    requires AdvanceOk(z, b, us, m, pieceCount, c, key)
    ensures var mid := Middle(z, b, us, m, pieceCount, mask, c, key);
            && mid.0.epSquare == None
            && mid.1 == Xor(Xor(Xor(Xor(Xor(Xor(key, z.side), Aside(z, Whole, b, us, m)),
                Xor(z.psq(b[m.from], m.from), z.psq(b[m.from], Target(us, m)))),
                                    EpKey(z, c.epSquare)), z.castling(c.castlingRights)),
                                        z.castling(mid.0.castlingRights))
  {
    CaptureWhole(z, b, us, c.epSquare, m, pieceCount,
        c.(rule50 := c.rule50 + 1, pliesFromNull := c.pliesFromNull + 1), Xor(key, z.side));
    hide CaptureStep, MoveStep, Xor, Aside, AdvanceOk, HasBoth, MoveOk, EpKey, Target;
    var (c1, k1) := AfterCapture(z, b, us, m, pieceCount, c, key);
    MoveWhole(z, m, Target(us, m), b[m.from], mask, c1, k1);
  }

  /** The key after the step is the key of the new position. */
  lemma KeyAdvances(z: Zobrist, b: Board, us: Color, m: Move, pieceCount: map<Piece, int>,
                    mask: Square -> set<CastlingRight>, newEp: Option<Square>, c: Carried, key: Key)
    requires AdvanceOk(z, b, us, m, pieceCount, c, key)
    ensures var r := Step(z, b, us, m, pieceCount, mask, newEp, c, key);
            r.1 == PositionKey(z, ApplyMove(b, us, m), us.Other(), r.0.epSquare, r.0.castlingRights)
  {
    assert key == Xor(Xor(Xor(BoardKey(z, Whole, b), EpKey(z, c.epSquare)), SideKey(z, us)),
        z.castling(c.castlingRights));
    assert z.psq(b[m.from], m.from) == Weight(z, Whole, b[m.from], m.from);
    MiddleField(z, b, us, m, pieceCount, mask, c, key, Pawns);
    MiddleWhole(z, b, us, m, pieceCount, mask, c, key);
    var mid := Middle(z, b, us, m, pieceCount, mask, c, key);
    StepFromMiddle(z, b, us, m, pieceCount, mask, newEp, c, key);
    PieceWhole(z, b, us, c.epSquare, m, pieceCount, newEp, mid.0, mid.1);
    BoardKeyAfter(z, Whole, b, us, c.epSquare, m);
    ArrivalWhole(z, b, us, c.epSquare, m);
    SideFlip(z, us);
    hide *;
    var r := Step(z, b, us, m, pieceCount, mask, newEp, c, key);
    var p: Key := if m.mtype == Promotion then z.psq(Man(us, m.promo), m.to) else {};
    var whole, aside, from, land := BoardKey(z, Whole, b), Aside(z, Whole, b, us, m), z.psq(b[m.from], m.from),
        z.psq(b[m.from], Target(us, m));
    KeyAlgebra(whole, EpKey(z, c.epSquare), SideKey(z, us), z.castling(c.castlingRights), z.side, aside, from, land,
               z.castling(r.0.castlingRights), EpKey(z, r.0.epSquare), p);
    PositionKeyIs(z, ApplyMove(b, us, m), us.Other(), r.0.epSquare, r.0.castlingRights);
  }

  lemma PositionKeyIs(z: Zobrist, b: Board, stm: Color, ep: Option<Square>, rights: set<CastlingRight>)
    ensures PositionKey(z, b, stm, ep, rights) ==
            Xor(Xor(Xor(Xor(BoardKey(z, Whole, b), EpKey(z, ep)), SideKey(z, stm)), z.castling(rights)), {})
  {
    XorZeros(PositionKey(z, b, stm, ep, rights), {});
  }

  // ----- Material -----

  lemma SumAfter(b: Board, us: Color, ep: Option<Square>, m: Move, d: Color)
    requires MoveOk(b, us, ep, m)
    ensures NonPawnMaterial(ApplyMove(b, us, m), d) ==
            NonPawnMaterial(b, d) - Worth(Captured(b, us, m), d) - Worth(b[m.from], d) + Worth(Arrival(b, us, m), d)
  {
    hide NonPawnMaterial, Worth, RelativeSquare, PawnAttacks, Landing;
    NoWorth(d);
    match m.mtype {
      case Normal => SumMove(b, m.from, m.to, b[m.from], d);
      case Promotion => SumMove(b, m.from, m.to, Man(us, m.promo), d);
      case EnPassant =>
        var capsq: Square := m.to - PawnPush(us);
        MaterialUpdate(b, d, capsq, Empty);
        SumMove(b[capsq := Empty], m.from, m.to, b[m.from], d);
      case Castling =>
        var b1: Board := b[m.from := Empty];
        var b2: Board := b1[m.to := Empty];
        MaterialUpdate(b, d, m.from, Empty);
        MaterialUpdate(b1, d, m.to, Empty);
        MaterialUpdate(b2, d, KingTo(us, m), Man(us, King));
        MaterialUpdate(b2[KingTo(us, m) := Man(us, King)], d, RookTo(us, m), Man(us, Rook));
        CastlingTargets(us, m);
    }
  }

  lemma CastlingTargets(us: Color, m: Move)
    ensures KingTo(us, m) != RookTo(us, m)
  {}

  lemma NoWorth(d: Color)
    ensures Worth(Empty, d) == 0 && (forall c :: Worth(Man(c, Pawn), d) == 0 && Worth(Man(c, King), d) == 0)
  {}

  lemma SumMove(b: Board, s: Square, t: Square, x: Piece, d: Color)
    requires s != t
    ensures NonPawnMaterial(b[s := Empty][t := x], d) == NonPawnMaterial(b, d) - Worth(b[s], d) - Worth(b[t], d)
        + Worth(x, d)
  {
    hide NonPawnMaterial;
    MaterialUpdate(b, d, s, Empty);
    MaterialUpdate(b[s := Empty], d, t, x);
  }

  /** The carried sums after the step. */
  lemma SumAdvances(z: Zobrist, b: Board, us: Color, m: Move, pieceCount: map<Piece, int>,
                    mask: Square -> set<CastlingRight>, newEp: Option<Square>, c: Carried, key: Key, d: Color)
    requires AdvanceOk(z, b, us, m, pieceCount, c, key)
    ensures var r := Step(z, b, us, m, pieceCount, mask, newEp, c, key).0;
            d in r.nonPawnMaterial && r.nonPawnMaterial[d] == NonPawnMaterial(ApplyMove(b, us, m), d)
  {
    SumAfter(b, us, c.epSquare, m, d);
    assert c.nonPawnMaterial[d] == NonPawnMaterial(b, d);
    AfterCaptureField(z, b, us, m, pieceCount, c, key, Pawns);
    MiddleField(z, b, us, m, pieceCount, mask, c, key, Pawns);
    StepFromMiddle(z, b, us, m, pieceCount, mask, newEp, c, key);
    var c1, c2 := AfterCapture(z, b, us, m, pieceCount, c, key), Middle(z, b, us, m, pieceCount, mask, c, key);
    CaptureSum(z, b, us, m, pieceCount, c, key, d);
    PieceSum(z, b, us, c.epSquare, m, pieceCount, newEp, c2.0, c2.1, d);
    hide CaptureStep, AfterCapture, PieceStep, Step, NonPawnMaterial, KeysOk, CountsOk, Count, Xor, Worth, MoveOk,
        ApplyMove, Captured, Arrival;
  }

  lemma CaptureSum(z: Zobrist, b: Board, us: Color, m: Move, pieceCount: map<Piece, int>, c: Carried, key: Key,
      d: Color)
    requires AdvanceOk(z, b, us, m, pieceCount, c, key)
    ensures AfterCapture(z, b, us, m, pieceCount, c, key).0.nonPawnMaterial.Keys == c.nonPawnMaterial.Keys
    ensures AfterCapture(z, b, us, m, pieceCount, c, key).0.nonPawnMaterial[d]
        == c.nonPawnMaterial[d] - Worth(Captured(b, us, m), d)
  {
    hide Xor, NonPawnMaterial, BoardKey, PositionKey, MaterialKey, Count, Vacant, RelativeSquare, PawnAttacks, Xor16,
        Value;
  }

  lemma PieceSum(z: Zobrist, b: Board, us: Color, ep: Option<Square>, m: Move, pieceCount: map<Piece, int>,
                 newEp: Option<Square>, c: Carried, k: Key, d: Color)
    requires MoveOk(b, us, ep, m) && HasBoth(c) && (forall p: Piece | p.Man? :: p in pieceCount)
    ensures PieceStep(z, us, m, Target(us, m), b[m.from], pieceCount, newEp, c, k).0.nonPawnMaterial.Keys
        == c.nonPawnMaterial.Keys
    ensures PieceStep(z, us, m, Target(us, m), b[m.from], pieceCount, newEp, c, k).0.nonPawnMaterial[d] ==
            c.nonPawnMaterial[d] - Worth(b[m.from], d) + Worth(Arrival(b, us, m), d)
  {
    hide Xor, Vacant, RelativeSquare, PawnAttacks, Landing, Value;
  }

  // ----- The material key -----

  /** What the code toggles out of the material key for a capture. */
  function TakenKey(z: Zobrist, b: Board, us: Color, m: Move): Key {
    var victim := Captured(b, us, m);
    if victim.Man? then z.psq(victim, 8 + Count(b, victim) - 1) else {}
  }

  /** What it toggles for a promotion. */
  function PromotedKey(z: Zobrist, b: Board, us: Color, m: Move): Key {
    if m.mtype == Promotion then
      Xor(z.psq(Man(us, m.promo), 8 + Count(b, Man(us, m.promo))), z.psq(b[m.from], 8 + Count(b, b[m.from]) - 1))
    else {}
  }

  lemma MaterialAfter(z: Zobrist, b: Board, us: Color, ep: Option<Square>, m: Move)
    requires MoveOk(b, us, ep, m)
    ensures MaterialKey(z, ApplyMove(b, us, m)) == Xor(Xor(MaterialKey(z, b), TakenKey(z, b, us, m)),
        PromotedKey(z, b, us, m))
  {
    hide MaterialKey, Count, Xor, RelativeSquare, PawnAttacks, Xor16;
    XorZeros(MaterialKey(z, b), TakenKey(z, b, us, m));
    match m.mtype {
      case Normal =>
        var c := Cleared(z, b, m.to);
        assert c[m.from := Empty][m.to := b[m.from]] == ApplyMove(b, us, m);
        MaterialMove(z, c, m.from, m.to);
      case EnPassant =>
        var c := Cleared(z, b, m.to - PawnPush(us));
        MaterialMove(z, c, m.from, m.to);
      case Castling => CastlingMaterial(z, b, us, ep, m);
      case Promotion =>
        var c := Cleared(z, b, m.to);
        PromotionMaterial(z, c, m.from, m.to, Man(us, m.promo));
        assert c[m.from := Empty][m.to := Man(us, m.promo)] == ApplyMove(b, us, m);
        assert Count(c, b[m.from]) == Count(b, b[m.from]) && Count(c, Man(us, m.promo)) == Count(b, Man(us, m.promo));
    }
  }

  /** The board with the victim gone. */
  lemma Cleared(z: Zobrist, b: Board, s: Square) returns (c: Board)
    ensures c == b[s := Empty]
    ensures b[s].Man? ==>
        Count(b, b[s]) > 0 && MaterialKey(z, c) == Xor(MaterialKey(z, b), z.psq(b[s], 8 + Count(b, b[s]) - 1))
    ensures b[s] == Empty ==> c == b
    ensures forall p: Piece | p.Man? && p != b[s] :: Count(c, p) == Count(b, p)
  {
    hide MaterialKey, Count, Xor;
    c := b[s := Empty];
    if b[s].Man? { MaterialTake(z, b, s); }
  }

  lemma PromotionMaterial(z: Zobrist, b: Board, s: Square, t: Square, x: Piece)
    requires b[s].Man? && b[t] == Empty && x.Man? && x != b[s]
    ensures MaterialKey(z, b[s := Empty][t := x]) ==
            Xor(MaterialKey(z, b), Xor(z.psq(x, 8 + Count(b, x)), z.psq(b[s], 8 + Count(b, b[s]) - 1)))
  {
    hide MaterialKey, Count, Xor;
    var c: Board := b[s := Empty];
    MaterialTake(z, b, s);
    MaterialFill(z, c, t, x);
    XorAssoc(MaterialKey(z, b), z.psq(b[s], 8 + Count(b, b[s]) - 1), z.psq(x, 8 + Count(b, x)));
    XorCommutes(z.psq(b[s], 8 + Count(b, b[s]) - 1), z.psq(x, 8 + Count(b, x)));
  }

  lemma CastlingMaterial(z: Zobrist, b: Board, us: Color, ep: Option<Square>, m: Move)
    requires MoveOk(b, us, ep, m) && m.mtype == Castling
    ensures MaterialKey(z, ApplyMove(b, us, m)) == MaterialKey(z, b)
  {
    hide MaterialKey, Count, Xor, RelativeSquare;
    var king, rook, kto, rto := Man(us, King), Man(us, Rook), KingTo(us, m), RookTo(us, m);
    CastlingTargets(us, m);
    var b1: Board := b[m.from := Empty];
    var b2: Board := b1[m.to := Empty];
    var b3: Board := b2[kto := king];
    assert b1[m.to] == rook && b2[kto] == Empty && b3[rto] == Empty;
    MaterialTake(z, b, m.from);
    MaterialTake(z, b1, m.to);
    MaterialFill(z, b2, kto, king);
    FillSquare(b2, kto, king);
    MaterialFill(z, b3, rto, rook);
    var k, x, y := MaterialKey(z, b), z.psq(king, 8 + Count(b, king) - 1), z.psq(rook, 8 + Count(b, rook) - 1);
    CastlingCancel(k, x, y);
  }

  lemma CastlingCancel(k: Key, x: Key, y: Key)
    ensures Xor(Xor(Xor(Xor(k, x), y), x), y) == k
  {}

  lemma CaptureMaterial(z: Zobrist, b: Board, us: Color, m: Move, pieceCount: map<Piece, int>, c: Carried, key: Key)
    requires AdvanceOk(z, b, us, m, pieceCount, c, key)
    ensures AfterCapture(z, b, us, m, pieceCount, c, key).0.materialKey == Xor(c.materialKey, TakenKey(z, b, us, m))
  {
    XorZeros(c.materialKey, {});
    hide Xor, NonPawnMaterial, BoardKey, PositionKey, MaterialKey, Count, Vacant, RelativeSquare, PawnAttacks, Xor16,
        Value;
  }

  lemma PieceMaterial(z: Zobrist, b: Board, us: Color, ep: Option<Square>, m: Move, pieceCount: map<Piece, int>,
                      newEp: Option<Square>, c: Carried, k: Key)
    requires MoveOk(b, us, ep, m) && HasBoth(c) && CountsOk(b, us, m, pieceCount)
    ensures PieceStep(z, us, m, Target(us, m), b[m.from], pieceCount, newEp, c, k).0.materialKey ==
            Xor(c.materialKey, PromotedKey(z, b, us, m))
  {
    XorZeros(c.materialKey, {});
    hide Xor, Vacant, RelativeSquare, PawnAttacks, Landing, Value, Count;
  }

  lemma MaterialAdvances(z: Zobrist, b: Board, us: Color, m: Move, pieceCount: map<Piece, int>,
                         mask: Square -> set<CastlingRight>, newEp: Option<Square>, c: Carried, key: Key)
    requires AdvanceOk(z, b, us, m, pieceCount, c, key)
    ensures Step(z, b, us, m, pieceCount, mask, newEp, c, key).0.materialKey == MaterialKey(z, ApplyMove(b, us, m))
  {
    MaterialAfter(z, b, us, c.epSquare, m);
    assert c.materialKey == MaterialKey(z, b);
    MiddleField(z, b, us, m, pieceCount, mask, c, key, Pawns);
    StepFromMiddle(z, b, us, m, pieceCount, mask, newEp, c, key);
    CaptureMaterial(z, b, us, m, pieceCount, c, key);
    var c2, k2 := Middle(z, b, us, m, pieceCount, mask, c, key).0, Middle(z, b, us, m, pieceCount, mask, c, key).1;
    assert c2.materialKey == AfterCapture(z, b, us, m, pieceCount, c, key).0.materialKey;
    PieceMaterial(z, b, us, c.epSquare, m, pieceCount, newEp, c2, k2);
    hide *;
  }

  lemma KeysOkIntro(z: Zobrist, b: Board, stm: Color, c: Carried, key: Key)
    requires HasBoth(c) && c.materialKey == MaterialKey(z, b)
    requires Field(c, Pawns) == Xor(z.noPawns, BoardKey(z, Pawns, b)) && Field(c, Minors) == BoardKey(z, Minors, b)
    requires forall d :: Field(c, NonPawns(d)) == BoardKey(z, NonPawns(d), b)
    requires forall d :: d in c.nonPawnMaterial && c.nonPawnMaterial[d] == NonPawnMaterial(b, d)
    requires key == PositionKey(z, b, stm, c.epSquare, c.castlingRights)
    ensures KeysOk(z, b, stm, c, key)
  {
    hide BoardKey, PositionKey, MaterialKey, NonPawnMaterial, Xor;
    forall d ensures c.nonPawnKey[d] == BoardKey(z, NonPawns(d), b) { assert Field(c, NonPawns(d)) == c.nonPawnKey[d]; }
  }

  /** Every key and sum carried over a move is what recomputing it would give. */
  lemma AdvanceCorrect(z: Zobrist, b: Board, us: Color, m: Move, pieceCount: map<Piece, int>,
                       mask: Square -> set<CastlingRight>, newEp: Option<Square>, c: Carried, key: Key)
    requires AdvanceOk(z, b, us, m, pieceCount, c, key)
    ensures var r := Step(z, b, us, m, pieceCount, mask, newEp, c, key);
            KeysOk(z, ApplyMove(b, us, m), us.Other(), r.0, r.1)
  {
    var after := ApplyMove(b, us, m);
    hide *;
    var r := Step(z, b, us, m, pieceCount, mask, newEp, c, key);
    MaterialAdvances(z, b, us, m, pieceCount, mask, newEp, c, key);
    KeyAdvances(z, b, us, m, pieceCount, mask, newEp, c, key);
    PartAdvances(z, b, us, m, pieceCount, mask, newEp, c, key, Pawns);
    PartAdvances(z, b, us, m, pieceCount, mask, newEp, c, key, Minors);
    forall d
      ensures HasBothFor(r.0, NonPawns(d)) && Field(r.0, NonPawns(d)) == BoardKey(z, NonPawns(d), after)
      ensures d in r.0.nonPawnMaterial && r.0.nonPawnMaterial[d] == NonPawnMaterial(after, d)
    {
      PartAdvances(z, b, us, m, pieceCount, mask, newEp, c, key, NonPawns(d));
      HasBothAt(r.0, d);
      SumAdvances(z, b, us, m, pieceCount, mask, newEp, c, key, d);
    }
    KeysOkIntro(z, after, us.Other(), r.0, r.1);
  }

  lemma HasBothAt(c: Carried, d: Color)
    requires HasBoth(c)
    ensures d in c.nonPawnKey && d in c.nonPawnMaterial && HasBothFor(c, NonPawns(d))
  {}

  /** Counters, castling rights and en passant after the step. */
  lemma AdvanceCounters(z: Zobrist, us: Color, m: Move, pc: Piece, captured: Piece, pieceCount: map<Piece, int>,
                        mask: Square -> set<CastlingRight>, newEp: Option<Square>, c: Carried, key: Key)
    requires pc.Man? && HasBoth(c) && (forall p: Piece | p.Man? :: p in pieceCount)
        && (m.mtype == Castling ==> captured.Man?)
    ensures var r := Advance(z, us, m, pc, captured, pieceCount, mask, newEp, c, key).0;
            && r.pliesFromNull == c.pliesFromNull + 1
            && r.rule50 == (if (m.mtype != Castling && captured.Man?) || pc.kind == Pawn then 0 else c.rule50 + 1)
            && r.castlingRights == c.castlingRights - (mask(m.from) + mask(Target(us, m)))
            && r.epSquare == (if pc.kind == Pawn && Xor16(m.from, m.to) then newEp else None)
  {
    hide Xor, Value;
  }

  /** What the code may call Advance with. */
  ghost predicate Callable(us: Color, m: Move, pc: Piece, victim: Piece, pieceCount: map<Piece, int>, c: Carried) {
    && pc.Man? && us in c.nonPawnKey && us.Other() in c.nonPawnKey && us in c.nonPawnMaterial
        && us.Other() in c.nonPawnMaterial
    && (m.mtype == Castling ==> victim.Man?)
    && (victim.Man? ==> victim in pieceCount) && pc in pieceCount && Man(us, m.promo) in pieceCount
  }

  lemma AdvanceCallable(z: Zobrist, b: Board, us: Color, m: Move, pieceCount: map<Piece, int>, c: Carried, key: Key)
    requires AdvanceOk(z, b, us, m, pieceCount, c, key)
    ensures Callable(us, m, b[m.from], Victim(b, us, m), pieceCount, c) && HasBoth(c)
        && (forall p: Piece | p.Man? :: p in pieceCount)
  {
    hide Count, BoardKey, PositionKey, MaterialKey, NonPawnMaterial;
  }

  lemma StepIsAdvance(z: Zobrist, b: Board, us: Color, m: Move, pieceCount: map<Piece, int>,
                      mask: Square -> set<CastlingRight>, newEp: Option<Square>, c: Carried, key: Key)
    requires AdvanceOk(z, b, us, m, pieceCount, c, key) && Callable(us, m, b[m.from], Victim(b, us, m), pieceCount, c)
    ensures Step(z, b, us, m, pieceCount, mask, newEp, c, key) ==
            Advance(z, us, m, b[m.from], Victim(b, us, m), pieceCount, mask, newEp, c, key)
  {
    hide Advance, AdvanceOk;
  }

  /** Keys and counters of the step, in the terms of the code. */
  lemma AdvanceAll(z: Zobrist, b: Board, us: Color, m: Move, pieceCount: map<Piece, int>,
                   mask: Square -> set<CastlingRight>, newEp: Option<Square>, c: Carried, key: Key)
    requires AdvanceOk(z, b, us, m, pieceCount, c, key)
    ensures Callable(us, m, b[m.from], Victim(b, us, m), pieceCount, c)
    ensures var pc, victim := b[m.from], Victim(b, us, m);
            var r := Advance(z, us, m, pc, victim, pieceCount, mask, newEp, c, key);
            && KeysOk(z, ApplyMove(b, us, m), us.Other(), r.0, r.1)
            && r.0.pliesFromNull == c.pliesFromNull + 1
            && r.0.rule50 == (if (m.mtype != Castling && victim.Man?) || pc.kind == Pawn then 0 else c.rule50 + 1)
            && r.0.castlingRights == c.castlingRights - (mask(m.from) + mask(Target(us, m)))
            && r.0.epSquare == (if pc.kind == Pawn && Xor16(m.from, m.to) then newEp else None)
  {
    AdvanceCallable(z, b, us, m, pieceCount, c, key);
    var pc, victim := b[m.from], Victim(b, us, m);
    assert pc.Man? && (m.mtype == Castling ==> victim.Man?);
    hide AdvanceOk, Advance, Step, Victim, ApplyMove, MoveOk, KeysOk, Target, Xor16;
    AdvanceCorrect(z, b, us, m, pieceCount, mask, newEp, c, key);
    AdvanceCounters(z, us, m, pc, victim, pieceCount, mask, newEp, c, key);
    StepIsAdvance(z, b, us, m, pieceCount, mask, newEp, c, key);
  }
}
