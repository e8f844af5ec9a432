/**
 * Move generation: which moves each generator lists, each of them once; that the list and
 * `pseudo_legal` mean the same; and the in-place filter that leaves the legal moves.
 */
module MoveGen {
  import opened Options
  import opened Types
  import opened Geometry
  import opened Board
  import opened Checks
  import opened Legality
  import opened Keys

  datatype GenType = Captures | Quiets | Evasions | NonEvasions

  /** The position as the generator reads it. */
  datatype Source = Source(
    v: View,
    ep: Option<Square>,
    rights: set<CastlingRight>,
    path: CastlingRight -> Bitboard,
    rookSquare: CastlingRight -> Square)

  /** The generator that `MoveList<LEGAL>` and `pseudo_legal` take their moves from. */
  function Kind(g: Source): GenType { if g.v.checkers != {} then Evasions else NonEvasions }

  ghost predicate SourceOk(g: Source, t: GenType) {
    && ViewOk(g.v) && (t == Evasions <==> g.v.checkers != {})
    && (g.ep.Some? ==> RelativeRank(g.v.us, g.ep.value) == 5)
    && (RightOf(g.v.us, true) in g.rights && RightOf(g.v.us, false) in g.rights ==>
          g.rookSquare(RightOf(g.v.us, true)) != g.rookSquare(RightOf(g.v.us, false)))
  }

  function One(c: bool): nat { if c then 1 else 0 }

  // ----- What is generated -----

  function All(t: GenType): bool { t == Evasions || t == NonEvasions }

  /** Shifting a bitboard one step, dropping what leaves the board. */
  function Shift(bb: Bitboard, df: int, dr: int): Bitboard {
    set t: Square | 0 <= t < 64 && ShiftedFrom(bb, df, dr, t)
  }

  predicate ShiftedFrom(bb: Bitboard, df: int, dr: int, t: Square) {
    0 <= File(t) - df < 8 && 0 <= Rank(t) - dr < 8 && t - 8 * dr - df in bb
  }

  function Up(us: Color): int { if us.White? then 1 else -1 }

  function OnRank(r: int): Bitboard { set s: Square | 0 <= s < 64 && Rank(s) == r }

  function RankOf(us: Color, relative: int): int { if us.White? then relative else 7 - relative }

  function EmptyBB(b: Board): Bitboard { set s: Square | 0 <= s < 64 && b[s] == Empty }

  /** The squares non-king moves may go to. */
  function Target(g: Source, t: GenType): Bitboard
    requires Pieces(g.v.board, g.v.us, King) != {} && (t == Evasions ==> g.v.checkers != {})
  {
    match t
    case Evasions => BetweenBB(KingSq(g.v.board, g.v.us), Lsb(g.v.checkers))
    case NonEvasions => AllSquares() - ByColor(g.v.board, g.v.us)
    case Captures => ByColor(g.v.board, g.v.us.Other())
    case Quiets => EmptyBB(g.v.board)
  }

  function Enemies(g: Source, t: GenType): Bitboard {
    if t == Evasions then g.v.checkers else ByColor(g.v.board, g.v.us.Other())
  }

  function KingTargets(g: Source, t: GenType): Bitboard
    requires Pieces(g.v.board, g.v.us, King) != {} && (t == Evasions ==> g.v.checkers != {})
  {
    if t == Evasions then AllSquares() - ByColor(g.v.board, g.v.us) else Target(g, t)
  }

  predicate DoubleCheck(g: Source, t: GenType) { t == Evasions && MoreThanOne(g.v.checkers) }

  function Plain(from: Square, to: Square): Move { Move(from, to, Normal, Knight) }

  /** A move without promotion piece, the type bits zero. */
  predicate IsPlain(m: Move) { m.mtype == Normal && m.promo == Knight }

  /** Pawns that promote next, and the others. */
  predicate PawnOn7(b: Board, us: Color, s: Square) { b[s] == Man(us, Pawn) && RelativeRank(us, s) == 6 }

  predicate PawnNotOn7(b: Board, us: Color, s: Square) { b[s] == Man(us, Pawn) && RelativeRank(us, s) != 6 }

  predicate Promotable(k: PieceType) { k == Knight || k == Bishop || k == Rook || k == Queen }

  /** Which promotions a generator lists. */
  predicate PromotionListed(t: GenType, capture: bool, k: PieceType) {
    if k == Queen then t == Captures || All(t)
    else Promotable(k) && ((t == Captures && capture) || (t == Quiets && !capture) || All(t))
  }

  /** The pawn moves listed, given the target of the generator. */
  predicate PawnListed(g: Source, t: GenType, target: Bitboard, m: Move) {
    var b, us, push := g.v.board, g.v.us, PawnPush(g.v.us);
    match m.mtype
    case Normal =>
      && m.promo == Knight && PawnNotOn7(b, us, m.from)
      && (|| (t != Captures && m.from + push == m.to && b[m.to] == Empty && (t == Evasions ==> m.to in target))
          || (t != Captures && m.from + 2 * push == m.to && RelativeRank(us, m.from) == 1 && b[m.to] == Empty
              && b[m.to - push] == Empty
              && (t == Evasions ==> m.to in target))
          || (t != Quiets && m.to in PawnBB(us, m.from) && m.to in Enemies(g, t)))
    case Promotion =>
      && PawnOn7(b, us, m.from)
      && (|| (m.from + push == m.to && b[m.to] == Empty && (t == Evasions ==> m.to in target)
          && PromotionListed(t, false, m.promo))
          || (m.to in PawnBB(us, m.from) && m.to in Enemies(g, t) && PromotionListed(t, true, m.promo)))
    case EnPassant =>
      && t != Quiets && m.promo == Knight && g.ep == Some(m.to) && PawnNotOn7(b, us, m.from)
          && m.to in PawnBB(us, m.from)
      && !(t == Evasions && m.to + push in target)
    case Castling => false
  }

  /** The moves of knights, bishops, rooks and queens listed. */
  predicate PieceListed(g: Source, target: Bitboard, k: PieceType, m: Move) {
    IsPlain(m) && g.v.board[m.from] == Man(g.v.us, k) && m.to in AttackBB(Occ(g.v.board), Man(g.v.us, k), m.from)
        && m.to in target
  }

  predicate KingListed(g: Source, t: GenType, m: Move)
    requires Pieces(g.v.board, g.v.us, King) != {} && (t == Evasions ==> g.v.checkers != {})
  {
    IsPlain(m) && m.from == KingSq(g.v.board, g.v.us) && m.to in KingBB(m.from) && m.to in KingTargets(g, t)
  }

  function RightOf(us: Color, kingSide: bool): CastlingRight {
    if us.White? then (if kingSide then WhiteOO else WhiteOOO) else (if kingSide then BlackOO else BlackOOO)
  }

  /** `castling_impeded`: something stands on the way of king or rook. */
  predicate Impeded(g: Source, cr: CastlingRight) { Occ(g.v.board) * g.path(cr) != {} }

  predicate CastlingListed(g: Source, t: GenType, kingSide: bool, m: Move)
    requires Pieces(g.v.board, g.v.us, King) != {}
  {
    var cr := RightOf(g.v.us, kingSide);
    && (t == Quiets || t == NonEvasions) && cr in g.rights && !Impeded(g, cr)
    && m == Move(KingSq(g.v.board, g.v.us), g.rookSquare(cr), Castling, Knight)
  }

  /** Is the move in the list of this generator? */
  predicate Listed(g: Source, t: GenType, m: Move)
    requires Pieces(g.v.board, g.v.us, King) != {} && (t == Evasions ==> g.v.checkers != {})
  {
    || (!DoubleCheck(g, t) && (PawnListed(g, t, Target(g, t), m)
        || (exists k | IsPiece(k) :: PieceListed(g, Target(g, t), k, m))))
    || KingListed(g, t, m)
    || CastlingListed(g, t, true, m) || CastlingListed(g, t, false, m)
  }

  predicate IsPiece(k: PieceType) { k == Knight || k == Bishop || k == Rook || k == Queen }

  /** The list has grown by the moves satisfying P, each once. */
  ghost predicate Grown(before: seq<Move>, after: seq<Move>, P: iset<Move>) {
    forall m :: multiset(after)[m] == multiset(before)[m] + One(m in P)
  }

  lemma GrownOne(before: seq<Move>, after: seq<Move>, P: iset<Move>, m: Move)
    requires Grown(before, after, P) && m !in P
    ensures Grown(before, after + [m], P + iset{m})
  {}

  lemma GrownThree(before: seq<Move>, after: seq<Move>, P: iset<Move>, x: Move, y: Move, z: Move)
    requires Grown(before, after, P) && x !in P && y !in P && z !in P && x != y && x != z && y != z
    ensures Grown(before, after + [x] + [y] + [z], P + iset{x} + iset{y} + iset{z})
  {
    GrownOne(before, after, P, x);
    GrownOne(before, after + [x], P + iset{x}, y);
    GrownOne(before, after + [x] + [y], P + iset{x} + iset{y}, z);
    hide Grown;
  }

  lemma GrownBoth(k: seq<Move>, l: seq<Move>, n: seq<Move>, P: iset<Move>, Q: iset<Move>)
    requires Grown(k, l, P) && Grown(l, n, Q) && P !! Q
    ensures Grown(k, n, P + Q)
  {}

  lemma GrownNone(k: seq<Move>)
    ensures Grown(k, k, iset{})
  {}

  // ----- The generating loops -----

  ghost function Splat(offset: int, bb: Bitboard): iset<Move> {
    iset m: Move | IsPlain(m) && m.to in bb && m.from == m.to - offset
  }

  /** `splat_pawn_moves`. */
  method SplatPawnMoves(list: seq<Move>, bb0: Bitboard, offset: int) returns (l: seq<Move>)
    requires forall t | t in bb0 :: 0 <= t - offset < 64
    ensures Grown(list, l, Splat(offset, bb0))
  {
    l := list;
    var bb := bb0;
    assert Splat(offset, bb0 - bb) == iset{};
    while bb != {}
      invariant bb <= bb0 && Grown(list, l, Splat(offset, bb0 - bb))
    {
      var to := Lsb(bb);
      GrownOne(list, l, Splat(offset, bb0 - bb), Plain(to - offset, to));
      assert Splat(offset, bb0 - bb) + iset{Plain(to - offset, to)} == Splat(offset, bb0 - (bb - {to}));
      hide Grown, Splat;
      bb := bb - {to};
      l := l + [Plain(to - offset, to)];
    }
    assert bb0 - bb == bb0;
  }

  ghost function SplatFrom(from: Square, bb: Bitboard): iset<Move> {
    iset m: Move | IsPlain(m) && m.from == from && m.to in bb
  }

  /** `splat_moves`. */
  method SplatMoves(list: seq<Move>, from: Square, bb0: Bitboard) returns (l: seq<Move>)
    ensures Grown(list, l, SplatFrom(from, bb0))
  {
    l := list;
    var bb := bb0;
    assert SplatFrom(from, bb0 - bb) == iset{};
    while bb != {}
      invariant bb <= bb0 && Grown(list, l, SplatFrom(from, bb0 - bb))
    {
      var to := Lsb(bb);
      GrownOne(list, l, SplatFrom(from, bb0 - bb), Plain(from, to));
      assert SplatFrom(from, bb0 - bb) + iset{Plain(from, to)} == SplatFrom(from, bb0 - (bb - {to}));
      hide Grown, SplatFrom;
      bb := bb - {to};
      l := l + [Plain(from, to)];
    }
    assert bb0 - bb == bb0;
  }

  ghost function Promotions(t: GenType, offset: int, capture: bool, bb: Bitboard): iset<Move> {
    iset m: Move | m.mtype == Promotion && m.to in bb && m.from == m.to - offset && PromotionListed(t, capture, m.promo)
  }

  /** `make_promotions`, for the destinations of one direction. */
  method MakePromotions(list: seq<Move>, t: GenType, offset: int, capture: bool, bb0: Bitboard) returns (l: seq<Move>)
    requires forall s | s in bb0 :: 0 <= s - offset < 64
    ensures Grown(list, l, Promotions(t, offset, capture, bb0))
  {
    l := list;
    var bb := bb0;
    assert Promotions(t, offset, capture, bb0 - bb) == iset{};
    while bb != {}
      invariant bb <= bb0 && Grown(list, l, Promotions(t, offset, capture, bb0 - bb))
    {
      hide Grown;
      var to := Lsb(bb);
      ghost var l0 := l;
      l := PromotionsOf(l, t, offset, capture, to);
      GrownBoth(list, l0, l, Promotions(t, offset, capture, bb0 - bb), Promotions(t, offset, capture, {to}));
      assert Promotions(t, offset, capture, bb0 - bb) + Promotions(t, offset, capture, {to})
          == Promotions(t, offset, capture, bb0 - (bb - {to}));
      bb := bb - {to};
    }
    assert bb0 - bb == bb0;
  }

  /** The promotions to one square. */
  method PromotionsOf(list: seq<Move>, t: GenType, offset: int, capture: bool, to: Square) returns (l: seq<Move>)
    requires 0 <= to - offset < 64
    ensures Grown(list, l, Promotions(t, offset, capture, {to}))
  {
    hide Grown, Promotions;
    l := list;
    GrownNone(list);
    var from: Square := to - offset;
    ghost var q, r, b, n := Move(from, to, Promotion, Queen), Move(from, to, Promotion, Rook),
        Move(from, to, Promotion, Bishop), Move(from, to, Promotion, Knight);
    ghost var P: iset<Move> := iset{};
    if t == Captures || All(t) {
      GrownOne(list, l, P, q);
      l := l + [Move(from, to, Promotion, Queen)];
      P := P + iset{q};
    }
    if (t == Captures && capture) || (t == Quiets && !capture) || All(t) {
      GrownThree(list, l, P, r, b, n);
      l := l + [Move(from, to, Promotion, Rook)];
      l := l + [Move(from, to, Promotion, Bishop)];
      l := l + [Move(from, to, Promotion, Knight)];
      P := P + iset{r} + iset{b} + iset{n};
    }
    PromotionParts(t, offset, capture, from, to, P);
  }

  lemma PromotionParts(t: GenType, offset: int, capture: bool, from: Square, to: Square, P: iset<Move>)
    requires from == to - offset
    requires var queen: iset<Move> := if t == Captures || All(t) then iset{} + iset{Move(from, to, Promotion, Queen)}
        else iset{};
             P == if (t == Captures && capture) || (t == Quiets && !capture) || All(t)
                  then queen + iset{Move(from, to, Promotion, Rook)} + iset{Move(from, to, Promotion, Bishop)}
                       + iset{Move(from, to, Promotion, Knight)}
                  else queen
    ensures P == Promotions(t, offset, capture, {to})
  {}

  // ----- Pawns -----

  ghost function PawnMoves(g: Source, t: GenType, target: Bitboard): iset<Move> {
    iset m: Move | PawnListed(g, t, target, m)
  }

  /** The bitboards of generate_pawn_moves. */
  function NotOn7(g: Source): Bitboard { Pieces(g.v.board, g.v.us, Pawn) - OnRank(RankOf(g.v.us, 6)) }

  function On7(g: Source): Bitboard { Pieces(g.v.board, g.v.us, Pawn) * OnRank(RankOf(g.v.us, 6)) }

  lemma On7Means(g: Source, s: Square)
    ensures s in On7(g) <==> PawnOn7(g.v.board, g.v.us, s)
    ensures s in NotOn7(g) <==> PawnNotOn7(g.v.board, g.v.us, s)
  {}

  /** The single and double pushes. */
  method Pushes(g: Source, t: GenType, target: Bitboard, list: seq<Move>) returns (l: seq<Move>)
    requires t != Captures
    ensures Grown(list, l, PushSet(g, t, target, 1) + PushSet(g, t, target, 2))
  {
    var us := g.v.us;
    var empties := EmptyBB(g.v.board);
    var b1 := Shift(NotOn7(g), 0, Up(us)) * empties;
    var b2 := Shift(b1 * OnRank(RankOf(us, 2)), 0, Up(us)) * empties;
    if t == Evasions {
      b1 := b1 * target;
      b2 := b2 * target;
    }
    PushesAre(g, t, target);
    assert b1 == SingleBB(g, t, target) && b2 == DoubleBB(g, t, target);
    hide *;
    l := SplatPawnMoves(list, b1, PawnPush(us));
    ghost var l1 := l;
    l := SplatPawnMoves(l, b2, 2 * PawnPush(us));
    GrownBoth(list, l1, l, PushSet(g, t, target, 1), PushSet(g, t, target, 2));
  }

  function SingleBB(g: Source, t: GenType, target: Bitboard): Bitboard {
    var b1 := Shift(NotOn7(g), 0, Up(g.v.us)) * EmptyBB(g.v.board);
    if t == Evasions then b1 * target else b1
  }

  function DoubleBB(g: Source, t: GenType, target: Bitboard): Bitboard {
    var b1 := Shift(NotOn7(g), 0, Up(g.v.us)) * EmptyBB(g.v.board);
    var b2 := Shift(b1 * OnRank(RankOf(g.v.us, 2)), 0, Up(g.v.us)) * EmptyBB(g.v.board);
    if t == Evasions then b2 * target else b2
  }

  ghost function PushSet(g: Source, t: GenType, target: Bitboard, steps: int): iset<Move> {
    iset m: Move | IsPlain(m) && PawnNotOn7(g.v.board, g.v.us, m.from) && m.from + steps * PawnPush(g.v.us) == m.to
        && g.v.board[m.to] == Empty
                   && (t == Evasions ==> m.to in target)
                   && (steps == 2 ==> RelativeRank(g.v.us, m.from) == 1 && g.v.board[m.to - PawnPush(g.v.us)] == Empty)
  }

  lemma PushesAre(g: Source, t: GenType, target: Bitboard)
    ensures forall s | s in SingleBB(g, t, target) :: 0 <= s - PawnPush(g.v.us) < 64
    ensures forall s | s in DoubleBB(g, t, target) :: 0 <= s - 2 * PawnPush(g.v.us) < 64
    ensures Splat(PawnPush(g.v.us), SingleBB(g, t, target)) == PushSet(g, t, target, 1)
    ensures Splat(2 * PawnPush(g.v.us), DoubleBB(g, t, target)) == PushSet(g, t, target, 2)
    ensures PushSet(g, t, target, 1) !! PushSet(g, t, target, 2)
  {
  }

  ghost function PromotionSet(g: Source, t: GenType, tos: Bitboard, df: int, capture: bool): iset<Move> {
    iset m: Move | m.mtype == Promotion && PawnOn7(g.v.board, g.v.us, m.from) && m.to in tos && Df(m.from, m.to) == df
                   && Dr(m.from, m.to) == Up(g.v.us) && PromotionListed(t, capture, m.promo)
  }

  lemma ShiftedPromotions(g: Source, t: GenType, tos: Bitboard, df: int, capture: bool)
    requires -1 <= df <= 1
    ensures var bb := Shift(On7(g), df, Up(g.v.us)) * tos;
            && (forall s | s in bb :: 0 <= s - (PawnPush(g.v.us) + df) < 64)
            && Promotions(t, PawnPush(g.v.us) + df, capture, bb) == PromotionSet(g, t, tos, df, capture)
  {
    hide PromotionListed;
  }

  /** Promotions and underpromotions. */
  method PawnPromotions(g: Source, t: GenType, target: Bitboard, list: seq<Move>) returns (l: seq<Move>)
    ensures var e, q := Enemies(g, t), if t == Evasions then EmptyBB(g.v.board) * target else EmptyBB(g.v.board);
            Grown(list, l, PromotionSet(g, t, e, Up(g.v.us), true) + PromotionSet(g, t, e, -Up(g.v.us), true)
                + PromotionSet(g, t, q, 0, false))
  {
    var us := g.v.us;
    var up := Up(us);
    var enemies := Enemies(g, t);
    var quiet := if t == Evasions then EmptyBB(g.v.board) * target else EmptyBB(g.v.board);
    ghost var P, Q, R := PromotionSet(g, t, enemies, up, true), PromotionSet(g, t, enemies, -up, true),
        PromotionSet(g, t, quiet, 0, false);
    l := list;
    var pawnsOn7 := On7(g);
    ShiftedPromotions(g, t, enemies, up, true);
    ShiftedPromotions(g, t, enemies, -up, true);
    ShiftedPromotions(g, t, quiet, 0, false);
    PromotionsApart(g, t, enemies, quiet);
    if pawnsOn7 != {} {
      hide *;
      var b1 := Shift(pawnsOn7, up, up) * enemies;
      var b2 := Shift(pawnsOn7, -up, up) * enemies;
      var b3 := Shift(pawnsOn7, 0, up) * quiet;
      l := MakePromotions(l, t, PawnPush(us) + up, true, b1);
      ghost var l1 := l;
      l := MakePromotions(l, t, PawnPush(us) + -up, true, b2);
      GrownBoth(list, l1, l, P, Q);
      ghost var l2 := l;
      l := MakePromotions(l, t, PawnPush(us) + 0, false, b3);
      GrownBoth(list, l2, l, P + Q, R);
    } else {
      NoPawnsOn7(g, t, enemies, quiet);
      GrownNone(list);
      assert P + Q + R == iset{};
    }
  }

  lemma PromotionsApart(g: Source, t: GenType, enemies: Bitboard, quiet: Bitboard)
    ensures var up := Up(g.v.us);
            var P, Q, R := PromotionSet(g, t, enemies, up, true), PromotionSet(g, t, enemies, -up, true),
                PromotionSet(g, t, quiet, 0, false);
            P !! Q && R !! P + Q
  {
    hide PromotionListed;
  }

  lemma NoPawnsOn7(g: Source, t: GenType, enemies: Bitboard, quiet: Bitboard)
    requires On7(g) == {}
    ensures var up := Up(g.v.us);
            && PromotionSet(g, t, enemies, up, true) == iset{} && PromotionSet(g, t, enemies, -up, true) == iset{}
            && PromotionSet(g, t, quiet, 0, false) == iset{}
  {
    forall s: Square ensures !PawnOn7(g.v.board, g.v.us, s) { On7Means(g, s); assert s !in On7(g); }
    hide PawnOn7, PromotionListed;
  }

  ghost function CaptureSet(g: Source, tos: Bitboard, df: int): iset<Move> {
    iset m: Move | IsPlain(m) && PawnNotOn7(g.v.board, g.v.us, m.from) && m.to in tos && Df(m.from, m.to) == df
        && Dr(m.from, m.to) == Up(g.v.us)
  }

  lemma ShiftedCaptures(g: Source, tos: Bitboard, df: int)
    requires df == 1 || df == -1
    ensures var bb := Shift(NotOn7(g), df, Up(g.v.us)) * tos;
            && (forall s | s in bb :: 0 <= s - (PawnPush(g.v.us) + df) < 64)
            && Splat(PawnPush(g.v.us) + df, bb) == CaptureSet(g, tos, df)
  {}

  ghost function EnPassantSet(g: Source, froms: Bitboard): iset<Move> {
    iset m: Move | m.mtype == EnPassant && m.promo == Knight && g.ep == Some(m.to) && m.from in froms
  }

  /** Standard and en passant captures. */
  method PawnCaptures(g: Source, t: GenType, target: Bitboard, list: seq<Move>) returns (l: seq<Move>)
    requires t != Quiets && SourceOk(g, t)
    ensures var e := Enemies(g, t);
            Grown(list, l, CaptureSet(g, e, Up(g.v.us)) + CaptureSet(g, e, -Up(g.v.us))
                + EnPassantSet(g, Takers(g, t, target)))
  {
    var us := g.v.us;
    var up := Up(us);
    var enemies := Enemies(g, t);
    ShiftedCaptures(g, enemies, up);
    ShiftedCaptures(g, enemies, -up);
    CapturesApart(g, enemies, Takers(g, t, target));
    var b1 := Shift(NotOn7(g), up, up) * enemies;
    var b2 := Shift(NotOn7(g), -up, up) * enemies;
    ghost var P, Q, R := CaptureSet(g, enemies, up), CaptureSet(g, enemies, -up), EnPassantSet(g, Takers(g, t, target));
    hide Grown, CaptureSet, EnPassantSet, Splat, Shift, NotOn7, ViewOk, Enemies;
    l := SplatPawnMoves(list, b1, PawnPush(us) + up);
    ghost var l1 := l;
    l := SplatPawnMoves(l, b2, PawnPush(us) + -up);
    GrownBoth(list, l1, l, P, Q);
    ghost var l2 := l;
    l := EnPassants(g, t, target, l);
    GrownBoth(list, l2, l, P + Q, R);
  }

  /** The pawns that may take en passant; none when taking would not answer the check. */
  function Takers(g: Source, t: GenType, target: Bitboard): Bitboard {
    if g.ep == None || (t == Evasions && 0 <= g.ep.value + PawnPush(g.v.us) < 64
        && g.ep.value + PawnPush(g.v.us) in target) then {}
    else NotOn7(g) * PawnBB(g.v.us.Other(), g.ep.value)
  }

  lemma CapturesApart(g: Source, tos: Bitboard, froms: Bitboard)
    ensures CaptureSet(g, tos, Up(g.v.us)) !! CaptureSet(g, tos, -Up(g.v.us))
    ensures EnPassantSet(g, froms) !! CaptureSet(g, tos, Up(g.v.us)) + CaptureSet(g, tos, -Up(g.v.us))
  {}

  /** The en passant captures. */
  method EnPassants(g: Source, t: GenType, target: Bitboard, list: seq<Move>) returns (l: seq<Move>)
    ensures Grown(list, l, EnPassantSet(g, Takers(g, t, target)))
  {
    l := list;
    var all := Takers(g, t, target);
    var b1 := all;
    assert EnPassantSet(g, all - b1) == iset{};
    GrownNone(list);
    while b1 != {}
      invariant b1 <= all && Grown(list, l, EnPassantSet(g, all - b1))
    {
      var from := Lsb(b1);
      var m := Move(from, g.ep.value, EnPassant, Knight);
      GrownOne(list, l, EnPassantSet(g, all - b1), m);
      assert EnPassantSet(g, all - b1) + iset{m} == EnPassantSet(g, all - (b1 - {from}));
      hide Grown, EnPassantSet;
      b1 := b1 - {from};
      l := l + [m];
    }
    assert all - b1 == all;
  }

  /** `generate_pawn_moves`. */
  method GeneratePawnMoves(g: Source, t: GenType, target: Bitboard, list: seq<Move>) returns (l: seq<Move>)
    requires SourceOk(g, t)
    ensures Grown(list, l, PawnMoves(g, t, target))
  {
    hide *;
    ghost var A, B, C := PushPart(g, t, target), PromotionPart(g, t, target), CapturePart(g, t, target);
    PawnPartsApart(g, t, target);
    PawnPartsAll(g, t, target);
    PartsAre(g, t, target);
    l := list;
    GrownNone(list);
    if t != Captures { l := Pushes(g, t, target, l); }
    ghost var l1 := l;
    l := PawnPromotions(g, t, target, l);
    GrownBoth(list, l1, l, A, B);
    ghost var l2 := l;
    GrownNone(l);
    if t != Quiets { l := PawnCaptures(g, t, target, l); }
    GrownBoth(list, l2, l, A + B, C);
  }

  ghost function PushPart(g: Source, t: GenType, target: Bitboard): iset<Move> {
    if t == Captures then iset{} else PushSet(g, t, target, 1) + PushSet(g, t, target, 2)
  }

  ghost function PromotionPart(g: Source, t: GenType, target: Bitboard): iset<Move> {
    var e, q := Enemies(g, t), if t == Evasions then EmptyBB(g.v.board) * target else EmptyBB(g.v.board);
    PromotionSet(g, t, e, Up(g.v.us), true) + PromotionSet(g, t, e, -Up(g.v.us), true) + PromotionSet(g, t, q, 0, false)
  }

  ghost function CapturePart(g: Source, t: GenType, target: Bitboard): iset<Move> {
    if t == Quiets then iset{} else
      CaptureSet(g, Enemies(g, t), Up(g.v.us)) + CaptureSet(g, Enemies(g, t), -Up(g.v.us))
          + EnPassantSet(g, Takers(g, t, target))
  }

  lemma PartsAre(g: Source, t: GenType, target: Bitboard)
    ensures PushPart(g, t, target) == if t == Captures then iset{}
        else PushSet(g, t, target, 1) + PushSet(g, t, target, 2)
    ensures var e, q := Enemies(g, t), if t == Evasions then EmptyBB(g.v.board) * target else EmptyBB(g.v.board);
            PromotionPart(g, t, target) ==
            PromotionSet(g, t, e, Up(g.v.us), true) + PromotionSet(g, t, e, -Up(g.v.us), true)
                + PromotionSet(g, t, q, 0, false)
    ensures CapturePart(g, t, target) == if t == Quiets then iset{} else
              CaptureSet(g, Enemies(g, t), Up(g.v.us)) + CaptureSet(g, Enemies(g, t), -Up(g.v.us))
                  + EnPassantSet(g, Takers(g, t, target))
  {}

  lemma PawnPartsApart(g: Source, t: GenType, target: Bitboard)
    ensures PushPart(g, t, target) !! PromotionPart(g, t, target)
    ensures CapturePart(g, t, target) !! PushPart(g, t, target) + PromotionPart(g, t, target)
  {
    hide PromotionListed, Enemies, Takers, PawnOn7;
  }

  lemma PawnPartsAll(g: Source, t: GenType, target: Bitboard)
    requires SourceOk(g, t)
    ensures PushPart(g, t, target) + PromotionPart(g, t, target) + CapturePart(g, t, target) == PawnMoves(g, t, target)
  {
    hide ViewOk;
    forall m: Move
      ensures m in PushPart(g, t, target) + PromotionPart(g, t, target) + CapturePart(g, t, target) <==>
          m in PawnMoves(g, t, target)
    {
      match m.mtype {
        case Normal => PlainPawn(g, t, target, m);
        case Promotion => PromotingPawn(g, t, target, m);
        case EnPassant => TakingPawn(g, t, target, m);
        case Castling =>
      }
    }
  }

  /** A pawn's attack is one step ahead and one to the side. */
  lemma PawnSteps(us: Color, from: Square, to: Square)
    ensures to in PawnBB(us, from) <==> (Df(from, to) == Up(us) || Df(from, to) == -Up(us)) && Dr(from, to) == Up(us)
    ensures from in PawnBB(us.Other(), to) <==> to in PawnBB(us, from)
    ensures from + PawnPush(us) == to <==> Df(from, to) == 0 && Dr(from, to) == Up(us)
  {}

  /** Which parts a move without special type can be in. */
  lemma OnlyPlain(g: Source, t: GenType, target: Bitboard, m: Move)
    requires m.mtype == Normal
    ensures m in PushPart(g, t, target) + PromotionPart(g, t, target) + CapturePart(g, t, target) <==>
            || (t != Captures && (m in PushSet(g, t, target, 1) || m in PushSet(g, t, target, 2)))
            || (t != Quiets && (m in CaptureSet(g, Enemies(g, t), Up(g.v.us))
                || m in CaptureSet(g, Enemies(g, t), -Up(g.v.us))))
  {
    hide PushSet, CaptureSet, Takers, PromotionListed, Enemies;
  }

  lemma PlainPawn(g: Source, t: GenType, target: Bitboard, m: Move)
    requires m.mtype == Normal
    ensures m in PushPart(g, t, target) + PromotionPart(g, t, target) + CapturePart(g, t, target) <==>
        m in PawnMoves(g, t, target)
  {
    PawnSteps(g.v.us, m.from, m.to);
    OnlyPlain(g, t, target, m);
    hide Enemies, PawnBB, Df, Dr, PawnPush, Up, PushPart, PromotionPart, CapturePart, PawnNotOn7;
  }

  lemma PromotingPawn(g: Source, t: GenType, target: Bitboard, m: Move)
    requires m.mtype == Promotion
    ensures m in PushPart(g, t, target) + PromotionPart(g, t, target) + CapturePart(g, t, target) <==>
        m in PawnMoves(g, t, target)
  {
    hide PushPart, CapturePart, Enemies, Takers, PromotionListed, Df, Dr, PawnAttacks, PawnPush, Up, RelativeRank;
    PawnSteps(g.v.us, m.from, m.to);
    OnlyPromoting(g, t, target, m);
  }

  lemma OnlyPromoting(g: Source, t: GenType, target: Bitboard, m: Move)
    requires m.mtype == Promotion
    ensures m !in PushPart(g, t, target) && m !in CapturePart(g, t, target)
  {
    hide Enemies, Takers, NotOn7, PawnNotOn7, PawnPush, Up, RelativeRank, Df, Dr;
  }

  /** Which parts an en passant capture can be in. */
  lemma OnlyTaking(g: Source, t: GenType, target: Bitboard, m: Move)
    requires m.mtype == EnPassant
    ensures m in PushPart(g, t, target) + PromotionPart(g, t, target) + CapturePart(g, t, target) <==>
            t != Quiets && m in EnPassantSet(g, Takers(g, t, target))
  {
    hide EnPassantSet, Takers, PromotionListed, Enemies, NotOn7, PawnNotOn7, PawnOn7, PawnPush, Up, RelativeRank, Df,
        Dr,
        EmptyBB;
  }

  lemma TakingPawn(g: Source, t: GenType, target: Bitboard, m: Move)
    requires m.mtype == EnPassant && (g.ep.Some? ==> RelativeRank(g.v.us, g.ep.value) == 5)
    ensures m in PushPart(g, t, target) + PromotionPart(g, t, target) + CapturePart(g, t, target) <==>
        m in PawnMoves(g, t, target)
  {
    hide PushPart, PromotionPart, CapturePart, PawnBB, NotOn7, PawnNotOn7, Enemies, EmptyBB;
    PawnSteps(g.v.us, m.from, m.to);
    On7Means(g, m.from);
    OnlyTaking(g, t, target, m);
  }

  // ----- Pieces, king and castling -----

  ghost function PieceMoves(g: Source, target: Bitboard, k: PieceType): iset<Move> {
    iset m: Move | PieceListed(g, target, k, m)
  }

  ghost function PieceMovesFrom(g: Source, target: Bitboard, k: PieceType, froms: Bitboard): iset<Move> {
    iset m: Move | PieceListed(g, target, k, m) && m.from in froms
  }

  /** `generate_moves`. */
  method GenerateMoves(g: Source, target: Bitboard, k: PieceType, list: seq<Move>) returns (l: seq<Move>)
    ensures Grown(list, l, PieceMoves(g, target, k))
  {
    l := list;
    var all := Pieces(g.v.board, g.v.us, k);
    var bb := all;
    assert PieceMovesFrom(g, target, k, all - bb) == iset{};
    GrownNone(list);
    while bb != {}
      invariant bb <= all && Grown(list, l, PieceMovesFrom(g, target, k, all - bb))
    {
      var from := Lsb(bb);
      var b := AttackBB(Occ(g.v.board), Man(g.v.us, k), from) * target;
      OnePiece(g, target, k, from, all, bb);
      hide Grown, PieceMovesFrom, SplatFrom, AttackBB;
      ghost var l0 := l;
      l := SplatMoves(l, from, b);
      GrownBoth(list, l0, l, PieceMovesFrom(g, target, k, all - bb), SplatFrom(from, b));
      bb := bb - {from};
    }
    AllPieces(g, target, k);
  }

  lemma OnePiece(g: Source, target: Bitboard, k: PieceType, from: Square, all: Bitboard, bb: Bitboard)
    requires all == Pieces(g.v.board, g.v.us, k) && bb <= all && from in bb
    ensures var b := AttackBB(Occ(g.v.board), Man(g.v.us, k), from) * target;
            && SplatFrom(from, b) !! PieceMovesFrom(g, target, k, all - bb)
            && PieceMovesFrom(g, target, k, all - bb) + SplatFrom(from, b)
                == PieceMovesFrom(g, target, k, all - (bb - {from}))
  {
    hide Occ, AttackBB;
  }

  lemma AllPieces(g: Source, target: Bitboard, k: PieceType)
    ensures PieceMovesFrom(g, target, k, Pieces(g.v.board, g.v.us, k) - {}) == PieceMoves(g, target, k)
  {
    hide Occ, AttackBB;
  }

  ghost function KingMoves(g: Source, t: GenType): iset<Move>
    requires Pieces(g.v.board, g.v.us, King) != {} && (t == Evasions ==> g.v.checkers != {})
  {
    iset m: Move | KingListed(g, t, m)
  }

  ghost function CastlingMoves(g: Source, t: GenType, kingSide: bool): iset<Move>
    requires Pieces(g.v.board, g.v.us, King) != {}
  {
    iset m: Move | CastlingListed(g, t, kingSide, m)
  }

  /** Everything a generator lists. */
  ghost function ListedMoves(g: Source, t: GenType): iset<Move>
    requires Pieces(g.v.board, g.v.us, King) != {} && (t == Evasions ==> g.v.checkers != {})
  {
    iset m: Move | Listed(g, t, m)
  }

  ghost function PawnsAndPieces(g: Source, t: GenType, target: Bitboard): iset<Move> {
    PawnMoves(g, t, target) + PieceMoves(g, target, Knight) + PieceMoves(g, target, Bishop)
        + PieceMoves(g, target, Rook) + PieceMoves(g, target, Queen)
  }

  /** The non-king part of generate_all. */
  method GenerateOthers(g: Source, t: GenType, target: Bitboard, list: seq<Move>) returns (l: seq<Move>)
    requires SourceOk(g, t)
    ensures Grown(list, l, PawnsAndPieces(g, t, target))
  {
    PiecesApart(g, t, target);
    ghost var P, N, B, R, Q := PawnMoves(g, t, target), PieceMoves(g, target, Knight), PieceMoves(g, target, Bishop),
        PieceMoves(g, target, Rook), PieceMoves(g, target, Queen);
    assert PawnsAndPieces(g, t, target) == P + N + B + R + Q;
    hide *;
    l := GeneratePawnMoves(g, t, target, list);
    ghost var l1 := l;
    l := GenerateMoves(g, target, Knight, l);
    GrownBoth(list, l1, l, P, N);
    ghost var l2 := l;
    l := GenerateMoves(g, target, Bishop, l);
    GrownBoth(list, l2, l, P + N, B);
    ghost var l3 := l;
    l := GenerateMoves(g, target, Rook, l);
    GrownBoth(list, l3, l, P + N + B, R);
    ghost var l4 := l;
    l := GenerateMoves(g, target, Queen, l);
    GrownBoth(list, l4, l, P + N + B + R, Q);
  }

  lemma PiecesApart(g: Source, t: GenType, target: Bitboard)
    ensures var P, N, B, R, Q := PawnMoves(g, t, target), PieceMoves(g, target, Knight),
        PieceMoves(g, target, Bishop), PieceMoves(g, target, Rook), PieceMoves(g, target, Queen);
            N !! P && B !! P + N && R !! P + N + B && Q !! P + N + B + R
  {
    hide AttackBB, Occ, PawnBB, Enemies, PromotionListed, RelativeRank;
  }

  /** `generate_all`. */
  method GenerateAll(g: Source, t: GenType) returns (l: seq<Move>)
    requires SourceOk(g, t)
    ensures Grown([], l, ListedMoves(g, t))
  {
    var us := g.v.us;
    SourceKing(g, t);
    var ksq := KingSq(g.v.board, us);
    ghost var O := if DoubleCheck(g, t) then iset{} else PawnsAndPieces(g, t, Target(g, t));
    ghost var K, C, D := KingMoves(g, t), CastlingMoves(g, t, true), CastlingMoves(g, t, false);
    AllApart(g, t);
    assert SplatFrom(ksq, KingBB(ksq) * KingTargets(g, t)) == K;
    hide Grown, PawnsAndPieces, KingMoves, ListedMoves, ViewOk, Target, KingTargets, SplatFrom, CastlingMoves;
    l := [];
    GrownNone(l);
    if !DoubleCheck(g, t) {
      l := GenerateOthers(g, t, Target(g, t), l);
    }
    ghost var l1 := l;
    l := SplatMoves(l, ksq, KingBB(ksq) * KingTargets(g, t));
    GrownBoth([], l1, l, O, K);
    ghost var l2 := l;
    l := Castle(g, t, true, l);
    GrownBoth([], l2, l, O + K, C);
    ghost var l3 := l;
    l := Castle(g, t, false, l);
    GrownBoth([], l3, l, O + K + C, D);
  }

  lemma SourceKing(g: Source, t: GenType)
    requires SourceOk(g, t)
    ensures Pieces(g.v.board, g.v.us, King) != {} && (t == Evasions ==> g.v.checkers != {})
  {}

  /** One turn of the castling loop. */
  method Castle(g: Source, t: GenType, kingSide: bool, list: seq<Move>) returns (l: seq<Move>)
    requires Pieces(g.v.board, g.v.us, King) != {}
    ensures Grown(list, l, CastlingMoves(g, t, kingSide))
  {
    l := list;
    GrownNone(list);
    var cr := RightOf(g.v.us, kingSide);
    if (t == Quiets || t == NonEvasions) && !Impeded(g, cr) && cr in g.rights {
      var m := Move(KingSq(g.v.board, g.v.us), g.rookSquare(cr), Castling, Knight);
      GrownOne(list, l, iset{}, m);
      l := l + [m];
      assert iset{} + iset{m} == CastlingMoves(g, t, kingSide);
    } else {
      assert CastlingMoves(g, t, kingSide) == iset{};
    }
  }

  lemma AllApart(g: Source, t: GenType)
    requires SourceOk(g, t) && Pieces(g.v.board, g.v.us, King) != {} && (t == Evasions ==> g.v.checkers != {})
    ensures var O := if DoubleCheck(g, t) then iset{} else PawnsAndPieces(g, t, Target(g, t));
            var K, C, D := KingMoves(g, t), CastlingMoves(g, t, true), CastlingMoves(g, t, false);
            K !! O && C !! O + K && D !! O + K + C && O + K + C + D == ListedMoves(g, t)
  {
    hide ViewOk, Target, KingTargets, DoubleCheck, KingBB, PawnsAndPieces, Listed;
    forall m: Move
      ensures m in PawnsAndPieces(g, t, Target(g, t)) ==> g.v.board[m.from] != Man(g.v.us, King) && m.mtype != Castling
      ensures m in ListedMoves(g, t) <==>
          (!DoubleCheck(g, t) && m in PawnsAndPieces(g, t, Target(g, t))) || KingListed(g, t, m)
                                          || CastlingListed(g, t, true, m) || CastlingListed(g, t, false, m)
    {
      OthersFrom(g, t, Target(g, t), m);
      ListedParts(g, t, m);
    }
  }

  lemma OthersFrom(g: Source, t: GenType, target: Bitboard, m: Move)
    ensures m in PawnsAndPieces(g, t, target) ==> g.v.board[m.from] != Man(g.v.us, King) && m.mtype != Castling
  {
    hide AttackBB, Occ, PawnBB, Enemies, PromotionListed, RelativeRank;
  }

  lemma ListedParts(g: Source, t: GenType, m: Move)
    requires Pieces(g.v.board, g.v.us, King) != {} && (t == Evasions ==> g.v.checkers != {})
    ensures Listed(g, t, m) <==>
            || (!DoubleCheck(g, t) && m in PawnsAndPieces(g, t, Target(g, t)))
            || KingListed(g, t, m) || CastlingListed(g, t, true, m) || CastlingListed(g, t, false, m)
  {
    hide PawnListed, PieceListed, KingListed, CastlingListed, Target, DoubleCheck;
    var T := Target(g, t);
    if exists k | IsPiece(k) :: PieceListed(g, T, k, m) {
      var k :| IsPiece(k) && PieceListed(g, T, k, m);
    }
    if m in PieceMoves(g, T, Knight) { assert IsPiece(Knight) && PieceListed(g, T, Knight, m); }
    if m in PieceMoves(g, T, Bishop) { assert IsPiece(Bishop) && PieceListed(g, T, Bishop, m); }
    if m in PieceMoves(g, T, Rook) { assert IsPiece(Rook) && PieceListed(g, T, Rook, m); }
    if m in PieceMoves(g, T, Queen) { assert IsPiece(Queen) && PieceListed(g, T, Queen, m); }
  }

  // ----- The list and pseudo_legal mean the same -----

  /** Between the king and the only checker every square is empty, and the checker is the enemy's. */
  lemma EvasionSquares(v: View, x: Square)
    requires ViewOk(v) && v.checkers != {} && x in BetweenBB(KingSq(v.board, v.us), Lsb(v.checkers))
    ensures v.board[Lsb(v.checkers)].Man? && v.board[Lsb(v.checkers)].color == v.us.Other()
    ensures x == Lsb(v.checkers) || v.board[x] == Empty
  {
    var k, c, b := KingSq(v.board, v.us), Lsb(v.checkers), v.board;
    CheckerAttacks(v);
    if x != c {
      BetweenSym(k, x, c);
      match b[c].kind {
        case Pawn => NoBetweenNear(c, k, x);
        case Knight => NoBetweenKnight(c, k, x);
        case King => NoBetweenNear(c, k, x);
        case _ => assert x !in Occ(b);
      }
    }
  }

  lemma CheckerAttacks(v: View)
    requires ViewOk(v) && v.checkers != {}
    ensures var k, c, b := KingSq(v.board, v.us), Lsb(v.checkers), v.board;
            b[c].Man? && b[c].color == v.us.Other() && Attacks(Occ(b), b[c], c, k)
  {
    hide AttackersTo, Attacks, CheckSquaresOk, OneKingEach, Blockers, Occ;
    var k, c, b := KingSq(v.board, v.us), Lsb(v.checkers), v.board;
    assert v.checkers == AttackersTo(b, k, Occ(b)) * ByColor(b, v.us.Other());
    assert c in ByColor(b, v.us.Other());
    AttackersToMeaning(b, k, Occ(b), c);
  }

  /** For a move without special type, being generated is being pseudo-legal. */
  lemma ListedIsPseudoLegal(g: Source, t: GenType, m: Move)
    requires SourceOk(g, t) && All(t) && IsPlain(m)
    requires Pieces(g.v.board, g.v.us, King) != {} && (t == Evasions ==> g.v.checkers != {})
    ensures Listed(g, t, m) <==> PseudoLegal(g.v, m)
  {
    var v := g.v;
    var b, us := v.board, v.us;
    ListedPlain(g, t, m);
    OneKingHere(v, m.from);
    if t == Evasions && m.to in Target(g, t) { EvasionSquares(v, m.to); }
    if b[m.from].Man? && b[m.from].color == us {
      match b[m.from].kind {
        case King => KingAgrees(g, t, m);
        case Pawn => PawnAgrees(g, t, m);
        case _ => PieceAgrees(g, t, m);
      }
    } else {
      hide ViewOk, PawnBB, AttackBB, KingTargets, Target, Enemies;
    }
  }

  lemma OneKingHere(v: View, s: Square)
    requires ViewOk(v) && Pieces(v.board, v.us, King) != {}
    ensures v.board[s] == Man(v.us, King) <==> s == KingSq(v.board, v.us)
  {
    hide AttackersTo, CheckSquaresOk, Blockers, Occ;
    KingUnique(v.board, v.us, s);
  }

  /** The branches that can list a move without special type. */
  lemma ListedPlain(g: Source, t: GenType, m: Move)
    requires IsPlain(m) && Pieces(g.v.board, g.v.us, King) != {} && (t == Evasions ==> g.v.checkers != {})
    ensures var pc := g.v.board[m.from];
            && (Listed(g, t, m) ==> pc.Man? && pc.color == g.v.us)
            && (pc == Man(g.v.us, King) ==> (Listed(g, t, m) <==> KingListed(g, t, m)))
            && (pc == Man(g.v.us, Pawn) ==>
                (Listed(g, t, m) <==> !DoubleCheck(g, t) && PawnListed(g, t, Target(g, t), m)))
            && (pc.Man? && pc.color == g.v.us && IsPiece(pc.kind) ==>
                (Listed(g, t, m) <==> !DoubleCheck(g, t) && PieceListed(g, Target(g, t), pc.kind, m)))
  {
    hide AttackBB, PawnBB, KingBB, KingTargets, Target, Enemies, DoubleCheck, Occ, RelativeRank;
    var T := Target(g, t);
    if exists k | IsPiece(k) :: PieceListed(g, T, k, m) {
      var k :| IsPiece(k) && PieceListed(g, T, k, m);
      assert g.v.board[m.from] == Man(g.v.us, k);
    }
  }

  lemma KingAgrees(g: Source, t: GenType, m: Move)
    requires SourceOk(g, t) && All(t) && IsPlain(m) && Pieces(g.v.board, g.v.us, King) != {}
        && (t == Evasions ==> g.v.checkers != {})
    requires g.v.board[m.from] == Man(g.v.us, King) && m.from == KingSq(g.v.board, g.v.us)
    ensures KingListed(g, t, m) <==> PseudoLegal(g.v, m)
  {
    assert IsOk(m.to) && m.to in AllSquares();
    hide ViewOk, KingAttacks, KingSq, Occ, BetweenBB, MoreThanOne;
  }

  lemma PieceAgrees(g: Source, t: GenType, m: Move)
    requires SourceOk(g, t) && All(t) && IsPlain(m) && Pieces(g.v.board, g.v.us, King) != {}
        && (t == Evasions ==> g.v.checkers != {})
    requires g.v.board[m.from].Man? && g.v.board[m.from].color == g.v.us && IsPiece(g.v.board[m.from].kind)
    requires t == Evasions && m.to in Target(g, t) ==>
               g.v.board[Lsb(g.v.checkers)].Man? && g.v.board[Lsb(g.v.checkers)].color == g.v.us.Other()
                   && (m.to == Lsb(g.v.checkers) || g.v.board[m.to] == Empty)
    ensures (!DoubleCheck(g, t) && PieceListed(g, Target(g, t), g.v.board[m.from].kind, m)) <==> PseudoLegal(g.v, m)
  {
    assert IsOk(m.to) && m.to in AllSquares();
    hide ViewOk, KingSq, Occ, BetweenBB, MoreThanOne, AttackBB, AllSquares;
  }

  lemma PawnAgrees(g: Source, t: GenType, m: Move)
    requires SourceOk(g, t) && All(t) && IsPlain(m) && Pieces(g.v.board, g.v.us, King) != {}
        && (t == Evasions ==> g.v.checkers != {})
    requires g.v.board[m.from] == Man(g.v.us, Pawn)
    requires t == Evasions && m.to in Target(g, t) ==>
               g.v.board[Lsb(g.v.checkers)].Man? && g.v.board[Lsb(g.v.checkers)].color == g.v.us.Other()
                   && (m.to == Lsb(g.v.checkers) || g.v.board[m.to] == Empty)
    ensures (!DoubleCheck(g, t) && PawnListed(g, t, Target(g, t), m)) <==> PseudoLegal(g.v, m)
  {
    PawnRanks(g.v.us, m.from, m.to);
    PawnChecked(g, t, m);
    hide ViewOk, KingSq, Occ, BetweenBB, MoreThanOne, PawnBB, AllSquares, RelativeRank, Lsb;
  }

  /** A pawn not on its seventh rank never reaches the last one. */
  lemma PawnRanks(us: Color, from: Square, to: Square)
    ensures from + PawnPush(us) == to || to in PawnBB(us, from) ==>
        (RelativeRank(us, from) != 6 <==> Rank(to) != 7 && Rank(to) != 0)
    ensures from + 2 * PawnPush(us) == to && RelativeRank(us, from) == 1 ==>
        RelativeRank(us, from) != 6 && Rank(to) != 7 && Rank(to) != 0
  {}

  /** In single check, capturing on the checking line is capturing the checker. */
  lemma PawnChecked(g: Source, t: GenType, m: Move)
    requires SourceOk(g, t) && All(t) && Pieces(g.v.board, g.v.us, King) != {} && (t == Evasions ==> g.v.checkers != {})
    requires t == Evasions && m.to in Target(g, t) ==>
               g.v.board[Lsb(g.v.checkers)].Man? && g.v.board[Lsb(g.v.checkers)].color == g.v.us.Other()
                   && (m.to == Lsb(g.v.checkers) || g.v.board[m.to] == Empty)
    ensures t == Evasions && !DoubleCheck(g, t) ==>
              (m.to in g.v.checkers <==>
                  m.to in ByColor(g.v.board, g.v.us.Other()) && m.to in BetweenBB(KingSq(g.v.board, g.v.us),
                  Lsb(g.v.checkers)))
  {
    if t == Evasions && !DoubleCheck(g, t) {
      var c := Lsb(g.v.checkers);
      assert g.v.checkers == {c} by { SingleIs(g.v.checkers, c); }
      assert c in BetweenBB(KingSq(g.v.board, g.v.us), c);
      EvasionSquares(g.v, c);
    }
  }

  // ----- Captures and quiets make up the whole -----

  /** `Position::capture_stage`. */
  predicate CaptureStage(b: Board, m: Move) {
    match m.mtype
    case Normal => b[m.to] != Empty
    case Promotion => b[m.to] != Empty || m.promo == Queen
    case _ => m.mtype == EnPassant
  }

  /** Out of check, the capture generator lists the capture-stage moves and the quiet one the others. */
  lemma StagesSplit(g: Source, m: Move)
    requires SourceOk(g, NonEvasions) && Pieces(g.v.board, g.v.us, King) != {}
    ensures Listed(g, Captures, m) <==> Listed(g, NonEvasions, m) && CaptureStage(g.v.board, m)
    ensures Listed(g, Quiets, m) <==> Listed(g, NonEvasions, m) && !CaptureStage(g.v.board, m)
  {
    var b, us := g.v.board, g.v.us;
    assert IsOk(m.to) && m.to in AllSquares();
    hide ViewOk, KingSq, Occ, PawnListed, PieceListed, AttackBB, AllSquares, Target, KingBB, ByColor, EmptyBB,
        MoreThanOne, RightOf, Lsb, BetweenBB, KingAttacks;
    StageTargets(g, m);
    PawnStages(g, m);
    PieceStages(g, m);
  }

  lemma StageTargets(g: Source, m: Move)
    requires Pieces(g.v.board, g.v.us, King) != {}
    ensures m.to in Target(g, Captures) <==> m.to in Target(g, NonEvasions) && g.v.board[m.to] != Empty
    ensures m.to in Target(g, Quiets) <==> m.to in Target(g, NonEvasions) && g.v.board[m.to] == Empty
  {
    assert IsOk(m.to);
  }

  lemma PawnStages(g: Source, m: Move)
    requires Pieces(g.v.board, g.v.us, King) != {}
    ensures PawnListed(g, Captures, Target(g, Captures), m) <==>
        PawnListed(g, NonEvasions, Target(g, NonEvasions), m) && CaptureStage(g.v.board, m)
    ensures PawnListed(g, Quiets, Target(g, Quiets), m) <==>
        PawnListed(g, NonEvasions, Target(g, NonEvasions), m) && !CaptureStage(g.v.board, m)
  {
    hide PawnBB, Target, RelativeRank;
  }

  lemma PieceStages(g: Source, m: Move)
    requires Pieces(g.v.board, g.v.us, King) != {}
    requires m.to in Target(g, Captures) <==> m.to in Target(g, NonEvasions) && g.v.board[m.to] != Empty
    requires m.to in Target(g, Quiets) <==> m.to in Target(g, NonEvasions) && g.v.board[m.to] == Empty
    ensures var some := exists k | IsPiece(k) :: PieceListed(g, Target(g, NonEvasions), k, m);
            && ((exists k | IsPiece(k) :: PieceListed(g, Target(g, Captures), k, m)) <==>
                some && CaptureStage(g.v.board, m))
            && ((exists k | IsPiece(k) :: PieceListed(g, Target(g, Quiets), k, m)) <==>
                some && !CaptureStage(g.v.board, m))
  {
    hide AttackBB, Target, Occ, IsPiece;
    forall k
      ensures PieceListed(g, Target(g, Captures), k, m) <==>
          PieceListed(g, Target(g, NonEvasions), k, m) && CaptureStage(g.v.board, m)
      ensures PieceListed(g, Target(g, Quiets), k, m) <==>
          PieceListed(g, Target(g, NonEvasions), k, m) && !CaptureStage(g.v.board, m)
    {}
  }

  /** The capture list and the quiet list together are the whole list, move for move. */
  lemma ListsAddUp(g: Source, captures: seq<Move>, quiets: seq<Move>, whole: seq<Move>)
    requires SourceOk(g, NonEvasions) && Pieces(g.v.board, g.v.us, King) != {}
    requires Grown([], captures, ListedMoves(g, Captures)) && Grown([], quiets, ListedMoves(g, Quiets))
        && Grown([], whole, ListedMoves(g, NonEvasions))
    ensures multiset(captures) + multiset(quiets) == multiset(whole)
    ensures (forall m | m in captures :: CaptureStage(g.v.board, m))
        && (forall m | m in quiets :: !CaptureStage(g.v.board, m))
  {
    hide ViewOk, Listed, CaptureStage;
    forall m
      ensures multiset(captures)[m] + multiset(quiets)[m] == multiset(whole)[m]
      ensures m in captures ==> CaptureStage(g.v.board, m)
      ensures m in quiets ==> !CaptureStage(g.v.board, m)
    {
      StagesSplit(g, m);
      assert m in captures <==> multiset(captures)[m] > 0;
      assert m in quiets <==> multiset(quiets)[m] > 0;
    }
  }

  // ----- The legal moves -----

  lemma GrownFromNothing(list: seq<Move>, P: iset<Move>, m: Move)
    requires Grown([], list, P)
    ensures m in list <==> m in P
  {
    assert m in list <==> multiset(list)[m] > 0;
  }

  /** `Position::pseudo_legal` for any move: the quick test, or a look at the list. */
  method IsPseudoLegal(g: Source, m: Move) returns (r: bool)
    requires SourceOk(g, if g.v.checkers != {} then Evasions else NonEvasions) && Pieces(g.v.board, g.v.us, King) != {}
    requires m.mtype == Normal ==> m.promo == Knight
    ensures r <==> Listed(g, if g.v.checkers != {} then Evasions else NonEvasions, m)
  {
    var t := if g.v.checkers != {} then Evasions else NonEvasions;
    if m.mtype != Normal {
      hide Listed, ViewOk;
      var list := GenerateAll(g, t);
      r := m in list;
      GrownFromNothing(list, ListedMoves(g, t), m);
    } else {
      hide Listed, ViewOk, PseudoLegal;
      ListedIsPseudoLegal(g, t, m);
      r := PseudoLegal(g.v, m);
    }
  }

  /** The filter keeps a move unless it may be illegal and is. */
  predicate Kept(g: Source, legal: Move -> bool, m: Move)
    requires Pieces(g.v.board, g.v.us, King) != {} && g.v.us in g.v.blockers
  {
    !((m.from in g.v.blockers[g.v.us] * ByColor(g.v.board, g.v.us) || m.from == KingSq(g.v.board, g.v.us)
        || m.mtype == EnPassant) && !legal(m))
  }

  /** The loop of `generate<LEGAL>`: a rejected move is overwritten by the last one. */
  method FilterLegal(g: Source, legal: Move -> bool, moves: array<Move>, count: nat) returns (end: nat)
    requires Pieces(g.v.board, g.v.us, King) != {} && g.v.us in g.v.blockers && count <= moves.Length
    modifies moves
    ensures end <= count
    ensures forall m :: multiset(moves[..end])[m] == if Kept(g, legal, m) then multiset(old(moves[..count]))[m] else 0
  {
    hide Kept, KeptCounts, AllKept;
    var cur := 0;
    end := count;
    ghost var l := moves[..count];
    FilterStart(g, legal, l);
    assert moves[..0] == [];
    while cur != end
      invariant 0 <= cur <= end <= count
      invariant KeptCounts(g, legal, l, moves[..end]) && AllKept(g, legal, moves[..cur])
      decreases end - cur
    {
      ghost var before, front := moves[..end], moves[..cur];
      if !Kept(g, legal, moves[cur]) {
        end := end - 1;
        moves[cur] := moves[end];
        DropOne(g, legal, l, before, cur, moves[..end]);
        assert moves[..cur] == front;
      } else {
        KeepOne(g, legal, front, moves[cur]);
        cur := cur + 1;
        assert moves[..cur] == front + [moves[cur - 1]];
      }
    }
    FilterDone(g, legal, l, moves[..end]);
  }

  /** Every move to keep is there as often as at the start. */
  ghost predicate KeptCounts(g: Source, legal: Move -> bool, l: seq<Move>, s: seq<Move>)
    requires Pieces(g.v.board, g.v.us, King) != {} && g.v.us in g.v.blockers
  {
    forall m | Kept(g, legal, m) :: multiset(s)[m] == multiset(l)[m]
  }

  ghost predicate AllKept(g: Source, legal: Move -> bool, s: seq<Move>)
    requires Pieces(g.v.board, g.v.us, King) != {} && g.v.us in g.v.blockers
  {
    forall m | m in s :: Kept(g, legal, m)
  }

  lemma FilterStart(g: Source, legal: Move -> bool, l: seq<Move>)
    requires Pieces(g.v.board, g.v.us, King) != {} && g.v.us in g.v.blockers
    ensures KeptCounts(g, legal, l, l) && AllKept(g, legal, [])
  {}

  lemma DropOne(g: Source, legal: Move -> bool, l: seq<Move>, s: seq<Move>, i: nat, t: seq<Move>)
    requires Pieces(g.v.board, g.v.us, King) != {} && g.v.us in g.v.blockers
    requires KeptCounts(g, legal, l, s) && i < |s| && !Kept(g, legal, s[i]) && |t| == |s| - 1
    requires forall k | 0 <= k < |t| :: t[k] == if k == i then s[|s| - 1] else s[k]
    ensures KeptCounts(g, legal, l, t)
  {
    SwapRemove(s, i, t);
    hide Kept;
  }

  lemma KeepOne(g: Source, legal: Move -> bool, s: seq<Move>, m: Move)
    requires Pieces(g.v.board, g.v.us, King) != {} && g.v.us in g.v.blockers
    requires AllKept(g, legal, s) && Kept(g, legal, m)
    ensures AllKept(g, legal, s + [m])
  {
    hide Kept;
  }

  lemma FilterDone(g: Source, legal: Move -> bool, l: seq<Move>, s: seq<Move>)
    requires Pieces(g.v.board, g.v.us, King) != {} && g.v.us in g.v.blockers
    requires KeptCounts(g, legal, l, s) && AllKept(g, legal, s)
    ensures forall m :: multiset(s)[m] == if Kept(g, legal, m) then multiset(l)[m] else 0
  {
    hide Kept;
    forall m ensures multiset(s)[m] == if Kept(g, legal, m) then multiset(l)[m] else 0 {
      assert m in s <==> multiset(s)[m] > 0;
    }
  }

  lemma SwapRemove(s: seq<Move>, i: nat, t: seq<Move>)
    requires i < |s| && |t| == |s| - 1
    requires forall k | 0 <= k < |t| :: t[k] == if k == i then s[|s| - 1] else s[k]
    ensures multiset(s) == multiset(t) + multiset{s[i]}
  {
    var n := |s| - 1;
    if i == n {
      assert s == t + [s[n]];
    } else {
      var before, between := s[..i], s[i + 1..n];
      assert s == before + [s[i]] + between + [s[n]];
      assert t == before + [s[n]] + between;
      Regrouped(before, s[i], between, s[n]);
    }
  }

  lemma Regrouped(before: seq<Move>, x: Move, between: seq<Move>, y: Move)
    ensures multiset(before + [x] + between + [y]) == multiset(before + [y] + between) + multiset{x}
  {}

  /** A plain move the filter does not look at is legal: neither the king nor a shielding piece moves. */
  lemma UnlookedIsLegal(g: Source, m: Move)
    requires SourceOk(g, if g.v.checkers != {} then Evasions else NonEvasions)
        && Pieces(g.v.board, g.v.us, King) != {} && g.v.us in g.v.blockers
    requires IsPlain(m) && PseudoLegal(g.v, m)
    requires m.from !in g.v.blockers[g.v.us] * ByColor(g.v.board, g.v.us) && m.from != KingSq(g.v.board, g.v.us)
    ensures Legal(g.v, m)
  {
    OneKingHere(g.v, m.from);
    hide ViewOk, Occ, KingSq, AttackBB, PawnMoveOk, BetweenBB, LineBB;
  }

  /** What the filter keeps of the plain moves leaves the king safe, and what it drops does not. */
  lemma KeptIsSafe(g: Source, legal: Move -> bool, m: Move)
    requires SourceOk(g, if g.v.checkers != {} then Evasions else NonEvasions)
        && Pieces(g.v.board, g.v.us, King) != {} && g.v.us in g.v.blockers
    requires IsPlain(m) && Listed(g, if g.v.checkers != {} then Evasions else NonEvasions, m)
        && legal(m) == Legal(g.v, m)
    ensures Pieces(AfterMove(g.v.board, m), g.v.us, King) != {}
    ensures Kept(g, legal, m) <==>
        !Attacked(AfterMove(g.v.board, m), KingSq(AfterMove(g.v.board, m), g.v.us), g.v.us.Other())
  {
    ListedIsPseudoLegal(g, if g.v.checkers != {} then Evasions else NonEvasions, m);
    LegalExact(g.v, m);
    if m.from !in g.v.blockers[g.v.us] * ByColor(g.v.board, g.v.us) && m.from != KingSq(g.v.board, g.v.us) {
      UnlookedIsLegal(g, m);
    }
    hide ViewOk, Listed, Legal, PseudoLegal, Attacked, AfterMove, KingSq;
  }
}
