/**
 * Setting a position from a FEN string and writing one: what is accepted, and that what is
 * written is read back.
 */
module Fen {
  import opened Options
  import opened Numerals
  import opened Types
  import Geometry
  import opened Board
  import opened Checks
  import opened Placement

  /** `castlingRookSquare` where the right is set. */
  datatype Rights = Rights(wk: Option<Square>, wq: Option<Square>, bk: Option<Square>, bq: Option<Square>) {
    function Rook(c: Color, kingSide: bool): Option<Square> {
      if c.White? then if kingSide then wk else wq else if kingSide then bk else bq
    }

    function With(c: Color, kingSide: bool, s: Square): Rights {
      if c.White? then if kingSide then this.(wk := Some(s)) else this.(wq := Some(s))
      else if kingSide then this.(bk := Some(s)) else this.(bq := Some(s))
    }
  }

  function NoRights(): Rights { Rights(None, None, None, None) }

  /** The fields that `set` fills from the string. */
  datatype Setup = Setup(board: Board, side: Color, rights: Rights, ep: Option<Square>, rule50: int, ply: int,
      chess960: bool)

  // ----- The board -----

  function Extra(b: Board, c: Color, k: PieceType, usual: nat): nat {
    var n := Count(b, Man(c, k));
    if n > usual then n - usual else 0
  }

  function ColorError(b: Board, c: Color): Option<FenError> {
    if Count(b, Man(c, Pawn)) > 8 then Some(TooManyPawns(c))
    else if Extra(b, c, Knight, 2) + Extra(b, c, Bishop, 2) + Extra(b, c, Rook, 2) + Extra(b, c, Queen, 1)
            > 8 - Count(b, Man(c, Pawn))
    then Some(TooManyPieces(c))
    else None
  }

  function BackRanks(): Bitboard { set s: Square | 0 <= s < 64 && (Rank(s) == 0 || Rank(s) == 7) }

  function BoardError(b: Board): Option<FenError> {
    if ByType(b, Pawn) * BackRanks() != {} then Some(BackRankPawn)
    else if Count(b, Man(White, King)) != 1 || Count(b, Man(Black, King)) != 1 then Some(WrongKings)
    else if ColorError(b, White).Some? then ColorError(b, White)
    else ColorError(b, Black)
  }

  lemma KingsThere(b: Board)
    requires BoardError(b) == None
    ensures OneKingEach(b) && forall c :: Pieces(b, c, King) != {}
  {
    hide ColorError;
    assert Pieces(b, White, King) == Where(b, Man(White, King)) && Pieces(b, Black, King) == Where(b, Man(Black, King));
    forall c ensures |Pieces(b, c, King)| == 1 { if c.White? {} else {} }
  }

  predicate HasKings(b: Board) { forall c :: Pieces(b, c, King) != {} }

  // ----- Castling rights -----

  predicate IsLower(c: char) { 'a' <= c <= 'z' }

  function Upper(c: char): char { if IsLower(c) then (c as int - 32) as char else c }

  /** The i-th square of a side's first rank, from the corner on the given wing. */
  function FromCorner(c: Color, kingSide: bool, i: nat): Square
    requires i < 8
  {
    RelativeSquare(c, if kingSide then 7 - i else i)
  }

  /** The rook nearest the corner, when the king comes later. */
  function FindRook(b: Board, c: Color, kingSide: bool, i: nat, rsq: Option<Square>): Option<Square>
    decreases 7 - i
  {
    if i >= 7 then None else
    var pc := b[FromCorner(c, kingSide, i)];
    if pc == Man(c, King) then rsq
    else FindRook(b, c, kingSide, i + 1,
                  if pc == Man(c, Rook) && rsq == None then Some(FromCorner(c, kingSide, i)) else rsq)
  }

  predicate KingAt(b: Board, c: Color, i: nat)
    requires i < 8
  {
    b[RelativeSquare(c, i)] == Man(c, King)
  }

  /** The king stands between the b-file and the g-file of its first rank. */
  predicate KingAtHome(b: Board, c: Color) { exists i: nat | 1 <= i <= 6 :: KingAt(b, c, i) }

  function SideOf(token: char): Color { if IsLower(token) then Black else White }

  /** The rook a letter names, if the right can be valid. */
  function Named(b: Board, token: char): Result<Option<Square>> {
    var c, up := SideOf(token), Upper(token);
    if up == 'K' || up == 'Q' then Ok(FindRook(b, c, up == 'K', 0, None))
    else if 'A' <= up <= 'H' then
      var s := RelativeSquare(c, up as int - 'A' as int);
      Ok(if b[s] == Man(c, Rook) && KingAtHome(b, c) then Some(s) else None)
    else Err(BadCastling)
  }

  /** `set_castling_right`. */
  function SetRight(b: Board, rights: Rights, c: Color, rfrom: Square): Rights
    requires HasKings(b)
  {
    rights.With(c, KingSq(b, c) < rfrom, rfrom)
  }

  function ReadCastling(b: Board, s: string, count: nat, rights: Rights): Result<(Rights, string)>
    requires HasKings(b)
    decreases |s|
  {
    if s == [] then Ok((rights, []))
    else if IsSpace(s[0]) then Ok((rights, s[1..]))
    else if count == 0 && s[0] == '-' then Ok((rights, SkipSpaces(s[1..])))
    else if count + 1 > 4 then Err(TooManyRights)
    else
      var named := Named(b, s[0]);
      if named.Err? then Err(named.error)
      else ReadCastling(b, s[1..], count + 1,
                        if named.value.Some? then SetRight(b, rights, SideOf(s[0]), named.value.value) else rights)
  }

  /** A rook that may castle: on its first rank, the king at home on the other side of it. */
  predicate RookOk(b: Board, c: Color, kingSide: bool, r: Square)
    requires HasKings(b)
  {
    b[r] == Man(c, Rook) && RelativeRank(c, r) == 0 && KingAtHome(b, c) && (kingSide <==> KingSq(b, c) < r)
  }

  predicate WellPlaced(b: Board, rights: Rights)
    requires HasKings(b)
  {
    forall c, k :: rights.Rook(c, k).Some? ==> RookOk(b, c, k, rights.Rook(c, k).value)
  }

  // ----- En passant -----

  /** Capturing en passant with the pawn on p leaves no attacker of the own king but the pawn captured. */
  predicate SafeCapture(b: Board, side: Color, occ: Bitboard, target: Bitboard, p: Square)
    requires HasKings(b)
  {
    AttackersTo(b, KingSq(b, side), Toggle(occ, {p})) * ByColor(b, side.Other()) - target == {}
  }

  function EpPawns(b: Board, side: Color, sq: Square): Bitboard { PawnBB(side.Other(), sq) * Pieces(b, side, Pawn) }

  function EpTarget(b: Board, side: Color, sq: Square): Bitboard
  {
    set t: Square | 0 <= t < 64 && t == sq + PawnPush(side.Other()) && b[t] == Man(side.Other(), Pawn)
  }

  /** The square is recorded: a pawn can capture there, one that may have come by, and the king stays safe. */
  predicate EpCounts(b: Board, side: Color, sq: Square)
    requires HasKings(b)
  {
    var target := EpTarget(b, side, sq);
    var occ := Toggle(Toggle(Occ(b), target), {sq});
    && EpPawns(b, side, sq) != {} && target != {}
    && sq !in Occ(b) && (forall t | t in Occ(b) :: t != sq + PawnPush(side))
    && exists p | p in EpPawns(b, side, sq) :: SafeCapture(b, side, occ, target, p)
  }

  function EpRank(side: Color): int { if side.White? then 5 else 2 }

  function ReadEnPassant(b: Board, side: Color, s: string): Result<(Option<Square>, string)>
    requires HasKings(b)
  {
    if s == [] then Ok((None, []))
    else if s[0] == '-' then Ok((None, s[1..]))
    else if |s| < 2 then Err(UnexpectedEnd)
    else if 'a' <= s[0] <= 'h' && s[1] == (if side.White? then '6' else '3') then
      var sq := SquareAt(s[0] as int - 'a' as int, s[1] as int - '1' as int);
      Ok((if EpCounts(b, side, sq) then Some(sq) else None, s[2..]))
    else Err(BadEnPassant)
  }

  // ----- The counters -----

  /** Reading an int from a stream: what it is set to, and what is left if the stream is still good. */
  function ReadNumber(s: string): (int, Option<string>) {
    match ReadMagnitude(s)
    case None => (0, None)
    case Some((negative, m, rest)) =>
      var i: int := if negative then -(m as int) else m;
      if i < -0x8000_0000 then (-0x8000_0000, None) else if i >= 0x8000_0000 then (0x7FFF_FFFF, None)
          else (i, Some(rest))
  }

  function Late(side: Color): int { if side.Black? then 1 else 0 }

  function PlyOf(fullmove: int, side: Color): int {
    (if 2 * (fullmove - 1) > 0 then 2 * (fullmove - 1) else 0) + Late(side)
  }

  function ReadCounters(s: string, side: Color): Result<(int, int)> {
    var (rule50, t) := ReadNumber(s);
    var fullmove := if t.None? then 0 else ReadNumber(t.value).0;
    if rule50 < 0 || rule50 > 32767 then Err(BadRule50)
    else if fullmove < 0 || fullmove > 100000 then Err(BadPly)
    else Ok((rule50, PlyOf(fullmove, side)))
  }

  // ----- The whole string -----

  function ReadTail(b: Board, side: Color, rights: Rights, s: string, chess960: bool): Result<Setup>
    requires HasKings(b)
  {
    var ep := ReadEnPassant(b, side, s);
    if ep.Err? then Err(ep.error) else
    var counters := ReadCounters(ep.value.1, side);
    if counters.Err? then Err(counters.error)
    else if AttackersToExist(b, KingSq(b, side.Other()), Occ(b), side) then Err(KingCapturable)
    else Ok(Setup(b, side, rights, ep.value.0, counters.value.0, counters.value.1, chess960))
  }

  function ReadState(b: Board, s: string, chess960: bool): Result<Setup>
    requires HasKings(b)
  {
    if s == [] then Err(UnexpectedEnd)
    else if s[0] != 'w' && s[0] != 'b' then Err(BadSide)
    else if |s| < 2 || !IsSpace(s[1]) then Err(NoSpaceAfterSide)
    else
      var castling := ReadCastling(b, s[2..], 0, NoRights());
      if castling.Err? then Err(castling.error)
      else ReadTail(b, if s[0] == 'w' then White else Black, castling.value.0, castling.value.1, chess960)
  }

  /** `Position::set`. */
  function Set(s: string, chess960: bool): Result<Setup> {
    var placed := ReadPlacement(s, Start());
    if placed.Err? then Err(placed.error)
    else if BoardError(placed.value.0).Some? then Err(BoardError(placed.value.0).value)
    else
      KingsThere(placed.value.0);
      ReadState(placed.value.0, placed.value.1, chess960)
  }

  /** What holds of every position that is accepted. */
  predicate Proper(p: Setup) {
    && |Occ(p.board)| <= MAX_MEN && BoardError(p.board) == None && HasKings(p.board)
    && WellPlaced(p.board, p.rights)
    && (p.ep.Some? ==> Rank(p.ep.value) == EpRank(p.side) && EpCounts(p.board, p.side, p.ep.value))
    && 0 <= p.rule50 <= 32767 && 0 <= p.ply - Late(p.side) < 200000 && (p.ply - Late(p.side)) % 2 == 0
    && !AttackersToExist(p.board, KingSq(p.board, p.side.Other()), Occ(p.board), p.side)
  }

  // ----- Writing -----

  function FileLetter(first: char, s: Square): char
    requires first == 'A' || first == 'a'
  {
    (first as int + File(s)) as char
  }

  /** One castling letter: the rook's file in Chess960, the wing otherwise. */
  function RightLetter(c: Color, kingSide: bool, r: Square, chess960: bool): char {
    if chess960 then FileLetter(if c.White? then 'A' else 'a', r)
    else if c.White? then if kingSide then 'K' else 'Q' else if kingSide then 'k' else 'q'
  }

  function RightText(rights: Rights, c: Color, kingSide: bool, chess960: bool): string {
    match rights.Rook(c, kingSide) case None => [] case Some(r) => [RightLetter(c, kingSide, r, chess960)]
  }

  function CastlingText(rights: Rights, chess960: bool, rest: string): string {
    if rights == NoRights() then ['-'] + rest
    else RightText(rights, White, true, chess960) + (RightText(rights, White, false, chess960)
         + (RightText(rights, Black, true, chess960) + (RightText(rights, Black, false, chess960) + rest)))
  }

  function EpText(ep: Option<Square>): string {
    match ep case None => "-" case Some(sq) => [FileLetter('a', sq), Digit(Rank(sq) + 1)]
  }

  function CountersText(p: Setup): string
    requires p.rule50 >= 0 && p.ply >= Late(p.side)
  {
    [' '] + Decimal(p.rule50) + ([' '] + Decimal(1 + (p.ply - Late(p.side)) / 2) + [])
  }

  /** `Position::fen`. */
  function FenText(p: Setup): string
    requires p.rule50 >= 0 && p.ply >= Late(p.side)
  {
    RowsText(p.board, 7) + ([' '] + ([if p.side.White? then 'w' else 'b', ' ']
      + CastlingText(p.rights, p.chess960, [' '] + (EpText(p.ep) + CountersText(p)))))
  }

  // ----- What is accepted is proper -----

  /** A rook found is one, on the first rank, with the king at home. */
  lemma {:induction false} FoundIsRook(b: Board, c: Color, kingSide: bool, i: nat, rsq: Option<Square>)
    requires rsq.Some? ==> 1 <= i && b[rsq.value] == Man(c, Rook) && RelativeRank(c, rsq.value) == 0
    ensures var r := FindRook(b, c, kingSide, i, rsq);
            r.Some? ==> b[r.value] == Man(c, Rook) && RelativeRank(c, r.value) == 0 && KingAtHome(b, c)
    decreases 7 - i
  {
    if i < 7 {
      var pc := b[FromCorner(c, kingSide, i)];
      if pc == Man(c, King) {
        if rsq.Some? { assert KingAt(b, c, if kingSide then 7 - i else i); }
      } else {
        FoundIsRook(b, c, kingSide, i + 1, if pc == Man(c, Rook) && rsq == None then Some(FromCorner(c, kingSide, i))
            else rsq);
      }
    }
  }

  lemma NamedIsRook(b: Board, token: char)
    requires Named(b, token).Ok? && Named(b, token).value.Some?
    ensures var r := Named(b, token).value.value;
            b[r] == Man(SideOf(token), Rook) && RelativeRank(SideOf(token), r) == 0 && KingAtHome(b, SideOf(token))
  {
    FoundIsRook(b, SideOf(token), Upper(token) == 'K', 0, None);
    hide FindRook, KingAtHome;
  }

  lemma SetRightOk(b: Board, rights: Rights, c: Color, r: Square)
    requires HasKings(b) && WellPlaced(b, rights) && b[r] == Man(c, Rook) && RelativeRank(c, r) == 0 && KingAtHome(b, c)
    ensures WellPlaced(b, SetRight(b, rights, c, r))
  {
    hide KingAtHome;
    var side := KingSq(b, c) < r;
    var after := SetRight(b, rights, c, r);
    forall d, k | after.Rook(d, k).Some? ensures RookOk(b, d, k, after.Rook(d, k).value) {
      if d == c && k == side {} else { assert after.Rook(d, k) == rights.Rook(d, k); }
    }
  }

  lemma {:induction false} CastlingWellPlaced(b: Board, s: string, count: nat, rights: Rights)
    requires HasKings(b) && WellPlaced(b, rights)
    ensures var r := ReadCastling(b, s, count, rights); r.Ok? ==> WellPlaced(b, r.value.0)
    decreases |s|
  {
    hide KingAtHome, Named, SkipSpaces;
    if s != [] {
      var named := Named(b, s[0]);
      if named.Ok? {
        if named.value.Some? {
          NamedIsRook(b, s[0]);
          SetRightOk(b, rights, SideOf(s[0]), named.value.value);
          CastlingWellPlaced(b, s[1..], count + 1, SetRight(b, rights, SideOf(s[0]), named.value.value));
        } else {
          CastlingWellPlaced(b, s[1..], count + 1, rights);
        }
      }
    }
  }

  lemma EpProper(b: Board, side: Color, s: string)
    requires HasKings(b)
    ensures var r := ReadEnPassant(b, side, s);
            r.Ok? && r.value.0.Some? ==> Rank(r.value.0.value) == EpRank(side) && EpCounts(b, side, r.value.0.value)
  {
    hide EpCounts;
  }

  lemma CountersProper(s: string, side: Color)
    ensures var r := ReadCounters(s, side);
            r.Ok? ==>
                0 <= r.value.0 <= 32767 && 0 <= r.value.1 - Late(side) < 200000 && (r.value.1 - Late(side)) % 2 == 0
  {
    hide ReadNumber;
  }

  lemma TailProper(b: Board, side: Color, rights: Rights, s: string, chess960: bool)
    requires BoardError(b) == None && HasKings(b) && |Occ(b)| <= MAX_MEN && WellPlaced(b, rights)
    ensures var r := ReadTail(b, side, rights, s, chess960); r.Ok? ==> Proper(r.value) && r.value.chess960 == chess960
  {
    hide BoardError, WellPlaced, EpCounts, AttackersToExist, ReadEnPassant, ReadCounters, Occ, Pieces;
    EpProper(b, side, s);
    if ReadEnPassant(b, side, s).Ok? { CountersProper(ReadEnPassant(b, side, s).value.1, side); }
  }

  lemma NothingPlaced(b: Board)
    requires HasKings(b)
    ensures WellPlaced(b, NoRights())
  {
    forall c, k ensures NoRights().Rook(c, k) == None {}
  }

  /** Every position accepted is proper. */
  lemma AcceptedIsProper(s: string, chess960: bool)
    requires Set(s, chess960).Ok?
    ensures Proper(Set(s, chess960).value) && Set(s, chess960).value.chess960 == chess960
  {
    hide ReadPlacement, BoardError, ReadCastling, ReadTail, Proper, WellPlaced, Occ, Pieces, Before, OneKingEach;
    var placed := ReadPlacement(s, Start()).value;
    StartAhead();
    ReadFewMen(s, Start());
    KingsThere(placed.0);
    NothingPlaced(placed.0);
    CastlingWellPlaced(placed.0, placed.1[2..], 0, NoRights());
    var castling := ReadCastling(placed.0, placed.1[2..], 0, NoRights()).value;
    TailProper(placed.0, if placed.1[0] == 'w' then White else Black, castling.0, castling.1, chess960);
  }

  // ----- What is written is read back -----

  /** Between the b-file and the g-file of its first rank there is no other square for the king. */
  lemma HomeIndex(b: Board, c: Color) returns (i: nat)
    requires OneKingEach(b) && HasKings(b) && KingAtHome(b, c)
    ensures 1 <= i <= 6 && RelativeSquare(c, i) == KingSq(b, c) && File(KingSq(b, c)) == i
        && RelativeRank(c, KingSq(b, c)) == 0
  {
    i :| 1 <= i <= 6 && KingAt(b, c, i);
    KingUnique(b, c, RelativeSquare(c, i));
  }

  /** The rook nearest the corner on a wing where a rook may castle may castle too. */
  function Outermost(b: Board, c: Color, kingSide: bool): Option<Square> { FindRook(b, c, kingSide, 0, None) }

  /** The search from the corner meets a rook before the king. */
  lemma {:induction false} FindsOne(b: Board, c: Color, kingSide: bool, i: nat, rsq: Option<Square>, m: nat, j: nat)
    requires i <= j && m < j <= 6 && (i <= m || rsq.Some?)
    requires b[FromCorner(c, kingSide, m)] == Man(c, Rook)
    requires forall x: nat | x < 8 :: b[FromCorner(c, kingSide, x)] == Man(c, King) <==> x == j
    requires rsq.Some? ==>
        exists x: nat | x < j :: rsq.value == FromCorner(c, kingSide, x) && b[rsq.value] == Man(c, Rook)
    ensures var r := FindRook(b, c, kingSide, i, rsq);
            r.Some? && exists x: nat | x < j :: r.value == FromCorner(c, kingSide, x) && b[r.value] == Man(c, Rook)
    decreases 7 - i
  {
    var pc := b[FromCorner(c, kingSide, i)];
    if i < j {
      assert pc != Man(c, King);
      FindsOne(b, c, kingSide, i + 1, if pc == Man(c, Rook) && rsq == None then Some(FromCorner(c, kingSide, i))
          else rsq, m, j);
    }
  }

  lemma KingOnlyThere(b: Board, c: Color, kingSide: bool) returns (j: nat)
    requires OneKingEach(b) && HasKings(b) && KingAtHome(b, c)
    ensures 1 <= j <= 6 && FromCorner(c, kingSide, j) == KingSq(b, c)
    ensures forall x: nat | x < 8 :: b[FromCorner(c, kingSide, x)] == Man(c, King) <==> x == j
  {
    hide KingAtHome, FromCorner, OneKingEach, Pieces;
    var i := HomeIndex(b, c);
    j := if kingSide then 7 - i else i;
    FromEitherCorner(c, kingSide, i, j);
    forall x: nat | x < 8 ensures b[FromCorner(c, kingSide, x)] == Man(c, King) <==> x == j {
      KingUnique(b, c, FromCorner(c, kingSide, x));
      if FromCorner(c, kingSide, x) == FromCorner(c, kingSide, j) { CornersDiffer(c, kingSide, x, j); }
    }
  }

  lemma FromEitherCorner(c: Color, kingSide: bool, i: nat, j: nat)
    requires i < 8 && j == if kingSide then 7 - i else i
    ensures FromCorner(c, kingSide, j) == RelativeSquare(c, i)
  {}

  lemma CornersDiffer(c: Color, kingSide: bool, x: nat, y: nat)
    requires x < 8 && y < 8 && FromCorner(c, kingSide, x) == FromCorner(c, kingSide, y)
    ensures x == y
  {}

  /** On a wing, a rook is nearer the corner than the king exactly when it is on that side of it. */
  lemma CornerSide(b: Board, c: Color, kingSide: bool, x: nat, j: nat)
    requires HasKings(b) && x < 8 && j < 8 && FromCorner(c, kingSide, j) == KingSq(b, c) && x != j
    ensures x < j <==> (kingSide <==> KingSq(b, c) < FromCorner(c, kingSide, x))
    ensures RelativeRank(c, FromCorner(c, kingSide, x)) == 0
  {
    hide HasKings;
  }

  /** The square of a side's first rank, counted from the corner. */
  lemma CornerIndex(c: Color, kingSide: bool, r: Square) returns (m: nat)
    requires RelativeRank(c, r) == 0
    ensures m < 8 && FromCorner(c, kingSide, m) == r
  {
    m := if kingSide then 7 - File(r) else File(r);
  }

  lemma OuterFound(b: Board, c: Color, kingSide: bool, r: Square)
    requires OneKingEach(b) && HasKings(b) && RookOk(b, c, kingSide, r)
    ensures Outermost(b, c, kingSide).Some? && RookOk(b, c, kingSide, Outermost(b, c, kingSide).value)
  {
    hide FindRook, KingAtHome, FromCorner, OneKingEach, Pieces;
    var j := KingOnlyThere(b, c, kingSide);
    var m := CornerIndex(c, kingSide, r);
    CornerSide(b, c, kingSide, m, j);
    FindsOne(b, c, kingSide, 0, None, m, j);
    var o := FindRook(b, c, kingSide, 0, None);
    var x: nat :| x < j && o.value == FromCorner(c, kingSide, x) && b[o.value] == Man(c, Rook);
    CornerSide(b, c, kingSide, x, j);
  }

  /** The rook a written letter names. */
  function Target(b: Board, c: Color, kingSide: bool, r: Square, chess960: bool): Square {
    if chess960 || Outermost(b, c, kingSide).None? then r else Outermost(b, c, kingSide).value
  }

  lemma LetterNames(b: Board, c: Color, kingSide: bool, r: Square, chess960: bool)
    requires OneKingEach(b) && HasKings(b) && RookOk(b, c, kingSide, r)
    ensures var l := RightLetter(c, kingSide, r, chess960);
            && SideOf(l) == c && !IsSpace(l) && l != '-' && Named(b, l) == Ok(Some(Target(b, c, kingSide, r, chess960)))
            && RookOk(b, c, kingSide, Target(b, c, kingSide, r, chess960))
  {
    hide FindRook, KingAtHome;
    OuterFound(b, c, kingSide, r);
    var l := RightLetter(c, kingSide, r, chess960);
    if chess960 {
      assert Upper(l) as int == 'A' as int + File(r);
      assert RelativeSquare(c, File(r)) == r;
    }
  }

  function Added(rights: Rights, c: Color, kingSide: bool, o: Option<Square>): Rights {
    if o.None? then rights else rights.With(c, kingSide, o.value)
  }

  /** A right as its letter is read: in Chess960 the rook itself, otherwise the outermost. */
  function SeenAt(b: Board, rights: Rights, c: Color, kingSide: bool, chess960: bool): Option<Square> {
    match rights.Rook(c, kingSide) case None => None case Some(r) => Some(Target(b, c, kingSide, r, chess960))
  }

  function Seen(b: Board, rights: Rights, chess960: bool): Rights {
    Rights(SeenAt(b, rights, White, true, chess960), SeenAt(b, rights, White, false, chess960),
           SeenAt(b, rights, Black, true, chess960), SeenAt(b, rights, Black, false, chess960))
  }

  lemma RightRead(b: Board, rights: Rights, c: Color, kingSide: bool, chess960: bool, count: nat, acc: Rights,
      rest: string)
    requires OneKingEach(b) && HasKings(b) && WellPlaced(b, rights) && count < 4
    ensures ReadCastling(b, RightText(rights, c, kingSide, chess960) + rest, count, acc)
            == ReadCastling(b, rest, count + |RightText(rights, c, kingSide, chess960)|,
                            Added(acc, c, kingSide, SeenAt(b, rights, c, kingSide, chess960)))
  {
    hide KingAtHome, Named, RightLetter, Target, OneKingEach, Pieces;
    var text := RightText(rights, c, kingSide, chess960);
    if rights.Rook(c, kingSide).None? {
      assert text + rest == rest;
    } else {
      var r := rights.Rook(c, kingSide).value;
      assert RookOk(b, c, kingSide, r);
      LetterNames(b, c, kingSide, r, chess960);
      assert (text + rest)[1..] == rest;
    }
  }

  lemma RightsEnd(b: Board, rest: string, count: nat, acc: Rights)
    requires HasKings(b)
    ensures ReadCastling(b, [' '] + rest, count, acc) == Ok((acc, rest))
  {
    assert ([' '] + rest)[1..] == rest;
  }

  lemma NoneRead(b: Board, rest: string)
    requires HasKings(b) && rest != [] && !IsSpace(rest[0])
    ensures ReadCastling(b, ['-'] + ([' '] + rest), 0, NoRights()) == Ok((NoRights(), rest))
  {
    assert (['-'] + ([' '] + rest))[1..] == [' '] + rest && ([' '] + rest)[1..] == rest;
    assert SkipSpaces([' '] + rest) == SkipSpaces(rest) == rest;
  }

  /** Written rights are read back. */
  lemma CastlingBack(b: Board, rights: Rights, chess960: bool, rest: string)
    requires OneKingEach(b) && HasKings(b) && WellPlaced(b, rights) && rest != [] && !IsSpace(rest[0])
    ensures ReadCastling(b, CastlingText(rights, chess960, [' '] + rest), 0, NoRights())
        == Ok((Seen(b, rights, chess960), rest))
  {
    if rights == NoRights() {
      NoneRead(b, rest);
    } else {
      LettersBack(b, rights, chess960, rest);
    }
    hide *;
  }

  lemma LettersBack(b: Board, rights: Rights, chess960: bool, rest: string)
    requires OneKingEach(b) && HasKings(b) && WellPlaced(b, rights) && rights != NoRights()
    ensures ReadCastling(b, CastlingText(rights, chess960, [' '] + rest), 0, NoRights())
        == Ok((Seen(b, rights, chess960), rest))
  {
    hide ReadCastling, SeenAt, OneKingEach, Pieces, WellPlaced, Named;
    var t4 := RightText(rights, Black, false, chess960) + ([' '] + rest);
    var t3 := RightText(rights, Black, true, chess960) + t4;
    var t2 := RightText(rights, White, false, chess960) + t3;
    var n1 := |RightText(rights, White, true, chess960)|;
    var n2 := n1 + |RightText(rights, White, false, chess960)|;
    var n3 := n2 + |RightText(rights, Black, true, chess960)|;
    var a1 := Added(NoRights(), White, true, SeenAt(b, rights, White, true, chess960));
    var a2 := Added(a1, White, false, SeenAt(b, rights, White, false, chess960));
    var a3 := Added(a2, Black, true, SeenAt(b, rights, Black, true, chess960));
    RightRead(b, rights, White, true, chess960, 0, NoRights(), t2);
    RightRead(b, rights, White, false, chess960, n1, a1, t3);
    RightRead(b, rights, Black, true, chess960, n2, a2, t4);
    RightRead(b, rights, Black, false, chess960, n3, a3, [' '] + rest);
    var a4 := Added(a3, Black, false, SeenAt(b, rights, Black, false, chess960));
    RightsEnd(b, rest, n3 + |RightText(rights, Black, false, chess960)|, a4);
  }

  lemma EpBack(b: Board, side: Color, ep: Option<Square>, rest: string)
    requires HasKings(b) && (ep.Some? ==> Rank(ep.value) == EpRank(side) && EpCounts(b, side, ep.value))
    ensures ReadEnPassant(b, side, EpText(ep) + rest) == Ok((ep, rest))
    ensures EpText(ep) != [] && !IsSpace(EpText(ep)[0])
  {
    hide EpCounts;
    var t := EpText(ep) + rest;
    if ep.None? {
      assert t[1..] == rest;
    } else {
      assert t[2..] == rest;
      assert SquareAt(File(ep.value), Rank(ep.value)) == ep.value;
    }
  }

  lemma NumberBack(n: nat, rest: string)
    requires n < 0x8000_0000 && NoDigitFirst(rest)
    ensures ReadNumber([' '] + Decimal(n) + rest) == (n, Some(rest))
  {
    MagnitudeBack(false, n, rest, Decimal(n) + rest);
    assert [' '] + Decimal(n) + rest == [' '] + (Decimal(n) + rest);
    hide ReadMagnitude, Decimal;
  }

  lemma CountersBack(p: Setup)
    requires 0 <= p.rule50 <= 32767 && 0 <= p.ply - Late(p.side) < 200000 && (p.ply - Late(p.side)) % 2 == 0
    ensures ReadCounters(CountersText(p), p.side) == Ok((p.rule50, p.ply))
  {
    hide ReadNumber, Decimal;
    var full := 1 + (p.ply - Late(p.side)) / 2;
    var more := [' '] + Decimal(full) + [];
    NumberBack(p.rule50, more);
    NumberBack(full, []);
    assert PlyOf(full, p.side) == p.ply;
  }

  /** What is read back from a proper position: itself, its castling letters as they are read. */
  lemma ProperBack(p: Setup, chess960: bool)
    requires Proper(p)
    ensures Set(FenText(p), chess960) == Ok(p.(rights := Seen(p.board, p.rights, p.chess960), chess960 := chess960))
  {
    hide BoardError, WellPlaced, EpCounts, AttackersToExist, ReadEnPassant, ReadCounters, Occ, Pieces, OneKingEach,
        ReadPlacement,
         RowsText, CastlingText, EpText, CountersText, ReadCastling, Seen, Start;
    KingsThere(p.board);
    var tail := EpText(p.ep) + CountersText(p);
    var castling := CastlingText(p.rights, p.chess960, [' '] + tail);
    var state := [if p.side.White? then 'w' else 'b', ' '] + castling;
    PlacementBack(p.board, state);
    assert state[2..] == castling;
    EpBack(p.board, p.side, p.ep, CountersText(p));
    CastlingBack(p.board, p.rights, p.chess960, tail);
    CountersBack(p);
  }

  lemma SeenIn960(b: Board, rights: Rights)
    ensures Seen(b, rights, true) == rights
  {}

  /** In Chess960 mode whatever is accepted is written and read back whole. */
  lemma RoundTrip(s: string)
    requires Set(s, true).Ok?
    ensures Proper(Set(s, true).value) && Set(FenText(Set(s, true).value), true) == Set(s, true)
  {
    AcceptedIsProper(s, true);
    ProperBack(Set(s, true).value, true);
    SeenIn960(Set(s, true).value.board, Set(s, true).value.rights);
    hide *;
  }

  /** The positions accepted in Chess960 mode are the proper ones. */
  lemma AcceptedExactly(p: Setup)
    ensures Proper(p) && p.chess960 <==> exists s :: Set(s, true) == Ok(p)
  {
    if Proper(p) && p.chess960 {
      ProperBack(p, true);
      SeenIn960(p.board, p.rights);
      assert Set(FenText(p), true) == Ok(p);
    }
    if s :| Set(s, true) == Ok(p) { AcceptedIsProper(s, true); }
    hide *;
  }

  /** Every rook with a castling right is the outermost on its wing. */
  predicate AllOutermost(p: Setup) {
    forall c, k :: p.rights.Rook(c, k).Some? ==> Outermost(p.board, c, k) == p.rights.Rook(c, k)
  }

  /** With the letters K and Q the position comes back exactly when no inner rook may castle. */
  lemma StandardRoundTrip(s: string)
    requires Set(s, false).Ok?
    ensures Proper(Set(s, false).value)
    ensures Set(FenText(Set(s, false).value), false) == Set(s, false) <==> AllOutermost(Set(s, false).value)
  {
    AcceptedIsProper(s, false);
    ProperBack(Set(s, false).value, false);
    SeenOutermost(Set(s, false).value);
    hide *;
  }

  lemma SeenOutermost(p: Setup)
    requires Proper(p)
    ensures Seen(p.board, p.rights, false) == p.rights <==> AllOutermost(p)
  {
    hide Proper, Outermost;
    forall c, k | p.rights.Rook(c, k).Some? ensures Outermost(p.board, c, k).Some? { RightHasOuter(p, c, k); }
    assert forall c, k :: Seen(p.board, p.rights, false).Rook(c, k) == SeenAt(p.board, p.rights, c, k, false);
    if AllOutermost(p) {
      forall c, k ensures SeenAt(p.board, p.rights, c, k, false) == p.rights.Rook(c, k) {}
      assert p.rights == Rights(p.rights.Rook(White, true), p.rights.Rook(White, false), p.rights.Rook(Black, true),
          p.rights.Rook(Black, false));
    }
  }

  lemma RightHasOuter(p: Setup, c: Color, k: bool)
    requires Proper(p) && p.rights.Rook(c, k).Some?
    ensures Outermost(p.board, c, k).Some?
  {
    hide BoardError, EpCounts, AttackersToExist, Outermost, OneKingEach, Pieces, Occ;
    KingsThere(p.board);
    assert RookOk(p.board, c, k, p.rights.Rook(c, k).value);
    OuterFound(p.board, c, k, p.rights.Rook(c, k).value);
  }

  // ----- A position that standard notation cannot hold -----

  /** White: rooks on a1 and b1, king on e1; Black: king on e8. */
  function TwoRooks(): Board {
    seq(64, i => if i == 0 || i == 1 then Man(White, Rook) else if i == 4 then Man(White, King)
        else if i == 60 then Man(Black, King) else Empty)
  }

  /** White may castle with the inner rook. */
  function InnerRook(): Setup { Setup(TwoRooks(), White, Rights(None, Some(1), None, None), None, 0, 0, true) }

  lemma TwoRooksCounted()
    ensures forall k, c :: Where(TwoRooks(), Man(c, k)) ==
              if k == King then (if c == White then {4} else {60}) else if k == Rook && c == White then {0, 1} else {}
    ensures Occ(TwoRooks()) == {0, 1, 4, 60} && ByType(TwoRooks(), Pawn) == {}
  {
    forall k, c ensures Where(TwoRooks(), Man(c, k)) ==
              if k == King then (if c == White then {4} else {60}) else if k == Rook && c == White then {0, 1}
                  else {} {}
  }

  lemma TwoRooksFine()
    ensures BoardError(TwoRooks()) == None && |Occ(TwoRooks())| <= MAX_MEN && HasKings(TwoRooks())
    ensures KingSq(TwoRooks(), White) == 4 && KingSq(TwoRooks(), Black) == 60
  {
    var b := TwoRooks();
    TwoRooksCounted();
    hide TwoRooks, Where, Occ, ByType;
    assert BoardError(b) == None;
    KingsThere(b);
    hide BoardError;
    forall c ensures Pieces(b, c, King) == Where(b, Man(c, King)) { KingsWhere(b, c); }
  }

  lemma KingsWhere(b: Board, c: Color)
    ensures Pieces(b, c, King) == Where(b, Man(c, King))
  {}

  lemma InnerRookProper()
    ensures Proper(InnerRook())
  {
    TwoRooksFine();
    InnerRookPlaced();
    BlackUnattacked();
    hide BoardError, Occ, AttackersToExist, TwoRooks, WellPlaced, HasKings, KingSq;
  }

  lemma InnerRookPlaced()
    ensures HasKings(TwoRooks()) && WellPlaced(TwoRooks(), InnerRook().rights)
  {
    TwoRooksFine();
    hide BoardError, Occ, Pieces, KingSq;
    assert KingAt(TwoRooks(), White, 4);
  }

  lemma BlackUnattacked()
    ensures !AttackersToExist(TwoRooks(), 60, Occ(TwoRooks()), White)
  {
    var b := TwoRooks();
    AttackersToExistMeaning(b, 60, Occ(b), White);
    hide AttackersToExist, Occ, Attacks;
    forall q: Square | b[q].Man? && b[q].color == White ensures !Attacks(Occ(b), b[q], q, 60) {
      assert q == 0 || q == 1 || q == 4;
      NoLineToE8(Occ(b));
    }
  }

  lemma NoLineToE8(occ: Bitboard)
    ensures !Attacks(occ, Man(White, Rook), 0, 60) && !Attacks(occ, Man(White, Rook), 1, 60)
    ensures !Attacks(occ, Man(White, King), 4, 60)
  {
    FarFromE8(0);
    FarFromE8(1);
    FarFromE8(4);
    hide Geometry.RookLine, Geometry.BishopLine, Geometry.Sees, KingAttacks;
  }

  lemma FarFromE8(s: Square)
    requires s < 8
    ensures s != 4 ==> !Geometry.RookLine(s, 60)
    ensures !KingAttacks(s, 60)
  {
    assert File(60) == 4 && Rank(60) == 7 && Rank(s) == 0 && File(s) == s;
  }

  /** The rook noted first stays the one found. */
  lemma {:induction false} NotedStays(b: Board, c: Color, kingSide: bool, i: nat, r: Square)
    ensures FindRook(b, c, kingSide, i, Some(r)) == None || FindRook(b, c, kingSide, i, Some(r)) == Some(r)
    decreases 7 - i
  {
    if i < 7 { NotedStays(b, c, kingSide, i + 1, r); }
  }

  /** Standard notation does lose something: an accepted string whose position does not come back. */
  lemma StandardMayDiffer() returns (s: string)
    ensures Set(s, false).Ok? && Proper(Set(s, false).value) && !AllOutermost(Set(s, false).value)
    ensures Set(FenText(Set(s, false).value), false) != Set(s, false)
  {
    var p := InnerRook();
    InnerRookProper();
    s := FenText(p);
    ProperBack(p, false);
    SeenIn960(p.board, p.rights);
    NotedStays(p.board, White, false, 1, 0);
    assert FindRook(p.board, White, false, 0, None) == FindRook(p.board, White, false, 1, Some(0));
    hide Set, Proper, FenText, FindRook;
    var q := Set(s, false).value;
    assert q.rights.Rook(White, false) == Some(1) && Outermost(q.board, White, false) != Some(1);
    StandardRoundTrip(s);
  }

  // ----- As loops -----

  /** The search of `set` for the rook of a K or Q. */
  method SearchRook(b: Board, c: Color, kingSide: bool) returns (r: Option<Square>)
    ensures r == FindRook(b, c, kingSide, 0, None)
  {
    var rsq, ksq: Option<Square> := None, None;
    var i := 0;
    while i < 7
      invariant 0 <= i <= 7 && ksq == None && FindRook(b, c, kingSide, i, rsq) == FindRook(b, c, kingSide, 0, None)
    {
      var sq := FromCorner(c, kingSide, i);
      var pc := b[sq];
      if pc == Man(c, King) {
        return rsq;
      } else if pc == Man(c, Rook) && rsq == None {
        rsq := Some(sq);
      }
      i := i + 1;
    }
    r := None;
  }

  /** The search of `set` for the king between the b-file and the g-file. */
  method SearchKing(b: Board, c: Color) returns (found: bool)
    ensures found == KingAtHome(b, c)
  {
    found := false;
    for i: int := 0 to 6
      invariant found <==> exists k: nat | 1 <= k <= i :: KingAt(b, c, k)
    {
      var sq := RelativeSquare(c, i + 1);
      assert b[sq] == Man(c, King) <==> KingAt(b, c, i + 1);
      if b[sq] == Man(c, King) { found := true; }
    }
  }

  /** The castling loop of `set`. */
  method ReadRights(b: Board, s: string) returns (r: Result<(Rights, string)>)
    requires HasKings(b)
    ensures r == ReadCastling(b, s, 0, NoRights())
  {
    hide FindRook, KingAtHome, SkipSpaces;
    var rights, count, i := NoRights(), 0, 0;
    while i < |s|
      invariant 0 <= i <= |s| && ReadCastling(b, s[i..], count, rights) == ReadCastling(b, s, 0, NoRights())
    {
      var token := s[i];
      if IsSpace(token) { return Ok((rights, s[i + 1..])); }
      if count == 0 && token == '-' { return Ok((rights, SkipSpaces(s[i + 1..]))); }
      count := count + 1;
      if count > 4 { return Err(TooManyRights); }
      var c, up := if IsLower(token) then Black else White, Upper(token);
      var rsq: Option<Square>;
      if up == 'K' || up == 'Q' {
        rsq := SearchRook(b, c, up == 'K');
      } else if 'A' <= up <= 'H' {
        var candidate := RelativeSquare(c, up as int - 'A' as int);
        var king := SearchKing(b, c);
        rsq := if b[candidate] == Man(c, Rook) && king then Some(candidate) else None;
      } else {
        return Err(BadCastling);
      }
      if rsq.Some? { rights := SetRight(b, rights, c, rsq.value); }
      i := i + 1;
    }
    r := Ok((rights, []));
  }

  /** The en-passant checks of `set`: the pawns that might capture, one by one. */
  method RecordEnPassant(b: Board, side: Color, sq: Square) returns (recorded: bool)
    requires HasKings(b)
    ensures recorded == EpCounts(b, side, sq)
  {
    var pawns := EpPawns(b, side, sq);
    var target := EpTarget(b, side, sq);
    var occ := Toggle(Toggle(Occ(b), target), {sq});
    var enpassant := pawns != {} && target != {} && sq !in Occ(b) && forall t | t in Occ(b) :: t != sq + PawnPush(side);
    hide SafeCapture;
    var legalEP := AnySafeCapture(b, side, occ, target, pawns);
    recorded := enpassant && legalEP;
  }

  method AnySafeCapture(b: Board, side: Color, occ: Bitboard, target: Bitboard, all: Bitboard) returns (legalEP: bool)
    requires HasKings(b)
    ensures legalEP <==> exists p | p in all :: SafeCapture(b, side, occ, target, p)
  {
    hide SafeCapture;
    var pawns := all;
    legalEP := false;
    while pawns != {}
      invariant pawns <= all && (legalEP <==>
          exists p | p in all && p !in pawns :: SafeCapture(b, side, occ, target, p))
      decreases |pawns|
    {
      var p := Lsb(pawns);
      pawns := pawns - {p};
      legalEP := legalEP || SafeCapture(b, side, occ, target, p);
    }
  }

  /** `Position::set`. */
  method SetPosition(s: string, chess960: bool) returns (r: Result<Setup>)
    ensures r == Set(s, chess960)
  {
    hide ReadPlacement, BoardError, ReadCastling, EpCounts, ReadCounters, AttackersToExist, Occ, Pieces, OneKingEach,
        Start;
    var placed := PlacePieces(s);
    if placed.Err? { return Err(placed.error); }
    var b, s1 := placed.value.0, placed.value.1;
    if BoardError(b).Some? { return Err(BoardError(b).value); }
    KingsThere(b);
    if s1 == [] { return Err(UnexpectedEnd); }
    if s1[0] != 'w' && s1[0] != 'b' { return Err(BadSide); }
    var side := if s1[0] == 'w' then White else Black;
    if |s1| < 2 || !IsSpace(s1[1]) { return Err(NoSpaceAfterSide); }
    var castling := ReadRights(b, s1[2..]);
    if castling.Err? { return Err(castling.error); }
    r := SetTail(b, side, castling.value.0, castling.value.1, chess960);
  }

  /** The rest of `set`, from the en-passant square on. */
  method SetTail(b: Board, side: Color, rights: Rights, s: string, chess960: bool) returns (r: Result<Setup>)
    requires HasKings(b)
    ensures r == ReadTail(b, side, rights, s, chess960)
  {
    hide EpCounts, ReadNumber, AttackersToExist, Occ, Pieces;
    var ep, rest: string := None, [];
    if s != [] {
      if s[0] == '-' {
        rest := s[1..];
      } else if |s| < 2 {
        return Err(UnexpectedEnd);
      } else if 'a' <= s[0] <= 'h' && s[1] == (if side.White? then '6' else '3') {
        var sq := SquareAt(s[0] as int - 'a' as int, s[1] as int - '1' as int);
        var recorded := RecordEnPassant(b, side, sq);
        if recorded { ep := Some(sq); }
        rest := s[2..];
      } else {
        return Err(BadEnPassant);
      }
    }
    assert ReadEnPassant(b, side, s) == Ok((ep, rest));
    var (rule50, more) := ReadNumber(rest);
    var fullmove := 0;
    if more.Some? { fullmove := ReadNumber(more.value).0; }
    if rule50 < 0 || rule50 > 32767 { return Err(BadRule50); }
    if fullmove < 0 || fullmove > 100000 { return Err(BadPly); }
    if AttackersToExist(b, KingSq(b, side.Other()), Occ(b), side) { return Err(KingCapturable); }
    r := Ok(Setup(b, side, rights, ep, rule50, PlyOf(fullmove, side), chess960));
  }

  /** `Position::fen`. */
  method WriteFen(p: Setup) returns (s: string)
    requires p.rule50 >= 0 && p.ply >= Late(p.side)
    ensures s == FenText(p)
  {
    hide RowsText, Decimal, CastlingText, RightText, EpText;
    s := PrintPlacement(p.board);
    ghost var rows := s;
    var castling := RightText(p.rights, White, true, p.chess960) + RightText(p.rights, White, false, p.chess960)
                    + RightText(p.rights, Black, true, p.chess960) + RightText(p.rights, Black, false, p.chess960);
    if p.rights == NoRights() { castling := castling + ['-']; }
    var w := if p.side.White? then 'w' else 'b';
    var e := EpText(p.ep);
    var fullmove := 1 + (p.ply - Late(p.side)) / 2;
    s := s + [' ', w, ' '] + castling + ([' '] + e + [' ']) + Decimal(p.rule50) + [' '] + Decimal(fullmove);
    Regrouped(rows, w, castling, e, Decimal(p.rule50), Decimal(fullmove));
    CastlingJoins(p.rights, p.chess960, [' '] + (e + CountersText(p)));
  }

  lemma Regrouped(rows: string, w: char, castling: string, e: string, rule50: string, fullmove: string)
    ensures rows + [' ', w, ' '] + castling + ([' '] + e + [' ']) + rule50 + [' '] + fullmove
            == rows + ([' '] + ([w, ' '] + (castling + ([' '] + (e + ([' '] + rule50 + ([' '] + fullmove + [])))))))
  {
    var tail := [' '] + rule50 + ([' '] + fullmove + []);
    assert [' '] + rule50 + [' '] + fullmove == tail;
    assert rows + [' ', w, ' '] == rows + ([' '] + [w, ' ']);
    assert ([' '] + e + [' ']) + rule50 + [' '] + fullmove == [' '] + (e + tail);
  }

  lemma CastlingJoins(rights: Rights, chess960: bool, rest: string)
    ensures CastlingText(rights, chess960, rest)
            == RightText(rights, White, true, chess960) + RightText(rights, White, false, chess960)
               + RightText(rights, Black, true, chess960) + RightText(rights, Black, false, chess960)
               + (if rights == NoRights() then ['-'] else []) + rest
  {}
}
