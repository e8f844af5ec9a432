/**
 * The first field of a FEN: the pieces, rank by rank from the eighth, as text and back.
 */
module Placement {
  import opened Options
  import opened Numerals
  import opened Types
  import opened Board

  datatype FenError =
    | UnexpectedEnd | BadSkip | BadFile | UnfinishedRank | BadRank | BadPiece | TooManyMen | CursorNotAtEnd
    | BackRankPawn | WrongKings | TooManyPawns(color: Color) | TooManyPieces(color: Color)
    | BadSide | NoSpaceAfterSide | TooManyRights | BadCastling | BadEnPassant | BadRule50 | BadPly | KingCapturable

  datatype Result<T> = Ok(value: T) | Err(error: FenError)

  const MAX_MEN := 32

  /** `PieceToChar`. */
  function Letter(p: Piece): char
    requires p.Man?
  {
    match p.kind
    case Pawn => if p.color.White? then 'P' else 'p'
    case Knight => if p.color.White? then 'N' else 'n'
    case Bishop => if p.color.White? then 'B' else 'b'
    case Rook => if p.color.White? then 'R' else 'r'
    case Queen => if p.color.White? then 'Q' else 'q'
    case King => if p.color.White? then 'K' else 'k'
  }

  /** `PieceToChar.find`, for a character that is not a space. */
  function PieceOf(c: char): Option<Piece> {
    match c
    case 'P' => Some(Man(White, Pawn)) case 'N' => Some(Man(White, Knight)) case 'B' => Some(Man(White, Bishop))
    case 'R' => Some(Man(White, Rook)) case 'Q' => Some(Man(White, Queen)) case 'K' => Some(Man(White, King))
    case 'p' => Some(Man(Black, Pawn)) case 'n' => Some(Man(Black, Knight)) case 'b' => Some(Man(Black, Bishop))
    case 'r' => Some(Man(Black, Rook)) case 'q' => Some(Man(Black, Queen)) case 'k' => Some(Man(Black, King))
    case _ => None
  }

  lemma LetterBack(p: Piece)
    requires p.Man?
    ensures PieceOf(Letter(p)) == Some(p) && !IsSpace(Letter(p)) && !IsDigit(Letter(p)) && Letter(p) != '/'
  {}

  lemma PieceIsMan(c: char)
    ensures PieceOf(c).Some? ==> PieceOf(c).value.Man?
  {}

  /** The place where the next piece goes, with the board so far and the number of pieces on it. */
  datatype Cursor = Cursor(board: Board, file: int, rank: int, men: int)

  predicate OnBoard(c: Cursor) { 0 <= c.file <= 8 && 0 <= c.rank < 8 }

  function SquareAt(file: int, rank: int): Square
    requires 0 <= file < 8 && 0 <= rank < 8
  {
    8 * rank + file
  }

  /** What one character does. */
  function StepOn(c: Cursor, token: char): (r: Result<Cursor>)
    requires OnBoard(c)
    ensures r.Ok? ==> OnBoard(r.value)
  {
    if IsDigit(token) then
      var diff := DigitValue(token);
      if diff < 1 || diff > 8 then Err(BadSkip)
      else if c.file + diff > 8 then Err(BadFile)
      else Ok(c.(file := c.file + diff))
    else if token == '/' then
      if c.file != 8 then Err(UnfinishedRank)
      else if c.rank - 1 < 0 then Err(BadRank)
      else Ok(c.(rank := c.rank - 1, file := 0))
    else if c.file >= 8 then Err(BadFile)
    else match PieceOf(token)
      case None => Err(BadPiece)
      case Some(p) =>
        if c.men + 1 > MAX_MEN then Err(TooManyMen)
        else Ok(Cursor(c.board[SquareAt(c.file, c.rank) := p], c.file + 1, c.rank, c.men + 1))
  }

  /** The whole field, up to and with the space that ends it. */
  function ReadPlacement(s: string, c: Cursor): Result<(Board, string)>
    requires OnBoard(c)
    decreases |s|
  {
    if s == [] then Err(UnexpectedEnd)
    else if IsSpace(s[0]) then if c.rank != 0 || c.file != 8 then Err(CursorNotAtEnd) else Ok((c.board, s[1..]))
    else
      var next := StepOn(c, s[0]);
      if next.Err? then Err(next.error) else ReadPlacement(s[1..], next.value)
  }

  function EmptyBoard(): Board { seq(64, _ => Empty) }

  function Start(): Cursor { Cursor(EmptyBoard(), 0, 7, 0) }

  // ----- The text of a board -----

  function Gap(n: nat): string
    requires n <= 8
  {
    if n == 0 then [] else [Digit(n)]
  }

  /** A rank from file f on, gap empty squares before f not yet written. */
  function RowText(b: Board, rank: nat, f: nat, gap: nat): string
    requires rank < 8 && gap <= f <= 8
    decreases 8 - f
  {
    if f == 8 then Gap(gap)
    else
      var p := b[SquareAt(f, rank)];
      if p == Empty then RowText(b, rank, f + 1, gap + 1) else Gap(gap) + ([Letter(p)] + RowText(b, rank, f + 1, 0))
  }

  /** The ranks from the one given down to the first. */
  function RowsText(b: Board, rank: nat): string
    requires rank < 8
  {
    RowText(b, rank, 0, 0) + (if rank == 0 then [] else ['/'] + RowsText(b, rank - 1))
  }

  // ----- Reading a text that was written -----

  predicate Before(s: Square, rank: int, file: int) { Rank(s) > rank || (Rank(s) == rank && File(s) < file) }

  /** The part of the board the cursor has passed. */
  function Upto(b: Board, rank: int, file: int): (u: Board)
    ensures forall s: Square :: u[s] == if Before(s, rank, file) then b[s] else Empty
  {
    seq(64, (s: int) requires 0 <= s < 64 => if Before(s, rank, file) then b[s] else Empty)
  }

  function CursorAt(b: Board, rank: int, file: int): Cursor {
    Cursor(Upto(b, rank, file), file, rank, |Occ(Upto(b, rank, file))|)
  }

  lemma UptoNext(b: Board, rank: int, file: int)
    requires 0 <= rank < 8 && 0 <= file < 8
    ensures var s := SquareAt(file, rank);
            Upto(b, rank, file + 1) == (if b[s] == Empty then Upto(b, rank, file) else Upto(b, rank, file)[s := b[s]])
                && Upto(b, rank, file)[s] == Empty
  {
    var s := SquareAt(file, rank);
    assert Rank(s) == rank && File(s) == file;
    forall t: Square ensures Before(t, rank, file + 1) == (Before(t, rank, file) || t == s) {}
  }

  lemma UptoMen(b: Board, rank: int, file: int)
    requires 0 <= rank < 8 && 0 <= file < 8 && b[SquareAt(file, rank)] != Empty
    ensures |Occ(Upto(b, rank, file + 1))| == |Occ(Upto(b, rank, file))| + 1 <= |Occ(b)|
  {
    hide Before;
    var s := SquareAt(file, rank);
    UptoNext(b, rank, file);
    FillOcc(Upto(b, rank, file), s, b[s]);
    NotThere(Upto(b, rank, file), s);
    UptoFewer(b, rank, file + 1);
  }

  lemma UptoFewer(b: Board, rank: int, file: int)
    ensures |Occ(Upto(b, rank, file))| <= |Occ(b)|
  {
    hide Before;
    var u := Occ(Upto(b, rank, file));
    assert Occ(b) == u + (Occ(b) - u);
  }

  lemma UptoEnds(b: Board)
    ensures Upto(b, 7, 0) == EmptyBoard() && Upto(b, 0, 8) == b && Occ(EmptyBoard()) == {}
  {
    forall s: Square ensures !Before(s, 7, 0) && Before(s, 0, 8) {}
  }

  lemma UptoWraps(b: Board, rank: int)
    ensures Upto(b, rank, 8) == Upto(b, rank - 1, 0)
  {
    forall s: Square ensures Before(s, rank, 8) == Before(s, rank - 1, 0) {}
  }

  /** One written character read. */
  lemma ReadOn(token: char, rest: string, c: Cursor)
    requires OnBoard(c) && !IsSpace(token)
    ensures ReadPlacement([token] + rest, c) == var next := StepOn(c, token);
        if next.Err? then Err(next.error) else ReadPlacement(rest, next.value)
  {
    assert ([token] + rest)[1..] == rest;
  }

  lemma GapBack(n: nat, rest: string, c: Cursor)
    requires OnBoard(c) && c.file + n <= 8
    ensures ReadPlacement(Gap(n) + rest, c) == ReadPlacement(rest, c.(file := c.file + n))
  {
    if n > 0 { ReadOn(Digit(n), rest, c); } else { assert Gap(0) + rest == rest; }
  }

  lemma GapThenPiece(b: Board, rank: nat, f: nat, gap: nat, row: string, rest: string)
    requires rank < 8 && gap <= f < 8 && |Occ(b)| <= MAX_MEN && b[SquareAt(f, rank)] != Empty
    ensures ReadPlacement(Gap(gap) + ([Letter(b[SquareAt(f, rank)])] + row) + rest,
                CursorAt(b, rank, f).(file := f - gap))
        == ReadPlacement(row + rest, CursorAt(b, rank, f + 1))
  {
    hide ReadPlacement, StepOn, Letter, Occ, Upto, Gap, Digit, SquareAt;
    var p := b[SquareAt(f, rank)];
    assert Gap(gap) + ([Letter(p)] + row) + rest == Gap(gap) + ([Letter(p)] + (row + rest));
    GapBack(gap, [Letter(p)] + (row + rest), CursorAt(b, rank, f).(file := f - gap));
    LetterBack(p);
    ReadOn(Letter(p), row + rest, CursorAt(b, rank, f));
    PieceBack(b, rank, f);
  }

  /** A written rank is read back. */
  lemma {:induction false} RowBack(b: Board, rank: nat, f: nat, gap: nat, rest: string)
    requires rank < 8 && gap <= f <= 8 && |Occ(b)| <= MAX_MEN
    ensures ReadPlacement(RowText(b, rank, f, gap) + rest, CursorAt(b, rank, f).(file := f - gap))
        == ReadPlacement(rest, CursorAt(b, rank, 8))
    decreases 8 - f
  {
    hide ReadPlacement, StepOn, Letter, Occ, Upto, Gap, Digit;
    var c := CursorAt(b, rank, f).(file := f - gap);
    if f == 8 {
      GapBack(gap, rest, c);
    } else {
      var p := b[SquareAt(f, rank)];
      UptoNext(b, rank, f);
      if p == Empty {
        RowBack(b, rank, f + 1, gap + 1, rest);
      } else {
        GapThenPiece(b, rank, f, gap, RowText(b, rank, f + 1, 0), rest);
        RowBack(b, rank, f + 1, 0, rest);
      }
    }
  }

  lemma PieceBack(b: Board, rank: nat, f: nat)
    requires rank < 8 && f < 8 && |Occ(b)| <= MAX_MEN && b[SquareAt(f, rank)] != Empty
    ensures StepOn(CursorAt(b, rank, f), Letter(b[SquareAt(f, rank)])) == Ok(CursorAt(b, rank, f + 1))
  {
    hide Occ, Upto, StepOn, Letter, SquareAt;
    UptoNext(b, rank, f);
    UptoMen(b, rank, f);
    PiecePlaced(CursorAt(b, rank, f), b[SquareAt(f, rank)]);
  }

  lemma PiecePlaced(c: Cursor, p: Piece)
    requires OnBoard(c) && c.file < 8 && c.men < MAX_MEN && p.Man?
    ensures StepOn(c, Letter(p)) == Ok(Cursor(c.board[SquareAt(c.file, c.rank) := p], c.file + 1, c.rank, c.men + 1))
  {
    LetterBack(p);
    hide Letter, PieceOf;
  }

  /** The written ranks are read back. */
  lemma {:induction false} RowsBack(b: Board, rank: nat, rest: string)
    requires rank < 8 && |Occ(b)| <= MAX_MEN
    ensures ReadPlacement(RowsText(b, rank) + rest, CursorAt(b, rank, 0)) == ReadPlacement(rest, CursorAt(b, 0, 8))
    decreases rank
  {
    hide ReadPlacement, StepOn, Occ, Upto, RowText;
    if rank == 0 {
      assert RowText(b, 0, 0, 0) + [] + rest == RowText(b, 0, 0, 0) + rest;
      RowBack(b, 0, 0, 0, rest);
    } else {
      var more := RowsText(b, rank - 1) + rest;
      assert RowsText(b, rank) + rest == RowText(b, rank, 0, 0) + (['/'] + more);
      RowBack(b, rank, 0, 0, ['/'] + more);
      ReadOn('/', more, CursorAt(b, rank, 8));
      SlashBack(b, rank);
      RowsBack(b, rank - 1, rest);
    }
  }

  lemma SlashBack(b: Board, rank: nat)
    requires 0 < rank < 8
    ensures StepOn(CursorAt(b, rank, 8), '/') == Ok(CursorAt(b, rank - 1, 0))
  {
    hide Occ, Upto;
    UptoWraps(b, rank);
  }

  /** Any board of at most 32 pieces is read back from its text, whatever follows the space. */
  lemma PlacementBack(b: Board, rest: string)
    requires |Occ(b)| <= MAX_MEN
    ensures ReadPlacement(RowsText(b, 7) + ([' '] + rest), Start()) == Ok((b, rest))
  {
    UptoEnds(b);
    RowsBack(b, 7, [' '] + rest);
    assert ([' '] + rest)[1..] == rest;
    hide RowsText, Occ, Upto;
  }

  // ----- What is read -----

  /** The squares the cursor has not reached are empty, and men counts the others. */
  predicate Ahead(c: Cursor) {
    && OnBoard(c) && c.men == |Occ(c.board)| <= MAX_MEN
    && forall s: Square :: !Before(s, c.rank, c.file) ==> c.board[s] == Empty
  }

  lemma StepAhead(c: Cursor, token: char)
    requires Ahead(c)
    ensures StepOn(c, token).Ok? ==> Ahead(StepOn(c, token).value)
  {
    if !IsDigit(token) && token != '/' && c.file < 8 && PieceOf(token).Some? {
      var s := SquareAt(c.file, c.rank);
      assert Rank(s) == c.rank && File(s) == c.file && !Before(s, c.rank, c.file);
      PieceIsMan(token);
      FillOcc(c.board, s, PieceOf(token).value);
      NotThere(c.board, s);
      forall t: Square ensures Before(t, c.rank, c.file + 1) == (Before(t, c.rank, c.file) || t == s) {}
    } else if token == '/' && c.file == 8 {
      forall t: Square ensures Before(t, c.rank, 8) == Before(t, c.rank - 1, 0) {}
    } else if IsDigit(token) && DigitValue(token) >= 1 {
      forall t: Square ensures Before(t, c.rank, c.file) ==> Before(t, c.rank, c.file + DigitValue(token)) {}
    }
    hide Before, Occ, PieceOf;
  }

  /** A field that is read has at most 32 pieces. */
  lemma {:induction false} ReadFewMen(s: string, c: Cursor)
    requires Ahead(c)
    ensures ReadPlacement(s, c).Ok? ==> |Occ(ReadPlacement(s, c).value.0)| <= MAX_MEN
    decreases |s|
  {
    hide Occ, StepOn, Before;
    if s != [] && !IsSpace(s[0]) {
      StepAhead(c, s[0]);
      if StepOn(c, s[0]).Ok? { ReadFewMen(s[1..], StepOn(c, s[0]).value); }
    }
  }

  lemma StartOnBoard()
    ensures OnBoard(Start())
  {}

  lemma StartAhead()
    ensures Ahead(Start())
  {
    UptoEnds(EmptyBoard());
    forall s: Square ensures !Before(s, 7, 0) {}
  }

  // ----- As loops -----

  /** The loop of `set` over the first field. */
  method PlacePieces(s: string) returns (r: Result<(Board, string)>)
    ensures r == ReadPlacement(s, Start())
  {
    hide StepOn, Start;
    var c := Start();
    StartOnBoard();
    var i := 0;
    while i < |s|
      invariant 0 <= i <= |s| && OnBoard(c) && ReadPlacement(s[i..], c) == ReadPlacement(s, Start())
    {
      var token := s[i];
      if IsSpace(token) {
        if c.rank != 0 || c.file != 8 { return Err(CursorNotAtEnd); }
        return Ok((c.board, s[i + 1..]));
      }
      var next := StepOn(c, token);
      if next.Err? { return Err(next.error); }
      c := next.value;
      i := i + 1;
    }
    r := Err(UnexpectedEnd);
  }

  /** The loops of `fen` over the board. */
  method PrintPlacement(b: Board) returns (s: string)
    ensures s == RowsText(b, 7)
  {
    hide Letter, Gap, RowText, RowsText;
    s := [];
    var r := 7;
    while true
      invariant 0 <= r <= 7 && s + RowsText(b, r) == RowsText(b, 7)
      decreases r
    {
      s := PrintRank(b, r, s);
      RowsStep(b, r);
      if r == 0 { break; }
      s := s + ['/'];
      r := r - 1;
    }
  }

  lemma RowsStep(b: Board, r: nat)
    requires r < 8
    ensures RowsText(b, r) == RowText(b, r, 0, 0) + (if r == 0 then [] else ['/'] + RowsText(b, r - 1))
  {}

  /** The inner loops: runs of empty squares, then a piece. */
  method PrintRank(b: Board, r: nat, before: string) returns (s: string)
    requires r < 8
    ensures s == before + RowText(b, r, 0, 0)
  {
    hide Letter, Gap, RowText;
    s := before;
    var f := 0;
    while f <= 7
      invariant 0 <= f <= 9 && s + (if f <= 8 then RowText(b, r, f, 0) else []) == before + RowText(b, r, 0, 0)
    {
      var emptyCnt := 0;
      ghost var from := f;
      while f <= 7 && b[SquareAt(f, r)] == Empty
        invariant from <= f <= 8 && emptyCnt == f - from && RowText(b, r, f, emptyCnt) == RowText(b, r, from, 0)
      {
        RowStep(b, r, f, emptyCnt);
        emptyCnt := emptyCnt + 1;
        f := f + 1;
      }
      RowStep(b, r, f, emptyCnt);
      ghost var head := s;
      s := s + Gap(emptyCnt);
      if f <= 7 {
        PieceJoins(head, Gap(emptyCnt), Letter(b[SquareAt(f, r)]), RowText(b, r, f + 1, 0));
        s := s + [Letter(b[SquareAt(f, r)])];
      }
      f := f + 1;
    }
    if f == 8 { RowStep(b, r, 8, 0); GapNone(); }
  }

  lemma RowStep(b: Board, rank: nat, f: nat, gap: nat)
    requires rank < 8 && gap <= f <= 8
    ensures RowText(b, rank, f, gap) ==
            if f == 8 then Gap(gap)
            else if b[SquareAt(f, rank)] == Empty then RowText(b, rank, f + 1, gap + 1)
            else Gap(gap) + ([Letter(b[SquareAt(f, rank)])] + RowText(b, rank, f + 1, 0))
  {}

  lemma PieceJoins(head: string, gap: string, letter: char, rest: string)
    ensures head + (gap + ([letter] + rest)) == head + gap + [letter] + rest
  {}

  lemma GapNone()
    ensures Gap(0) == []
  {}
}
