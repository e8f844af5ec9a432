/**
 * The value types every other module speaks about: colours, pieces, squares,
 * bitboards (modelled as finite sets of squares) and moves.
 */
module Types {
  datatype Color = White | Black {
    function Other(): Color { if White? then Black else White }
  }

  datatype PieceType = Pawn | Knight | Bishop | Rook | Queen | King

  /** `NO_PIECE` is `Empty`; every other piece is a colour and a type. */
  datatype Piece = Empty | Man(color: Color, kind: PieceType)

  type Square = s: int | 0 <= s < 64

  type Bitboard = set<Square>

  function File(s: Square): int { s % 8 }

  function Rank(s: Square): int { s / 8 }

  /** `relative_rank`: ranks counted from the given side. */
  function RelativeRank(c: Color, s: Square): int {
    if c.White? then Rank(s) else 7 - Rank(s)
  }

  /** `relative_square`: the square mirrored vertically for Black. */
  function RelativeSquare(c: Color, s: Square): Square {
    if c.White? then s else 8 * (7 - Rank(s)) + File(s)
  }

  function PawnPush(c: Color): int { if c.White? then 8 else -8 }

  predicate IsOk(s: int) { 0 <= s < 64 }

  /** Every square of the board. */
  function AllSquares(): Bitboard { set s: Square | 0 <= s < 64 && IsOk(s) }

  /** Exclusive or of two bitboards. */
  function Toggle(a: Bitboard, b: Bitboard): Bitboard { (a - b) + (b - a) }

  lemma MinExists(b: Bitboard)
    requires b != {}
    ensures exists s :: IsMin(b, s)
  {
    var x :| x in b;
    if b == {x} {
      assert IsMin(b, x);
    } else {
      var rest := b - {x};
      assert rest != {};
      MinExists(rest);
      var m :| IsMin(rest, m);
      var k := if x <= m then x else m;
      forall t | t in b ensures k <= t { if t != x { assert t in rest; } }
      assert IsMin(b, k);
    }
  }

  predicate IsMin(b: Bitboard, s: Square) { s in b && forall t | t in b :: s <= t }

  /** `lsb`: the lowest square of a non-empty bitboard. */
  function Lsb(b: Bitboard): (s: Square)
    requires b != {}
    ensures IsMin(b, s)
  {
    MinExists(b);
    var s :| s in b && IsMin(b, s);
    s
  }

  /** `more_than_one`: clearing the lowest square leaves something. */
  predicate MoreThanOne(b: Bitboard) { b != {} && b - {Lsb(b)} != {} }

  datatype MoveType = Normal | Promotion | EnPassant | Castling

  /** A move as the four fields packed into `Move::data`. */
  datatype Move = Move(from: Square, to: Square, mtype: MoveType, promo: PieceType)
}
