/**
 * The hash keys and material sums of a position: what they mean for a board, and how a
 * single square changes them.  `set_state` computes the meanings; `do_move` must preserve them.
 */
module Keys {
  import opened Types
  import opened Board
  import opened See

  /** A 64-bit key as the set of its one bits; `^` is then symmetric difference, and 0 is {}. */
  type Key = set<nat>

  function Xor(a: Key, b: Key): Key { (a - b) + (b - a) }

  datatype CastlingRight = WhiteOO | WhiteOOO | BlackOO | BlackOOO

  /** The random tables. */
  datatype Zobrist = Zobrist(
    psq: (Piece, int) -> Key,
    enpassant: int -> Key,
    castling: set<CastlingRight> -> Key,
    side: Key,
    noPawns: Key)

  /** Pawns on the squares where they promote have no key of their own. */
  ghost predicate ZobristOk(z: Zobrist) {
    && (forall s: Square | 56 <= s :: z.psq(Man(White, Pawn), s) == {})
    && (forall s: Square | s < 8 :: z.psq(Man(Black, Pawn), s) == {})
  }

  /** The keys that are an exclusive or over the pieces on the board. */
  datatype Part = Whole | Pawns | Minors | NonPawns(color: Color)

  predicate InPart(part: Part, pc: Piece)
    requires pc.Man?
  {
    match part
    case Whole => true
    case Pawns => pc.kind == Pawn
    case Minors => pc.kind == Knight || pc.kind == Bishop
    case NonPawns(c) => pc.kind != Pawn && pc.color == c
  }

  function Weight(z: Zobrist, part: Part, pc: Piece, s: Square): Key {
    if pc.Man? && InPart(part, pc) then z.psq(pc, s) else {}
  }

  /** The exclusive or over the first n squares. */
  function XorTo(z: Zobrist, part: Part, b: Board, n: nat): Key
    requires n <= 64
  {
    if n == 0 then {} else Xor(XorTo(z, part, b, n - 1), Weight(z, part, b[n - 1], n - 1))
  }

  function BoardKey(z: Zobrist, part: Part, b: Board): Key { XorTo(z, part, b, 64) }

  /** `nonPawnMaterial`: the value of a side's knights, bishops, rooks and queens. */
  function Worth(pc: Piece, c: Color): int {
    if pc.Man? && pc.color == c && pc.kind != Pawn && pc.kind != King then Value(pc) else 0
  }

  function SumTo(b: Board, c: Color, n: nat): int
    requires n <= 64
  {
    if n == 0 then 0 else SumTo(b, c, n - 1) + Worth(b[n - 1], c)
  }

  function NonPawnMaterial(b: Board, c: Color): int { SumTo(b, c, 64) }

  /** The part of the material key contributed by n pieces of one kind. */
  function CountKey(z: Zobrist, pc: Piece, n: nat): Key {
    if n == 0 then {} else Xor(CountKey(z, pc, n - 1), z.psq(pc, 8 + n - 1))
  }

  /** The twelve pieces, in the order of the `Pieces` array. */
  const ALL_PIECES: seq<Piece> := [
    Man(White, Pawn), Man(White, Knight), Man(White, Bishop), Man(White, Rook), Man(White, Queen), Man(White, King),
    Man(Black, Pawn), Man(Black, Knight), Man(Black, Bishop), Man(Black, Rook), Man(Black, Queen), Man(Black, King)]

  function MaterialTo(z: Zobrist, b: Board, n: nat): Key
    requires n <= |ALL_PIECES|
  {
    if n == 0 then {} else Xor(MaterialTo(z, b, n - 1), CountKey(z, ALL_PIECES[n - 1], Count(b, ALL_PIECES[n - 1])))
  }

  function MaterialKey(z: Zobrist, b: Board): Key { MaterialTo(z, b, |ALL_PIECES|) }

  lemma {:induction false} XorUpdate(z: Zobrist, part: Part, b: Board, s: Square, p: Piece, n: nat)
    requires n <= 64
    ensures XorTo(z, part, b[s := p], n) ==
            if s < n then Flip(XorTo(z, part, b, n), Weight(z, part, b[s], s), Weight(z, part, p, s))
                else XorTo(z, part, b, n)
  {
    hide Weight, Xor, Flip;
    if n > 0 {
      XorUpdate(z, part, b, s, p, n - 1);
      XorReplace(XorTo(z, part, b, n - 1), Weight(z, part, b[s], s), Weight(z, part, p, s));
      XorInsert(XorTo(z, part, b, n - 1), Weight(z, part, b[s], s), Weight(z, part, p, s),
          Weight(z, part, b[n - 1], n - 1));
    }
  }

  /** One term out, another in. */
  function Flip(k: Key, a: Key, b: Key): Key { Xor(Xor(k, a), b) }

  lemma XorReplace(k: Key, a: Key, b: Key)
    ensures Xor(k, b) == Flip(Xor(k, a), a, b)
  {}

  lemma XorInsert(k: Key, a: Key, b: Key, c: Key)
    ensures Xor(Flip(k, a, b), c) == Flip(Xor(k, c), a, b)
  {}

  /** Replacing the piece on one square toggles out the old one and toggles in the new one. */
  lemma KeyUpdate(z: Zobrist, part: Part, b: Board, s: Square, p: Piece)
    ensures BoardKey(z, part, b[s := p]) == Flip(BoardKey(z, part, b), Weight(z, part, b[s], s), Weight(z, part, p, s))
  {
    hide Weight, Xor, Flip;
    XorUpdate(z, part, b, s, p, 64);
  }

  lemma {:induction false} SumUpdate(b: Board, c: Color, s: Square, p: Piece, n: nat)
    requires n <= 64
    ensures SumTo(b[s := p], c, n) == if s < n then SumTo(b, c, n) - Worth(b[s], c) + Worth(p, c) else SumTo(b, c, n)
  {
    if n > 0 { SumUpdate(b, c, s, p, n - 1); }
  }

  lemma MaterialUpdate(b: Board, c: Color, s: Square, p: Piece)
    ensures NonPawnMaterial(b[s := p], c) == NonPawnMaterial(b, c) - Worth(b[s], c) + Worth(p, c)
  {
    SumUpdate(b, c, s, p, 64);
  }

  /** The material key when the count of one kind of piece changes by one. */
  lemma {:induction false} MaterialStep(z: Zobrist, b: Board, c: Board, pc: Piece, n: nat)
    requires n <= |ALL_PIECES| && pc.Man? && Count(c, pc) == Count(b, pc) + 1
    requires forall p: Piece | p.Man? && p != pc :: Count(c, p) == Count(b, p)
    ensures MaterialTo(z, c, n) ==
            if pc in ALL_PIECES[..n] then Xor(MaterialTo(z, b, n), z.psq(pc, 8 + Count(b, pc))) else MaterialTo(z, b, n)
  {
    hide Count, Xor;
    if n > 0 {
      MaterialStep(z, b, c, pc, n - 1);
      assert ALL_PIECES[..n] == ALL_PIECES[..n - 1] + [ALL_PIECES[n - 1]];
      var p := ALL_PIECES[n - 1];
      assert p.Man?;
      if p == pc {
        DistinctPieces(n - 1);
        XorAssoc(MaterialTo(z, b, n - 1), CountKey(z, pc, Count(b, pc)), z.psq(pc, 8 + Count(b, pc)));
      } else if pc in ALL_PIECES[..n - 1] {
        XorSwap(MaterialTo(z, b, n - 1), z.psq(pc, 8 + Count(b, pc)), CountKey(z, p, Count(b, p)));
      }
    }
  }

  lemma DistinctPieces(i: nat)
    requires i < |ALL_PIECES|
    ensures ALL_PIECES[i] !in ALL_PIECES[..i]
  {}

  lemma XorAssoc(k: Key, a: Key, b: Key)
    ensures Xor(k, Xor(a, b)) == Xor(Xor(k, a), b)
  {}

  lemma XorSwap(k: Key, a: Key, b: Key)
    ensures Xor(Xor(k, a), b) == Xor(Xor(k, b), a)
  {}

  lemma XorZero(k: Key)
    ensures Xor(k, {}) == k && Xor(k, k) == {}
  {}

  /** Filling an empty square adds the key of the next piece of its kind. */
  lemma MaterialFill(z: Zobrist, b: Board, s: Square, pc: Piece)
    requires b[s] == Empty && pc.Man?
    ensures MaterialKey(z, b[s := pc]) == Xor(MaterialKey(z, b), z.psq(pc, 8 + Count(b, pc)))
    ensures Count(b[s := pc], pc) == Count(b, pc) + 1
  {
    hide Count, Xor;
    FillSquare(b, s, pc);
    MaterialStep(z, b, b[s := pc], pc, |ALL_PIECES|);
    EveryPieceListed(pc);
    assert ALL_PIECES[..|ALL_PIECES|] == ALL_PIECES;
  }

  lemma EveryPieceListed(pc: Piece)
    requires pc.Man?
    ensures pc in ALL_PIECES
  {
    match pc.color {
      case White => match pc.kind { case Pawn => assert pc == ALL_PIECES[0];
          case Knight => assert pc == ALL_PIECES[1]; case Bishop => assert pc == ALL_PIECES[2];
                                    case Rook => assert pc == ALL_PIECES[3]; case Queen => assert pc == ALL_PIECES[4];
                                        case King => assert pc == ALL_PIECES[5]; }
      case Black => match pc.kind { case Pawn => assert pc == ALL_PIECES[6];
          case Knight => assert pc == ALL_PIECES[7]; case Bishop => assert pc == ALL_PIECES[8];
                                    case Rook => assert pc == ALL_PIECES[9];
                                        case Queen => assert pc == ALL_PIECES[10];
                                        case King => assert pc == ALL_PIECES[11]; }
    }
  }

  /** Emptying a square takes the key of the last piece of its kind away. */
  lemma MaterialTake(z: Zobrist, b: Board, s: Square)
    requires b[s].Man?
    ensures Count(b, b[s]) > 0
    ensures MaterialKey(z, b[s := Empty]) == Xor(MaterialKey(z, b), z.psq(b[s], 8 + Count(b, b[s]) - 1))
    ensures Count(b[s := Empty], b[s]) == Count(b, b[s]) - 1
    ensures forall p: Piece | p.Man? && p != b[s] :: Count(b[s := Empty], p) == Count(b, p)
  {
    hide Count, Xor;
    var c: Board := b[s := Empty];
    assert c[s := b[s]] == b;
    MaterialFill(z, c, s, b[s]);
    FillSquare(c, s, b[s]);
    XorAssoc(MaterialKey(z, c), z.psq(b[s], 8 + Count(c, b[s])), z.psq(b[s], 8 + Count(c, b[s])));
    XorZero(MaterialKey(z, c));
    XorZero(z.psq(b[s], 8 + Count(c, b[s])));
  }

  /** Moving a piece to an empty square changes no count. */
  lemma MaterialMove(z: Zobrist, b: Board, s: Square, t: Square)
    requires b[s].Man? && b[t] == Empty
    ensures MaterialKey(z, b[s := Empty][t := b[s]]) == MaterialKey(z, b)
    ensures forall p: Piece | p.Man? :: Count(b[s := Empty][t := b[s]], p) == Count(b, p)
  {
    hide Count, Xor;
    var c: Board := b[s := Empty];
    MaterialTake(z, b, s);
    MaterialFill(z, c, t, b[s]);
    FillSquare(c, t, b[s]);
    XorAssoc(MaterialKey(z, b), z.psq(b[s], 8 + Count(c, b[s])), z.psq(b[s], 8 + Count(c, b[s])));
    XorZero(MaterialKey(z, b));
    XorZero(z.psq(b[s], 8 + Count(c, b[s])));
  }

  /** Empty squares contribute nothing. */
  lemma {:induction false} SkipEmpty(z: Zobrist, part: Part, b: Board, lo: nat, hi: nat)
    requires lo <= hi <= 64 && forall i | lo <= i < hi :: b[i] == Empty
    ensures XorTo(z, part, b, hi) == XorTo(z, part, b, lo)
  {
    if lo < hi { SkipEmpty(z, part, b, lo, hi - 1); XorZeroRight(XorTo(z, part, b, hi - 1)); }
  }

  lemma {:induction false} SkipEmptySum(b: Board, c: Color, lo: nat, hi: nat)
    requires lo <= hi <= 64 && forall i | lo <= i < hi :: b[i] == Empty
    ensures SumTo(b, c, hi) == SumTo(b, c, lo)
  {
    if lo < hi { SkipEmptySum(b, c, lo, hi - 1); }
  }

  lemma XorZeroRight(k: Key)
    ensures Xor(k, {}) == k
  {}

  /** One occupied square of the scan, the squares skipped being empty. */
  lemma ScanStep(z: Zobrist, b: Board, lo: nat, s: Square)
    requires lo <= s && b[s].Man? && forall i | lo <= i < s :: b[i] == Empty
    ensures forall part :: XorTo(z, part, b, s + 1) == Xor(XorTo(z, part, b, lo), Weight(z, part, b[s], s))
    ensures forall c :: SumTo(b, c, s + 1) == SumTo(b, c, lo) + Worth(b[s], c)
  {
    hide Xor, Weight, Worth;
    forall part ensures XorTo(z, part, b, s + 1) == Xor(XorTo(z, part, b, lo), Weight(z, part, b[s], s)) {
      SkipEmpty(z, part, b, lo, s);
    }
    forall c ensures SumTo(b, c, s + 1) == SumTo(b, c, lo) + Worth(b[s], c) { SkipEmptySum(b, c, lo, s); }
  }

  lemma ScanEnd(z: Zobrist, b: Board, lo: nat)
    requires lo <= 64 && forall i | lo <= i < 64 :: b[i] == Empty
    ensures forall part :: BoardKey(z, part, b) == XorTo(z, part, b, lo)
    ensures forall c :: NonPawnMaterial(b, c) == SumTo(b, c, lo)
  {
    hide Xor;
    forall part ensures BoardKey(z, part, b) == XorTo(z, part, b, lo) { SkipEmpty(z, part, b, lo, 64); }
    forall c ensures NonPawnMaterial(b, c) == SumTo(b, c, lo) { SkipEmptySum(b, c, lo, 64); }
  }

  /** The running totals of set_state's scan. */
  datatype Totals = Totals(key: Key, pawnKey: Key, minorKey: Key, whiteKey: Key, blackKey: Key, whiteSum: int,
      blackSum: int)

  /** One turn of the scan: what the piece on s adds. */
  function ScanSquare(z: Zobrist, t: Totals, pc: Piece, s: Square): Totals
    requires pc.Man?
  {
    var w := z.psq(pc, s);
    var t1 := t.(key := Xor(t.key, w));
    if pc.kind == Pawn then t1.(pawnKey := Xor(t.pawnKey, w))
    else
      var t2 := if pc.color == White then t1.(whiteKey := Xor(t.whiteKey, w)) else t1.(blackKey := Xor(t.blackKey, w));
      if pc.kind == King then t2
      else
        var t3 := if pc.color == White then t2.(whiteSum := t.whiteSum + Value(pc))
            else t2.(blackSum := t.blackSum + Value(pc));
        if pc.kind == Knight || pc.kind == Bishop then t3.(minorKey := Xor(t.minorKey, w)) else t3
  }

  /** The totals over the first lo squares. */
  ghost predicate TotalsIs(z: Zobrist, b: Board, lo: nat, t: Totals)
    requires lo <= 64
  {
    && t.key == XorTo(z, Whole, b, lo) && t.pawnKey == Xor(z.noPawns, XorTo(z, Pawns, b, lo))
    && t.minorKey == XorTo(z, Minors, b, lo)
    && t.whiteKey == XorTo(z, NonPawns(White), b, lo) && t.blackKey == XorTo(z, NonPawns(Black), b, lo)
    && t.whiteSum == SumTo(b, White, lo) && t.blackSum == SumTo(b, Black, lo)
  }

  lemma ScanSquareOk(z: Zobrist, b: Board, lo: nat, s: Square, t: Totals)
    requires lo <= s && b[s].Man? && (forall i | lo <= i < s :: b[i] == Empty) && TotalsIs(z, b, lo, t)
    ensures TotalsIs(z, b, s + 1, ScanSquare(z, t, b[s], s))
  {
    ScanStep(z, b, lo, s);
    hide Xor, XorTo, SumTo, Value;
    XorZeroRight(t.pawnKey); XorZeroRight(t.minorKey); XorZeroRight(t.whiteKey); XorZeroRight(t.blackKey);
    XorZeroRight(XorTo(z, Pawns, b, lo));
    XorAssoc(z.noPawns, XorTo(z, Pawns, b, lo), z.psq(b[s], s));
  }

  lemma ScanStart(z: Zobrist, b: Board)
    ensures TotalsIs(z, b, 0, Totals({}, z.noPawns, {}, {}, {}, 0, 0))
  {}

  lemma ScanDone(z: Zobrist, b: Board, lo: nat, t: Totals)
    requires lo <= 64 && (forall i | lo <= i < 64 :: b[i] == Empty) && TotalsIs(z, b, lo, t)
    ensures t.key == BoardKey(z, Whole, b) && t.pawnKey == Xor(z.noPawns, BoardKey(z, Pawns, b))
        && t.minorKey == BoardKey(z, Minors, b)
    ensures t.whiteKey == BoardKey(z, NonPawns(White), b) && t.blackKey == BoardKey(z, NonPawns(Black), b)
    ensures t.whiteSum == NonPawnMaterial(b, White) && t.blackSum == NonPawnMaterial(b, Black)
  {
    ScanEnd(z, b, lo);
  }
}
