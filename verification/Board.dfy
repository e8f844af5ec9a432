/**
 * A board as the array of 64 pieces, the bitboards it determines, and what each piece
 * attacks.  These are the from-scratch meanings the incremental code must agree with.
 */
module Board {
  import opened Types
  import opened Geometry

  type Board = b: seq<Piece> | |b| == 64 witness seq(64, _ => Empty)

  function Occ(b: Board): Bitboard { set s: Square | 0 <= s < 64 && b[s] != Empty }

  function ByType(b: Board, k: PieceType): Bitboard {
    set s: Square | 0 <= s < 64 && b[s] != Empty && b[s].kind == k
  }

  function ByColor(b: Board, c: Color): Bitboard {
    set s: Square | 0 <= s < 64 && b[s] != Empty && b[s].color == c
  }

  function Pieces(b: Board, c: Color, k: PieceType): Bitboard {
    set s: Square | 0 <= s < 64 && b[s] == Man(c, k)
  }

  predicate PawnAttacks(c: Color, s: Square, t: Square) {
    (Df(s, t) == 1 || Df(s, t) == -1) && Dr(s, t) == (if c.White? then 1 else -1)
  }

  predicate KnightAttacks(s: Square, t: Square) {
    || ((Df(s, t) == 1 || Df(s, t) == -1) && (Dr(s, t) == 2 || Dr(s, t) == -2))
    || ((Df(s, t) == 2 || Df(s, t) == -2) && (Dr(s, t) == 1 || Dr(s, t) == -1))
  }

  predicate KingAttacks(s: Square, t: Square) {
    s != t && -1 <= Df(s, t) <= 1 && -1 <= Dr(s, t) <= 1
  }

  predicate IsSlider(k: PieceType) { k.Bishop? || k.Rook? || k.Queen? }

  /** The lines a sliding piece of type k moves on. */
  predicate SlidesAlong(k: PieceType, s: Square, t: Square) {
    ((k.Rook? || k.Queen?) && RookLine(s, t)) || ((k.Bishop? || k.Queen?) && BishopLine(s, t))
  }

  /** Does a piece pc standing on s attack t when the squares of occ are occupied? */
  predicate Attacks(occ: Bitboard, pc: Piece, s: Square, t: Square) {
    match pc
    case Empty => false
    case Man(c, Pawn) => PawnAttacks(c, s, t)
    case Man(_, Knight) => KnightAttacks(s, t)
    case Man(_, King) => KingAttacks(s, t)
    case Man(_, k) => SlidesAlong(k, s, t) && Sees(occ, s, t)
  }

  /** `attacks_bb(pc, s, occupied)`. */
  function AttackBB(occ: Bitboard, pc: Piece, s: Square): Bitboard {
    set t: Square | 0 <= t < 64 && Attacks(occ, pc, s, t)
  }

  /** `attacks_bb<BISHOP>` and `attacks_bb<ROOK>` with an occupancy. */
  function BishopBB(occ: Bitboard, s: Square): Bitboard {
    set t: Square | 0 <= t < 64 && BishopLine(s, t) && Sees(occ, s, t)
  }

  function RookBB(occ: Bitboard, s: Square): Bitboard {
    set t: Square | 0 <= t < 64 && RookLine(s, t) && Sees(occ, s, t)
  }

  function KnightBB(s: Square): Bitboard { set t: Square | 0 <= t < 64 && KnightAttacks(s, t) }

  function KingBB(s: Square): Bitboard { set t: Square | 0 <= t < 64 && KingAttacks(s, t) }

  function PawnBB(c: Color, s: Square): Bitboard { set t: Square | 0 <= t < 64 && PawnAttacks(c, s, t) }

  /** Pawns of one colour attack s from the squares a pawn of the other colour on s would attack. */
  lemma PawnAttacksReverse(c: Color, s: Square, t: Square)
    ensures PawnAttacks(c, s, t) == PawnAttacks(c.Other(), t, s)
  {}

  lemma KnightAttacksSym(s: Square, t: Square)
    ensures KnightAttacks(s, t) == KnightAttacks(t, s)
  {}

  lemma KingAttacksSym(s: Square, t: Square)
    ensures KingAttacks(s, t) == KingAttacks(t, s)
  {}

  lemma NoSelfAttack(occ: Bitboard, pc: Piece, s: Square)
    ensures !Attacks(occ, pc, s, s)
  {}

  function Where(b: Board, p: Piece): Bitboard { set s: Square | 0 <= s < 64 && b[s] == p }

  function Count(b: Board, p: Piece): nat { |Where(b, p)| }

  function CountColor(b: Board, c: Color): nat { |ByColor(b, c)| }

  /** Filling an empty square adds it to the bitboards of its piece and to no others. */
  lemma FillSquare(b: Board, s: Square, pc: Piece)
    requires b[s] == Empty && pc.Man?
    ensures var c := b[s := pc];
            && Occ(c) == Occ(b) + {s}
            && (forall k :: ByType(c, k) == if k == pc.kind then ByType(b, k) + {s} else ByType(b, k))
            && (forall d :: ByColor(c, d) == if d == pc.color then ByColor(b, d) + {s} else ByColor(b, d))
            && (forall p: Piece | p.Man? :: Count(c, p) == if p == pc then Count(b, p) + 1 else Count(b, p))
            && (forall d :: CountColor(c, d) == if d == pc.color then CountColor(b, d) + 1 else CountColor(b, d))
  {
    hide Occ, ByType, ByColor, Where;
    FillOcc(b, s, pc);
    forall k { FillType(b, s, pc, k); }
    forall d { FillColor(b, s, pc, d); }
    forall p: Piece | p.Man? { FillWhere(b, s, pc, p); }
  }

  lemma FillOcc(b: Board, s: Square, pc: Piece)
    requires b[s] == Empty && pc.Man?
    ensures Occ(b[s := pc]) == Occ(b) + {s}
  {}

  lemma FillType(b: Board, s: Square, pc: Piece, k: PieceType)
    requires b[s] == Empty && pc.Man?
    ensures ByType(b[s := pc], k) == if k == pc.kind then ByType(b, k) + {s} else ByType(b, k)
  {}

  lemma FillColor(b: Board, s: Square, pc: Piece, d: Color)
    requires b[s] == Empty && pc.Man?
    ensures ByColor(b[s := pc], d) == if d == pc.color then ByColor(b, d) + {s} else ByColor(b, d)
    ensures s !in ByColor(b, d)
  {}

  lemma FillWhere(b: Board, s: Square, pc: Piece, p: Piece)
    requires b[s] == Empty && pc.Man? && p.Man?
    ensures Where(b[s := pc], p) == if p == pc then Where(b, p) + {s} else Where(b, p)
    ensures s !in Where(b, p)
  {}

  /** An empty square is in no bitboard. */
  lemma NotThere(b: Board, s: Square)
    requires b[s] == Empty
    ensures s !in Occ(b)
    ensures forall k :: s !in ByType(b, k)
    ensures forall c :: s !in ByColor(b, c)
  {}

  /** The bitboards and counts kept beside a board are the ones it determines. */
  ghost predicate Consistent(b: Board, all: Bitboard, byType: map<PieceType, Bitboard>, byColor: map<Color, Bitboard>,
                             pieceCount: map<Piece, int>, colorCount: map<Color, int>)
  {
    && all == Occ(b)
    && (forall k :: k in byType && byType[k] == ByType(b, k))
    && (forall c :: c in byColor && byColor[c] == ByColor(b, c))
    && (forall p: Piece | p.Man? :: p in pieceCount && pieceCount[p] == Count(b, p))
    && (forall c :: c in colorCount && colorCount[c] == CountColor(b, c))
  }

  // Updating one entry of a table.

  function Including<K>(m: map<K, Bitboard>, k: K, s: Square): map<K, Bitboard> {
    if k in m then m[k := m[k] + {s}] else m
  }

  function Excluding<K>(m: map<K, Bitboard>, k: K, s: Square): map<K, Bitboard> {
    if k in m then m[k := m[k] - {s}] else m
  }

  function Toggling<K>(m: map<K, Bitboard>, k: K, b: Bitboard): map<K, Bitboard> {
    if k in m then m[k := Toggle(m[k], b)] else m
  }

  function Adding<K>(m: map<K, int>, k: K, d: int): map<K, int> { if k in m then m[k := m[k] + d] else m }

  lemma PutConsistent(b: Board, all: Bitboard, byType: map<PieceType, Bitboard>, byColor: map<Color, Bitboard>,
                      pieceCount: map<Piece, int>, colorCount: map<Color, int>, s: Square, pc: Piece)
    requires Consistent(b, all, byType, byColor, pieceCount, colorCount)
    requires b[s] == Empty && pc.Man?
    ensures Consistent(b[s := pc], all + {s}, Including(byType, pc.kind, s), Including(byColor, pc.color, s),
                       Adding(pieceCount, pc, 1), Adding(colorCount, pc.color, 1))
  {
    hide Occ, ByType, ByColor, Count, CountColor;
    FillSquare(b, s, pc);
  }

  lemma TakeConsistent(b: Board, all: Bitboard, byType: map<PieceType, Bitboard>, byColor: map<Color, Bitboard>,
                       pieceCount: map<Piece, int>, colorCount: map<Color, int>, s: Square)
    requires Consistent(b, all, byType, byColor, pieceCount, colorCount)
    requires b[s].Man?
    ensures Consistent(b[s := Empty], all - {s}, Excluding(byType, b[s].kind, s), Excluding(byColor, b[s].color, s),
                       Adding(pieceCount, b[s], -1), Adding(colorCount, b[s].color, -1))
  {
    hide Occ, ByType, ByColor, Count, CountColor;
    var pc := b[s];
    var c: Board := b[s := Empty];
    assert c[s := pc] == b;
    FillSquare(c, s, pc);
    NotThere(c, s);
  }

  lemma ToggleConsistent(b: Board, all: Bitboard, byType: map<PieceType, Bitboard>, byColor: map<Color, Bitboard>,
                         pieceCount: map<Piece, int>, colorCount: map<Color, int>, s: Square, t: Square)
    requires Consistent(b, all, byType, byColor, pieceCount, colorCount)
    requires b[s].Man? && b[t] == Empty
    ensures Consistent(b[s := Empty][t := b[s]], Toggle(all, {s, t}), Toggling(byType, b[s].kind, {s, t}),
                       Toggling(byColor, b[s].color, {s, t}), pieceCount, colorCount)
  {
    hide Occ, ByType, ByColor, Count, CountColor;
    var pc := b[s];
    var a: Board := b[s := Empty];
    assert a[s := pc] == b;
    FillSquare(a, s, pc);
    NotThere(a, s);
    FillSquare(a, t, pc);
    NotThere(b, t);
    assert Toggle(all, {s, t}) == all - {s} + {t};
    assert Toggle(byType[pc.kind], {s, t}) == byType[pc.kind] - {s} + {t};
    assert Toggle(byColor[pc.color], {s, t}) == byColor[pc.color] - {s} + {t};
  }
}
