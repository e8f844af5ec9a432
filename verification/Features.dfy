/**
 * The features of a position the network sums over, the sum itself, and what a move does
 * to it.  Everything is stated for one lane of the accumulator; lanes never meet.
 */
module Features {
  import opened Options
  import opened Types
  import opened Board
  import opened Threats
  import opened Making

  /** A piece on a square, a piece threatening another, or two pawns on near files. */
  datatype Feature =
    | Psq(s: Square, pc: Piece)
    | Thr(t: Threat)
    | Pair(a: Square, ca: Color, b: Square, cb: Color)

  datatype Change = Change(f: Feature, add: bool)

  /**
   * The network's parameters: `l1` 16-bit lanes and then 32-bit ones, a bias a lane, weights
   * by feature index and lane, and the index of a piece-square and of a threat feature.
   */
  datatype Network = Network(
    l1: nat,
    lanes: nat,
    bias: nat -> int,
    psqWeight: (nat, nat) -> int,
    threatWeight: (nat, nat) -> int,
    psqIndex: (Color, Square, Piece, Square) -> nat,
    threatIndex: (bool, Color, Threat) -> nat)

  const THREAT_DIMENSIONS := 59808

  /** `FullThreats::OrientTBL`: which half of the board the king stands on. */
  function Mirrored(ksq: Square): bool { File(ksq) >= 4 }

  /** The index of a pair of pawns: symmetric, by the larger and the smaller pawn number. */
  function PawnId(mirrored: bool, p: Color, c: Color, s: Square): (n: int)
    ensures -8 <= n
  {
    var file := if mirrored then 7 - File(s) else File(s);
    var rank := if p.White? then Rank(s) else 7 - Rank(s);
    (if c == p then 0 else 48) + 8 * rank + file - 8
  }

  function PairIndex(mirrored: bool, p: Color, a: Square, ca: Color, b: Square, cb: Color): nat {
    var x, y := PawnId(mirrored, p, ca, a), PawnId(mirrored, p, cb, b);
    var hi, lo := if x >= y then x else y, if x >= y then y else x;
    NeighboursMultiply(hi);
    hi * (hi - 1) / 2 + lo + THREAT_DIMENSIONS
  }

  lemma NeighboursMultiply(x: int)
    ensures x * (x - 1) >= 0
  {
    if x >= 1 { assert x * (x - 1) >= 0; } else { assert x * (x - 1) == -x * (1 - x); }
  }

  /** What an active feature adds to lane j of p's accumulator when p's king is on ksq. */
  function Weight(n: Network, p: Color, ksq: Square, j: nat, f: Feature): int {
    match f
    case Psq(s, pc) => n.psqWeight(n.psqIndex(p, s, pc, ksq), j)
    case Thr(t) =>
      var i := n.threatIndex(Mirrored(ksq), p, t);
      if i < THREAT_DIMENSIONS then n.threatWeight(i, j) else 0
    case Pair(a, ca, b, cb) => n.threatWeight(PairIndex(Mirrored(ksq), p, a, ca, b, cb), j)
  }

  function Signed(n: Network, p: Color, ksq: Square, j: nat, c: Change): int {
    if c.add then Weight(n, p, ksq, j, c.f) else -Weight(n, p, ksq, j, c.f)
  }

  /** What a list of changes adds to the lane. */
  function Sum(n: Network, p: Color, ksq: Square, j: nat, l: seq<Change>): int {
    if l == [] then 0 else Sum(n, p, ksq, j, l[..|l| - 1]) + Signed(n, p, ksq, j, l[|l| - 1])
  }

  /** How often a feature is added, less how often it is removed. */
  ghost function Balance(l: seq<Change>, f: Feature): int {
    var added: int := multiset(l)[Change(f, true)];
    var removed: int := multiset(l)[Change(f, false)];
    added - removed
  }

  ghost predicate SameBalance(k: seq<Change>, l: seq<Change>) { forall f :: Balance(k, f) == Balance(l, f) }

  lemma {:induction false} SumAppend(n: Network, p: Color, ksq: Square, j: nat, k: seq<Change>, l: seq<Change>)
    ensures Sum(n, p, ksq, j, k + l) == Sum(n, p, ksq, j, k) + Sum(n, p, ksq, j, l)
  {
    if l == [] {
      assert k + l == k;
    } else {
      var m := |l| - 1;
      SumAppend(n, p, ksq, j, k, l[..m]);
      assert (k + l)[..|k + l| - 1] == k + l[..m];
    }
  }

  lemma SumOne(n: Network, p: Color, ksq: Square, j: nat, c: Change)
    ensures Sum(n, p, ksq, j, [c]) == Signed(n, p, ksq, j, c)
  {
    assert [c][..0] == [];
  }

  function Opposite(c: Change): Change { c.(add := !c.add) }

  function Negated(l: seq<Change>): (r: seq<Change>)
    ensures |r| == |l|
  {
    if l == [] then [] else Negated(l[..|l| - 1]) + [Opposite(l[|l| - 1])]
  }

  lemma {:induction false} NegatedSum(n: Network, p: Color, ksq: Square, j: nat, l: seq<Change>)
    ensures Sum(n, p, ksq, j, Negated(l)) == -Sum(n, p, ksq, j, l)
  {
    if l != [] {
      NegatedSum(n, p, ksq, j, l[..|l| - 1]);
      SumAppend(n, p, ksq, j, Negated(l[..|l| - 1]), [Opposite(l[|l| - 1])]);
      SumOne(n, p, ksq, j, Opposite(l[|l| - 1]));
    }
  }

  lemma {:induction false} NegatedBalance(l: seq<Change>, f: Feature)
    ensures Balance(Negated(l), f) == -Balance(l, f)
  {
    if l != [] {
      hide Balance;
      var m := |l| - 1;
      NegatedBalance(l[..m], f);
      AppendBalance(l[..m], [l[m]], f);
      AppendBalance(Negated(l[..m]), [Opposite(l[m])], f);
      OppositeBalance(l[m], f);
      assert l == l[..m] + [l[m]];
    }
  }

  lemma OneBalance(c: Change, f: Feature)
    ensures Balance([c], f) == if c.f == f then (if c.add then 1 else -1) else 0
  {}

  lemma OppositeBalance(c: Change, f: Feature)
    ensures Balance([Opposite(c)], f) == -Balance([c], f)
  {}

  lemma AppendBalance(k: seq<Change>, l: seq<Change>, f: Feature)
    ensures Balance(k + l, f) == Balance(k, f) + Balance(l, f)
  {}

  /** The last change can be matched with an earlier opposite one. */
  lemma Match(l: seq<Change>) returns (k: nat)
    requires l != [] && Balance(l, l[|l| - 1].f) == 0
    ensures k < |l| - 1 && l[k] == Opposite(l[|l| - 1])
  {
    var m := |l| - 1;
    assert l == l[..m] + [l[m]];
    assert Opposite(l[m]) in multiset(l[..m]);
    k :| 0 <= k < m && l[k] == Opposite(l[m]);
  }

  function Without(l: seq<Change>, k: nat): seq<Change>
    requires k < |l| - 1
  {
    l[..k] + l[k + 1..|l| - 1]
  }

  lemma WithoutBalance(l: seq<Change>, k: nat, f: Feature)
    requires k < |l| - 1 && l[k] == Opposite(l[|l| - 1])
    ensures Balance(Without(l, k), f) == Balance(l, f)
  {
    var m := |l| - 1;
    assert l == l[..k] + [l[k]] + l[k + 1..m] + [l[m]];
    assert multiset(l) == multiset(Without(l, k)) + multiset{l[k], l[m]};
  }

  lemma WithoutSum(n: Network, p: Color, ksq: Square, j: nat, l: seq<Change>, k: nat)
    requires k < |l| - 1 && l[k] == Opposite(l[|l| - 1])
    ensures Sum(n, p, ksq, j, Without(l, k)) == Sum(n, p, ksq, j, l)
  {
    var m := |l| - 1;
    hide Weight;
    assert l[..m] == l[..k] + [l[k]] + l[k + 1..m];
    SumAppend(n, p, ksq, j, l[..k], l[k + 1..m]);
    SumAppend(n, p, ksq, j, l[..k] + [l[k]], l[k + 1..m]);
    SumAppend(n, p, ksq, j, l[..k], [l[k]]);
    SumOne(n, p, ksq, j, l[k]);
  }

  /** A list in which every feature is added as often as removed changes nothing. */
  lemma {:induction false} SumZero(n: Network, p: Color, ksq: Square, j: nat, l: seq<Change>)
    requires forall f :: Balance(l, f) == 0
    ensures Sum(n, p, ksq, j, l) == 0
    decreases |l|
  {
    if l != [] {
      hide Balance, Sum;
      var k := Match(l);
      forall f ensures Balance(Without(l, k), f) == 0 { WithoutBalance(l, k, f); }
      SumZero(n, p, ksq, j, Without(l, k));
      WithoutSum(n, p, ksq, j, l, k);
    }
  }

  /** Lists with the same balance add the same amount, in whatever order. */
  lemma BalanceDecides(n: Network, p: Color, ksq: Square, j: nat, k: seq<Change>, l: seq<Change>)
    requires SameBalance(k, l)
    ensures Sum(n, p, ksq, j, k) == Sum(n, p, ksq, j, l)
  {
    var both := k + Negated(l);
    forall f
      ensures Balance(both, f) == 0
    {
      NegatedBalance(l, f);
      assert Balance(k, f) == Balance(l, f);
    }
    SumZero(n, p, ksq, j, both);
    SumAppend(n, p, ksq, j, k, Negated(l));
    NegatedSum(n, p, ksq, j, l);
  }

  // ----- The features of a position -----

  function Listed(c: bool, f: Feature): seq<Change> { if c then [Change(f, true)] else [] }

  /** Every piece on its square. */
  function PsqList(b: Board, n: nat): seq<Change>
    requires n <= 64
  {
    if n == 0 then [] else PsqList(b, n - 1) + Listed(b[n - 1].Man?, Psq(n - 1, b[n - 1]))
  }

  function ThreatAt(b: Board, cell: nat): Threat
    requires cell < 4096
  {
    Threat(b[cell / 64], b[cell % 64], cell / 64, cell % 64)
  }

  /** Every threat of the threat relation. */
  function ThreatList(b: Board, n: nat): seq<Change>
    requires n <= 4096
  {
    if n == 0 then [] else ThreatList(b, n - 1) + Listed(IsThreat(b, ThreatAt(b, n - 1)), Thr(ThreatAt(b, n - 1)))
  }

  /** The pawns of both colours. */
  datatype Pawns = Pawns(white: Bitboard, black: Bitboard) {
    function All(): Bitboard { white + black }
    function Of(s: Square): Color { if s in black then Black else White }
    function Minus(o: Pawns): Bitboard { (white - o.white) + (black - o.black) }
  }

  function PawnsOf(b: Board): Pawns { Pawns(Pieces(b, White, Pawn), Pieces(b, Black, Pawn)) }

  /** `pawn_pair_bb`: own and adjacent files, ranks 2 to 7, the square itself left out. */
  predicate InBand(s: Square, t: Square) {
    s != t && -1 <= File(t) - File(s) <= 1 && 1 <= Rank(t) <= 6
  }

  predicate Inside(w: Pawns) { w.white !! w.black && forall s | s in w.All() :: 1 <= Rank(s) <= 6 }

  /** A pair of pawns is written with its lower square first. */
  predicate PairIn(w: Pawns, a: Square, b: Square) { a < b && a in w.All() && b in w.All() && InBand(a, b) }

  function PairAt(w: Pawns, a: Square, b: Square): Feature { Pair(a, w.Of(a), b, w.Of(b)) }

  /** Every pair with at least one member in `updated`. */
  function PairList(w: Pawns, updated: Bitboard, n: nat): seq<Change>
    requires n <= 4096
  {
    if n == 0 then [] else
      var a, b := (n - 1) / 64, (n - 1) % 64;
      PairList(w, updated, n - 1) + Listed(PairIn(w, a, b) && (a in updated || b in updated), PairAt(w, a, b))
  }

  /** Is the feature active on the board? */
  ghost predicate Active(b: Board, f: Feature) {
    match f
    case Psq(s, pc) => pc.Man? && b[s] == pc
    case Thr(t) => IsThreat(b, t)
    case Pair(s, c, t, d) => s < t && InBand(s, t) && b[s] == Man(c, Pawn) && b[t] == Man(d, Pawn)
  }

  function One(c: bool): int { if c then 1 else 0 }

  lemma PsqCounted(b: Board, n: nat, f: Feature)
    requires 0 < n <= 64
    ensures One(f.Psq? && f.s < n && f.pc.Man? && b[f.s] == f.pc) ==
            One(f.Psq? && f.s < n - 1 && f.pc.Man? && b[f.s] == f.pc) + One(b[n - 1].Man? && f == Psq(n - 1, b[n - 1]))
  {}

  lemma {:induction false} PsqListBalance(b: Board, n: nat, f: Feature)
    requires n <= 64
    ensures Balance(PsqList(b, n), f) == One(f.Psq? && f.s < n && f.pc.Man? && b[f.s] == f.pc)
  {
    if n > 0 {
      hide Balance, Listed, One;
      PsqCounted(b, n, f);
      PsqListBalance(b, n - 1, f);
      AppendBalance(PsqList(b, n - 1), Listed(b[n - 1].Man?, Psq(n - 1, b[n - 1])), f);
      ListedBalance(b[n - 1].Man?, Psq(n - 1, b[n - 1]), f);
    }
  }

  lemma ListedBalance(c: bool, g: Feature, f: Feature)
    ensures Balance(Listed(c, g), f) == One(c && f == g)
  {}

  lemma CellOf(s: Square, t: Square)
    ensures (64 * s + t) / 64 == s && (64 * s + t) % 64 == t
  {}

  lemma ThreatCell(b: Board, t: Threat, cell: nat)
    requires cell < 4096
    ensures IsThreat(b, t) && 64 * t.s + t.ts == cell <==> IsThreat(b, ThreatAt(b, cell)) && t == ThreatAt(b, cell)
  {
    hide Attacks, Counted;
    CellOf(t.s, t.ts);
  }

  lemma {:induction false} ThreatListBalance(b: Board, n: nat, f: Feature)
    requires n <= 4096
    ensures Balance(ThreatList(b, n), f) == One(f.Thr? && 64 * f.t.s + f.t.ts < n && IsThreat(b, f.t))
  {
    if n > 0 {
      var g := ThreatAt(b, n - 1);
      hide Balance, IsThreat, ThreatAt;
      ThreatListBalance(b, n - 1, f);
      AppendBalance(ThreatList(b, n - 1), Listed(IsThreat(b, g), Thr(g)), f);
      ListedBalance(IsThreat(b, g), Thr(g), f);
      if f.Thr? { ThreatCell(b, f.t, n - 1); }
    } else {
      AppendBalance([], [], f);
    }
  }

  predicate PairTouched(w: Pawns, updated: Bitboard, f: Feature) {
    f.Pair? && f == PairAt(w, f.a, f.b) && PairIn(w, f.a, f.b) && (f.a in updated || f.b in updated)
  }

  lemma PairCell(w: Pawns, updated: Bitboard, f: Feature, a: Square, b: Square)
    requires f.Pair?
    ensures PairTouched(w, updated, f) && 64 * f.a + f.b == 64 * a + b <==>
            PairIn(w, a, b) && (a in updated || b in updated) && f == PairAt(w, a, b)
  {
    hide InBand;
    CellOf(f.a, f.b);
    CellOf(a, b);
  }

  /** How often the pairs of the first n cells hold the feature. */
  function PairsBelow(w: Pawns, updated: Bitboard, n: nat, f: Feature): int {
    One(f.Pair? && 64 * f.a + f.b < n && PairTouched(w, updated, f))
  }

  lemma {:induction false} PairListBalance(w: Pawns, updated: Bitboard, n: nat, f: Feature)
    requires n <= 4096
    ensures Balance(PairList(w, updated, n), f) == PairsBelow(w, updated, n, f)
  {
    hide *;
    if n == 0 {
      NoPairs(w, updated, f);
    } else {
      var a, b := CellAt(n - 1);
      PairListBalance(w, updated, n - 1, f);
      PairListNext(w, updated, a, b, f);
    }
  }

  lemma NoPairs(w: Pawns, updated: Bitboard, f: Feature)
    ensures Balance(PairList(w, updated, 0), f) == PairsBelow(w, updated, 0, f)
  {}

  lemma CellAt(cell: nat) returns (a: Square, b: Square)
    requires cell < 4096
    ensures 64 * a + b == cell
  {
    a, b := cell / 64, cell % 64;
  }

  /** The cell of a and b adds its own pair and no other. */
  lemma PairListNext(w: Pawns, updated: Bitboard, a: Square, b: Square, f: Feature)
    requires Balance(PairList(w, updated, 64 * a + b), f) == PairsBelow(w, updated, 64 * a + b, f)
    ensures Balance(PairList(w, updated, 64 * a + b + 1), f) == PairsBelow(w, updated, 64 * a + b + 1, f)
  {
    hide Balance, PairTouched, PairIn;
    CellOf(a, b);
    var n := 64 * a + b + 1;
    assert (n - 1) / 64 == a && (n - 1) % 64 == b;
    var c := PairIn(w, a, b) && (a in updated || b in updated);
    AppendBalance(PairList(w, updated, 64 * a + b), Listed(c, PairAt(w, a, b)), f);
    ListedBalance(c, PairAt(w, a, b), f);
    if f.Pair? { PairCell(w, updated, f, a, b); }
  }

  lemma PawnAt(b: Board, s: Square)
    ensures var w := PawnsOf(b);
            && (s in w.All() <==> b[s] == Man(White, Pawn) || b[s] == Man(Black, Pawn))
            && (s in w.All() ==> b[s] == Man(w.Of(s), Pawn))
            && (s in w.white <==> b[s] == Man(White, Pawn)) && (s in w.black <==> b[s] == Man(Black, Pawn))
  {}

  lemma PairActive(b: Board, f: Feature)
    requires f.Pair?
    ensures Active(b, f) <==> PairTouched(PawnsOf(b), PawnsOf(b).All(), f)
  {
    hide InBand, PawnsOf, Pawns.All;
    PawnAt(b, f.a);
    PawnAt(b, f.b);
    assert f.ca == White || f.ca == Black;
    assert f.cb == White || f.cb == Black;
  }

  /** The threat and pawn pair features: they depend on the king's half alone. */
  function SideList(b: Board): seq<Change> { ThreatList(b, 4096) + PairList(PawnsOf(b), PawnsOf(b).All(), 4096) }

  lemma PsqIsActive(b: Board, f: Feature)
    ensures Balance(PsqList(b, 64), f) == One(f.Psq? && Active(b, f))
  {
    PsqListBalance(b, 64, f);
  }

  lemma SideIsActive(b: Board, f: Feature)
    ensures Balance(SideList(b), f) == One(!f.Psq? && Active(b, f))
  {
    hide IsThreat, InBand, Balance, PawnsOf, Pawns.All, PairTouched;
    var w := PawnsOf(b);
    if f.Pair? { PairActive(b, f); }
    ThreatListBalance(b, 4096, f);
    PairListBalance(w, w.All(), 4096, f);
    AppendBalance(ThreatList(b, 4096), PairList(w, w.All(), 4096), f);
  }

  // ----- What a move reports -----

  /** `DirtyPiece`: what leaves and what arrives. */
  datatype DirtyPiece = DirtyPiece(pc: Piece, from: Square, to: Option<Square>, remove: Option<(Square, Piece)>,
      add: Option<(Square, Piece)>)

  /** `Dirties`. */
  datatype Dirties = Dirties(piece: DirtyPiece, threats: seq<DirtyThreat>, before: Pawns, after: Pawns)

  function Lifted(b: Board, dp: DirtyPiece): Board {
    if dp.remove.Some? then b[dp.from := Empty][dp.remove.value.0 := Empty] else b[dp.from := Empty]
  }

  function Landed(b: Board, dp: DirtyPiece): Board {
    var c: Board := if dp.to.Some? then b[dp.to.value := dp.pc] else b;
    if dp.add.Some? then c[dp.add.value.0 := dp.add.value.1] else c
  }

  /** The dirty piece tells how c came from b: first pieces leave, then pieces arrive on empty squares. */
  ghost predicate PieceDescribes(dp: DirtyPiece, b: Board, c: Board) {
    && dp.pc.Man? && b[dp.from] == dp.pc
    && (dp.remove.Some? ==>
        dp.remove.value.0 != dp.from && dp.remove.value.1.Man? && b[dp.remove.value.0] == dp.remove.value.1)
    && (dp.to.Some? ==> Lifted(b, dp)[dp.to.value] == Empty)
    && (dp.add.Some? ==> dp.add.value.1.Man? && Lifted(b, dp)[dp.add.value.0] == Empty && dp.to != Some(dp.add.value.0))
    && (dp.remove.Some? ==> dp.remove.value.1.kind != King) && (dp.add.Some? ==> dp.add.value.1.kind != King)
    && (dp.pc.kind == King ==> dp.to.Some? && (dp.add == None ==> dp.to != Some(dp.from)))
    && (dp.pc.kind == King && dp.add == None && dp.remove.Some? ==> dp.to == Some(dp.remove.value.0))
    && c == Landed(Lifted(b, dp), dp)
  }

  /** The report tells exactly what changed from b to c. */
  ghost predicate Describes(d: Dirties, b: Board, c: Board) {
    PieceDescribes(d.piece, b, c) && Tracks([], d.threats, b, c) && d.before == PawnsOf(b) && d.after == PawnsOf(c)
  }

  /** The dirty piece do_move reports. */
  function DirtyPieceOf(b: Board, us: Color, m: Move): DirtyPiece {
    var pc, captured := b[m.from], Captured(b, us, m);
    if m.mtype == Castling then
      DirtyPiece(pc, m.from, Some(KingTo(us, m)), Some((m.to, Man(us, Rook))), Some((RookTo(us, m), Man(us, Rook))))
    else
      var capsq: Square := if m.mtype == EnPassant && 0 <= CaptureSquare(us, m) < 64 then CaptureSquare(us, m)
          else m.to;
      DirtyPiece(pc, m.from, if m.mtype == Promotion then None else Some(m.to),
                 if captured.Man? then Some((capsq, captured)) else None,
                 if m.mtype == Promotion then Some((m.to, Man(us, m.promo))) else None)
  }

  /** What do_move reports describes the move it makes. */
  lemma MoveDescribed(b: Board, us: Color, ep: Option<Square>, m: Move)
    requires MoveOk(b, us, ep, m)
    ensures PieceDescribes(DirtyPieceOf(b, us, m), b, ApplyMove(b, us, m))
  {
    hide RelativeSquare, PawnAttacks, Xor16;
    CastlingTargets(us, m);
  }

  /**
   * The report left behind by do_move, its threat list started empty, describes the move; and
   * something leaves in a capture or in castling, something arrives in a promotion or in castling.
   */
  lemma ReportDescribes(b: Board, us: Color, ep: Option<Square>, m: Move, l0: seq<DirtyThreat>, d: Dirties)
    requires MoveOk(b, us, ep, m) && Tracks(l0, d.threats, b, ApplyMove(b, us, m))
    requires d.piece == DirtyPieceOf(b, us, m) && d.before == PawnsOf(b) && d.after == PawnsOf(ApplyMove(b, us, m))
    ensures l0 == [] ==> Describes(d, b, ApplyMove(b, us, m))
    ensures d.piece.remove.Some? <==> Captured(b, us, m).Man? || m.mtype == Castling
    ensures d.piece.add.Some? <==> m.mtype == Promotion || m.mtype == Castling
  {
    MoveDescribed(b, us, ep, m);
    hide PieceDescribes, Tracks, MoveOk, ApplyMove, PawnsOf, Captured;
  }

  /** `HalfKAv2_hm::append_changed_indices`, as changes. */
  function PsqChanges(dp: DirtyPiece): seq<Change> {
    [Change(Psq(dp.from, dp.pc), false)]
    + (if dp.to.Some? then [Change(Psq(dp.to.value, dp.pc), true)] else [])
    + (if dp.remove.Some? then [Change(Psq(dp.remove.value.0, dp.remove.value.1), false)] else [])
    + (if dp.add.Some? then [Change(Psq(dp.add.value.0, dp.add.value.1), true)] else [])
  }

  function ThreatChanges(l: seq<DirtyThreat>): (r: seq<Change>)
    ensures |r| == |l|
  {
    if l == [] then [] else ThreatChanges(l[..|l| - 1]) + [Change(Thr(l[|l| - 1].t), l[|l| - 1].add)]
  }

  /** New pairs hold a new pawn, lost pairs a lost one. */
  function PairChanges(before: Pawns, after: Pawns): seq<Change> {
    PairList(after, after.Minus(before), 4096) + Negated(PairList(before, before.Minus(after), 4096))
  }

  function SideChanges(d: Dirties): seq<Change> { ThreatChanges(d.threats) + PairChanges(d.before, d.after) }

  lemma PsqChangesBalance(dp: DirtyPiece, b: Board, c: Board, f: Feature)
    requires PieceDescribes(dp, b, c)
    ensures Balance(PsqChanges(dp), f) == Balance(PsqList(c, 64), f) - Balance(PsqList(b, 64), f)
  {
    PsqIsActive(b, f);
    PsqIsActive(c, f);
    PsqChangesCount(dp, f);
    hide Balance, PsqList;
  }

  lemma PsqChangesCount(dp: DirtyPiece, f: Feature)
    ensures Balance(PsqChanges(dp), f) ==
            One(dp.to.Some? && f == Psq(dp.to.value, dp.pc))
                + One(dp.add.Some? && f == Psq(dp.add.value.0, dp.add.value.1))
            - One(f == Psq(dp.from, dp.pc)) - One(dp.remove.Some? && f == Psq(dp.remove.value.0, dp.remove.value.1))
  {}

  lemma {:induction false} ThreatChangesBalance(l: seq<DirtyThreat>, f: Feature)
    ensures Balance(ThreatChanges(l), f) == if f.Thr? then Net(l, f.t) else 0
  {
    if l != [] {
      var m := |l| - 1;
      var x := l[m];
      hide Balance;
      ThreatChangesBalance(l[..m], f);
      AppendBalance(ThreatChanges(l[..m]), [Change(Thr(x.t), x.add)], f);
      OneBalance(Change(Thr(x.t), x.add), f);
      assert l == l[..m] + [x];
    }
  }

  /** A pair neither of whose pawns is new was there before, and the other way round. */
  lemma PairSteady(w: Pawns, v: Pawns, f: Feature)
    requires w.white !! w.black && v.white !! v.black
    ensures One(PairTouched(v, v.All(), f)) - One(PairTouched(w, w.All(), f)) ==
            One(PairTouched(v, v.Minus(w), f)) - One(PairTouched(w, w.Minus(v), f))
  {
    hide InBand;
  }

  lemma PairChangesBalance(b: Board, c: Board, f: Feature)
    ensures Balance(PairChanges(PawnsOf(b), PawnsOf(c)), f)
        == One(f.Pair? && Active(c, f)) - One(f.Pair? && Active(b, f))
  {
    var w, v := PawnsOf(b), PawnsOf(c);
    if f.Pair? {
      PairActive(b, f);
      PairActive(c, f);
      PairSteady(w, v, f);
    }
    hide Balance, Active, PawnsOf, Pawns.All, PairTouched, Pawns.Minus;
    PairListBalance(v, v.Minus(w), 4096, f);
    PairListBalance(w, w.Minus(v), 4096, f);
    NegatedBalance(PairList(w, w.Minus(v), 4096), f);
    AppendBalance(PairList(v, v.Minus(w), 4096), Negated(PairList(w, w.Minus(v), 4096)), f);
  }

  lemma SideChangesBalance(d: Dirties, b: Board, c: Board, f: Feature)
    requires Describes(d, b, c)
    ensures Balance(SideChanges(d), f) == Balance(SideList(c), f) - Balance(SideList(b), f)
  {
    SideIsActive(b, f);
    SideIsActive(c, f);
    ThreatChangesBalance(d.threats, f);
    PairChangesBalance(b, c, f);
    AppendBalance(ThreatChanges(d.threats), PairChanges(d.before, d.after), f);
    hide Balance, PairChanges, ThreatChanges, SideList, IsThreat, PieceDescribes;
    if f.Thr? { assert Net(d.threats, f.t) - Net([], f.t) == Present(c, f.t) - Present(b, f.t); }
  }

  /** Applying the reported changes to the old sum gives the new one, the king's square being the same. */
  lemma SumsAdvance(n: Network, p: Color, ksq: Square, j: nat, d: Dirties, b: Board, c: Board)
    requires Describes(d, b, c)
    ensures Sum(n, p, ksq, j, PsqList(c, 64)) == Sum(n, p, ksq, j, PsqList(b, 64))
        + Sum(n, p, ksq, j, PsqChanges(d.piece))
    ensures Sum(n, p, ksq, j, SideList(c)) == Sum(n, p, ksq, j, SideList(b)) + Sum(n, p, ksq, j, SideChanges(d))
  {
    forall f
      ensures Balance(PsqList(c, 64), f) == Balance(PsqList(b, 64) + PsqChanges(d.piece), f)
      ensures Balance(SideList(c), f) == Balance(SideList(b) + SideChanges(d), f)
    {
      PsqChangesBalance(d.piece, b, c, f);
      SideChangesBalance(d, b, c, f);
      AppendBalance(PsqList(b, 64), PsqChanges(d.piece), f);
      AppendBalance(SideList(b), SideChanges(d), f);
      hide *;
    }
    assert SameBalance(PsqList(c, 64), PsqList(b, 64) + PsqChanges(d.piece));
    assert SameBalance(SideList(c), SideList(b) + SideChanges(d));
    hide *;
    BalanceDecides(n, p, ksq, j, PsqList(c, 64), PsqList(b, 64) + PsqChanges(d.piece));
    BalanceDecides(n, p, ksq, j, SideList(c), SideList(b) + SideChanges(d));
    SumAppend(n, p, ksq, j, PsqList(b, 64), PsqChanges(d.piece));
    SumAppend(n, p, ksq, j, SideList(b), SideChanges(d));
  }

  /** Threat and pawn pair weights depend on the king's half only. */
  lemma {:induction false} HalfDecides(n: Network, p: Color, k: Square, k': Square, j: nat, l: seq<Change>)
    requires Mirrored(k) == Mirrored(k') && forall c | c in l :: !c.f.Psq?
    ensures Sum(n, p, k, j, l) == Sum(n, p, k', j, l)
  {
    if l != [] { HalfDecides(n, p, k, k', j, l[..|l| - 1]); }
  }
}
