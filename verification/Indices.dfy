/**
 * The lists of feature indices the accumulator code builds: which were lost, which are new,
 * which are active.  Each loop is proved to list the right features, each once.
 */
module Indices {
  import opened Types
  import opened Board
  import opened Geometry
  import opened Threats
  import opened Checks
  import opened Features

  datatype PerColor<T> = PerColor(white: T, black: T) {
    function At(c: Color): T { if c.White? then white else black }
    function With(c: Color, t: T): PerColor<T> { if c.White? then this.(white := t) else this.(black := t) }
  }

  /** Arithmetic of a lane: 16 bits in the first l1 lanes, 32 bits in the others. */
  function Width(n: Network, j: nat): int { if j < n.l1 then 0x1_0000 else 0x1_0000_0000 }

  function Fit(n: Network, j: nat, x: int): int { x % Width(n, j) }

  lemma FitAdd(n: Network, j: nat, x: int, y: int)
    ensures Fit(n, j, Fit(n, j, x) + y) == Fit(n, j, x + y)
  {
    var m := Width(n, j);
    var q, r := x / m, x % m;
    assert x == q * m + r;
    var s, t := (r + y) / m, (r + y) % m;
    assert r + y == s * m + t;
    assert x + y == q * m + s * m + t;
    if j < n.l1 { Residue16(x + y, q + s, t); } else { Residue32(x + y, q + s, t); }
  }

  lemma Residue16(x: int, q: int, r: int)
    requires x == q * 0x1_0000 + r && 0 <= r < 0x1_0000
    ensures x % 0x1_0000 == r
  {}

  lemma Residue32(x: int, q: int, r: int)
    requires x == q * 0x1_0000_0000 + r && 0 <= r < 0x1_0000_0000
    ensures x % 0x1_0000_0000 == r
  {}

  // ----- What the stored sums should be -----

  /** Bias and piece-square part. */
  function PsqPart(n: Network, p: Color, ksq: Square, b: Board, j: nat): int {
    n.bias(j) + Sum(n, p, ksq, j, PsqList(b, 64))
  }

  function SidePart(n: Network, p: Color, ksq: Square, b: Board, j: nat): int { Sum(n, p, ksq, j, SideList(b)) }

  /** A lane computed from scratch: the bias and the weight of every active feature. */
  function Full(n: Network, p: Color, ksq: Square, b: Board, j: nat): int {
    PsqPart(n, p, ksq, b, j) + SidePart(n, p, ksq, b, j)
  }

  predicate BoardFine(b: Board) {
    Pieces(b, White, King) != {} && Pieces(b, Black, King) != {} && |Pieces(b, White, King)| == 1
        && |Pieces(b, Black, King)| == 1
    && Inside(PawnsOf(b))
  }

  function Ksq(b: Board, p: Color): Square
    requires BoardFine(b)
  {
    if p.White? then KingSq(b, White) else KingSq(b, Black)
  }

  /** Every lane of v is the sum from scratch. */
  ghost predicate Right(n: Network, p: Color, ksq: Square, b: Board, v: seq<int>) {
    |v| == n.lanes && forall j | 0 <= j < n.lanes :: v[j] == Fit(n, j, Full(n, p, ksq, b, j))
  }

  /** One entry of the refresh cache: the piece-square part for the pieces stored beside it. */
  datatype Entry = Entry(acc: seq<int>, pieces: Board, pieceBB: Bitboard)

  ghost predicate EntryRight(n: Network, p: Color, ksq: Square, e: Entry) {
    && |e.acc| == n.lanes && e.pieceBB == Occ(e.pieces)
    && forall j | 0 <= j < n.lanes :: e.acc[j] == Fit(n, j, PsqPart(n, p, ksq, e.pieces, j))
  }

  // ----- Lists of indices -----

  function WeightSum(w: (nat, nat) -> int, l: seq<nat>, j: nat): int {
    if l == [] then 0 else WeightSum(w, l[..|l| - 1], j) + w(l[|l| - 1], j)
  }

  lemma WeightSumPush(w: (nat, nat) -> int, l: seq<nat>, i: nat, j: nat)
    ensures WeightSum(w, l + [i], j) == WeightSum(w, l, j) + w(i, j)
  {
    assert (l + [i])[..|l + [i]| - 1] == l;
  }

  /** The index list has grown from base by the weights of the changes L, all of them additions. */
  ghost predicate Tally(w: (nat, nat) -> int, n: Network, p: Color, ksq: Square, base: seq<nat>, l: seq<nat>,
      L: seq<Change>) {
    forall j :: WeightSum(w, l, j) == WeightSum(w, base, j) + Sum(n, p, ksq, j, L)
  }

  /** Pushing a piece-square index. */
  lemma TallyPsq(n: Network, p: Color, ksq: Square, base: seq<nat>, l: seq<nat>, L: seq<Change>, s: Square, pc: Piece)
    requires Tally(n.psqWeight, n, p, ksq, base, l, L)
    ensures Tally(n.psqWeight, n, p, ksq, base, l + [n.psqIndex(p, s, pc, ksq)], L + [Change(Psq(s, pc), true)])
  {
    forall j
      ensures WeightSum(n.psqWeight, l + [n.psqIndex(p, s, pc, ksq)], j) == WeightSum(n.psqWeight, base, j)
          + Sum(n, p, ksq, j, L + [Change(Psq(s, pc), true)])
    {
      WeightSumPush(n.psqWeight, l, n.psqIndex(p, s, pc, ksq), j);
      SumAppend(n, p, ksq, j, L, [Change(Psq(s, pc), true)]);
      SumOne(n, p, ksq, j, Change(Psq(s, pc), true));
    }
  }

  function PushIfLess(l: seq<nat>, i: nat, bound: nat): seq<nat> { if i < bound then l + [i] else l }

  /** Pushing a threat index, dropped when it is not a feature. */
  lemma TallyThreat(n: Network, p: Color, ksq: Square, base: seq<nat>, l: seq<nat>, L: seq<Change>, t: Threat)
    requires Tally(n.threatWeight, n, p, ksq, base, l, L)
    ensures Tally(n.threatWeight, n, p, ksq, base,
        PushIfLess(l, n.threatIndex(Mirrored(ksq), p, t), THREAT_DIMENSIONS), L + [Change(Thr(t), true)])
  {
    var i := n.threatIndex(Mirrored(ksq), p, t);
    forall j
      ensures WeightSum(n.threatWeight, PushIfLess(l, i, THREAT_DIMENSIONS), j) == WeightSum(n.threatWeight, base, j)
          + Sum(n, p, ksq, j, L + [Change(Thr(t), true)])
    {
      WeightSumPush(n.threatWeight, l, i, j);
      SumAppend(n, p, ksq, j, L, [Change(Thr(t), true)]);
      SumOne(n, p, ksq, j, Change(Thr(t), true));
    }
  }

  /** Pushing the index of a pair, named from either end. */
  lemma TallyPair(n: Network, p: Color, ksq: Square, base: seq<nat>, l: seq<nat>, L: seq<Change>, a: Square,
      ca: Color, b: Square, cb: Color)
    requires Tally(n.threatWeight, n, p, ksq, base, l, L)
    ensures Tally(n.threatWeight, n, p, ksq, base, l + [PairIndex(Mirrored(ksq), p, a, ca, b, cb)],
                  L + [Change(if a < b then Pair(a, ca, b, cb) else Pair(b, cb, a, ca), true)])
  {
    var i := PairIndex(Mirrored(ksq), p, a, ca, b, cb);
    var c := Change(if a < b then Pair(a, ca, b, cb) else Pair(b, cb, a, ca), true);
    forall j
      ensures WeightSum(n.threatWeight, l + [i], j) == WeightSum(n.threatWeight, base, j) + Sum(n, p, ksq, j, L + [c])
    {
      WeightSumPush(n.threatWeight, l, i, j);
      SumAppend(n, p, ksq, j, L, [c]);
      SumOne(n, p, ksq, j, c);
    }
  }

  /** L adds each feature of S once and no other. */
  ghost predicate Covers(L: seq<Change>, S: iset<Feature>) {
    forall f :: Balance(L, f) == One(f in S)
  }

  lemma CoversOne(L: seq<Change>, S: iset<Feature>, f: Feature)
    requires Covers(L, S) && f !in S
    ensures Covers(L + [Change(f, true)], S + iset{f})
  {}

  // ----- Collecting indices -----

  ghost function OnSquares(b: Board, bb: Bitboard): iset<Feature> {
    iset f: Feature | f.Psq? && f.s in bb && f.pc == b[f.s]
  }

  /** The loop that pops the squares of a bitboard and pushes the piece-square index of each. */
  method CollectIndices(n: Network, p: Color, ksq: Square, b: Board, bb0: Bitboard)
      returns (l: seq<nat>, ghost L: seq<Change>)
    ensures Tally(n.psqWeight, n, p, ksq, [], l, L) && Covers(L, OnSquares(b, bb0))
  {
    l, L := [], [];
    var bb := bb0;
    while bb != {}
      invariant bb <= bb0
      invariant Tally(n.psqWeight, n, p, ksq, [], l, L) && Covers(L, OnSquares(b, bb0 - bb))
    {
      var sq := Lsb(bb);
      TallyPsq(n, p, ksq, [], l, L, sq, b[sq]);
      CoversOne(L, OnSquares(b, bb0 - bb), Psq(sq, b[sq]));
      assert OnSquares(b, bb0 - bb) + iset{Psq(sq, b[sq])} == OnSquares(b, bb0 - (bb - {sq}));
      hide Covers, Tally;
      bb := bb - {sq};
      l := l + [n.psqIndex(p, sq, b[sq], ksq)];
      L := L + [Change(Psq(sq, b[sq]), true)];
    }
    assert bb0 - bb == bb0;
  }

  function Differ(x: Board, y: Board): Bitboard { set s: Square | 0 <= s < 64 && x[s] != y[s] }

  /** `get_changed_pieces`. */
  method GetChangedPieces(x: Board, y: Board) returns (changed: Bitboard)
    ensures changed == Differ(x, y)
  {
    changed := {};
    for sq := 0 to 64
      invariant changed == set s: Square | 0 <= s < sq && x[s] != y[s]
    {
      if x[sq] != y[sq] { changed := changed + {sq}; }
    }
  }

  lemma ActiveSwap(x: Board, y: Board, f: Feature)
    ensures One(f.Psq? && Active(y, f)) ==
            One(f.Psq? && Active(x, f)) + One(f in OnSquares(y, Differ(x, y) * Occ(y))) - One(f
                in OnSquares(x, Differ(x, y) * Occ(x)))
  {
    hide IsThreat, InBand;
  }

  /** Turning the pieces of x into those of y: remove what changed in x, add what changed in y. */
  lemma PsqDifference(n: Network, p: Color, ksq: Square, j: nat, x: Board, y: Board, R: seq<Change>, A: seq<Change>)
    requires Covers(R, OnSquares(x, Differ(x, y) * Occ(x))) && Covers(A, OnSquares(y, Differ(x, y) * Occ(y)))
    ensures Sum(n, p, ksq, j, PsqList(y, 64)) == Sum(n, p, ksq, j, PsqList(x, 64))
        + Sum(n, p, ksq, j, A) - Sum(n, p, ksq, j, R)
  {
    var l := PsqList(x, 64) + (A + Negated(R));
    forall f
      ensures Balance(PsqList(y, 64), f) == Balance(l, f)
    {
      PsqIsActive(x, f);
      PsqIsActive(y, f);
      NegatedBalance(R, f);
      AppendBalance(A, Negated(R), f);
      AppendBalance(PsqList(x, 64), A + Negated(R), f);
      assert Balance(R, f) == One(f in OnSquares(x, Differ(x, y) * Occ(x)))
          && Balance(A, f) == One(f in OnSquares(y, Differ(x, y) * Occ(y)));
      ActiveSwap(x, y, f);
      hide *;
    }
    BalanceDecides(n, p, ksq, j, PsqList(y, 64), l);
    hide *;
    SumAppend(n, p, ksq, j, PsqList(x, 64), A + Negated(R));
    SumAppend(n, p, ksq, j, A, Negated(R));
    NegatedSum(n, p, ksq, j, R);
  }

  // ----- Changed indices -----

  /** `HalfKAv2_hm::append_changed_indices`. */
  method AppendPsqChanges(n: Network, p: Color, ksq: Square, dp: DirtyPiece)
      returns (removed: seq<nat>, added: seq<nat>)
    ensures forall j ::
        WeightSum(n.psqWeight, added, j) - WeightSum(n.psqWeight, removed, j) == Sum(n, p, ksq, j, PsqChanges(dp))
  {
    var i0 := n.psqIndex(p, dp.from, dp.pc, ksq);
    removed, added := [i0], [];
    ghost var w := n.psqWeight;
    PushAll(w, [], i0);
    if dp.to.Some? {
      PushAll(w, added, n.psqIndex(p, dp.to.value, dp.pc, ksq));
      added := added + [n.psqIndex(p, dp.to.value, dp.pc, ksq)];
    }
    if dp.remove.Some? {
      PushAll(w, removed, n.psqIndex(p, dp.remove.value.0, dp.remove.value.1, ksq));
      removed := removed + [n.psqIndex(p, dp.remove.value.0, dp.remove.value.1, ksq)];
    }
    if dp.add.Some? {
      PushAll(w, added, n.psqIndex(p, dp.add.value.0, dp.add.value.1, ksq));
      added := added + [n.psqIndex(p, dp.add.value.0, dp.add.value.1, ksq)];
    }
    forall j ensures Sum(n, p, ksq, j, PsqChanges(dp)) == WeightSum(w, added, j) - WeightSum(w, removed, j) {
      FourChanges(n, p, ksq, dp, j);
      hide *;
    }
  }

  lemma PushAll(w: (nat, nat) -> int, l: seq<nat>, i: nat)
    ensures forall j :: WeightSum(w, [], j) == 0
    ensures [] + [i] == [i]
    ensures forall j :: WeightSum(w, l + [i], j) == WeightSum(w, l, j) + w(i, j)
  {
    forall j ensures WeightSum(w, l + [i], j) == WeightSum(w, l, j) + w(i, j) { WeightSumPush(w, l, i, j); }
  }

  lemma FourChanges(n: Network, p: Color, ksq: Square, dp: DirtyPiece, j: nat)
    ensures Sum(n, p, ksq, j, PsqChanges(dp)) ==
            - n.psqWeight(n.psqIndex(p, dp.from, dp.pc, ksq), j)
            + (if dp.to.Some? then n.psqWeight(n.psqIndex(p, dp.to.value, dp.pc, ksq), j) else 0)
            - (if dp.remove.Some? then n.psqWeight(n.psqIndex(p, dp.remove.value.0, dp.remove.value.1, ksq), j) else 0)
            + (if dp.add.Some? then n.psqWeight(n.psqIndex(p, dp.add.value.0, dp.add.value.1, ksq), j) else 0)
  {
    var l0 := [Change(Psq(dp.from, dp.pc), false)];
    var l1 := if dp.to.Some? then [Change(Psq(dp.to.value, dp.pc), true)] else [];
    var l2 := if dp.remove.Some? then [Change(Psq(dp.remove.value.0, dp.remove.value.1), false)] else [];
    var l3 := if dp.add.Some? then [Change(Psq(dp.add.value.0, dp.add.value.1), true)] else [];
    assert PsqChanges(dp) == l0 + l1 + l2 + l3;
    SumAppend(n, p, ksq, j, l0 + l1 + l2, l3);
    SumAppend(n, p, ksq, j, l0 + l1, l2);
    SumAppend(n, p, ksq, j, l0, l1);
    SumOne(n, p, ksq, j, l0[0]);
    if dp.to.Some? { SumOne(n, p, ksq, j, l1[0]); }
    if dp.remove.Some? { SumOne(n, p, ksq, j, l2[0]); }
    if dp.add.Some? { SumOne(n, p, ksq, j, l3[0]); }
  }

  /** `FullThreats::append_changed_indices`. */
  method AppendThreatChanges(n: Network, p: Color, ksq: Square, list: seq<DirtyThreat>, removed0: seq<nat>,
      added0: seq<nat>)
      returns (removed: seq<nat>, added: seq<nat>)
    ensures forall j :: WeightSum(n.threatWeight, added, j) - WeightSum(n.threatWeight, removed, j) ==
                        WeightSum(n.threatWeight, added0, j) - WeightSum(n.threatWeight, removed0, j)
                            + Sum(n, p, ksq, j, ThreatChanges(list))
  {
    removed, added := removed0, added0;
    for k := 0 to |list|
      invariant forall j :: WeightSum(n.threatWeight, added, j) - WeightSum(n.threatWeight, removed, j) ==
                            WeightSum(n.threatWeight, added0, j) - WeightSum(n.threatWeight, removed0, j)
                                + Sum(n, p, ksq, j, ThreatChanges(list[..k]))
    {
      var dirty := list[k];
      var index := n.threatIndex(Mirrored(ksq), p, dirty.t);
      assert list[..k + 1][..k] == list[..k];
      forall j
        ensures Sum(n, p, ksq, j, ThreatChanges(list[..k + 1])) == Sum(n, p, ksq, j, ThreatChanges(list[..k]))
            + Signed(n, p, ksq, j, Change(Thr(dirty.t), dirty.add))
        ensures WeightSum(n.threatWeight, PushIfLess(added, index, THREAT_DIMENSIONS), j) ==
                WeightSum(n.threatWeight, added, j) + Weight(n, p, ksq, j, Thr(dirty.t))
        ensures WeightSum(n.threatWeight, PushIfLess(removed, index, THREAT_DIMENSIONS), j) ==
                WeightSum(n.threatWeight, removed, j) + Weight(n, p, ksq, j, Thr(dirty.t))
      {
        SumAppend(n, p, ksq, j, ThreatChanges(list[..k]), [Change(Thr(dirty.t), dirty.add)]);
        SumOne(n, p, ksq, j, Change(Thr(dirty.t), dirty.add));
        WeightSumPush(n.threatWeight, added, index, j);
        WeightSumPush(n.threatWeight, removed, index, j);
      }
      hide Weight, Sum, WeightSum, PushIfLess, ThreatChanges;
      if dirty.add {
        added := PushIfLess(added, index, THREAT_DIMENSIONS);
      } else {
        removed := PushIfLess(removed, index, THREAT_DIMENSIONS);
      }
    }
    assert list[..|list|] == list;
  }

  function PairOf(a: Square, ca: Color, b: Square, cb: Color): Feature {
    if a < b then Pair(a, ca, b, cb) else Pair(b, cb, a, ca)
  }

  ghost function PairsWith(a: Square, ca: Color, bb: Bitboard, cb: Color): iset<Feature> {
    iset f: Feature | f.Pair? && ((f.a == a && f.ca == ca && f.b in bb && f.cb == cb && f.a < f.b)
                                  || (f.b == a && f.cb == ca && f.a in bb && f.ca == cb && f.a < f.b))
  }

  lemma PairsStep(a: Square, ca: Color, bb0: Bitboard, bb: Bitboard, b: Square, cb: Color)
    requires b in bb && bb <= bb0 && a !in bb0
    ensures var f := PairOf(a, ca, b, cb);
            && f in PairsWith(a, ca, bb0, cb) && f !in PairsWith(a, ca, bb0 - bb, cb)
            && PairsWith(a, ca, bb0 - bb, cb) + iset{f} == PairsWith(a, ca, bb0 - (bb - {b}), cb)
  {}

  /** The inner loops over the partners of a pawn. */
  method EmitPairs(n: Network, p: Color, ksq: Square, a: Square, ca: Color, bb0: Bitboard, cb: Color,
                   ghost base: seq<nat>, l0: seq<nat>, ghost L0: seq<Change>, ghost S: iset<Feature>)
      returns (l: seq<nat>, ghost L: seq<Change>)
    requires Tally(n.threatWeight, n, p, ksq, base, l0, L0) && Covers(L0, S)
    requires a !in bb0 && PairsWith(a, ca, bb0, cb) !! S
    ensures Tally(n.threatWeight, n, p, ksq, base, l, L) && Covers(L, S + PairsWith(a, ca, bb0, cb))
  {
    l, L := l0, L0;
    var bb := bb0;
    assert S + PairsWith(a, ca, bb0 - bb, cb) == S;
    while bb != {}
      invariant bb <= bb0
      invariant Tally(n.threatWeight, n, p, ksq, base, l, L) && Covers(L, S + PairsWith(a, ca, bb0 - bb, cb))
    {
      var b := Lsb(bb);
      TallyPair(n, p, ksq, base, l, L, a, ca, b, cb);
      ghost var f := PairOf(a, ca, b, cb);
      PairsStep(a, ca, bb0, bb, b, cb);
      CoversOne(L, S + PairsWith(a, ca, bb0 - bb, cb), f);
      assert S + PairsWith(a, ca, bb0 - bb, cb) + iset{f} == S + PairsWith(a, ca, bb0 - (bb - {b}), cb);
      hide Covers, Tally, PairsWith, PairOf, PairIndex;
      bb := bb - {b};
      l := l + [PairIndex(Mirrored(ksq), p, a, ca, b, cb)];
      L := L + [Change(f, true)];
    }
    assert bb0 - bb == bb0;
  }

  function Band(s: Square): Bitboard { set t: Square | 0 <= t < 64 && InBand(s, t) }

  /** Pairs touched so far: those with a member among the updated pawns already popped. */
  ghost function TouchedBy(w: Pawns, updated: Bitboard, done: Bitboard): iset<Feature> {
    iset f: Feature | f.Pair? && PairTouched(w, updated, f) && (f.a in done || f.b in done)
  }

  /** The lambda `generate` of `PP_3Wide::append_changed_indices`. */
  method Generate(n: Network, p: Color, ksq: Square, updated: Bitboard, w: Pawns, l0: seq<nat>)
      returns (l: seq<nat>, ghost L: seq<Change>)
    requires Inside(w) && updated <= w.All()
    ensures Tally(n.threatWeight, n, p, ksq, l0, l, L) && Covers(L, TouchedBy(w, updated, updated))
  {
    l, L := l0, [];
    var kept := w.All() - updated;
    var u := updated;
    while u != {}
      invariant u <= updated
      invariant Tally(n.threatWeight, n, p, ksq, l0, l, L) && Covers(L, TouchedBy(w, updated, updated - u))
    {
      var a := Lsb(u);
      ghost var S := TouchedBy(w, updated, updated - u);
      u := u - {a};
      var mask := Band(a) * (kept + u);
      var ca := w.Of(a);
      PartnersAre(w, updated, u, a);
      hide TouchedBy, PairsWith, Tally, Covers, Inside, Band;
      l, L := EmitPairs(n, p, ksq, a, ca, w.black * mask, Black, l0, l, L, S);
      l, L := EmitPairs(n, p, ksq, a, ca, w.white * mask, White, l0, l, L, S + PairsWith(a, ca, w.black * mask, Black));
    }
    assert updated - u == updated;
  }

  /** Popping one updated pawn adds its pairs with the pawns not popped before it, each once. */
  lemma PartnersAre(w: Pawns, updated: Bitboard, u: Bitboard, a: Square)
    requires Inside(w) && updated <= w.All() && u <= updated && a in updated && a !in u
    ensures var mask := Band(a) * ((w.All() - updated) + u);
            var S, B, W := TouchedBy(w, updated, updated - u - {a}), PairsWith(a, w.Of(a), w.black * mask, Black),
                PairsWith(a, w.Of(a), w.white * mask, White);
            && a !in mask && B !! S && W !! S + B
            && TouchedBy(w, updated, updated - u) == S + B + W
  {
  }

  /** `PP_3Wide::append_changed_indices`. */
  method AppendPairChanges(n: Network, p: Color, ksq: Square, before: Pawns, after: Pawns, removed0: seq<nat>,
      added0: seq<nat>)
      returns (removed: seq<nat>, added: seq<nat>)
    requires Inside(before) && Inside(after)
    ensures forall j :: WeightSum(n.threatWeight, added, j) - WeightSum(n.threatWeight, removed, j) ==
                        WeightSum(n.threatWeight, added0, j) - WeightSum(n.threatWeight, removed0, j)
                            + Sum(n, p, ksq, j, PairChanges(before, after))
  {
    removed, added := removed0, added0;
    if before == after {
      forall j ensures Sum(n, p, ksq, j, PairChanges(before, after)) == 0 { NoPairChanges(n, p, ksq, before, j); }
      return;
    }
    ghost var A, R;
    added, A := Generate(n, p, ksq, after.Minus(before), after, added0);
    removed, R := Generate(n, p, ksq, before.Minus(after), before, removed0);
    forall j
      ensures Sum(n, p, ksq, j, A) - Sum(n, p, ksq, j, R) == Sum(n, p, ksq, j, PairChanges(before, after))
    {
      PairChangesSum(n, p, ksq, before, after, A, R, j);
    }
  }

  lemma NoPairChanges(n: Network, p: Color, ksq: Square, w: Pawns, j: nat)
    ensures Sum(n, p, ksq, j, PairChanges(w, w)) == 0
  {
    PairListEmpty(w, 4096);
    assert w.Minus(w) == {};
  }

  lemma {:induction false} PairListEmpty(w: Pawns, n: nat)
    requires n <= 4096
    ensures PairList(w, {}, n) == []
  {
    if n > 0 { PairListEmpty(w, n - 1); }
  }

  lemma PairChangesSum(n: Network, p: Color, ksq: Square, before: Pawns, after: Pawns, A: seq<Change>, R: seq<Change>,
      j: nat)
    requires Covers(A, TouchedBy(after, after.Minus(before), after.Minus(before)))
    requires Covers(R, TouchedBy(before, before.Minus(after), before.Minus(after)))
    ensures Sum(n, p, ksq, j, A) - Sum(n, p, ksq, j, R) == Sum(n, p, ksq, j, PairChanges(before, after))
  {
    TouchedSum(n, p, ksq, after, after.Minus(before), A, j);
    TouchedSum(n, p, ksq, before, before.Minus(after), R, j);
    var x, y := PairList(after, after.Minus(before), 4096), PairList(before, before.Minus(after), 4096);
    hide Sum, PairList;
    SumAppend(n, p, ksq, j, x, Negated(y));
    NegatedSum(n, p, ksq, j, y);
  }

  lemma TouchedSum(n: Network, p: Color, ksq: Square, w: Pawns, updated: Bitboard, L: seq<Change>, j: nat)
    requires Covers(L, TouchedBy(w, updated, updated))
    ensures Sum(n, p, ksq, j, L) == Sum(n, p, ksq, j, PairList(w, updated, 4096))
  {
    forall f
      ensures Balance(L, f) == Balance(PairList(w, updated, 4096), f)
    {
      PairListBalance(w, updated, 4096, f);
      assert Balance(L, f) == One(f in TouchedBy(w, updated, updated));
      hide Balance, PairList, InBand;
    }
    BalanceDecides(n, p, ksq, j, L, PairList(w, updated, 4096));
  }

  // ----- Active indices -----

  /** `PP_3Wide::append_active_indices`. */
  method AppendActivePairs(n: Network, p: Color, ksq: Square, w: Pawns, ghost base: seq<nat>, l0: seq<nat>,
      ghost L0: seq<Change>, ghost S: iset<Feature>)
      returns (l: seq<nat>, ghost L: seq<Change>)
    requires Inside(w) && Tally(n.threatWeight, n, p, ksq, base, l0, L0) && Covers(L0, S)
        && (forall f | f in S :: f.Thr?)
    ensures Tally(n.threatWeight, n, p, ksq, base, l, L) && Covers(L, S + TouchedBy(w, w.All(), w.All()))
  {
    l, L := l0, L0;
    var bb := w.white;
    assert S + TouchedBy(w, w.All(), w.white - bb) == S;
    while bb != {}
      invariant bb <= w.white
      invariant Tally(n.threatWeight, n, p, ksq, base, l, L) && Covers(L, S + TouchedBy(w, w.All(), w.white - bb))
    {
      var from := Lsb(bb);
      ghost var T := S + TouchedBy(w, w.All(), w.white - bb);
      bb := bb - {from};
      var band := Band(from);
      WhiteStep(w, bb, from);
      hide TouchedBy, PairsWith, Tally, Covers, Inside, Band;
      l, L := EmitPairs(n, p, ksq, from, White, band * bb, White, base, l, L, T);
      l, L := EmitPairs(n, p, ksq, from, White, band * w.black, Black, base, l, L,
          T + PairsWith(from, White, band * bb, White));
    }
    bb := w.black;
    assert w.white - {} == w.white == w.All() - bb;
    while bb != {}
      invariant bb <= w.black
      invariant Tally(n.threatWeight, n, p, ksq, base, l, L) && Covers(L, S + TouchedBy(w, w.All(), w.All() - bb))
    {
      var from := Lsb(bb);
      ghost var T := S + TouchedBy(w, w.All(), w.All() - bb);
      bb := bb - {from};
      BlackStep(w, bb, from);
      hide TouchedBy, PairsWith, Tally, Covers, Inside, Band;
      l, L := EmitPairs(n, p, ksq, from, Black, Band(from) * bb, Black, base, l, L, T);
    }
    assert w.All() - {} == w.All();
  }

  lemma WhiteStep(w: Pawns, bb: Bitboard, a: Square)
    requires Inside(w) && bb <= w.white && a in w.white && a !in bb
    ensures var T, W, B := TouchedBy(w, w.All(), w.white - bb - {a}), PairsWith(a, White, Band(a) * bb, White),
        PairsWith(a, White, Band(a) * w.black, Black);
            && a !in Band(a) && W !! T && B !! T + W && TouchedBy(w, w.All(), w.white - bb) == T + W + B
            && (forall f: Feature | f in T || f in W || f in B :: !f.Thr?)
  {
    var u := bb + w.black;
    PartnersAre(w, w.All(), u, a);
    var mask := Band(a) * ((w.All() - w.All()) + u);
    assert w.black * mask == Band(a) * w.black && w.white * mask == Band(a) * bb;
    assert w.All() - u - {a} == w.white - bb - {a} && w.All() - u == w.white - bb;
  }

  lemma BlackStep(w: Pawns, bb: Bitboard, a: Square)
    requires Inside(w) && bb <= w.black && a in w.black && a !in bb
    ensures var T, B := TouchedBy(w, w.All(), w.All() - bb - {a}), PairsWith(a, Black, Band(a) * bb, Black);
            && a !in Band(a) && B !! T && TouchedBy(w, w.All(), w.All() - bb) == T + B
            && (forall f: Feature | f in T || f in B :: !f.Thr?)
  {
    PartnersAre(w, w.All(), bb, a);
    var mask := Band(a) * ((w.All() - w.All()) + bb);
    assert w.black * mask == Band(a) * bb && w.white * mask == {};
    assert PairsWith(a, w.Of(a), {}, White) == iset{};
  }

  ghost function FromTo(b: Board, s: Square, targets: Bitboard): iset<Feature> {
    iset f: Feature | f.Thr? && f.t.ts in targets && f.t == Threat(b[s], b[f.t.ts], s, f.t.ts)
  }

  /** The threats of a type of man standing on some of the squares. */
  ghost function ByMen(b: Board, pc: Piece, froms: Bitboard): iset<Feature> {
    iset f: Feature | f.Thr? && IsThreat(b, f.t) && f.t.pc == pc && f.t.s in froms
  }

  /** The piece types a knight, bishop, rook or queen is counted against. */
  function Targets(b: Board, k: PieceType): Bitboard {
    ByType(b, Pawn) + ByType(b, Knight) + ByType(b, Bishop) + ByType(b, Rook)
        + (if k == Knight || k == Queen then ByType(b, Queen) else {})
  }

  lemma TargetsMeaning(b: Board, s: Square, pc: Piece)
    requires b[s] == pc && pc.Man? && pc.kind != Pawn && pc.kind != King
    ensures FromTo(b, s, AttackBB(Occ(b), pc, s) * Targets(b, pc.kind)) == ByMen(b, pc, {s})
  {
    forall f: Feature
      ensures f in FromTo(b, s, AttackBB(Occ(b), pc, s) * Targets(b, pc.kind)) <==> f in ByMen(b, pc, {s})
    {
      if f.Thr? {
        assert forall k :: f.t.ts in ByType(b, k) <==> b[f.t.ts].Man? && b[f.t.ts].kind == k;
        assert f.t.ts in AttackBB(Occ(b), pc, s) <==> Attacks(Occ(b), pc, s, f.t.ts);
        hide Attacks, Occ, ByType;
      }
    }
  }

  /** The loop over the squares one piece threatens. */
  method EmitTargets(n: Network, p: Color, ksq: Square, b: Board, from: Square, attacks0: Bitboard,
                     ghost base: seq<nat>, l0: seq<nat>, ghost L0: seq<Change>, ghost S: iset<Feature>)
      returns (l: seq<nat>, ghost L: seq<Change>)
    requires Tally(n.threatWeight, n, p, ksq, base, l0, L0) && Covers(L0, S) && FromTo(b, from, attacks0) !! S
    ensures Tally(n.threatWeight, n, p, ksq, base, l, L) && Covers(L, S + FromTo(b, from, attacks0))
  {
    l, L := l0, L0;
    var attacks := attacks0;
    assert S + FromTo(b, from, attacks0 - attacks) == S;
    while attacks != {}
      invariant attacks <= attacks0
      invariant Tally(n.threatWeight, n, p, ksq, base, l, L) && Covers(L, S + FromTo(b, from, attacks0 - attacks))
    {
      var to := Lsb(attacks);
      var t := Threat(b[from], b[to], from, to);
      TallyThreat(n, p, ksq, base, l, L, t);
      assert Thr(t) in FromTo(b, from, attacks0);
      CoversOne(L, S + FromTo(b, from, attacks0 - attacks), Thr(t));
      assert S + FromTo(b, from, attacks0 - attacks) + iset{Thr(t)} == S + FromTo(b, from, attacks0 - (attacks - {to}));
      hide Covers, Tally, FromTo;
      attacks := attacks - {to};
      l := PushIfLess(l, n.threatIndex(Mirrored(ksq), p, t), THREAT_DIMENSIONS);
      L := L + [Change(Thr(t), true)];
    }
    assert attacks0 - attacks == attacks0;
  }

  /** The loop over the men of one colour and type. */
  method EmitMen(n: Network, p: Color, ksq: Square, b: Board, pc: Piece, ghost base: seq<nat>, l0: seq<nat>,
      ghost L0: seq<Change>, ghost S: iset<Feature>)
      returns (l: seq<nat>, ghost L: seq<Change>)
    requires pc.Man? && pc.kind != Pawn && pc.kind != King
    requires Tally(n.threatWeight, n, p, ksq, base, l0, L0) && Covers(L0, S) && ByMen(b, pc, AllSquares()) !! S
    ensures Tally(n.threatWeight, n, p, ksq, base, l, L) && Covers(L, S + ByMen(b, pc, AllSquares()))
  {
    l, L := l0, L0;
    var men := Pieces(b, pc.color, pc.kind);
    var bb := men;
    assert S + ByMen(b, pc, men - bb) == S;
    while bb != {}
      invariant bb <= men
      invariant Tally(n.threatWeight, n, p, ksq, base, l, L) && Covers(L, S + ByMen(b, pc, men - bb))
    {
      var from := Lsb(bb);
      ghost var T := S + ByMen(b, pc, men - bb);
      TargetsMeaning(b, from, pc);
      MenStep(b, pc, men, bb, from, S);
      bb := bb - {from};
      hide Covers, Tally, FromTo, ByMen, AttackBB, Occ, Targets;
      l, L := EmitTargets(n, p, ksq, b, from, AttackBB(Occ(b), pc, from) * Targets(b, pc.kind), base, l, L, T);
    }
    MenAll(b, pc);
  }

  lemma MenStep(b: Board, pc: Piece, men: Bitboard, bb: Bitboard, from: Square, S: iset<Feature>)
    requires bb <= men && from in bb && ByMen(b, pc, AllSquares()) !! S
    ensures ByMen(b, pc, {from}) !! S + ByMen(b, pc, men - bb)
    ensures S + ByMen(b, pc, men - bb) + ByMen(b, pc, {from}) == S + ByMen(b, pc, men - (bb - {from}))
  {
    hide IsThreat;
    forall f | f in ByMen(b, pc, {from}) ensures f in ByMen(b, pc, AllSquares()) { assert IsOk(f.t.s); }
  }

  lemma MenAll(b: Board, pc: Piece)
    requires pc.Man?
    ensures ByMen(b, pc, Pieces(b, pc.color, pc.kind) - {}) == ByMen(b, pc, AllSquares())
  {
    hide Attacks;
    forall s: Square ensures s in AllSquares() { assert IsOk(s); }
  }

  /** Squares one diagonal step away: `shift` by the given files and ranks. */
  function Shift(bb: Bitboard, df: int, dr: int): Bitboard {
    set t: Square | 0 <= t < 64 && 0 <= File(t) - df < 8 && 0 <= Rank(t) - dr < 8 && t - 8 * dr - df in bb
  }

  /** Threats of pawns towards one side. */
  ghost function PawnSide(b: Board, c: Color, df: int, tos: Bitboard): iset<Feature> {
    iset f: Feature | f.Thr? && IsThreat(b, f.t) && f.t.pc == Man(c, Pawn) && Df(f.t.s, f.t.ts) == df && f.t.ts in tos
  }

  /** The lambda `process_pawn_attacks`. */
  method EmitPawns(n: Network, p: Color, ksq: Square, b: Board, c: Color, df: int, ghost base: seq<nat>, l0: seq<nat>,
      ghost L0: seq<Change>, ghost S: iset<Feature>)
      returns (l: seq<nat>, ghost L: seq<Change>)
    requires df == 1 || df == -1
    requires Tally(n.threatWeight, n, p, ksq, base, l0, L0) && Covers(L0, S) && PawnSide(b, c, df, AllSquares()) !! S
    ensures Tally(n.threatWeight, n, p, ksq, base, l, L) && Covers(L, S + PawnSide(b, c, df, AllSquares()))
  {
    hide Shift, Pieces, ByType, IsThreat, Weight;
    l, L := l0, L0;
    var dr := if c.White? then 1 else -1;
    var all := Shift(Pieces(b, c, Pawn), df, dr) * (ByType(b, Knight) + ByType(b, Rook));
    var attacks := all;
    assert S + PawnSide(b, c, df, all - attacks) == S;
    while attacks != {}
      invariant attacks <= all
      invariant Tally(n.threatWeight, n, p, ksq, base, l, L) && Covers(L, S + PawnSide(b, c, df, all - attacks))
    {
      var to := Lsb(attacks);
      PawnStep(b, c, df, all - attacks, to);
      var from: Square := to - 8 * dr - df;
      var t := Threat(Man(c, Pawn), b[to], from, to);
      assert Thr(t) !in S by { assert IsOk(to); }
      assert (all - attacks) + {to} == all - (attacks - {to});
      TallyThreat(n, p, ksq, base, l, L, t);
      CoversOne(L, S + PawnSide(b, c, df, all - attacks), Thr(t));
      assert S + PawnSide(b, c, df, all - attacks) + iset{Thr(t)} == S + PawnSide(b, c, df, all - (attacks - {to}));
      hide Covers, Tally, PawnSide;
      attacks := attacks - {to};
      l := PushIfLess(l, n.threatIndex(Mirrored(ksq), p, t), THREAT_DIMENSIONS);
      L := L + [Change(Thr(t), true)];
    }
    assert all - {} == all;
    PawnsAll(b, c, df);
  }

  lemma PawnStep(b: Board, c: Color, df: int, done: Bitboard, to: Square)
    requires (df == 1 || df == -1) && to !in done
    requires to in Shift(Pieces(b, c, Pawn), df, if c.White? then 1 else -1) * (ByType(b, Knight) + ByType(b, Rook))
    ensures var dr := if c.White? then 1 else -1;
            var from := to - 8 * dr - df;
            && 0 <= from < 64
            && Thr(Threat(Man(c, Pawn), b[to], from, to)) in PawnSide(b, c, df, {to})
                && Thr(Threat(Man(c, Pawn), b[to], from, to)) !in PawnSide(b, c, df, done)
            && PawnSide(b, c, df, done + {to}) == PawnSide(b, c, df, done)
                + iset{Thr(Threat(Man(c, Pawn), b[to], from, to))}
  {
  }

  lemma PawnsAll(b: Board, c: Color, df: int)
    requires df == 1 || df == -1
    ensures PawnSide(b, c, df, Shift(Pieces(b, c, Pawn), df, if c.White? then 1
        else -1) * (ByType(b, Knight) + ByType(b, Rook))) == PawnSide(b, c, df, AllSquares())
  {
    forall s: Square ensures s in AllSquares() { assert IsOk(s); }
  }

  ghost function OfColor(b: Board, c: Color): iset<Feature> {
    iset f: Feature | f.Thr? && IsThreat(b, f.t) && f.t.pc.color == c
  }

  /** The threats of one colour, by the loops that find them. */
  ghost function Found(b: Board, c: Color, step: nat): iset<Feature> {
    if step <= 1 then PawnSide(b, c, Ahead(c), AllSquares())
    else if step == 2 then Found(b, c, 1) + PawnSide(b, c, -Ahead(c), AllSquares())
    else if step == 3 then Found(b, c, 2) + ByMen(b, Man(c, Knight), AllSquares())
    else if step == 4 then Found(b, c, 3) + ByMen(b, Man(c, Bishop), AllSquares())
    else if step == 5 then Found(b, c, 4) + ByMen(b, Man(c, Rook), AllSquares())
    else Found(b, c, 5) + ByMen(b, Man(c, Queen), AllSquares())
  }

  /** North-east comes first for White, south-west for Black. */
  function Ahead(c: Color): int { if c.White? then 1 else -1 }

  lemma FoundAll(b: Board, c: Color)
    ensures Found(b, c, 6) == OfColor(b, c)
    ensures PawnSide(b, c, -Ahead(c), AllSquares()) !! Found(b, c, 1)
    ensures ByMen(b, Man(c, Knight), AllSquares()) !! Found(b, c, 2)
        && ByMen(b, Man(c, Bishop), AllSquares()) !! Found(b, c, 3)
    ensures ByMen(b, Man(c, Rook), AllSquares()) !! Found(b, c, 4)
        && ByMen(b, Man(c, Queen), AllSquares()) !! Found(b, c, 5)
  {
    forall s: Square ensures s in AllSquares() { assert IsOk(s); }
    hide AllSquares, KnightAttacks, KingAttacks, SlidesAlong, Sees, Occ;
    forall f: Feature
      ensures f in Found(b, c, 6) <==> f in OfColor(b, c)
    {
      FoundMeans(b, c, f);
    }
  }

  lemma FoundMeans(b: Board, c: Color, f: Feature)
    requires forall s: Square :: s in AllSquares()
    ensures f in Found(b, c, 6) <==> f in OfColor(b, c)
  {
    hide AllSquares, KnightAttacks, KingAttacks, SlidesAlong, Sees, Occ;
    assert Found(b, c, 4) == Found(b, c, 3) + ByMen(b, Man(c, Bishop), AllSquares());
    assert Found(b, c, 2) == Found(b, c, 1) + PawnSide(b, c, -Ahead(c), AllSquares());
    if f.Thr? && IsThreat(b, f.t) && f.t.pc == Man(c, Pawn) { assert PawnAttacks(c, f.t.s, f.t.ts); }
  }

  /** The body of the colour loop of `FullThreats::append_active_indices`. */
  method EmitColor(n: Network, p: Color, ksq: Square, b: Board, c: Color, ghost base: seq<nat>, l0: seq<nat>,
      ghost L0: seq<Change>, ghost S: iset<Feature>)
      returns (l: seq<nat>, ghost L: seq<Change>)
    requires Tally(n.threatWeight, n, p, ksq, base, l0, L0) && Covers(L0, S) && OfColor(b, c) !! S
    ensures Tally(n.threatWeight, n, p, ksq, base, l, L) && Covers(L, S + OfColor(b, c))
  {
    hide Tally, Covers, PawnSide, ByMen, OfColor;
    FoundAll(b, c);
    var d := Ahead(c);
    ghost var S1, S2, S3, S4, S5 := S + Found(b, c, 1), S + Found(b, c, 2), S + Found(b, c, 3), S + Found(b, c, 4),
        S + Found(b, c, 5);
    l, L := EmitPawns(n, p, ksq, b, c, d, base, l0, L0, S);
    l, L := EmitPawns(n, p, ksq, b, c, -d, base, l, L, S1);
    assert S1 + PawnSide(b, c, -d, AllSquares()) == S2;
    l, L := EmitMen(n, p, ksq, b, Man(c, Knight), base, l, L, S2);
    assert S2 + ByMen(b, Man(c, Knight), AllSquares()) == S3;
    l, L := EmitMen(n, p, ksq, b, Man(c, Bishop), base, l, L, S3);
    assert S3 + ByMen(b, Man(c, Bishop), AllSquares()) == S4;
    l, L := EmitMen(n, p, ksq, b, Man(c, Rook), base, l, L, S4);
    assert S4 + ByMen(b, Man(c, Rook), AllSquares()) == S5;
    l, L := EmitMen(n, p, ksq, b, Man(c, Queen), base, l, L, S5);
    assert S5 + ByMen(b, Man(c, Queen), AllSquares()) == S + OfColor(b, c);
  }

  /** Both active lists together: every threat and pair of the position, each once. */
  method AppendActive(n: Network, p: Color, ksq: Square, b: Board) returns (active: seq<nat>)
    requires Inside(PawnsOf(b))
    ensures forall j :: WeightSum(n.threatWeight, active, j) == SidePart(n, p, ksq, b, j)
  {
    ghost var L: seq<Change>;
    active, L := [], [];
    hide Tally, Covers, OfColor, SidePart, TouchedBy, Inside;
    ghost var own, other := OfColor(b, p), OfColor(b, p.Other());
    NothingYet(n, p, ksq);
    ColorsApart(b, p);
    active, L := EmitColor(n, p, ksq, b, p, [], active, L, iset{});
    assert iset{} + own == own;
    active, L := EmitColor(n, p, ksq, b, p.Other(), [], active, L, own);
    active, L := AppendActivePairs(n, p, ksq, PawnsOf(b), [], active, L, own + other);
    forall j ensures WeightSum(n.threatWeight, active, j) == SidePart(n, p, ksq, b, j) {
      ActiveSum(n, p, ksq, b, active, L, j);
    }
  }

  lemma NothingYet(n: Network, p: Color, ksq: Square)
    ensures Tally(n.threatWeight, n, p, ksq, [], [], []) && Covers([], iset{})
  {}

  lemma ColorsApart(b: Board, p: Color)
    ensures OfColor(b, p.Other()) !! OfColor(b, p) && OfColor(b, p) !! iset{}
    ensures forall f | f in OfColor(b, p) + OfColor(b, p.Other()) :: f.Thr?
  {
    hide IsThreat;
  }

  lemma ActiveSum(n: Network, p: Color, ksq: Square, b: Board, active: seq<nat>, L: seq<Change>, j: nat)
    requires Tally(n.threatWeight, n, p, ksq, [], active, L)
    requires Covers(L, OfColor(b, p) + OfColor(b, p.Other())
        + TouchedBy(PawnsOf(b), PawnsOf(b).All(), PawnsOf(b).All()))
    ensures WeightSum(n.threatWeight, active, j) == SidePart(n, p, ksq, b, j)
  {
    forall f ensures Balance(L, f) == Balance(SideList(b), f) { ActiveCovered(p, b, L, f); }
    BalanceDecides(n, p, ksq, j, L, SideList(b));
  }

  lemma ActiveCovered(p: Color, b: Board, L: seq<Change>, f: Feature)
    requires Covers(L, OfColor(b, p) + OfColor(b, p.Other())
        + TouchedBy(PawnsOf(b), PawnsOf(b).All(), PawnsOf(b).All()))
    ensures Balance(L, f) == Balance(SideList(b), f)
  {
    hide Balance, SideList, Counted, Attacks, Occ, InBand, PawnsOf, PairIn, PairAt, Pawns.All;
    var w := PawnsOf(b);
    assert Balance(L, f) == One(f in OfColor(b, p) + OfColor(b, p.Other()) + TouchedBy(w, w.All(), w.All()));
    SideIsActive(b, f);
    if f.Pair? { PairActive(b, f); }
    if f.Thr? && IsThreat(b, f.t) { assert f.t.pc.color == p || f.t.pc.color == p.Other(); }
  }
}
