/**
 * The accumulator stack: first-layer sums kept lazily along the line being searched, brought
 * up to date by replaying moves forwards or backwards, or from a cache of sums per king square.
 */
module Accumulator {
  import opened Options
  import opened Types
  import opened Board
  import opened Threats
  import opened Checks
  import opened Features
  import opened Indices

  // ----- Adding and subtracting weight columns -----

  /** As many lanes as the network has, each reduced to its width. */
  ghost predicate Lanes(n: Network, v: seq<int>) {
    |v| == n.lanes && forall j | 0 <= j < n.lanes :: v[j] == Fit(n, j, v[j])
  }

  lemma FitFits(n: Network, j: nat, x: int)
    ensures Fit(n, j, Fit(n, j, x)) == Fit(n, j, x)
  {
    FitAdd(n, j, x, 0);
  }

  /** One weight column, lane by lane. */
  method AddColumn(n: Network, v0: seq<int>, w: (nat, nat) -> int, index: nat, sign: int) returns (v: seq<int>)
    requires Lanes(n, v0)
    ensures Lanes(n, v) && forall j | 0 <= j < n.lanes :: v[j] == Fit(n, j, v0[j] + sign * w(index, j))
  {
    hide Fit;
    v := v0;
    for j := 0 to n.lanes
      invariant |v| == n.lanes
      invariant forall i | 0 <= i < n.lanes :: v[i] == if i < j then Fit(n, i, v0[i] + sign * w(index, i)) else v0[i]
    {
      v := v[j := Fit(n, j, v[j] + sign * w(index, j))];
    }
    forall j | 0 <= j < n.lanes ensures v[j] == Fit(n, j, v[j]) { FitFits(n, j, v0[j] + sign * w(index, j)); }
  }

  /** All columns of a list, added or subtracted. */
  method AddColumns(n: Network, v0: seq<int>, w: (nat, nat) -> int, list: seq<nat>, sign: int) returns (v: seq<int>)
    requires Lanes(n, v0) && (sign == 1 || sign == -1)
    ensures Lanes(n, v) && forall j | 0 <= j < n.lanes :: v[j] == Fit(n, j, v0[j] + sign * WeightSum(w, list, j))
  {
    hide Fit;
    v := v0;
    for k := 0 to |list|
      invariant Lanes(n, v)
      invariant forall j | 0 <= j < n.lanes :: v[j] == Fit(n, j, v0[j] + sign * WeightSum(w, list[..k], j))
    {
      ghost var u := v;
      v := AddColumn(n, v, w, list[k], sign);
      forall j | 0 <= j < n.lanes
        ensures v[j] == Fit(n, j, v0[j] + sign * WeightSum(w, list[..k + 1], j))
      {
        assert list[..k + 1] == list[..k] + [list[k]];
        WeightSumPush(w, list[..k], list[k], j);
        FitAdd(n, j, v0[j] + sign * WeightSum(w, list[..k], j), sign * w(list[k], j));
      }
    }
    assert list[..|list|] == list;
  }

  /** The scalar form of `apply_combined`. */
  method ApplyCombined(n: Network, from: seq<int>, psqAdded: seq<nat>, psqRemoved: seq<nat>, thrAdded: seq<nat>,
      thrRemoved: seq<nat>) returns (v: seq<int>)
    requires Lanes(n, from)
    ensures Lanes(n, v) && |v| == n.lanes
    ensures forall j | 0 <= j < n.lanes ::
              v[j] == Fit(n, j, from[j] + (WeightSum(n.psqWeight, psqAdded, j) - WeightSum(n.psqWeight, psqRemoved, j))
                                        + (WeightSum(n.threatWeight, thrAdded, j) - WeightSum(n.threatWeight,
                                            thrRemoved, j)))
  {
    hide Fit, WeightSum;
    var v1 := AddColumns(n, from, n.psqWeight, psqRemoved, -1);
    var v2 := AddColumns(n, v1, n.psqWeight, psqAdded, 1);
    var v3 := AddColumns(n, v2, n.threatWeight, thrRemoved, -1);
    v := AddColumns(n, v3, n.threatWeight, thrAdded, 1);
    forall j | 0 <= j < n.lanes
      ensures v[j] == Fit(n, j, from[j] + (WeightSum(n.psqWeight, psqAdded, j) - WeightSum(n.psqWeight, psqRemoved, j))
                                        + (WeightSum(n.threatWeight, thrAdded, j) - WeightSum(n.threatWeight,
                                            thrRemoved, j)))
    {
      var a, b, c, d := WeightSum(n.psqWeight, psqRemoved, j), WeightSum(n.psqWeight, psqAdded, j),
                        WeightSum(n.threatWeight, thrRemoved, j), WeightSum(n.threatWeight, thrAdded, j);
      FitAdd(n, j, from[j] - a, b);
      FitAdd(n, j, from[j] - a + b, -c);
      FitAdd(n, j, from[j] - a + b - c, d);
    }
  }

  // ----- One step along the line -----

  /** The king stays where it is unless it is the piece that moved. */
  lemma KingStays(d: Dirties, b: Board, c: Board, p: Color)
    requires BoardFine(b) && BoardFine(c) && Describes(d, b, c) && d.piece.pc != Man(p, King)
    ensures Ksq(b, p) == Ksq(c, p)
  {
    hide Tracks, PawnsOf, Inside;
    var k := Ksq(b, p);
    assert b[k] == Man(p, King);
    assert c[k] == Man(p, King);
    assert k in Pieces(c, p, King) && Ksq(c, p) in Pieces(c, p, King);
    if k != Ksq(c, p) { SubsetCard({k, Ksq(c, p)}, Pieces(c, p, King)); }
  }

  /** A lane brought from b to c by the reported changes, or back. */
  lemma LaneStep(n: Network, p: Color, ksq: Square, j: nat, d: Dirties, b: Board, c: Board)
    requires Describes(d, b, c)
    ensures Full(n, p, ksq, c, j) == Full(n, p, ksq, b, j) + Sum(n, p, ksq, j, PsqChanges(d.piece))
        + Sum(n, p, ksq, j, SideChanges(d))
  {
    SumsAdvance(n, p, ksq, j, d, b, c);
    hide Sum, Describes, PsqList, SideList;
  }

  lemma SideSplit(n: Network, p: Color, ksq: Square, j: nat, d: Dirties)
    ensures Sum(n, p, ksq, j, SideChanges(d)) == Sum(n, p, ksq, j, ThreatChanges(d.threats))
        + Sum(n, p, ksq, j, PairChanges(d.before, d.after))
  {
    SumAppend(n, p, ksq, j, ThreatChanges(d.threats), PairChanges(d.before, d.after));
  }

  /** The lists of threat and pair indices a move loses and gains, after those already there. */
  method AppendSideChanges(n: Network, p: Color, ksq: Square, d: Dirties) returns (removed: seq<nat>, added: seq<nat>)
    requires Inside(d.before) && Inside(d.after)
    ensures forall j ::
        WeightSum(n.threatWeight, added, j) - WeightSum(n.threatWeight, removed, j) == Sum(n, p, ksq, j, SideChanges(d))
  {
    removed, added := AppendThreatChanges(n, p, ksq, d.threats, [], []);
    removed, added := AppendPairChanges(n, p, ksq, d.before, d.after, removed, added);
    forall j
      ensures WeightSum(n.threatWeight, added, j) - WeightSum(n.threatWeight, removed, j)
          == Sum(n, p, ksq, j, SideChanges(d))
    {
      SideSplit(n, p, ksq, j, d);
      assert WeightSum(n.threatWeight, [], j) == 0;
      hide *;
    }
  }

  lemma LaneMoved(n: Network, forward: bool, p: Color, ksq: Square, j: nat, d: Dirties, b: Board, c: Board, x: int,
      psq: int, side: int)
    requires Describes(d, b, c) && x == Fit(n, j, Full(n, p, ksq, if forward then b else c, j))
    requires psq == if forward then Sum(n, p, ksq, j, PsqChanges(d.piece)) else -Sum(n, p, ksq, j, PsqChanges(d.piece))
    requires side == if forward then Sum(n, p, ksq, j, SideChanges(d)) else -Sum(n, p, ksq, j, SideChanges(d))
    ensures Fit(n, j, x + psq + side) == Fit(n, j, Full(n, p, ksq, if forward then c else b, j))
  {
    hide *;
    LaneStep(n, p, ksq, j, d, b, c);
    if forward {
      FitAdd(n, j, Full(n, p, ksq, b, j), psq + side);
    } else {
      FitAdd(n, j, Full(n, p, ksq, c, j), psq + side);
    }
  }

  /** The scalar form of `update_accumulator_incremental`. */
  method UpdateIncremental(n: Network, forward: bool, p: Color, ksq: Square, d: Dirties, computed: seq<int>,
      ghost b: Board, ghost c: Board) returns (v: seq<int>)
    requires BoardFine(b) && BoardFine(c) && Describes(d, b, c)
    requires Right(n, p, ksq, if forward then b else c, computed)
    ensures Right(n, p, ksq, if forward then c else b, v)
  {
    hide *;
    DescribedPawns(d, b, c);
    RightLanes(n, p, ksq, if forward then b else c, computed);
    var psqRemoved, psqAdded := AppendPsqChanges(n, p, ksq, d.piece);
    var thrRemoved, thrAdded := AppendSideChanges(n, p, ksq, d);
    if forward {
      v := ApplyCombined(n, computed, psqAdded, psqRemoved, thrAdded, thrRemoved);
    } else {
      v := ApplyCombined(n, computed, psqRemoved, psqAdded, thrRemoved, thrAdded);
    }
    RightMoved(n, forward, p, ksq, d, b, c, computed, v, psqAdded, psqRemoved, thrAdded, thrRemoved);
  }

  lemma RightMoved(n: Network, forward: bool, p: Color, ksq: Square, d: Dirties, b: Board, c: Board, u: seq<int>,
      v: seq<int>,
                   psqAdded: seq<nat>, psqRemoved: seq<nat>, thrAdded: seq<nat>, thrRemoved: seq<nat>)
    requires Describes(d, b, c) && Right(n, p, ksq, if forward then b else c, u) && |v| == n.lanes
    requires forall j ::
        WeightSum(n.psqWeight, psqAdded, j) - WeightSum(n.psqWeight, psqRemoved, j)
        == Sum(n, p, ksq, j, PsqChanges(d.piece))
    requires forall j ::
        WeightSum(n.threatWeight, thrAdded, j) - WeightSum(n.threatWeight, thrRemoved, j)
        == Sum(n, p, ksq, j, SideChanges(d))
    requires forall j | 0 <= j < n.lanes :: v[j] == Fit(n, j,
               u[j] + (if forward then WeightSum(n.psqWeight, psqAdded, j) - WeightSum(n.psqWeight, psqRemoved, j)
                   else WeightSum(n.psqWeight, psqRemoved, j) - WeightSum(n.psqWeight, psqAdded, j))
                    + (if forward
                       then WeightSum(n.threatWeight, thrAdded, j) - WeightSum(n.threatWeight, thrRemoved, j)
                       else WeightSum(n.threatWeight, thrRemoved, j) - WeightSum(n.threatWeight, thrAdded, j)))
    ensures Right(n, p, ksq, if forward then c else b, v)
  {
    hide Full, Describes, Sum, WeightSum, Fit, PsqChanges, SideChanges;
    forall j | 0 <= j < n.lanes
      ensures v[j] == Fit(n, j, Full(n, p, ksq, if forward then c else b, j))
    {
      assert u[j] == Fit(n, j, Full(n, p, ksq, if forward then b else c, j));
      var psq, side := Sum(n, p, ksq, j, PsqChanges(d.piece)), Sum(n, p, ksq, j, SideChanges(d));
      LaneMoved(n, forward, p, ksq, j, d, b, c, u[j], if forward then psq else -psq, if forward then side else -side);
    }
  }

  lemma DescribedPawns(d: Dirties, b: Board, c: Board)
    requires BoardFine(b) && BoardFine(c) && Describes(d, b, c)
    ensures Inside(d.before) && Inside(d.after)
  {
    hide Tracks, PieceDescribes, Inside, PawnsOf, Pieces;
  }

  lemma RightLanes(n: Network, p: Color, ksq: Square, b: Board, v: seq<int>)
    requires Right(n, p, ksq, b, v)
    ensures Lanes(n, v)
  {
    hide Fit, Full;
    forall j | 0 <= j < n.lanes ensures v[j] == Fit(n, j, v[j]) { FitFits(n, j, Full(n, p, ksq, b, j)); }
  }

  // ----- The refresh cache -----

  lemma EntryLanes(n: Network, p: Color, ksq: Square, e: Entry)
    requires EntryRight(n, p, ksq, e)
    ensures Lanes(n, e.acc)
  {
    hide Fit, PsqPart;
    forall j | 0 <= j < n.lanes ensures e.acc[j] == Fit(n, j, e.acc[j]) {
      FitFits(n, j, PsqPart(n, p, ksq, e.pieces, j));
    }
  }

  /** The indices by which a cache entry differs from a board: pieces to remove, pieces to add. */
  method EntryDifference(n: Network, p: Color, ksq: Square, e: Entry, b: Board, bb: Bitboard)
      returns (removed: seq<nat>, added: seq<nat>)
    requires e.pieceBB == Occ(e.pieces) && bb == Occ(b)
    ensures forall j ::
        PsqPart(n, p, ksq, b, j) == PsqPart(n, p, ksq, e.pieces, j)
        + WeightSum(n.psqWeight, added, j) - WeightSum(n.psqWeight, removed, j)
  {
    var changed := GetChangedPieces(e.pieces, b);
    ghost var R, A;
    removed, R := CollectIndices(n, p, ksq, e.pieces, changed * e.pieceBB);
    added, A := CollectIndices(n, p, ksq, b, changed * bb);
    forall j
      ensures PsqPart(n, p, ksq, b, j) == PsqPart(n, p, ksq, e.pieces, j)
          + WeightSum(n.psqWeight, added, j) - WeightSum(n.psqWeight, removed, j)
    {
      PsqDifference(n, p, ksq, j, e.pieces, b, R, A);
      assert WeightSum(n.psqWeight, added, j) == WeightSum(n.psqWeight, [], j) + Sum(n, p, ksq, j, A);
      assert WeightSum(n.psqWeight, removed, j) == WeightSum(n.psqWeight, [], j) + Sum(n, p, ksq, j, R);
      hide Sum, PsqList, Covers, Tally;
    }
  }

  /** A cache entry brought up to board b. */
  method BringEntry(n: Network, p: Color, ksq: Square, e: Entry, b: Board) returns (r: Entry)
    requires EntryRight(n, p, ksq, e)
    ensures EntryRight(n, p, ksq, r) && r.pieces == b
  {
    var bb := Occ(b);
    EntryLanes(n, p, ksq, e);
    hide Fit, PsqPart, WeightSum, Lanes, Occ;
    var removed, added := EntryDifference(n, p, ksq, e, b, bb);
    var v1 := AddColumns(n, e.acc, n.psqWeight, removed, -1);
    var v := AddColumns(n, v1, n.psqWeight, added, 1);
    r := Entry(v, b, bb);
    assert |v| == n.lanes by { LanesLength(n, v); LanesLength(n, v1); }
    LanesLength(n, v1);
    forall j | 0 <= j < n.lanes
      ensures v[j] == Fit(n, j, PsqPart(n, p, ksq, b, j))
    {
      var x, out, in' := PsqPart(n, p, ksq, e.pieces, j), WeightSum(n.psqWeight, removed, j),
          WeightSum(n.psqWeight, added, j);
      FitAdd(n, j, x, -out);
      FitAdd(n, j, x - out, in');
    }
  }

  lemma LanesLength(n: Network, v: seq<int>)
    requires Lanes(n, v)
    ensures |v| == n.lanes
  {}

  /** The scalar form of `update_accumulator_refresh_cache`. */
  method RefreshCache(n: Network, p: Color, ksq: Square, b: Board, e: Entry) returns (r: Entry, v: seq<int>)
    requires EntryRight(n, p, ksq, e) && Inside(PawnsOf(b))
    ensures EntryRight(n, p, ksq, r) && r.pieces == b && Right(n, p, ksq, b, v)
  {
    hide Fit, PsqPart, SidePart, WeightSum, Inside, PawnsOf;
    r := BringEntry(n, p, ksq, e, b);
    EntryLanes(n, p, ksq, r);
    var active := AppendActive(n, p, ksq, b);
    v := AddColumns(n, r.acc, n.threatWeight, active, 1);
    forall j | 0 <= j < n.lanes
      ensures v[j] == Fit(n, j, Full(n, p, ksq, b, j))
    {
      FitAdd(n, j, PsqPart(n, p, ksq, b, j), SidePart(n, p, ksq, b, j));
    }
  }

  // ----- The hybrid king move -----

  /** Lane by lane, x + y - z. */
  method Shifted(n: Network, x: seq<int>, y: seq<int>, z: seq<int>) returns (v: seq<int>)
    requires |x| == |y| == |z| == n.lanes
    ensures Lanes(n, v) && forall j | 0 <= j < n.lanes :: v[j] == Fit(n, j, x[j] + y[j] - z[j])
  {
    hide Fit;
    v := x;
    for j := 0 to n.lanes
      invariant |v| == n.lanes
      invariant forall i | 0 <= i < n.lanes :: v[i] == if i < j then Fit(n, i, x[i] + y[i] - z[i]) else x[i]
    {
      FitAdd(n, j, x[j] + y[j], -z[j]);
      v := v[j := Fit(n, j, v[j] + y[j])];
      v := v[j := Fit(n, j, v[j] - z[j])];
    }
    forall j | 0 <= j < n.lanes ensures v[j] == Fit(n, j, v[j]) { FitFits(n, j, x[j] + y[j] - z[j]); }
  }

  /**
   * The scalar form of `update_accumulator_hybrid`: the new king square's entry is brought up
   * to date, and the old sum's threat and pawn pair part is kept by subtracting the old
   * square's piece-square part.
   */
  method UpdateHybrid(n: Network, p: Color, d: Dirties, b: Board, from: seq<int>, oldEntry: Entry, newEntry: Entry,
      ghost a: Board)
      returns (r: Entry, v: seq<int>)
    requires BoardFine(a) && BoardFine(b) && Describes(d, a, b)
    requires d.piece.pc == Man(p, King) && d.piece.add == None && d.piece.to.Some?
    requires Mirrored(d.piece.from) == Mirrored(d.piece.to.value)
    requires Right(n, p, d.piece.from, a, from)
    requires EntryRight(n, p, d.piece.from, oldEntry) && EntryRight(n, p, d.piece.to.value, newEntry)
    ensures EntryRight(n, p, d.piece.to.value, r) && r.pieces == b && Right(n, p, d.piece.to.value, b, v)
  {
    hide *;
    var dp := d.piece;
    var oldKsq, newKsq := dp.from, dp.to.value;
    var previous: Board := b[newKsq := if dp.remove.Some? then dp.remove.value.1 else Empty][oldKsq := Man(p, King)];
    PreviousBoard(d, a, b);
    assert previous == a;
    DescribedPawns(d, a, b);
    EntryLanes(n, p, oldKsq, oldEntry);
    EntryShape(n, p, oldKsq, oldEntry);
    EntryShape(n, p, newKsq, newEntry);
    RightLanes(n, p, oldKsq, a, from);
    var oldRemove, oldAdd := EntryDifference(n, p, oldKsq, oldEntry, previous, Occ(previous));
    r := BringEntry(n, p, newKsq, newEntry, b);
    EntryShape(n, p, newKsq, r);
    LanesLength(n, from);
    var thrRemoved, thrAdded := AppendSideChanges(n, p, newKsq, d);
    var u := Shifted(n, r.acc, from, oldEntry.acc);
    v := ApplyCombined(n, u, oldRemove, oldAdd, thrAdded, thrRemoved);
    LanesLength(n, u);
    HybridRight(n, p, d, a, b, from, oldEntry, r, u, v, oldRemove, oldAdd, thrAdded, thrRemoved);
  }

  lemma EntryShape(n: Network, p: Color, ksq: Square, e: Entry)
    requires EntryRight(n, p, ksq, e)
    ensures |e.acc| == n.lanes && e.pieceBB == Occ(e.pieces)
  {}

  /** Taking the king back gives the board before. */
  lemma PreviousBoard(d: Dirties, a: Board, b: Board)
    requires var dp := d.piece;
             Describes(d, a, b) && dp.pc.Man? && dp.pc.kind == King && dp.add == None && dp.to.Some?
    ensures var dp := d.piece;
            b[dp.to.value := if dp.remove.Some? then dp.remove.value.1 else Empty][dp.from := dp.pc] == a
  {
    hide Tracks, PawnsOf;
  }

  lemma HybridRight(n: Network, p: Color, d: Dirties, a: Board, b: Board, from: seq<int>, oldEntry: Entry, r: Entry,
      u: seq<int>, v: seq<int>,
                    oldRemove: seq<nat>, oldAdd: seq<nat>, thrAdded: seq<nat>, thrRemoved: seq<nat>)
    requires Describes(d, a, b) && d.piece.to.Some? && Mirrored(d.piece.from) == Mirrored(d.piece.to.value)
    requires Right(n, p, d.piece.from, a, from) && EntryRight(n, p, d.piece.from, oldEntry)
    requires EntryRight(n, p, d.piece.to.value, r) && r.pieces == b
    requires |u| == |v| == n.lanes && forall j | 0 <= j < n.lanes ::
        u[j] == Fit(n, j, r.acc[j] + from[j] - oldEntry.acc[j])
    requires forall j | 0 <= j < n.lanes ::
        v[j] == Fit(n, j, u[j] + (WeightSum(n.psqWeight, oldRemove, j) - WeightSum(n.psqWeight, oldAdd, j))
                                                                   + (WeightSum(n.threatWeight, thrAdded,
                                                                       j) - WeightSum(n.threatWeight, thrRemoved, j)))
    requires forall j :: PsqPart(n, p, d.piece.from, a, j) ==
                         PsqPart(n, p, d.piece.from, oldEntry.pieces, j)
                             + WeightSum(n.psqWeight, oldAdd, j) - WeightSum(n.psqWeight, oldRemove, j)
    requires forall j ::
        WeightSum(n.threatWeight, thrAdded, j) - WeightSum(n.threatWeight, thrRemoved, j)
        == Sum(n, p, d.piece.to.value, j, SideChanges(d))
    ensures Right(n, p, d.piece.to.value, b, v)
  {
    hide PsqPart, SidePart, WeightSum, Sum, Fit, SideChanges, Describes;
    forall j | 0 <= j < n.lanes
      ensures v[j] == Fit(n, j, Full(n, p, d.piece.to.value, b, j))
    {
      var oldKsq, newKsq := d.piece.from, d.piece.to.value;
      var side, was := Sum(n, p, newKsq, j, SideChanges(d)), PsqPart(n, p, oldKsq, oldEntry.pieces, j);
      SideAdvance(n, p, oldKsq, newKsq, j, d, a, b);
      HybridLane(n, j, PsqPart(n, p, newKsq, b, j), PsqPart(n, p, oldKsq, a, j) + SidePart(n, p, oldKsq, a, j), was,
                 WeightSum(n.psqWeight, oldRemove, j) - WeightSum(n.psqWeight, oldAdd, j), side);
    }
  }

  /** The threat and pawn pair part survives a king move within its half. */
  lemma SideAdvance(n: Network, p: Color, oldKsq: Square, newKsq: Square, j: nat, d: Dirties, a: Board, b: Board)
    requires Describes(d, a, b) && Mirrored(oldKsq) == Mirrored(newKsq)
    ensures SidePart(n, p, newKsq, b, j) == SidePart(n, p, oldKsq, a, j) + Sum(n, p, newKsq, j, SideChanges(d))
  {
    SumsAdvance(n, p, newKsq, j, d, a, b);
    forall c | c in SideList(a)
      ensures !c.f.Psq?
    {
      SideOnly(a, c);
    }
    hide Describes, SideList, Mirrored;
    HalfDecides(n, p, oldKsq, newKsq, j, SideList(a));
  }

  lemma SideOnly(b: Board, c: Change)
    requires c in SideList(b)
    ensures !c.f.Psq?
  {
    if c in ThreatList(b, 4096) { ThreatOnly(b, 4096, c); } else { PairOnly(PawnsOf(b), PawnsOf(b).All(), 4096, c); }
  }

  lemma {:induction false} ThreatOnly(b: Board, m: nat, c: Change)
    requires m <= 4096 && c in ThreatList(b, m)
    ensures !c.f.Psq?
  {
    hide IsThreat;
    if m > 0 && c in ThreatList(b, m - 1) { ThreatOnly(b, m - 1, c); }
  }

  lemma {:induction false} PairOnly(w: Pawns, updated: Bitboard, m: nat, c: Change)
    requires m <= 4096 && c in PairList(w, updated, m)
    ensures !c.f.Psq?
  {
    hide PairIn;
    if m > 0 && c in PairList(w, updated, m - 1) { PairOnly(w, updated, m - 1, c); }
  }

  lemma HybridLane(n: Network, j: nat, x: int, y: int, z: int, e: int, s: int)
    ensures Fit(n, j, Fit(n, j, Fit(n, j, x) + Fit(n, j, y) - Fit(n, j, z)) + e + s) == Fit(n, j, x + y - z + e + s)
  {
    FitAdd(n, j, x, Fit(n, j, y) - Fit(n, j, z));
    FitAdd(n, j, y, x - Fit(n, j, z));
    FitNeg(n, j, x + y, z);
    FitAdd(n, j, Fit(n, j, x) + Fit(n, j, y) - Fit(n, j, z), e + s);
    FitAdd(n, j, x + y - z, e + s);
    hide Fit;
  }

  lemma FitNeg(n: Network, j: nat, x: int, z: int)
    ensures Fit(n, j, x - Fit(n, j, z)) == Fit(n, j, x - z)
  {
    var m := Width(n, j);
    var q, r := (x - z) / m, (x - z) % m;
    var k := z / m;
    assert z == k * m + Fit(n, j, z);
    assert x - z == q * m + r;
    assert x - Fit(n, j, z) == q * m + k * m + r;
    if j < n.l1 { Residue16(x - Fit(n, j, z), q + k, r); } else { Residue32(x - Fit(n, j, z), q + k, r); }
  }

  // ----- The stack -----

  /** One slot: the sums for both sides, which of them are computed, and the move that led here. */
  datatype State = State(acc: PerColor<seq<int>>, computed: PerColor<bool>, dirty: Dirties)

  ghost predicate SlotRight(n: Network, s: State, b: Board, p: Color) {
    s.computed.At(p) ==> BoardFine(b) && Right(n, p, Ksq(b, p), b, s.acc.At(p))
  }

  /** Every computed slot holds the sum from scratch, and consecutive slots are linked by true reports. */
  ghost predicate StackOk(n: Network, states: seq<State>, boards: seq<Board>) {
    && 0 < |states| == |boards|
    && (forall i | 0 <= i < |boards| :: BoardFine(boards[i]))
    && (forall i, p | 0 <= i < |states| :: SlotRight(n, states[i], boards[i], p))
    && (forall i | 0 < i < |states| :: Describes(states[i].dirty, boards[i - 1], boards[i]))
    && states[0].dirty.piece.pc == Empty
  }

  const NO_DIRTIES := Dirties(DirtyPiece(Empty, 0, None, None, None), [], Pawns({}, {}), Pawns({}, {}))

  /** Side p's sum of slot i is filled in with v. */
  function Filled(states: seq<State>, i: nat, p: Color, v: seq<int>): seq<State>
    requires i < |states|
  {
    states[i := State(states[i].acc.With(p, v), states[i].computed.With(p, true), states[i].dirty)]
  }

  lemma FilledOk(n: Network, states: seq<State>, boards: seq<Board>, i: nat, p: Color, v: seq<int>)
    requires StackOk(n, states, boards) && i < |states| && Right(n, p, Ksq(boards[i], p), boards[i], v)
    ensures StackOk(n, Filled(states, i, p, v), boards)
  {
    hide Right, BoardFine, Describes;
    var t := Filled(states, i, p, v);
    forall k, q | 0 <= k < |t|
      ensures SlotRight(n, t[k], boards[k], q)
    {
      assert SlotRight(n, states[k], boards[k], q);
    }
  }

  /** No slot after lo is reached by a move of p's king. */
  ghost predicate Steady(states: seq<State>, p: Color, lo: nat) {
    forall i | lo < i < |states| :: states[i].dirty.piece.pc != Man(p, King)
  }

  /** No slot after lo has p's sum. */
  ghost predicate Pending(states: seq<State>, p: Color, lo: nat, hi: nat) {
    forall i | lo < i < hi && i < |states| :: !states[i].computed.At(p)
  }

  lemma {:induction false} KingSteady(n: Network, states: seq<State>, boards: seq<Board>, p: Color, lo: nat, i: nat)
    requires StackOk(n, states, boards) && Steady(states, p, lo) && lo <= i < |states|
    ensures Ksq(boards[i], p) == Ksq(boards[|boards| - 1], p)
    decreases |states| - i
  {
    if i + 1 < |states| {
      hide Describes, BoardFine, Ksq, SlotRight;
      KingSteady(n, states, boards, p, lo, i + 1);
      KingStays(states[i + 1].dirty, boards[i], boards[i + 1], p);
    }
  }

  /** Only side p's sums have changed. */
  ghost predicate OnlyFor(s: seq<State>, t: seq<State>, p: Color) {
    |s| == |t| && forall i | 0 <= i < |s| ::
        t[i].dirty == s[i].dirty && t[i].acc.At(p.Other()) == s[i].acc.At(p.Other())
                                             && t[i].computed.At(p.Other()) == s[i].computed.At(p.Other())
  }

  lemma OnlyForFilled(s: seq<State>, t: seq<State>, p: Color, i: nat, v: seq<int>)
    requires OnlyFor(s, t, p) && i < |t|
    ensures OnlyFor(s, Filled(t, i, p, v), p)
  {}

  class AccumulatorCaches {
    const net: Network
    var entries: seq<Entry>

    static function Slot(ksq: Square, p: Color): nat { 2 * ksq + (if p.White? then 0 else 1) }

    ghost predicate Valid()
      reads this
    {
      |entries| == 128 && forall s: Square, p: Color :: EntryRight(net, p, s, entries[Slot(s, p)])
    }

    /** Every entry starts from the biases and an empty board. */
    constructor (n: Network)
      ensures Valid() && net == n
    {
      var empty: Board := seq(64, _ => Empty);
      var v := seq(n.lanes, j requires 0 <= j < n.lanes => Fit(n, j, n.bias(j)));
      net := n;
      entries := seq(128, _ => Entry(v, empty, {}));
      EmptyEntry(n, empty, v);
    }

    /** Replaces one entry. */
    method Store(ksq: Square, p: Color, e: Entry)
      requires Valid() && EntryRight(net, p, ksq, e)
      modifies this
      ensures Valid() && entries == old(entries)[Slot(ksq, p) := e]
    {
      hide EntryRight;
      entries := entries[Slot(ksq, p) := e];
    }
  }

  lemma EmptyEntry(n: Network, empty: Board, v: seq<int>)
    requires empty == seq(64, _ => Empty) && v == seq(n.lanes, j requires 0 <= j < n.lanes => Fit(n, j, n.bias(j)))
    ensures forall s: Square, p: Color :: EntryRight(n, p, s, Entry(v, empty, {}))
  {
    hide Fit;
    EmptyList(empty, 64);
    assert Occ(empty) == {};
  }

  lemma {:induction false} EmptyList(b: Board, m: nat)
    requires m <= 64 && forall s: Square :: b[s] == Empty
    ensures PsqList(b, m) == []
  {
    if m > 0 { EmptyList(b, m - 1); }
  }

  class AccumulatorStack {
    const net: Network
    const accumulators: array<State>
    var size: nat
    ghost var boards: seq<Board>

    ghost predicate Valid()
      reads this, accumulators
    {
      size <= accumulators.Length && StackOk(net, accumulators[..size], boards)
    }

    constructor (n: Network, maxSize: nat, ghost b: Board)
      requires maxSize > 0 && BoardFine(b)
      ensures Valid() && fresh(accumulators) && net == n && accumulators.Length == maxSize && boards == [b]
    {
      net, size, boards := n, 1, [b];
      accumulators := new State[maxSize](_ => State(PerColor([], []), PerColor(false, false), NO_DIRTIES));
    }

    /** `reset`: the stack of a new root position, nothing computed. */
    method Reset(ghost b: Board)
      requires accumulators.Length > 0 && BoardFine(b)
      modifies this, accumulators
      ensures Valid() && boards == [b]
      ensures !accumulators[0].computed.white && !accumulators[0].computed.black
    {
      accumulators[0] := accumulators[0].(dirty := NO_DIRTIES, computed := PerColor(false, false));
      size := 1;
      boards := [b];
    }

    /** Between push and the end of do_move: the slots below are in order, the top one waits for its report. */
    ghost predicate Pushed()
      reads this, accumulators
    {
      && 1 < size <= accumulators.Length && StackOk(net, accumulators[..size - 1], boards)
      && accumulators[size - 1].computed == PerColor(false, false)
    }

    /** `push`: a slot for the move about to be made, nothing in it computed. */
    method Push()
      requires Valid() && size < accumulators.Length
      modifies this`size, accumulators
      ensures Pushed() && size == old(size) + 1 && accumulators[..old(size)] == old(accumulators[..size])
      ensures accumulators[size - 1].dirty.threats == []
    {
      var st := accumulators[size];
      accumulators[size] := st.(computed := PerColor(false, false), dirty := st.dirty.(threats := []));
      size := size + 1;
      assert accumulators[..size - 1] == old(accumulators[..size]);
    }

    /** What do_move writes through the reference it was given. */
    method Report(d: Dirties, ghost b: Board)
      requires Pushed() && BoardFine(b) && Describes(d, boards[|boards| - 1], b)
      modifies this`boards, accumulators
      ensures Valid() && boards == old(boards) + [b] && accumulators[..size - 1] == old(accumulators[..size - 1])
      ensures accumulators[size - 1] == old(accumulators[size - 1]).(dirty := d)
    {
      ghost var s := accumulators[..size - 1];
      accumulators[size - 1] := accumulators[size - 1].(dirty := d);
      PushOk(net, s, boards, accumulators[size - 1], b);
      boards := boards + [b];
      assert accumulators[..size] == s + [accumulators[size - 1]];
    }

    /** `pop`. */
    method Pop()
      requires Valid() && size > 1
      modifies this`size, this`boards
      ensures Valid() && size == old(size) - 1 && boards == old(boards[..|boards| - 1])
    {
      PopOk(net, accumulators[..size], boards);
      size := size - 1;
      boards := boards[..size];
      assert accumulators[..size + 1][..size] == accumulators[..size];
    }

    /** `find_last_usable_accumulator`: the last computed slot, or the last one reached by a move of p's king. */
    method FindLastUsable(p: Color) returns (idx: nat)
      requires Valid()
      ensures idx < size && Usable(accumulators[..size], p, idx)
    {
      idx := size - 1;
      while idx > 0
        invariant idx < size
        invariant Steady(accumulators[..size], p, idx) && Pending(accumulators[..size], p, idx, size)
      {
        if accumulators[idx].computed.At(p) { return; }
        if accumulators[idx].dirty.piece.pc == Man(p, King) { return; }
        idx := idx - 1;
      }
    }

    /** Replays one move for side p, forwards or backwards, from a computed slot to its neighbour. */
    method Replay(forward: bool, p: Color, ksq: Square, target: nat, computed: nat) returns (ghost v: seq<int>)
      requires Valid() && target < size && computed < size
      requires computed + 1 == target || (!forward && computed == target + 1)
      requires forward <==> computed + 1 == target
      requires accumulators[computed].computed.At(p) && !accumulators[target].computed.At(p)
      requires Ksq(boards[computed], p) == ksq == Ksq(boards[target], p)
      modifies accumulators
      ensures Valid() && accumulators[..size] == Filled(old(accumulators[..size]), target, p, v)
    {
      var d := if forward then accumulators[target].dirty else accumulators[computed].dirty;
      ghost var s := accumulators[..size];
      ReplayReady(net, s, boards, p, target, computed);
      hide *;
      var u := UpdateIncremental(net, forward, p, ksq, d, accumulators[computed].acc.At(p),
                                 boards[if forward then computed else target],
                                     boards[if forward then target else computed]);
      FilledOk(net, s, boards, target, p, u);
      Fill(target, p, u);
      v := u;
    }

    /** Writes side p's sum of a slot. */
    method Fill(i: nat, p: Color, v: seq<int>)
      requires i < size <= accumulators.Length
      requires StackOk(net, Filled(accumulators[..size], i, p, v), boards)
      modifies accumulators
      ensures Valid() && accumulators[..size] == Filled(old(accumulators[..size]), i, p, v)
    {
      hide StackOk;
      ghost var s := accumulators[..size];
      accumulators[i] := State(accumulators[i].acc.With(p, v), accumulators[i].computed.With(p, true),
          accumulators[i].dirty);
      assert accumulators[..size] == Filled(s, i, p, v);
    }

    /** `forward_update_incremental`. */
    method ForwardUpdate(p: Color, ksq: Square, begin: nat, end: nat)
      requires Valid() && begin < end <= size && ksq == Ksq(boards[|boards| - 1], p)
      requires accumulators[begin].computed.At(p) && Steady(accumulators[..size], p, begin)
          && Pending(accumulators[..size], p, begin, size)
      modifies accumulators
      ensures Valid() && OnlyFor(old(accumulators[..size]), accumulators[..size], p)
      ensures accumulators[end - 1].computed.At(p) && Pending(accumulators[..size], p, end - 1, size)
    {
      hide StackOk, Ksq;
      ghost var s0 := accumulators[..size];
      for next := begin + 1 to end
        invariant Valid() && OnlyFor(s0, accumulators[..size], p)
        invariant accumulators[next - 1].computed.At(p)
        invariant Steady(accumulators[..size], p, begin) && Pending(accumulators[..size], p, next - 1, size)
      {
        ghost var s := accumulators[..size];
        StackShape(net, s, boards);
        KingSteady(net, s, boards, p, begin, next - 1);
        KingSteady(net, s, boards, p, begin, next);
        assert !s[next].computed.At(p);
        ghost var v := Replay(true, p, ksq, next, next - 1);
        FilledKeeps(s0, s, p, next, v, begin);
        assert accumulators[next] == accumulators[..size][next];
      }
    }

    /** `backward_update_incremental`. */
    method BackwardUpdate(p: Color, ksq: Square, end: nat)
      requires Valid() && end < size && ksq == Ksq(boards[|boards| - 1], p)
      requires Steady(accumulators[..size], p, end)
      requires Done(accumulators[..size], p, size - 1) && Undone(accumulators[..size], p, end, size - 1)
      modifies accumulators
      ensures Valid() && OnlyFor(old(accumulators[..size]), accumulators[..size], p)
      ensures Done(accumulators[..size], p, end)
    {
      hide StackOk, Ksq, OnlyFor, Done, Undone, Steady;
      ghost var s0 := accumulators[..size];
      OnlyForItself(s0, p);
      var next := size - 1;
      while next > end
        invariant end <= next < size
        invariant Valid() && OnlyFor(s0, accumulators[..size], p) && Steady(accumulators[..size], p, end)
        invariant Done(accumulators[..size], p, next) && Undone(accumulators[..size], p, end, next)
      {
        next := next - 1;
        ghost var s := accumulators[..size];
        StackShape(net, s, boards);
        KingSteady(net, s, boards, p, end, next);
        KingSteady(net, s, boards, p, end, next + 1);
        DoneAt(s, p, end, next);
        assert s[next] == accumulators[next] && s[next + 1] == accumulators[next + 1];
        ghost var v := Replay(false, p, ksq, next, next + 1);
        FilledBack(s0, s, p, next, v, end);
      }
    }

    /** `forward_update_incremental_both`: the lagging side catches up, then both go together. */
    method ForwardUpdateBoth(whiteKsq: Square, blackKsq: Square, whiteBegin: nat, blackBegin: nat)
      requires Valid() && Usable(accumulators[..size], White, whiteBegin)
          && Usable(accumulators[..size], Black, blackBegin)
      requires whiteKsq == Ksq(boards[|boards| - 1], White) && blackKsq == Ksq(boards[|boards| - 1], Black)
      requires accumulators[whiteBegin].computed.white && accumulators[blackBegin].computed.black
      modifies accumulators
      ensures Valid() && accumulators[size - 1].computed == PerColor(true, true)
    {
      hide StackOk, Ksq;
      var sharedBegin := if whiteBegin > blackBegin then whiteBegin else blackBegin;
      ghost var s0 := accumulators[..size];
      ForwardUpdate(White, whiteKsq, whiteBegin, sharedBegin + 1);
      ghost var s1 := accumulators[..size];
      OnlyForOther(s0, s1, White, blackBegin);
      ForwardUpdate(Black, blackKsq, blackBegin, sharedBegin + 1);
      OnlyForOther(s1, accumulators[..size], Black, whiteBegin);
      for next := sharedBegin + 1 to size
        invariant Valid() && accumulators[next - 1].computed == PerColor(true, true)
        invariant Steady(accumulators[..size], White, whiteBegin)
            && Pending(accumulators[..size], White, next - 1, size)
        invariant Steady(accumulators[..size], Black, blackBegin)
            && Pending(accumulators[..size], Black, next - 1, size)
      {
        ReplayBoth(whiteKsq, blackKsq, next, whiteBegin, blackBegin);
      }
    }

    /** `update_accumulator_incremental_both`. */
    method ReplayBoth(whiteKsq: Square, blackKsq: Square, next: nat, ghost whiteBegin: nat, ghost blackBegin: nat)
      requires Valid() && whiteBegin < next < size && blackBegin < next
      requires whiteKsq == Ksq(boards[|boards| - 1], White) && blackKsq == Ksq(boards[|boards| - 1], Black)
      requires accumulators[next - 1].computed == PerColor(true, true)
      requires Steady(accumulators[..size], White, whiteBegin) && Pending(accumulators[..size], White, next - 1, size)
      requires Steady(accumulators[..size], Black, blackBegin) && Pending(accumulators[..size], Black, next - 1, size)
      modifies accumulators
      ensures Valid() && accumulators[next].computed == PerColor(true, true)
      ensures Steady(accumulators[..size], White, whiteBegin) && Pending(accumulators[..size], White, next, size)
      ensures Steady(accumulators[..size], Black, blackBegin) && Pending(accumulators[..size], Black, next, size)
    {
      hide StackOk, Ksq;
      ghost var s := accumulators[..size];
      StackShape(net, s, boards);
      KingSteady(net, s, boards, White, whiteBegin, next - 1);
      KingSteady(net, s, boards, White, whiteBegin, next);
      KingSteady(net, s, boards, Black, blackBegin, next - 1);
      KingSteady(net, s, boards, Black, blackBegin, next);
      assert !s[next].computed.At(White) && !s[next].computed.At(Black);
      ghost var v := Replay(true, White, whiteKsq, next, next - 1);
      ghost var t := accumulators[..size];
      assert accumulators[next] == t[next] && accumulators[next - 1] == t[next - 1];
      ghost var u := Replay(true, Black, blackKsq, next, next - 1);
      assert accumulators[next] == accumulators[..size][next];
    }

    /** `evaluate_side`: forward replay, the hybrid king move, or a refresh followed by backward replay. */
    method EvaluateSide(p: Color, b: Board, cache: AccumulatorCaches, lastUsable: nat)
      requires Valid() && b == boards[|boards| - 1] && cache.Valid() && cache.net == net
          && Usable(accumulators[..size], p, lastUsable)
      modifies accumulators, cache
      ensures Valid() && cache.Valid() && OnlyFor(old(accumulators[..size]), accumulators[..size], p)
      ensures accumulators[size - 1].computed.At(p)
    {
      hide StackOk, Ksq, BoardFine, EntryRight, Occ;
      ghost var s := accumulators[..size];
      StackShape(net, s, boards);
      var ksq := Ksq(b, p);
      if accumulators[lastUsable].computed.At(p) {
        ForwardUpdate(p, ksq, lastUsable, size);
      } else {
        PendingUndone(s, p, lastUsable);
        var dirtyPiece := accumulators[size - 1].dirty.piece;
        if dirtyPiece.pc == Man(p, King) {
          HybridReady(net, s, boards, p);
          if accumulators[size - 2].computed.At(p) && |Occ(b)| >= 15
             && (dirtyPiece.from / 4) % 2 == (dirtyPiece.to.value / 4) % 2 && dirtyPiece.add == None
          {
            ghost var v := HybridSide(p, b, cache);
            assert accumulators[size - 1] == Filled(s, size - 1, p, v)[size - 1];
            OnlyForFilled(s, s, p, size - 1, v);
            return;
          }
        }
        RefreshAndReplay(p, b, ksq, cache, lastUsable);
        assert accumulators[size - 1] == accumulators[..size][size - 1];
      }
    }

    /** The refresh, and the replay back to the last usable slot. */
    method RefreshAndReplay(p: Color, b: Board, ksq: Square, cache: AccumulatorCaches, lastUsable: nat)
      requires Valid() && b == boards[|boards| - 1] && cache.Valid() && cache.net == net && ksq == Ksq(b, p)
          && lastUsable < size
      requires Steady(accumulators[..size], p, lastUsable) && Undone(accumulators[..size], p, lastUsable, size)
      modifies accumulators, cache
      ensures Valid() && cache.Valid() && OnlyFor(old(accumulators[..size]), accumulators[..size], p)
      ensures Done(accumulators[..size], p, lastUsable)
    {
      hide StackOk, Ksq, OnlyFor, Done, Undone, Steady, EntryRight;
      ghost var s := accumulators[..size];
      StackShape(net, s, boards);
      OnlyForItself(s, p);
      ghost var v := RefreshSide(p, b, ksq, cache);
      FilledTop(s, p, v, lastUsable);
      ghost var t := accumulators[..size];
      BackwardUpdate(p, ksq, lastUsable);
      OnlyForJoin(s, t, accumulators[..size], p);
    }

    /** The refresh branch. */
    method RefreshSide(p: Color, b: Board, ksq: Square, cache: AccumulatorCaches) returns (ghost v: seq<int>)
      requires Valid() && b == boards[|boards| - 1] && cache.Valid() && cache.net == net && ksq == Ksq(b, p)
      modifies accumulators, cache
      ensures Valid() && cache.Valid() && accumulators[..size] == Filled(old(accumulators[..size]), size - 1, p, v)
    {
      hide StackOk, Ksq, EntryRight, Right, Inside, PawnsOf, Occ, Pieces;
      ghost var s := accumulators[..size];
      StackShape(net, s, boards);
      var r, u := RefreshCache(net, p, ksq, b, cache.entries[AccumulatorCaches.Slot(ksq, p)]);
      cache.Store(ksq, p, r);
      FilledOk(net, s, boards, size - 1, p, u);
      Fill(size - 1, p, u);
      v := u;
    }

    /** The hybrid branch. */
    method HybridSide(p: Color, b: Board, cache: AccumulatorCaches) returns (ghost v: seq<int>)
      requires Valid() && b == boards[|boards| - 1] && cache.Valid() && cache.net == net
      requires var dp := accumulators[size - 1].dirty.piece;
               && dp.pc == Man(p, King) && dp.add == None && size >= 2 && accumulators[size - 2].computed.At(p)
               && dp.to.Some? && (dp.from / 4) % 2 == (dp.to.value / 4) % 2
      modifies accumulators, cache
      ensures Valid() && cache.Valid() && accumulators[..size] == Filled(old(accumulators[..size]), size - 1, p, v)
    {
      hide StackOk, Ksq, EntryRight, Right, Inside, PawnsOf, Occ, Pieces, Describes;
      ghost var s := accumulators[..size];
      StackShape(net, s, boards);
      HybridReady(net, s, boards, p);
      ReplayReady(net, s, boards, p, size - 1, size - 2);
      var d := accumulators[size - 1].dirty;
      var oldKsq, newKsq := d.piece.from, d.piece.to.value;
      SameHalf(oldKsq, newKsq);
      var r, u := UpdateHybrid(net, p, d, b, accumulators[size - 2].acc.At(p),
          cache.entries[AccumulatorCaches.Slot(oldKsq, p)],
                               cache.entries[AccumulatorCaches.Slot(newKsq, p)], boards[size - 2]);
      cache.Store(newKsq, p, r);
      FilledOk(net, s, boards, size - 1, p, u);
      Fill(size - 1, p, u);
      v := u;
    }

    /** `AccumulatorStack::evaluate`: afterwards the top slot holds both sides' sums from scratch. */
    method Evaluate(b: Board, cache: AccumulatorCaches)
      requires Valid() && b == boards[|boards| - 1] && cache.Valid() && cache.net == net
      modifies accumulators, cache
      ensures Valid() && cache.Valid() && accumulators[size - 1].computed == PerColor(true, true)
      ensures BoardFine(b)
      ensures Right(net, White, Ksq(b, White), b, accumulators[size - 1].acc.white)
      ensures Right(net, Black, Ksq(b, Black), b, accumulators[size - 1].acc.black)
    {
      hide StackOk, Ksq, Right, BoardFine, AccumulatorCaches.Valid;
      BringUp(b, cache);
      StackShape(net, accumulators[..size], boards);
      assert accumulators[size - 1] == accumulators[..size][size - 1];
      TopRight(net, accumulators[..size], boards);
    }

    /** The joint replay when both sides have a computed slot to start from, else each side by itself. */
    method BringUp(b: Board, cache: AccumulatorCaches)
      requires Valid() && b == boards[|boards| - 1] && cache.Valid() && cache.net == net
      modifies accumulators, cache
      ensures Valid() && cache.Valid() && accumulators[size - 1].computed == PerColor(true, true)
    {
      hide StackOk, Ksq, Right, EntryRight, Inside, PawnsOf, Pieces, Usable, BoardFine, AccumulatorCaches.Valid;
      var lastWhite := FindLastUsable(White);
      var lastBlack := FindLastUsable(Black);
      StackShape(net, accumulators[..size], boards);
      if accumulators[lastWhite].computed.white && accumulators[lastBlack].computed.black {
        ForwardUpdateBoth(Ksq(b, White), Ksq(b, Black), lastWhite, lastBlack);
      } else {
        EvaluateSides(b, cache, lastWhite, lastBlack);
      }
    }

    /** One side after the other. */
    method EvaluateSides(b: Board, cache: AccumulatorCaches, lastWhite: nat, lastBlack: nat)
      requires Valid() && b == boards[|boards| - 1] && cache.Valid() && cache.net == net
      requires Usable(accumulators[..size], White, lastWhite) && Usable(accumulators[..size], Black, lastBlack)
      modifies accumulators, cache
      ensures Valid() && cache.Valid() && accumulators[size - 1].computed == PerColor(true, true)
    {
      hide StackOk, Ksq, Right, EntryRight, Inside, PawnsOf, Pieces, OnlyFor, Usable;
      ghost var s := accumulators[..size];
      EvaluateSide(White, b, cache, lastWhite);
      ghost var t := accumulators[..size];
      UsableStays(s, t, White, lastBlack);
      EvaluateSide(Black, b, cache, lastBlack);
      UsableStays(t, accumulators[..size], Black, 0);
      assert accumulators[size - 1] == accumulators[..size][size - 1];
      assert t[size - 1].computed.white;
    }
  }

  /** What find_last_usable_accumulator returns. */
  ghost predicate Usable(s: seq<State>, p: Color, i: nat) {
    && i < |s| && Steady(s, p, i) && Pending(s, p, i, |s|)
    && (s[i].computed.At(p) || i == 0 || s[i].dirty.piece.pc == Man(p, King))
  }

  /** Work for one side leaves the other side's slots alone. */
  lemma UsableStays(s: seq<State>, t: seq<State>, p: Color, i: nat)
    requires OnlyFor(s, t, p)
    ensures |s| == |t| && (Usable(s, p.Other(), i) ==> Usable(t, p.Other(), i))
    ensures forall k | 0 <= k < |s| :: t[k].computed.At(p.Other()) == s[k].computed.At(p.Other())
  {}

  lemma StackShape(n: Network, s: seq<State>, boards: seq<Board>)
    requires StackOk(n, s, boards)
    ensures 0 < |s| == |boards| && forall i | 0 <= i < |s| :: BoardFine(boards[i])
  {}

  /** Filling one slot forwards keeps what the loop relies on. */
  lemma FilledKeeps(s0: seq<State>, s: seq<State>, p: Color, i: nat, v: seq<int>, begin: nat)
    requires OnlyFor(s0, s, p) && Steady(s, p, begin) && i < |s|
    ensures OnlyFor(s0, Filled(s, i, p, v), p) && Steady(Filled(s, i, p, v), p, begin)
    ensures i > 0 && Pending(s, p, i - 1, |s|) ==> Pending(Filled(s, i, p, v), p, i, |s|)
    ensures forall k | 0 <= k < |s| :: Filled(s, i, p, v)[k].computed.At(p) == (k == i || s[k].computed.At(p))
  {}

  /** From lo on, every slot has p's sum. */
  ghost predicate Done(s: seq<State>, p: Color, lo: nat) { forall i | lo <= i < |s| :: s[i].computed.At(p) }

  /** From lo up to hi, no slot has p's sum. */
  ghost predicate Undone(s: seq<State>, p: Color, lo: nat, hi: nat) {
    forall i | lo <= i < hi && i < |s| :: !s[i].computed.At(p)
  }

  lemma PendingUndone(s: seq<State>, p: Color, lo: nat)
    requires lo < |s| && Pending(s, p, lo, |s|) && !s[lo].computed.At(p)
    ensures Undone(s, p, lo, |s|)
  {}

  lemma DoneAt(s: seq<State>, p: Color, lo: nat, i: nat)
    requires lo <= i && i + 1 < |s| && Done(s, p, i + 1) && Undone(s, p, lo, i + 1)
    ensures s[i + 1].computed.At(p) && !s[i].computed.At(p)
  {}

  lemma FilledBack(s0: seq<State>, s: seq<State>, p: Color, i: nat, v: seq<int>, lo: nat)
    requires OnlyFor(s0, s, p) && Steady(s, p, lo) && lo <= i < |s| && Done(s, p, i + 1) && Undone(s, p, lo, i + 1)
    ensures var t := Filled(s, i, p, v);
            OnlyFor(s0, t, p) && Steady(t, p, lo) && Done(t, p, i) && Undone(t, p, lo, i)
  {}

  lemma FilledTop(s: seq<State>, p: Color, v: seq<int>, lo: nat)
    requires lo < |s| && Steady(s, p, lo) && Undone(s, p, lo, |s|)
    ensures var t, m := Filled(s, |s| - 1, p, v), |s| - 1;
            OnlyFor(s, t, p) && Steady(t, p, lo) && Done(t, p, m) && Undone(t, p, lo, m)
  {}

  lemma OnlyForItself(s: seq<State>, p: Color)
    ensures OnlyFor(s, s, p)
  {}

  lemma OnlyForJoin(s: seq<State>, t: seq<State>, u: seq<State>, p: Color)
    requires OnlyFor(s, t, p) && OnlyFor(t, u, p)
    ensures OnlyFor(s, u, p)
  {}

  /** Work for one side leaves the other side's slots alone. */
  lemma OnlyForOther(s: seq<State>, t: seq<State>, p: Color, lo: nat)
    requires OnlyFor(s, t, p)
    ensures forall q, m :: Steady(s, q, m) ==> Steady(t, q, m)
    ensures Pending(s, p.Other(), lo, |s|) ==> Pending(t, p.Other(), lo, |t|)
    ensures forall k, hi | lo <= k :: Pending(s, p.Other(), k, hi) ==> Pending(t, p.Other(), k, hi)
    ensures forall i | 0 <= i < |s| ::
        t[i].computed.At(p.Other()) == s[i].computed.At(p.Other()) && t[i].dirty == s[i].dirty
  {}

  /** When the last move was p's king's, the slot before exists and the king's squares are the reported ones. */
  lemma HybridReady(n: Network, s: seq<State>, boards: seq<Board>, p: Color)
    requires StackOk(n, s, boards) && s[|s| - 1].dirty.piece.pc == Man(p, King)
    ensures var dp, m := s[|s| - 1].dirty.piece, |s|;
            && m >= 2 && dp.to.Some? && BoardFine(boards[m - 1]) && BoardFine(boards[m - 2])
            && Describes(s[m - 1].dirty, boards[m - 2], boards[m - 1])
            && (dp.add == None ==> Ksq(boards[m - 2], p) == dp.from && Ksq(boards[m - 1], p) == dp.to.value)
  {
    hide SlotRight, Tracks, PawnsOf, Inside;
    var dp, m := s[|s| - 1].dirty.piece, |s|;
    assert Describes(s[m - 1].dirty, boards[m - 2], boards[m - 1]);
    if dp.add == None {
      OnlyKing(boards[m - 2], p, dp.from);
      OnlyKing(boards[m - 1], p, dp.to.value);
    }
  }

  lemma OnlyKing(b: Board, p: Color, k: Square)
    requires BoardFine(b) && b[k] == Man(p, King)
    ensures Ksq(b, p) == k
  {
    hide Inside;
    assert k in Pieces(b, p, King) && Ksq(b, p) in Pieces(b, p, King);
    if k != Ksq(b, p) { SubsetCard({k, Ksq(b, p)}, Pieces(b, p, King)); }
  }

  /** Bit 2 of a square number tells the half. */
  lemma SameHalf(k: Square, l: Square)
    requires (k / 4) % 2 == (l / 4) % 2
    ensures Mirrored(k) == Mirrored(l)
  {}

  lemma TopRight(n: Network, s: seq<State>, boards: seq<Board>)
    requires StackOk(n, s, boards) && s[|s| - 1].computed == PerColor(true, true)
    ensures var b := boards[|boards| - 1];
            BoardFine(b) && Right(n, White, Ksq(b, White), b, s[|s| - 1].acc.white)
                && Right(n, Black, Ksq(b, Black), b, s[|s| - 1].acc.black)
  {
    hide Right, BoardFine, Describes;
    assert SlotRight(n, s[|s| - 1], boards[|boards| - 1], White)
        && SlotRight(n, s[|s| - 1], boards[|boards| - 1], Black);
  }

  lemma PushOk(n: Network, states: seq<State>, boards: seq<Board>, s: State, b: Board)
    requires StackOk(n, states, boards) && s.computed == PerColor(false, false)
    requires BoardFine(b) && Describes(s.dirty, boards[|boards| - 1], b)
    ensures StackOk(n, states + [s], boards + [b])
  {
    hide Right, BoardFine, Describes;
    var t, c := states + [s], boards + [b];
    forall k, q | 0 <= k < |t|
      ensures SlotRight(n, t[k], c[k], q)
    {
      if k < |states| { assert SlotRight(n, states[k], boards[k], q); }
    }
  }

  lemma PopOk(n: Network, states: seq<State>, boards: seq<Board>)
    requires StackOk(n, states, boards) && |states| > 1
    ensures StackOk(n, states[..|states| - 1], boards[..|boards| - 1])
  {
    hide SlotRight, BoardFine, Describes;
  }

  /** What a replay may count on. */
  lemma ReplayReady(n: Network, s: seq<State>, boards: seq<Board>, p: Color, target: nat, computed: nat)
    requires StackOk(n, s, boards) && target < |s| && computed < |s|
        && (computed + 1 == target || computed == target + 1)
    requires s[computed].computed.At(p)
    ensures BoardFine(boards[computed]) && BoardFine(boards[target])
    ensures Right(n, p, Ksq(boards[computed], p), boards[computed], s[computed].acc.At(p))
    ensures if computed + 1 == target then Describes(s[target].dirty, boards[computed], boards[target])
            else Describes(s[computed].dirty, boards[target], boards[computed])
  {
    hide Right, BoardFine, Describes;
    assert SlotRight(n, s[computed], boards[computed], p);
  }
}
