/** The sizes of the two attack tables: what `init_magics` fills is exactly what is reserved. */
module Tables {
  import opened Types
  import opened Geometry
  import opened Board
  import opened Words
  import opened Magics

  /** Entries of `RookTable` and `BishopTable`, and of the arrays one square's search works in. */
  const ROOK_TABLE := 0x19000

  const BISHOP_TABLE := 0x1480

  const SUBSETS := 4096

  predicate Inner(x: int) { 1 <= x <= 6 }

  lemma RookMaskAt(s: Square, t: Square)
    ensures t in Mask(true, s) <==>
            t != s && ((Rank(t) == Rank(s) && Inner(File(t))) || (File(t) == File(s) && Inner(Rank(t))))
  {
    assert Sees({}, s, t) <==> Aligned(s, t);
  }

  lemma BishopMaskAt(s: Square, t: Square)
    ensures t in Mask(false, s) <==> BishopLine(s, t) && Inner(File(t)) && Inner(Rank(t))
  {
    assert Sees({}, s, t) <==> Aligned(s, t);
  }

  function One(c: bool): nat { if c then 1 else 0 }

  /** How many squares of rank k a mask has, the slider on file f of rank r. */
  function RankBits(rook: bool, f: int, r: int, k: int): nat {
    if rook then if k == r then 6 - One(Inner(f)) else One(Inner(k))
    else if k == r || !Inner(k) then 0 else One(Inner(f - (k - r))) + One(Inner(f + (k - r)))
  }

  lemma EightMore(bb: Bitboard, i: nat)
    requires i + 8 <= 64
    ensures Magics.Count(bb, i + 8) == Magics.Count(bb, i) + One(i in bb) + One(i + 1 in bb) + One(i + 2 in bb)
        + One(i + 3 in bb)
                                + One(i + 4 in bb) + One(i + 5 in bb) + One(i + 6 in bb) + One(i + 7 in bb)
  {
    assert Magics.Count(bb, i + 2) == Magics.Count(bb, i) + One(i in bb) + One(i + 1 in bb);
    assert Magics.Count(bb, i + 4) == Magics.Count(bb, i + 2) + One(i + 2 in bb) + One(i + 3 in bb);
    assert Magics.Count(bb, i + 6) == Magics.Count(bb, i + 4) + One(i + 4 in bb) + One(i + 5 in bb);
  }

  lemma RankCounts(rook: bool, s: Square, k: int)
    requires 0 <= k < 8
    ensures Magics.Count(Mask(rook, s), 8 * k + 8) == Magics.Count(Mask(rook, s), 8 * k)
        + RankBits(rook, File(s), Rank(s), k)
  {
    hide Mask, Magics.Count, File, Rank, OnRankAt, RankBits;
    EightMore(Mask(rook, s), 8 * k);
    forall f: int | 0 <= f < 8 ensures 8 * k + f in Mask(rook, s) <==> OnRankAt(rook, File(s), Rank(s), k, f) {
      MaskAt(rook, s, k, f);
    }
    Coordinates(s);
    if rook { RookRank(File(s), Rank(s), k); } else { BishopRank(File(s), Rank(s), k); }
  }

  /** Is file f of rank k in the mask of a slider on the given file and rank? */
  predicate OnRankAt(rook: bool, file: int, rank: int, k: int, f: int) {
    if rook then (k != rank || f != file) && ((k == rank && Inner(f)) || (f == file && Inner(k)))
    else file != f && (f - file == k - rank || file - f == k - rank) && Inner(f) && Inner(k)
  }

  lemma MaskAt(rook: bool, s: Square, k: int, f: int)
    requires 0 <= k < 8 && 0 <= f < 8
    ensures 8 * k + f in Mask(rook, s) <==> OnRankAt(rook, File(s), Rank(s), k, f)
  {
    var t: Square := 8 * k + f;
    assert File(t) == f && Rank(t) == k;
    if rook { RookMaskAt(s, t); } else { BishopMaskAt(s, t); }
    hide Mask;
  }

  lemma RookRank(file: int, rank: int, k: int)
    requires 0 <= file < 8 && 0 <= rank < 8 && 0 <= k < 8
    ensures One(OnRankAt(true, file, rank, k, 0)) + One(OnRankAt(true, file, rank, k, 1))
        + One(OnRankAt(true, file, rank, k, 2))
            + One(OnRankAt(true, file, rank, k, 3)) + One(OnRankAt(true, file, rank, k, 4))
                + One(OnRankAt(true, file, rank, k, 5))
            + One(OnRankAt(true, file, rank, k, 6)) + One(OnRankAt(true, file, rank, k, 7))
                == RankBits(true, file, rank, k)
  {}

  lemma BishopRank(file: int, rank: int, k: int)
    requires 0 <= file < 8 && 0 <= rank < 8 && 0 <= k < 8
    ensures One(OnRankAt(false, file, rank, k, 0)) + One(OnRankAt(false, file, rank, k, 1))
        + One(OnRankAt(false, file, rank, k, 2))
            + One(OnRankAt(false, file, rank, k, 3)) + One(OnRankAt(false, file, rank, k, 4))
                + One(OnRankAt(false, file, rank, k, 5))
            + One(OnRankAt(false, file, rank, k, 6)) + One(OnRankAt(false, file, rank, k, 7))
                == RankBits(false, file, rank, k)
  {}

  lemma Coordinates(s: Square)
    ensures 0 <= File(s) < 8 && 0 <= Rank(s) < 8
  {}

  /** The number of bits of a mask. */
  function Bits(rook: bool, f: int, r: int): nat {
    RankBits(rook, f, r, 0) + RankBits(rook, f, r, 1) + RankBits(rook, f, r, 2) + RankBits(rook, f, r, 3)
    + RankBits(rook, f, r, 4) + RankBits(rook, f, r, 5) + RankBits(rook, f, r, 6) + RankBits(rook, f, r, 7)
  }

  lemma MaskBits(rook: bool, s: Square)
    ensures Magics.Count(Mask(rook, s), 64) == Bits(rook, File(s), Rank(s))
  {
    hide Mask, Magics.Count, RankBits, File, Rank;
    NoneYet(Mask(rook, s));
    RankCounts(rook, s, 0);
    RankCounts(rook, s, 1);
    RankCounts(rook, s, 2);
    RankCounts(rook, s, 3);
    RankCounts(rook, s, 4);
    RankCounts(rook, s, 5);
    RankCounts(rook, s, 6);
    RankCounts(rook, s, 7);
  }

  lemma NoneYet(bb: Bitboard)
    ensures Magics.Count(bb, 0) == 0
  {}

  lemma Powers()
    ensures Pow2(5) == 32 && Pow2(6) == 64 && Pow2(7) == 128 && Pow2(9) == 512 && Pow2(10) == 1024 && Pow2(11) == 2048
        && Pow2(12) == 4096
  {
    assert Pow2(3) == 8;
    assert Pow2(6) == 64;
    assert Pow2(9) == 512;
  }

  /** What one square takes of its table. */
  function Size(rook: bool, f: int, r: int): nat {
    if rook then if Inner(f) && Inner(r) then 1024 else if Inner(f) || Inner(r) then 2048 else 4096
    else if Central(f) && Central(r) then (if (f == 3 || f == 4) && (r == 3 || r == 4) then 512 else 128)
    else if Inner(f) || Inner(r) then 32 else 64
  }

  predicate Central(x: int) { 2 <= x <= 5 }

  lemma SizeIs(rook: bool, s: Square)
    ensures Pow2(Magics.Count(Mask(rook, s), 64)) == Size(rook, File(s), Rank(s)) <= SUBSETS
  {
    MaskBits(rook, s);
    Powers();
    Coordinates(s);
    hide Mask, Magics.Count, File, Rank, Pow2;
    SizeOf(rook, File(s), Rank(s));
  }

  lemma SizeOf(rook: bool, f: int, r: int)
    requires 0 <= f < 8 && 0 <= r < 8
    ensures Bits(rook, f, r) == (match Size(rook, f,
        r) case 32 => 5 case 64 => 6 case 128 => 7 case 512 => 9 case 1024 => 10 case 2048 => 11 case _ => 12)
  {}

  /** The part of a table that one rank takes. */
  function RankSize(rook: bool, r: int): nat {
    Size(rook, 0, r) + Size(rook, 1, r) + Size(rook, 2, r) + Size(rook, 3, r) + Size(rook, 4, r) + Size(rook, 5, r)
        + Size(rook, 6, r) + Size(rook, 7, r)
  }

  lemma NextOffset(rook: bool, r: int, f: int)
    requires 0 <= r < 8 && 0 <= f < 8
    ensures Offset(rook, 8 * r + f + 1) == Offset(rook, 8 * r + f) + Size(rook, f, r)
  {
    var s: Square := 8 * r + f;
    SizeIs(rook, s);
    assert File(s) == f && Rank(s) == r;
    hide Mask, Magics.Count, Pow2, Size;
  }

  lemma RankOffset(rook: bool, r: int)
    requires 0 <= r < 8
    ensures Offset(rook, 8 * r + 8) == Offset(rook, 8 * r) + RankSize(rook, r)
  {
    hide Offset, Size;
    NextOffset(rook, r, 0);
    NextOffset(rook, r, 1);
    NextOffset(rook, r, 2);
    NextOffset(rook, r, 3);
    NextOffset(rook, r, 4);
    NextOffset(rook, r, 5);
    NextOffset(rook, r, 6);
    NextOffset(rook, r, 7);
  }

  /** The parts of the 64 squares fill both tables exactly, and one square's subsets fit the work arrays. */
  lemma TablesFit()
    ensures Offset(true, 64) == ROOK_TABLE && Offset(false, 64) == BISHOP_TABLE
    ensures forall rook: bool, s: Square :: Pow2(Magics.Count(Mask(rook, s), 64)) <= SUBSETS
  {
    hide Offset, Mask, Magics.Count, Pow2, RankSize, Size;
    forall rook: bool, s: Square ensures Pow2(Magics.Count(Mask(rook, s), 64)) <= SUBSETS { SizeIs(rook, s); }
    WholeTable(true);
    WholeTable(false);
    Sums();
  }

  lemma Sums()
    ensures RankSize(true, 0) == RankSize(true, 7) == 20480 && RankSize(false, 0) == RankSize(false, 7) == 320
    ensures RankSize(true, 1) == RankSize(true, 2) == RankSize(true, 3) == RankSize(true, 4) == RankSize(true, 5)
        == RankSize(true, 6) == 10240
    ensures RankSize(false, 1) == RankSize(false, 6) == 256 && RankSize(false, 2) == RankSize(false, 5) == 640
    ensures RankSize(false, 3) == RankSize(false, 4) == 1408
  {}

  lemma WholeTable(rook: bool)
    ensures Offset(rook, 64) == RankSize(rook, 0) + RankSize(rook, 1) + RankSize(rook, 2) + RankSize(rook, 3)
                                + RankSize(rook, 4) + RankSize(rook, 5) + RankSize(rook, 6) + RankSize(rook, 7)
  {
    hide Offset, RankSize;
    StartsAtNought(rook);
    RankOffset(rook, 0);
    RankOffset(rook, 1);
    RankOffset(rook, 2);
    RankOffset(rook, 3);
    RankOffset(rook, 4);
    RankOffset(rook, 5);
    RankOffset(rook, 6);
    RankOffset(rook, 7);
  }

  lemma StartsAtNought(rook: bool)
    ensures Offset(rook, 0) == 0
  {}

  /**
   * Both tables, of the sizes reserved for them: if the searches end, every rook and bishop
   * lookup gives what the ray walk gives.
   */
  method InitAll(rookTable: array<Bitboard>, bishopTable: array<Bitboard>, rookCandidates: seq<seq<nat>>,
      bishopCandidates: seq<seq<nat>>)
    returns (ok: bool, rookMagics: seq<nat>, bishopMagics: seq<nat>)
    requires rookTable != bishopTable && rookTable.Length == ROOK_TABLE && bishopTable.Length == BISHOP_TABLE
        && |rookCandidates| == |bishopCandidates| == 64
    modifies rookTable, bishopTable
    ensures ok ==> |rookMagics| == |bishopMagics| == 64 && forall s: Square ::
              LookupRight(rookTable[..], true, s, rookMagics[s])
                  && LookupRight(bishopTable[..], false, s, bishopMagics[s])
  {
    hide Offset, Mask, Magics.Count, Pow2, LookupRight;
    TablesFit();
    var epoch := new int[SUBSETS](_ => 0);
    bishopMagics := [];
    ok, rookMagics := InitMagics(true, rookTable, epoch, rookCandidates);
    if ok {
      epoch := new int[SUBSETS](_ => 0);
      ok, bishopMagics := InitMagics(false, bishopTable, epoch, bishopCandidates);
    }
  }
}
