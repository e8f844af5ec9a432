/**
 * Sliding attacks by perfect hashing: the subset enumeration, the fill loop with its epoch
 * counters, and the table layout.  When the search ends, looking up any occupancy, not only
 * the enumerated ones, gives what walking the rays gives.
 */
module Magics {
  import opened Types
  import opened Geometry
  import opened Board
  import opened Words
  import opened Attacks

  // ----- Enumerating the subsets of a mask -----

  /** `(b - m.mask) & m.mask`. */
  function Ripple(b: Bitboard, mask: Bitboard): Bitboard { Minus(b, mask) * mask }

  function Above(b: Bitboard, z: Square): Bitboard { set x: Square | 0 <= x < 64 && x > z && x in b }

  /** The negative of a word: its lowest bit stays, everything above flips. */
  lemma NegativeValue(d: Bitboard, z: Square)
    requires IsMin(d, z)
    ensures Value({z} + (Run(z as int + 1, 64) - d)) + Value(d) == Pow2(64)
  {
    var run, rest := Run(z as int + 1, 64), d - {z};
    assert rest <= run by { forall x | x in rest ensures x in run { assert IsOk(x); } }
    assert run - d == run - rest;
    assert d == {z} + rest && run == rest + (run - rest);
    ValueSum({z}, run - d, 64);
    ValueSum({z}, rest, 64);
    ValueSum(rest, run - rest, 64);
    ValueOne(z, 64);
    ValueRun(z as int + 1, 64, 64);
  }

  /** One step: the lowest missing bit of the mask is set and the bits below it are cleared. */
  lemma RippleStep(b: Bitboard, mask: Bitboard)
    requires b <= mask
    ensures b == mask ==> Ripple(b, mask) == {}
    ensures b != mask ==> mask - b != {} && Ripple(b, mask) == {Lsb(mask - b)} + Above(b, Lsb(mask - b))
  {
    var d := mask - b;
    assert mask == b + d;
    ValueSum(b, d, 64);
    if b == mask {
      RunEmpty(0, 64);
      MinusIs(b, mask, {});
    } else {
      assert d != {};
      var z := Lsb(d);
      NegativeValue(d, z);
      MinusIs(b, mask, {z} + (Run(z as int + 1, 64) - d));
      hide Minus, Value;
      forall x: Square
        ensures x in ({z} + (Run(z as int + 1, 64) - d)) * mask <==> x in {z} + Above(b, z)
      {
        assert IsOk(x);
      }
    }
  }

  /** How many squares of the mask lie below i. */
  function Count(mask: Bitboard, i: nat): (n: nat)
    requires i <= 64
    ensures n <= i
  {
    if i == 0 then 0 else Count(mask, i - 1) + (if i - 1 in mask then 1 else 0)
  }

  /** The subset's bits packed together: its number among the subsets. */
  function Packed(b: Bitboard, mask: Bitboard, i: nat): nat
    requires i <= 64
  {
    if i == 0 then 0
    else Packed(b, mask, i - 1) + (if i - 1 in mask && i - 1 in b then Pow2(Count(mask, i - 1)) else 0)
  }

  lemma {:induction false} PackedBound(b: Bitboard, mask: Bitboard, i: nat)
    requires i <= 64
    ensures Packed(b, mask, i) < Pow2(Count(mask, i))
  {
    if i > 0 { PackedBound(b, mask, i - 1); }
  }

  lemma {:induction false} PackedFull(mask: Bitboard, b: Bitboard, i: nat)
    requires i <= 64 && forall x: Square | x < i && x in mask :: x in b
    ensures Packed(b, mask, i) == Pow2(Count(mask, i)) - 1
  {
    if i > 0 { PackedFull(mask, b, i - 1); }
  }

  lemma {:induction false} PackedNone(mask: Bitboard, b: Bitboard, i: nat)
    requires i <= 64 && forall x: Square | x < i && x in mask :: x !in b
    ensures Packed(b, mask, i) == 0
  {
    if i > 0 { PackedNone(mask, b, i - 1); }
  }

  /** Different subsets have different numbers. */
  lemma {:induction false} PackedInjective(a: Bitboard, b: Bitboard, mask: Bitboard, i: nat)
    requires i <= 64 && Packed(a, mask, i) == Packed(b, mask, i)
    ensures forall x: Square | x < i && x in mask :: x in a <==> x in b
  {
    if i > 0 {
      PackedBound(a, mask, i - 1);
      PackedBound(b, mask, i - 1);
      PackedInjective(a, b, mask, i - 1);
    }
  }

  /** The step adds one to the number. */
  lemma RippleCounts(b: Bitboard, mask: Bitboard)
    requires b <= mask && b != mask
    ensures Packed(Ripple(b, mask), mask, 64) == Packed(b, mask, 64) + 1
  {
    RippleStep(b, mask);
    var z := Lsb(mask - b);
    forall x: Square | x < z && x in mask ensures x in b { assert x !in mask - b; }
    PackedFull(mask, b, z);
    PackedNone(mask, Ripple(b, mask), z);
    CountsAbove(b, Ripple(b, mask), mask, z, 64);
  }

  lemma {:induction false} CountsAbove(b: Bitboard, c: Bitboard, mask: Bitboard, z: Square, i: nat)
    requires z < i <= 64 && z in mask && z !in b && z in c
    requires Packed(b, mask, z) == Pow2(Count(mask, z)) - 1 && Packed(c, mask, z) == 0
    requires forall x: Square | x > z :: x in b <==> x in c
    ensures Packed(c, mask, i) == Packed(b, mask, i) + 1
  {
    if i > z as int + 1 { CountsAbove(b, c, mask, z, i - 1); }
  }

  /** The first loop of init_magics lists every subset of the mask, each at its own number. */
  method Enumerate(mask: Bitboard) returns (occupancy: seq<Bitboard>)
    ensures |occupancy| == Pow2(Count(mask, 64))
    ensures forall i | 0 <= i < |occupancy| :: occupancy[i] <= mask && Packed(occupancy[i], mask, 64) == i
    ensures forall x | x <= mask :: Packed(x, mask, 64) < |occupancy| && occupancy[Packed(x, mask, 64)] == x
  {
    occupancy := [];
    var b: Bitboard := {};
    PackedNone(mask, b, 64);
    while true
      invariant b <= mask && Packed(b, mask, 64) == |occupancy|
      invariant forall i | 0 <= i < |occupancy| :: occupancy[i] <= mask && Packed(occupancy[i], mask, 64) == i
      decreases Pow2(Count(mask, 64)) - |occupancy|
    {
      PackedBound(b, mask, 64);
      occupancy := occupancy + [b];
      RippleStep(b, mask);
      if b == mask { PackedFull(mask, b, 64); } else { RippleCounts(b, mask); }
      b := Ripple(b, mask);
      if b == {} { break; }
    }
    forall x | x <= mask
      ensures Packed(x, mask, 64) < |occupancy| && occupancy[Packed(x, mask, 64)] == x
    {
      PackedBound(x, mask, 64);
      PackedInjective(x, occupancy[Packed(x, mask, 64)], mask, 64);
    }
  }

  // ----- Which squares matter -----

  /** `edges`: the board's border, less the lines the slider stands on. */
  predicate OnEdge(s: Square, t: Square) {
    ((Rank(t) == 0 || Rank(t) == 7) && Rank(t) != Rank(s)) || ((File(t) == 0 || File(t) == 7) && File(t) != File(s))
  }

  function Slides(rook: bool, occ: Bitboard, s: Square): Bitboard { if rook then RookBB(occ, s) else BishopBB(occ, s) }

  /** `m.mask`. */
  function Mask(rook: bool, s: Square): Bitboard {
    set t: Square | 0 <= t < 64 && t in Slides(rook, {}, s) && !OnEdge(s, t)
  }

  /** A square strictly between two others is never on the edge the slider faces. */
  lemma InnerNotEdge(s: Square, m: Square, t: Square)
    requires Between(s, m, t)
    ensures !OnEdge(s, m)
  {}

  lemma BetweenInMask(rook: bool, s: Square, m: Square, t: Square)
    requires (if rook then RookLine(s, t) else BishopLine(s, t)) && Between(s, m, t)
    ensures m in Mask(rook, s)
  {
    InnerNotEdge(s, m, t);
    SameRayType(s, m, t);
    assert Sees({}, s, m);
    hide OnEdge, RookLine, BishopLine;
  }

  /** Only the mask's squares decide the attacks. */
  lemma MaskDecides(rook: bool, occ: Bitboard, s: Square)
    ensures Slides(rook, occ, s) == Slides(rook, occ * Mask(rook, s), s)
  {
    hide Mask, Between;
    forall t: Square | if rook then RookLine(s, t) else BishopLine(s, t)
      ensures Sees(occ, s, t) <==> Sees(occ * Mask(rook, s), s, t)
    {
      forall m: Square | Between(s, m, t) ensures m in Mask(rook, s) { BetweenInMask(rook, s, m, t); }
    }
  }

  // ----- Hashing -----

  function Product(a: nat, b: nat): nat { a * b }

  /** The product of two words, truncated to a word, shifted right. */
  function HighBits(v: nat, word: nat, q: nat): nat
    requires word > 0 && q > 0
  {
    (v % word) / q
  }

  /** `Magic::index`, for 64-bit words. */
  function Index(mask: Bitboard, magic: nat, occupied: Bitboard): nat {
    HighBits(Product(Value(occupied * mask), magic), Pow2(64), Pow2(64 - Count(mask, 64)))
  }

  /** `popcount`. */
  function Ones(n: nat): nat { if n == 0 then 0 else n % 2 + Ones(n / 2) }

  /** The test a candidate must pass before it is tried: enough bits in the top byte of its product with the mask. */
  predicate Dense(mask: Bitboard, magic: nat) {
    Ones(HighBits(Product(Value(mask), magic), Pow2(64), Pow2(56))) >= 6
  }

  lemma {:induction false} Pow2Sum(a: nat, b: nat)
    ensures Pow2(a + b) == Pow2(a) * Pow2(b)
  {
    if a > 0 { Pow2Sum(a - 1, b); }
  }

  lemma IndexBound(mask: Bitboard, magic: nat, occupied: Bitboard)
    ensures Index(mask, magic, occupied) < Pow2(Count(mask, 64))
  {
    var n := Count(mask, 64);
    Pow2Sum(n, 64 - n);
    hide *;
    HighBound(Product(Value(occupied * mask), magic), Pow2(64), Pow2(n), Pow2(64 - n));
    assert n + (64 - n) == 64;
  }

  lemma HighBound(v: nat, word: nat, p: nat, q: nat)
    requires q > 0 && word > 0 && word == p * q
    ensures HighBits(v, word, q) < p
  {
    DivideBound(v % word, p, q);
  }

  lemma DivideBound(v: nat, p: nat, q: nat)
    requires q > 0 && v < p * q
    ensures v / q < p
  {
    var d := v / q;
    if d >= p { assert d * q >= p * q by { MulMono(p, d, q); } }
  }

  lemma MulMono(x: nat, y: nat, q: nat)
    requires x <= y
    ensures x * q <= y * q
  {}

  /** The lookup of a square is right for every subset of its mask. */
  ghost predicate Filled(table: seq<Bitboard>, off: nat, mask: Bitboard, magic: nat, occupancy: seq<Bitboard>,
      reference: seq<Bitboard>, upto: nat)
  {
    && off + Pow2(Count(mask, 64)) <= |table| && upto <= |occupancy| == |reference|
    && forall j {:trigger occupancy[j]} | 0 <= j < upto ::
        Index(mask, magic, occupancy[j]) < Pow2(Count(mask, 64))
        && table[off + Index(mask, magic, occupancy[j])] == reference[j]
  }

  /**
   * One attempt with a magic number: the table is written lazily, the epoch telling which entries
   * are of this attempt.
   */
  method TryMagic(table: array<Bitboard>, off: nat, epoch: array<int>, cnt: int, mask: Bitboard, magic: nat,
      occupancy: seq<Bitboard>, reference: seq<Bitboard>)
      returns (ok: bool)
    requires |occupancy| == |reference| && off + Pow2(Count(mask, 64)) <= table.Length
        && Pow2(Count(mask, 64)) <= epoch.Length
    requires forall k | 0 <= k < epoch.Length :: epoch[k] < cnt
    modifies table, epoch
    ensures forall k | 0 <= k < epoch.Length :: epoch[k] <= cnt
    ensures forall k | 0 <= k < table.Length && !(off <= k < off + Pow2(Count(mask, 64))) :: table[k] == old(table[k])
    ensures ok ==> Filled(table[..], off, mask, magic, occupancy, reference, |occupancy|)
  {
    hide Index, Count, Pow2;
    var i := 0;
    while i < |occupancy|
      invariant 0 <= i <= |occupancy|
      invariant forall k | 0 <= k < epoch.Length :: epoch[k] <= cnt
      invariant forall k | 0 <= k < table.Length && !(off <= k < off + Pow2(Count(mask, 64))) ::
          table[k] == old(table[k])
      invariant forall j {:trigger occupancy[j]} | 0 <= j < i ::
          var idx := Index(mask, magic, occupancy[j]);
          idx < Pow2(Count(mask, 64)) && epoch[idx] == cnt && table[off + idx] == reference[j]
    {
      var idx := Index(mask, magic, occupancy[i]);
      IndexBound(mask, magic, occupancy[i]);
      if epoch[idx] < cnt {
        epoch[idx] := cnt;
        table[off + idx] := reference[i];
      } else if table[off + idx] != reference[i] {
        return false;
      }
      i := i + 1;
    }
    ok := true;
  }

  /** Where a square's part of the table starts. */
  function Offset(rook: bool, s: nat): nat
    requires s <= 64
  {
    if s == 0 then 0 else Offset(rook, s - 1) + Pow2(Count(Mask(rook, s - 1), 64))
  }

  lemma {:induction false} OffsetGrows(rook: bool, s: nat, t: nat)
    requires s < t <= 64
    ensures Offset(rook, s) + Pow2(Count(Mask(rook, s), 64)) <= Offset(rook, t)
  {
    hide Pow2, Count, Mask;
    if s + 1 < t { OffsetGrows(rook, s, t - 1); }
  }

  /** The table parts of two squares never overlap. */
  lemma RegionsDisjoint(rook: bool, s: Square, t: Square, k: int)
    requires s != t
    ensures !(Offset(rook, s) <= k < Offset(rook, s as nat + 1) && Offset(rook, t) <= k < Offset(rook, t as nat + 1))
  {
    if s < t { OffsetGrows(rook, s, t); } else { OffsetGrows(rook, t, s); }
    hide Pow2, Count, Mask;
  }

  /** Looking up one occupancy gives the slider's attacks. */
  ghost predicate LooksUp(table: seq<Bitboard>, rook: bool, s: Square, magic: nat, occ: Bitboard) {
    var k := Offset(rook, s) + Index(Mask(rook, s), magic, occ);
    k < |table| && table[k] == Slides(rook, occ, s)
  }

  /** Looking up any occupancy does. */
  ghost predicate LookupRight(table: seq<Bitboard>, rook: bool, s: Square, magic: nat) {
    forall occ: Bitboard :: LooksUp(table, rook, s, magic, occ)
  }

  lemma FilledIsRight(table: seq<Bitboard>, rook: bool, s: Square, magic: nat, occupancy: seq<Bitboard>,
      reference: seq<Bitboard>)
    requires Filled(table, Offset(rook, s), Mask(rook, s), magic, occupancy, reference, |occupancy|)
    requires forall x | x <= Mask(rook, s) ::
        Packed(x, Mask(rook, s), 64) < |occupancy| && occupancy[Packed(x, Mask(rook, s), 64)] == x
    requires forall i | 0 <= i < |occupancy| :: reference[i] == Slides(rook, occupancy[i], s)
    ensures LookupRight(table, rook, s, magic)
  {
    hide Packed, Pow2, Count, Mask, Slides, Offset;
    forall occ: Bitboard
      ensures LooksUp(table, rook, s, magic, occ)
    {
      var mask := Mask(rook, s);
      MaskDecides(rook, occ, s);
      var x := occ * mask;
      var j := Packed(x, mask, 64);
      assert x <= mask;
      assert occupancy[j] == x && x * mask == x;
      assert Index(mask, magic, occupancy[j]) == Index(mask, magic, occ);
    }
  }

  /**
   * `init_magics` for one square: candidate magic numbers are tried in the order the random
   * generator would give them, until one maps every subset without a wrong collision.
   */
  method InitSquare(rook: bool, s: Square, table: array<Bitboard>, epoch: array<int>, cnt0: int, candidates: seq<nat>)
      returns (ok: bool, magic: nat, cnt: int)
    requires Offset(rook, 64) <= table.Length && Pow2(Count(Mask(rook, s), 64)) <= epoch.Length
    requires forall k | 0 <= k < epoch.Length :: epoch[k] <= cnt0
    modifies table, epoch
    ensures forall k | 0 <= k < epoch.Length :: epoch[k] <= cnt
    ensures forall k | 0 <= k < table.Length && !(Offset(rook, s) <= k < Offset(rook, s as nat + 1)) ::
        table[k] == old(table[k])
    ensures ok ==> LookupRight(table[..], rook, s, magic) && Dense(Mask(rook, s), magic)
  {
    var attacks := SlidingAttack(rook, s, {});
    var mask := set t: Square | 0 <= t < 64 && t in attacks && !OnEdge(s, t);
    assert mask == Mask(rook, s);
    SquareFits(rook, s);
    var occupancy := Enumerate(mask);
    var reference := References(rook, s, occupancy);
    hide Pow2, Count, Mask, Packed, Slides, LookupRight, Filled, Index, Dense;
    ok, magic, cnt := false, 0, cnt0;
    var c := 0;
    while c < |candidates| && !ok
      invariant 0 <= c <= |candidates|
      invariant forall k | 0 <= k < epoch.Length :: epoch[k] <= cnt
      invariant forall k | 0 <= k < table.Length && !(Offset(rook, s) <= k < Offset(rook, s as nat + 1)) ::
          table[k] == old(table[k])
      invariant ok ==> Filled(table[..], Offset(rook, s), mask, magic, occupancy, reference, |occupancy|)
      invariant ok ==> Dense(mask, magic)
    {
      magic := candidates[c];
      c := c + 1;
      if Dense(mask, magic) {
        cnt := cnt + 1;
        ok := TryMagic(table, Offset(rook, s), epoch, cnt, mask, magic, occupancy, reference);
      }
    }
    if ok { FilledIsRight(table[..], rook, s, magic, occupancy, reference); }
  }

  lemma SquareFits(rook: bool, s: Square)
    ensures Offset(rook, s) + Pow2(Count(Mask(rook, s), 64)) == Offset(rook, s as nat + 1) <= Offset(rook, 64)
  {
    OffsetGrows(rook, s, 64);
    hide Mask, Count, Pow2;
  }

  /** The reference attacks of each listed occupancy. */
  method References(rook: bool, s: Square, occupancy: seq<Bitboard>) returns (reference: seq<Bitboard>)
    ensures |reference| == |occupancy| && forall i | 0 <= i < |occupancy| ::
        reference[i] == Slides(rook, occupancy[i], s)
  {
    reference := [];
    for i := 0 to |occupancy|
      invariant |reference| == i && forall j | 0 <= j < i :: reference[j] == Slides(rook, occupancy[j], s)
    {
      hide RookBB, BishopBB;
      var attacks := SlidingAttack(rook, s, occupancy[i]);
      reference := reference + [attacks];
    }
  }

  /** A lookup reads only its own part of the table. */
  lemma LookupKept(t: seq<Bitboard>, u: seq<Bitboard>, rook: bool, s: Square, magic: nat, other: Square)
    requires LookupRight(t, rook, s, magic) && |t| == |u| && s != other
    requires forall k | 0 <= k < |t| && !(Offset(rook, other) <= k < Offset(rook, other as nat + 1)) :: u[k] == t[k]
    ensures LookupRight(u, rook, s, magic)
  {
    hide Slides, Mask, Pow2, Count, Index;
    SquareFits(rook, s);
    forall occ: Bitboard
      ensures LooksUp(u, rook, s, magic, occ)
    {
      var k := Offset(rook, s) + Index(Mask(rook, s), magic, occ);
      assert LooksUp(t, rook, s, magic, occ);
      IndexBound(Mask(rook, s), magic, occ);
      RegionsDisjoint(rook, s, other, k);
      hide Offset;
    }
  }

  /**
   * `init_magics`: if the search ends on every square, every lookup, for every occupancy, gives
   * what the ray walk gives.
   */
  method InitMagics(rook: bool, table: array<Bitboard>, epoch: array<int>, candidates: seq<seq<nat>>)
      returns (ok: bool, magics: seq<nat>)
    requires |candidates| == 64 && Offset(rook, 64) <= table.Length
    requires forall s: Square :: Pow2(Count(Mask(rook, s), 64)) <= epoch.Length
    requires forall k | 0 <= k < epoch.Length :: epoch[k] == 0
    modifies table, epoch
    ensures ok ==>
        |magics| == 64 && forall s: Square ::
            LookupRight(table[..], rook, s, magics[s]) && Dense(Mask(rook, s), magics[s])
  {
    hide Dense, LookupRight, Mask, Count, Pow2, Offset;
    magics := [];
    var cnt := 0;
    for s := 0 to 64
      invariant |magics| == s
      invariant forall k | 0 <= k < epoch.Length :: epoch[k] <= cnt
      invariant forall t: Square | t < s ::
          LookupRight(table[..], rook, t, magics[t]) && Dense(Mask(rook, t), magics[t])
    {
      ghost var before := table[..];
      var magic;
      ok, magic, cnt := InitSquare(rook, s, table, epoch, cnt, candidates[s]);
      if !ok { return; }
      forall t: Square | t < s ensures LookupRight(table[..], rook, t, magics[t]) {
        LookupKept(before, table[..], rook, t, magics[t], s);
      }
      magics := magics + [magic];
    }
    ok := true;
  }

  /** `Magic::attacks_bb`: one multiplication, one shift, one read. */
  method AttacksBB(rook: bool, s: Square, occupied: Bitboard, table: array<Bitboard>, magics: seq<nat>)
      returns (attacks: Bitboard)
    requires |magics| == 64 && LookupRight(table[..], rook, s, magics[s])
    ensures attacks == if rook then RookBB(occupied, s) else BishopBB(occupied, s)
  {
    assert LooksUp(table[..], rook, s, magics[s], occupied);
    assert Slides(rook, occupied, s) == if rook then RookBB(occupied, s) else BishopBB(occupied, s);
    hide RookBB, BishopBB, Slides, Offset, Mask, Index;
    attacks := table[Offset(rook, s) + Index(Mask(rook, s), magics[s], occupied)];
  }
}
