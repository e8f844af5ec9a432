/**
 * The move picker: a staged generator over one shared array.  Every pseudo-legal move comes
 * out exactly once, whatever the scores, the exchange tests and the moment quiets are dropped.
 */
module MovePick {
  import opened Options
  import opened Types

  datatype ExtMove = ExtMove(move: Move, value: int)

  // ----- partial_insertion_sort -----

  /** The same elements in some order. */
  ghost predicate Permuted(s: seq<ExtMove>, t: seq<ExtMove>) { multiset(s) == multiset(t) }

  lemma SwapKeeps(s: seq<ExtMove>, t: seq<ExtMove>, u: seq<ExtMove>, i: nat, j: nat)
    requires Permuted(s, t) && i < j < |t| && |u| == |t|
    requires u[i] == t[j] && u[j] == t[i] && forall k | 0 <= k < |t| && k != i && k != j :: u[k] == t[k]
    ensures Permuted(s, u)
  {
    assert t == t[..i] + [t[i]] + t[i + 1..j] + [t[j]] + t[j + 1..];
    assert u == t[..i] + [t[j]] + t[i + 1..j] + [t[i]] + t[j + 1..];
  }

  lemma PermutedSelf(s: seq<ExtMove>)
    ensures Permuted(s, s)
  {}

  lemma PermutedTrans(s: seq<ExtMove>, t: seq<ExtMove>, u: seq<ExtMove>)
    requires Permuted(s, t) && Permuted(t, u)
    ensures Permuted(s, u)
  {}

  predicate Descending(s: seq<ExtMove>, lo: int, hi: int) {
    forall i, j | 0 <= lo <= i < j < hi <= |s| :: s[i].value >= s[j].value
  }

  /** The values at or above the limit come first, in descending order. */
  predicate PartlySorted(s: seq<ExtMove>, lo: nat, hi: nat, limit: int) {
    exists k | lo <= k <= hi <= |s| ::
        Descending(s, lo, k) && (forall i | lo <= i < k :: s[i].value >= limit)
        && (forall i | k <= i < hi :: s[i].value < limit)
  }

  /** What the outer loop keeps: a descending part, then values below the limit, then the rest. */
  ghost predicate SortState(s: seq<ExtMove>, lo: nat, sortedEnd: nat, p: nat, limit: int) {
    && lo <= sortedEnd < p <= |s| && Descending(s, lo, sortedEnd + 1)
    && (forall i | lo <= i < sortedEnd :: s[i].value >= limit) && (forall i | sortedEnd < i < p :: s[i].value < limit)
  }

  ghost predicate Outside(s: seq<ExtMove>, t: seq<ExtMove>, lo: nat, hi: nat) {
    |s| == |t| && hi <= |s| && forall i | 0 <= i < |s| && !(lo <= i < hi) :: t[i] == s[i]
  }

  /** The array once element p has been put at position q of the descending part. */
  ghost predicate Shifted(s: seq<ExtMove>, t: seq<ExtMove>, sortedEnd: nat, p: nat, q: nat)
  {
    && q <= sortedEnd <= p < |s| && |t| == |s| && t[q] == s[p]
    && (forall i | 0 <= i < |s| && !(q <= i <= sortedEnd) && i != p :: t[i] == s[i])
    && (forall i | q < i <= sortedEnd :: t[i] == s[i - 1])
    && (sortedEnd < p ==> t[p] == s[sortedEnd])
  }

  lemma ShiftedSorted(s: seq<ExtMove>, t: seq<ExtMove>, lo: nat, sortedEnd: nat, p: nat, q: nat, limit: int)
    requires lo < sortedEnd && SortState(s, lo, sortedEnd - 1, p, limit) && p < |s| && s[p].value >= limit
    requires lo <= q && Shifted(s, t, sortedEnd, p, q)
    requires q == lo || s[q - 1].value >= s[p].value
    requires forall i | q <= i < sortedEnd :: s[i].value < s[p].value
    ensures SortState(t, lo, sortedEnd, p + 1, limit) && Outside(s, t, lo, p + 1)
  {
    forall i, j | lo <= i < j <= sortedEnd
      ensures t[i].value >= t[j].value
    {
      if i < q {
        if j == q {
          if i < q - 1 { assert s[i].value >= s[q - 1].value; }
        } else if j > q {
          assert s[i].value >= s[j - 1].value;
        } else {
          assert s[i].value >= s[j].value;
        }
      }
      else if i > q { assert s[i - 1].value >= s[j - 1].value; }
    }
  }

  /** Moves one element into the descending part. */
  method Insert(a: array<ExtMove>, lo: nat, sortedEnd: nat, p: nat, ghost limit: int)
    requires lo < sortedEnd <= p < a.Length && SortState(a[..], lo, sortedEnd - 1, p, limit) && a[p].value >= limit
    modifies a
    ensures SortState(a[..], lo, sortedEnd, p + 1, limit)
    ensures Permuted(old(a[..]), a[..]) && Outside(old(a[..]), a[..], lo, p + 1)
  {
    hide SortState, Outside, Permuted;
    ghost var s := a[..];
    PermutedSelf(s);
    var tmp := a[p];
    a[p] := a[sortedEnd];
    var q := sortedEnd;
    if sortedEnd < p { SwapKeeps(s, s, a[..][q := tmp], sortedEnd, p); } else { assert a[..][q := tmp] == s; }
    while q != lo && a[q - 1].value < tmp.value
      invariant lo <= q <= sortedEnd
      invariant Shifted(s, a[..][q := tmp], sortedEnd, p, q) && Permuted(s, a[..][q := tmp])
      invariant forall i | q <= i < sortedEnd :: s[i].value < tmp.value
      invariant forall i | lo <= i < q :: a[i] == s[i]
    {
      ghost var t := a[..][q := tmp];
      a[q] := a[q - 1];
      q := q - 1;
      SwapKeeps(s, t, a[..][q := tmp], q, q + 1);
      hide Shifted;
      ShiftOn(s, t, a[..][q := tmp], sortedEnd, p, q + 1);
    }
    a[q] := tmp;
    assert a[..] == a[..][q := tmp];
    hide Shifted;
    ShiftedSorted(s, a[..], lo, sortedEnd, p, q, limit);
  }

  lemma ShiftOn(s: seq<ExtMove>, t: seq<ExtMove>, u: seq<ExtMove>, sortedEnd: nat, p: nat, q: nat)
    requires q > 0 && Shifted(s, t, sortedEnd, p, q) && |u| == |t|
    requires u[q - 1] == t[q] && u[q] == t[q - 1] && forall k | 0 <= k < |t| && k != q - 1 && k != q :: u[k] == t[k]
    ensures Shifted(s, u, sortedEnd, p, q - 1)
  {}

  /** `partial_insertion_sort` on the part of the array from lo to hi. */
  method PartialInsertionSort(a: array<ExtMove>, lo: nat, hi: nat, limit: int)
    requires lo <= hi <= a.Length
    modifies a
    ensures Permuted(old(a[..]), a[..]) && Outside(old(a[..]), a[..], lo, hi)
    ensures PartlySorted(a[..], lo, hi, limit)
  {
    if lo == hi {
      assert Descending(a[..], lo, lo);
      PermutedSelf(a[..]);
      return;
    }
    var sortedEnd, p := lo, lo + 1;
    PermutedSelf(a[..]);
    while p < hi
      invariant lo < p <= hi && SortState(a[..], lo, sortedEnd, p, limit)
      invariant Permuted(old(a[..]), a[..]) && Outside(old(a[..]), a[..], lo, hi)
    {
      if a[p].value >= limit {
        hide SortState, Permuted;
        SortRoom(a[..], lo, sortedEnd, p, limit);
        sortedEnd := sortedEnd + 1;
        ghost var s := a[..];
        Insert(a, lo, sortedEnd, p, limit);
        PermutedTrans(old(a[..]), s, a[..]);
      }
      p := p + 1;
    }
    SortDone(a[..], lo, sortedEnd, hi, limit);
  }

  lemma SortRoom(s: seq<ExtMove>, lo: nat, sortedEnd: nat, p: nat, limit: int)
    requires SortState(s, lo, sortedEnd, p, limit)
    ensures lo <= sortedEnd < p
  {}

  lemma SortDone(s: seq<ExtMove>, lo: nat, sortedEnd: nat, hi: nat, limit: int)
    requires SortState(s, lo, sortedEnd, hi, limit)
    ensures PartlySorted(s, lo, hi, limit)
  {
    var k := if s[sortedEnd].value >= limit then sortedEnd + 1 else sortedEnd;
    assert Descending(s, lo, k);
  }

  // ----- Counting moves in a stretch of the array -----

  /** All moves, only those valued above, or not above, the good-quiet threshold, or those passing a test. */
  datatype Which = Any | Good | Bad | Passing(test: Move -> bool)

  const GOOD_QUIET_THRESHOLD := -14000

  predicate Picks(w: Which, x: ExtMove) {
    match w
    case Any => true
    case Good => x.value > GOOD_QUIET_THRESHOLD
    case Bad => x.value <= GOOD_QUIET_THRESHOLD
    case Passing(test) => test(x.move)
  }

  function Unit(w: Which, x: ExtMove): multiset<Move> { if Picks(w, x) then multiset{x.move} else multiset{} }

  function Moves(s: seq<ExtMove>, w: Which): multiset<Move> {
    if s == [] then multiset{} else Moves(s[..|s| - 1], w) + Unit(w, s[|s| - 1])
  }

  function Stretch(s: seq<ExtMove>, lo: nat, hi: nat, w: Which): multiset<Move> {
    if lo <= hi <= |s| then Moves(s[lo..hi], w) else multiset{}
  }

  lemma {:induction false} MovesAppend(s: seq<ExtMove>, t: seq<ExtMove>, w: Which)
    ensures Moves(s + t, w) == Moves(s, w) + Moves(t, w)
  {
    if t == [] {
      assert s + t == s;
    } else {
      assert (s + t)[..|s + t| - 1] == s + t[..|t| - 1];
      MovesAppend(s, t[..|t| - 1], w);
    }
  }

  lemma MovesOne(x: ExtMove, w: Which)
    ensures Moves([x], w) == Unit(w, x)
  {
    assert [x][..0] == [];
  }

  lemma {:induction false} MovesPartition(s: seq<ExtMove>)
    ensures Moves(s, Any) == Moves(s, Good) + Moves(s, Bad)
  {
    if s != [] { MovesPartition(s[..|s| - 1]); }
  }

  function Without(s: seq<ExtMove>, k: nat): seq<ExtMove>
    requires k < |s|
  {
    s[..k] + s[k + 1..]
  }

  lemma WithoutOne(s: seq<ExtMove>, k: nat, w: Which)
    requires k < |s|
    ensures multiset(s) == multiset(Without(s, k)) + multiset{s[k]}
    ensures Moves(s, w) == Moves(Without(s, k), w) + Unit(w, s[k])
  {
    assert s == s[..k] + [s[k]] + s[k + 1..];
    MovesAppend(s[..k], s[k + 1..], w);
    MovesAppend(s[..k] + [s[k]], s[k + 1..], w);
    MovesAppend(s[..k], [s[k]], w);
    MovesOne(s[k], w);
  }

  lemma PermutedWithout(s: seq<ExtMove>, t: seq<ExtMove>, n: nat, k: nat)
    requires Permuted(s, t) && n < |s| && k < |t| && t[k] == s[n]
    ensures Permuted(Without(s, n), Without(t, k))
  {
    WithoutOne(s, n, Any);
    WithoutOne(t, k, Any);
    var a, b, x := multiset(Without(s, n)), multiset(Without(t, k)), s[n];
    forall e ensures a[e] == b[e] { assert (a + multiset{x})[e] == (b + multiset{x})[e]; }
  }

  lemma PermutedFind(s: seq<ExtMove>, t: seq<ExtMove>, n: nat) returns (k: nat)
    requires Permuted(s, t) && n < |s|
    ensures k < |t| && t[k] == s[n]
  {
    assert s[n] in multiset(t);
    k :| 0 <= k < |t| && t[k] == s[n];
  }

  lemma PermutedEmpty(s: seq<ExtMove>, t: seq<ExtMove>)
    requires Permuted(s, t) && s == []
    ensures t == []
  {
    assert |t| == |multiset(t)| == |multiset(s)| == 0;
  }

  /** Only the elements count, not their order. */
  lemma {:induction false} MovesPermuted(s: seq<ExtMove>, t: seq<ExtMove>, w: Which)
    requires Permuted(s, t)
    ensures Moves(s, w) == Moves(t, w)
    decreases |s|
  {
    if s == [] {
      PermutedEmpty(s, t);
    } else {
      hide Permuted, Moves, Unit;
      var k := PermutedFind(s, t, |s| - 1);
      PermutedWithout(s, t, |s| - 1, k);
      WithoutOne(s, |s| - 1, w);
      WithoutOne(t, k, w);
      MovesPermuted(Without(s, |s| - 1), Without(t, k), w);
    }
  }

  /** What a permutation leaves alone outside a stretch it permutes inside. */
  lemma PermutedInside(s: seq<ExtMove>, t: seq<ExtMove>, lo: nat, hi: nat)
    requires lo <= hi && Outside(s, t, lo, hi) && Permuted(s, t)
    ensures Permuted(s[lo..hi], t[lo..hi])
  {
    var x, y := s[..lo], s[hi..];
    assert s == x + s[lo..hi] + y && t == x + t[lo..hi] + y;
    hide Permuted;
    CancelEnds(x, s[lo..hi], t[lo..hi], y);
  }

  lemma CancelEnds(x: seq<ExtMove>, a: seq<ExtMove>, b: seq<ExtMove>, y: seq<ExtMove>)
    requires Permuted(x + a + y, x + b + y)
    ensures Permuted(a, b)
  {
    PartsCount(x, a, y);
    PartsCount(x, b, y);
    forall e ensures multiset(a)[e] == multiset(b)[e] { assert multiset(x + a + y)[e] == multiset(x + b + y)[e]; }
  }

  lemma PartsCount(x: seq<ExtMove>, y: seq<ExtMove>, z: seq<ExtMove>)
    ensures forall e :: multiset(x + y + z)[e] == multiset(x)[e] + multiset(y)[e] + multiset(z)[e]
  {}

  lemma StretchSplit(s: seq<ExtMove>, lo: nat, mid: nat, hi: nat, w: Which)
    requires lo <= mid <= hi <= |s|
    ensures Stretch(s, lo, hi, w) == Stretch(s, lo, mid, w) + Stretch(s, mid, hi, w)
  {
    assert s[lo..hi] == s[lo..mid] + s[mid..hi];
    MovesAppend(s[lo..mid], s[mid..hi], w);
  }

  lemma StretchNext(s: seq<ExtMove>, lo: nat, i: nat, w: Which)
    requires lo <= i < |s|
    ensures Stretch(s, lo, i + 1, w) == Stretch(s, lo, i, w) + Unit(w, s[i])
  {
    hide Unit;
    var t := s[lo..i + 1];
    assert t[..|t| - 1] == s[lo..i] && t[|t| - 1] == s[i];
  }

  lemma StretchSame(s: seq<ExtMove>, t: seq<ExtMove>, lo: nat, hi: nat, w: Which)
    requires lo <= hi <= |s| && hi <= |t| && forall i | lo <= i < hi :: s[i] == t[i]
    ensures Stretch(s, lo, hi, w) == Stretch(t, lo, hi, w)
  {
    assert s[lo..hi] == t[lo..hi];
  }

  /** Sorting a part of the array keeps its moves. */
  lemma StretchSorted(s: seq<ExtMove>, t: seq<ExtMove>, lo: nat, hi: nat, w: Which)
    requires lo <= hi && Outside(s, t, lo, hi) && Permuted(s, t)
    ensures Stretch(s, lo, hi, w) == Stretch(t, lo, hi, w)
  {
    PermutedInside(s, t, lo, hi);
    MovesPermuted(s[lo..hi], t[lo..hi], w);
  }

  lemma StretchEmpty(s: seq<ExtMove>, lo: nat, w: Which)
    requires lo <= |s|
    ensures Stretch(s, lo, lo, w) == multiset{}
  {
    assert s[lo..lo] == [];
  }

  // ----- What is left to give -----

  /** The moves other than the transposition-table move. */
  function Except(x: multiset<Move>, tt: Option<Move>): multiset<Move> { if tt.Some? then x[tt.value := 0] else x }

  lemma ExceptSum(x: multiset<Move>, y: multiset<Move>, tt: Option<Move>)
    ensures Except(x + y, tt) == Except(x, tt) + Except(y, tt)
  {}

  lemma ExceptFewer(x: multiset<Move>, tt: Option<Move>)
    ensures Except(x, tt) <= x
  {}

  lemma ExceptUnit(w: Which, x: ExtMove, tt: Option<Move>)
    ensures Except(Unit(w, x), tt) == if Some(x.move) != tt && Picks(w, x) then multiset{x.move} else multiset{}
    ensures Except(multiset{}, tt) == multiset{}
  {}

  /** The stretch from lo up to cur has been gone through, giving what w picks. */
  ghost predicate Given(s: seq<ExtMove>, tt: Option<Move>, lo: nat, cur: nat, w: Which, given: multiset<Move>) {
    lo <= cur <= |s| && given == Except(Stretch(s, lo, cur, w), tt)
  }

  lemma GivenNothing(s: seq<ExtMove>, tt: Option<Move>, lo: nat, w: Which)
    requires lo <= |s|
    ensures Given(s, tt, lo, lo, w, multiset{})
  {
    StretchEmpty(s, lo, w);
    ExceptUnit(w, ExtMove(Move(0, 0, Normal, Knight), 0), tt);
  }

  /** Going past one more move. */
  lemma GivenNext(s: seq<ExtMove>, tt: Option<Move>, lo: nat, cur: nat, w: Which, given: multiset<Move>)
    requires Given(s, tt, lo, cur, w, given) && cur < |s|
    ensures Given(s, tt, lo, cur + 1, w, if Some(s[cur].move) != tt
        && Picks(w, s[cur]) then given + multiset{s[cur].move} else given)
  {
    StretchNext(s, lo, cur, w);
    ExceptSum(Stretch(s, lo, cur, w), Unit(w, s[cur]), tt);
    ExceptUnit(w, s[cur], tt);
  }

  /** The captures: bad ones in front, then those gone through, then the rest. */
  ghost predicate CapturesHeld(s: seq<ExtMove>, tt: Option<Move>, endBad: nat, nc: nat, captures: seq<Move>) {
    && endBad <= nc <= |s| && Stretch(s, 0, nc, Any) == multiset(captures)
    && Except(Stretch(s, 0, endBad, Any), tt) == Stretch(s, 0, endBad, Any)
  }

  /** A bad capture changes places with one already gone through. */
  lemma SetAside(s: seq<ExtMove>, t: seq<ExtMove>, tt: Option<Move>, endBad: nat, cur: nat, nc: nat,
      captures: seq<Move>, given: multiset<Move>)
    requires CapturesHeld(s, tt, endBad, nc, captures) && Given(s, tt, endBad, cur, Any, given) && cur < nc
        && Some(s[cur].move) != tt
    requires |t| == |s| && t[endBad] == s[cur] && t[cur] == s[endBad] && forall k | 0 <= k < |s| && k != endBad
        && k != cur :: t[k] == s[k]
    ensures CapturesHeld(t, tt, endBad + 1, nc, captures) && Given(t, tt, endBad + 1, cur + 1, Any, given)
  {
    SetAsideWhole(s, t, endBad, cur, nc);
    SetAsideGiven(s, t, endBad, cur);
    StretchNext(t, 0, endBad, Any);
    StretchSame(s, t, 0, endBad, Any);
    ExceptSum(Stretch(t, 0, endBad, Any), Unit(Any, t[endBad]), tt);
    ExceptUnit(Any, t[endBad], tt);
    hide Stretch, Except;
  }

  lemma SetAsideWhole(s: seq<ExtMove>, t: seq<ExtMove>, endBad: nat, cur: nat, nc: nat)
    requires endBad <= cur < nc <= |s| == |t|
    requires t[endBad] == s[cur] && t[cur] == s[endBad] && forall k | 0 <= k < |s| && k != endBad && k != cur ::
        t[k] == s[k]
    ensures Stretch(t, 0, nc, Any) == Stretch(s, 0, nc, Any)
  {
    PermutedSelf(s);
    if endBad < cur {
      SwapKeeps(s, s, t, endBad, cur);
    } else {
      assert s == t;
    }
    hide Permuted;
    assert Outside(s, t, 0, nc);
    StretchSorted(s, t, 0, nc, Any);
  }

  /** The stretch gone through only moves by one place. */
  lemma SetAsideGiven(s: seq<ExtMove>, t: seq<ExtMove>, endBad: nat, cur: nat)
    requires endBad <= cur < |s| == |t|
    requires t[endBad] == s[cur] && t[cur] == s[endBad] && forall k | 0 <= k < |s| && k != endBad && k != cur ::
        t[k] == s[k]
    ensures Stretch(t, endBad + 1, cur + 1, Any) == Stretch(s, endBad, cur, Any)
  {
    hide *;
    if endBad == cur {
      StretchEmpty(s, cur, Any);
      StretchEmpty(t, cur + 1, Any);
    } else {
      StretchSplit(s, endBad, endBad + 1, cur, Any);
      StretchSplit(t, endBad + 1, cur, cur + 1, Any);
      StretchSame(s, t, endBad + 1, cur, Any);
      StretchNext(t, cur, cur, Any);
      StretchEmpty(t, cur, Any);
      StretchNext(s, endBad, endBad, Any);
      StretchEmpty(s, endBad, Any);
    }
  }

  /** All captures are given once the good and then the bad ones have been gone through. */
  lemma CapturesDone(s: seq<ExtMove>, tt: Option<Move>, endBad: nat, nc: nat, captures: seq<Move>,
      good: multiset<Move>, bad: multiset<Move>)
    requires CapturesHeld(s, tt, endBad, nc, captures) && Given(s, tt, endBad, nc, Any, good)
        && Given(s, tt, 0, endBad, Any, bad)
    ensures good + bad == Except(multiset(captures), tt)
  {
    StretchSplit(s, 0, endBad, nc, Any);
    ExceptSum(Stretch(s, 0, endBad, Any), Stretch(s, endBad, nc, Any), tt);
  }

  /** The quiets, held after the captures. */
  ghost predicate QuietsHeld(s: seq<ExtMove>, nc: nat, ng: nat, quiets: seq<Move>) {
    nc <= ng <= |s| && Stretch(s, nc, ng, Any) == multiset(quiets)
  }

  lemma QuietsDone(s: seq<ExtMove>, tt: Option<Move>, nc: nat, ng: nat, quiets: seq<Move>, good: multiset<Move>,
      bad: multiset<Move>)
    requires QuietsHeld(s, nc, ng, quiets) && Given(s, tt, nc, ng, Good, good) && Given(s, tt, nc, ng, Bad, bad)
    ensures good + bad == Except(multiset(quiets), tt)
  {
    MovesPartition(s[nc..ng]);
    ExceptSum(Stretch(s, nc, ng, Good), Stretch(s, nc, ng, Bad), tt);
  }

  /** What has been given of the quiets is never more than there are. */
  lemma QuietsBound(s: seq<ExtMove>, tt: Option<Move>, nc: nat, cur: nat, ng: nat, quiets: seq<Move>, w: Which,
      given: multiset<Move>)
    requires QuietsHeld(s, nc, ng, quiets) && Given(s, tt, nc, cur, w, given) && cur <= ng
    ensures given <= multiset(quiets)
  {
    hide Moves, Except;
    StretchSplit(s, nc, cur, ng, Any);
    PickedBound(s[nc..cur], w);
    ExceptFewer(Stretch(s, nc, cur, w), tt);
  }

  lemma {:induction false} PickedBound(s: seq<ExtMove>, w: Which)
    ensures Moves(s, w) <= Moves(s, Any)
  {
    if s != [] { PickedBound(s[..|s| - 1], w); }
  }

  // ----- The picker -----

  const MAIN_TT := 0
  const CAPTURE_INIT := 1
  const GOOD_CAPTURE := 2
  const QUIET_INIT := 3
  const GOOD_QUIET := 4
  const BAD_CAPTURE := 5
  const BAD_QUIET := 6
  const EVASION_TT := 7
  const EVASION_INIT := 8
  const EVASION := 9
  const PROBCUT_TT := 10
  const PROBCUT_INIT := 11
  const PROBCUT := 12
  const QSEARCH_TT := 13
  const QCAPTURE_INIT := 14
  const QCAPTURE := 15

  datatype ScoreType = OfCapture | OfQuiet | OfEvasion

  /** Division truncating towards zero. */
  function Truncated(x: int, d: int): int
    requires d > 0
  {
    if x < 0 then -((-x) / d) else x / d
  }

  /** What the picker reads of its position and history tables. */
  datatype Context = Context(
    captures: seq<Move>,
    quiets: seq<Move>,
    evasions: seq<Move>,
    score: (ScoreType, Move) -> int,
    seeGe: (Move, int) -> bool)

  /** Where a main-search picker stands. */
  ghost predicate MainState(c: Context, tt: Option<Move>, stage: int, s: seq<ExtMove>, cur: nat, endCur: nat,
      endBad: nat, nc: nat, ng: nat,
                            skip: bool, outC: multiset<Move>, outQ: multiset<Move>)
  {
    if stage <= CAPTURE_INIT then outC == multiset{} && outQ == multiset{}
    else
      && CapturesHeld(s, tt, endBad, nc, c.captures) && nc == |c.captures|
      && (if stage == GOOD_CAPTURE then
            && Given(s, tt, endBad, cur, Any, outC) && endCur == nc && cur <= nc && outQ == multiset{}
          else if stage == QUIET_INIT then Given(s, tt, endBad, nc, Any, outC) && cur == nc && outQ == multiset{}
          else if stage == GOOD_QUIET then
            && Given(s, tt, endBad, nc, Any, outC) && QuietsHeld(s, nc, ng, c.quiets)
            && Given(s, tt, nc, cur, Good, outQ) && endCur == ng && cur <= ng
          else if stage == BAD_CAPTURE then
            && BadGiven(s, tt, endBad, nc, cur, outC) && endCur == endBad && cur <= endBad && outQ <= multiset(c.quiets)
            && (!skip ==> QuietsHeld(s, nc, ng, c.quiets) && Given(s, tt, nc, ng, Good, outQ))
          else
            && outC == Except(multiset(c.captures), tt) && outQ <= multiset(c.quiets)
            && (!skip ==>
                QuietsHeld(s, nc, ng, c.quiets) && BadQuietsGiven(s, tt, nc, ng, cur, outQ) && endCur == ng
                && cur <= ng))
  }

  /** The good captures have all been given, and the bad ones up to cur. */
  ghost predicate BadGiven(s: seq<ExtMove>, tt: Option<Move>, endBad: nat, nc: nat, cur: nat, outC: multiset<Move>) {
    exists good, bad :: outC == good + bad && Given(s, tt, endBad, nc, Any, good) && Given(s, tt, 0, cur, Any, bad)
  }

  ghost predicate BadQuietsGiven(s: seq<ExtMove>, tt: Option<Move>, nc: nat, ng: nat, cur: nat, outQ: multiset<Move>) {
    exists good, bad :: outQ == good + bad && Given(s, tt, nc, ng, Good, good) && Given(s, tt, nc, cur, Bad, bad)
  }

  /** Where the other pickers stand: one list, gone through once. */
  ghost predicate OtherState(c: Context, tt: Option<Move>, threshold: int, stage: int, s: seq<ExtMove>, cur: nat,
      endCur: nat, outC: multiset<Move>) {
    if stage == EVASION || stage == PROBCUT || stage == QCAPTURE then
      && cur <= endCur <= |s| && Stretch(s, 0, endCur, Any)
          == multiset(if stage == EVASION then c.evasions else c.captures)
      && Given(s, tt, 0, cur, Rule(c, threshold, stage), outC)
    else outC == multiset{}
  }

  /** ProbCut gives only captures whose exchange reaches the threshold. */
  function Rule(c: Context, threshold: int, stage: int): Which {
    if stage == PROBCUT then Passing(m => c.seeGe(m, threshold)) else Any
  }

  /** Which search the stage belongs to. */
  function Kind(stage: int): int {
    if stage <= BAD_QUIET then 0 else if stage <= EVASION then 1 else if stage <= PROBCUT then 2 else 3
  }

  /** The list the other pickers go through. */
  function Source(c: Context, stage: int): seq<Move> { if Kind(stage) == 1 then c.evasions else c.captures }

  predicate IsTtStage(stage: int) {
    stage == MAIN_TT || stage == EVASION_TT || stage == PROBCUT_TT || stage == QSEARCH_TT
  }

  class MovePicker {
    const context: Context
    const ttMove: Option<Move>
    const useTt: bool
    const depth: int
    const threshold: int
    const moves: array<ExtMove>
    var cur: nat
    var endCur: nat
    var endBadCaptures: nat
    var endCaptures: nat
    var endGenerated: nat
    var stage: int
    var skipQuiets: bool
    ghost var out: seq<Move>
    ghost var outC: multiset<Move>
    ghost var outQ: multiset<Move>

    /** All moves given so far are accounted for, and the stage's part of the array is in order. */
    ghost predicate Valid()
      reads this, moves
    {
      && Sized() && MAIN_TT <= stage <= QCAPTURE && (useTt ==> ttMove.Some?) && (IsTtStage(stage) ==> useTt)
      && Accounted(useTt && !IsTtStage(stage), ttMove, out, outC, outQ)
      && (if stage <= BAD_QUIET
          then MainState(context, ttMove, stage, moves[..], cur, endCur, endBadCaptures, endCaptures, endGenerated,
                         skipQuiets, outC, outQ)
          else OtherState(context, ttMove, threshold, stage, moves[..], cur, endCur, outC) && outQ == multiset{})
    }

    ghost predicate Sized() {
      |context.captures| + |context.quiets| <= moves.Length && |context.evasions| <= moves.Length
    }

    /** The main-search and quiescence constructor. */
    constructor (c: Context, ttm: Option<Move>, pseudoLegal: bool, inCheck: bool, d: int, size: nat)
      requires |c.captures| + |c.quiets| <= size && |c.evasions| <= size
      ensures Valid() && out == [] && context == c && ttMove == ttm && useTt == (ttm.Some? && pseudoLegal)
          && !skipQuiets
      ensures stage == (if inCheck then EVASION_TT else if d > 0 then MAIN_TT else QSEARCH_TT)
          + (if ttm.Some? && pseudoLegal then 0 else 1)
      ensures fresh(moves)
    {
      var use := ttm.Some? && pseudoLegal;
      context, ttMove, useTt, depth, threshold := c, ttm, use, d, 0;
      moves := new ExtMove[size](_ => ExtMove(Move(0, 0, Normal, Knight), 0));
      cur, endCur, endBadCaptures, endCaptures, endGenerated := 0, 0, 0, 0, 0;
      stage := (if inCheck then EVASION_TT else if d > 0 then MAIN_TT else QSEARCH_TT) + (if use then 0 else 1);
      skipQuiets := false;
      out, outC, outQ := [], multiset{}, multiset{};
    }

    /** The ProbCut constructor. */
    constructor ProbCut(c: Context, ttm: Option<Move>, captureAndPseudoLegal: bool, th: int, size: nat)
      requires |c.captures| + |c.quiets| <= size && |c.evasions| <= size
      ensures Valid() && out == [] && context == c && ttMove == ttm && threshold == th
      ensures stage == PROBCUT_TT + (if ttm.Some? && captureAndPseudoLegal then 0 else 1)
      ensures fresh(moves)
    {
      var use := ttm.Some? && captureAndPseudoLegal;
      context, ttMove, useTt, depth, threshold := c, ttm, use, 0, th;
      moves := new ExtMove[size](_ => ExtMove(Move(0, 0, Normal, Knight), 0));
      cur, endCur, endBadCaptures, endCaptures, endGenerated := 0, 0, 0, 0, 0;
      stage := PROBCUT_TT + (if use then 0 else 1);
      skipQuiets := false;
      out, outC, outQ := [], multiset{}, multiset{};
    }

    /** `skip_quiet_moves`: allowed at any time. */
    method SkipQuietMoves()
      requires Valid()
      modifies this`skipQuiets
      ensures Valid() && skipQuiets
    {
      hide Given, CapturesHeld, QuietsHeld, BadGiven, BadQuietsGiven, Accounted, OtherState, Except;
      skipQuiets := true;
    }

    /** `score`: copies a generated list into the array with its values. */
    method ScoreInto(list: seq<Move>, t: ScoreType, at: nat)
      requires at + |list| <= moves.Length
      modifies moves
      ensures Outside(old(moves[..]), moves[..], at, at + |list|)
      ensures Stretch(moves[..], at, at + |list|, Any) == multiset(list)
    {
      for i := 0 to |list|
        invariant Outside(old(moves[..]), moves[..], at, at + |list|)
        invariant forall k | 0 <= k < i :: moves[at + k].move == list[k]
      {
        moves[at + i] := ExtMove(list[i], context.score(t, list[i]));
      }
      ScoredStretch(moves[..], at, list);
    }

    /** The capture generation stage. */
    method InitCaptures()
      requires Sized()
      modifies moves, this`cur, this`endCur, this`endBadCaptures, this`endCaptures
      ensures cur == endBadCaptures == 0 && endCur == endCaptures == |context.captures|
      ensures Stretch(moves[..], 0, endCur, Any) == multiset(context.captures)
    {
      hide Stretch, Permuted, Outside, PartlySorted;
      cur, endBadCaptures := 0, 0;
      ScoreInto(context.captures, OfCapture, 0);
      endCur := |context.captures|;
      endCaptures := endCur;
      ghost var s := moves[..];
      PartialInsertionSort(moves, cur, endCur, -0x8000_0000);
      StretchSorted(s, moves[..], 0, endCur, Any);
    }

    /** The quiet generation stage: the quiets go behind the captures. */
    method InitQuiets()
      requires Sized() && cur == endCaptures && CapturesHeld(moves[..], ttMove, endBadCaptures, endCaptures,
          context.captures)
      requires Given(moves[..], ttMove, endBadCaptures, endCaptures, Any, outC) && endCaptures == |context.captures|
      modifies moves, this`endCur, this`endGenerated
      ensures CapturesHeld(moves[..], ttMove, endBadCaptures, endCaptures, context.captures)
      ensures Given(moves[..], ttMove, endBadCaptures, endCaptures, Any, outC)
      ensures QuietsHeld(moves[..], endCaptures, endGenerated, context.quiets) && endCur == endGenerated
    {
      hide Stretch, Permuted, PartlySorted, Except;
      ghost var s := moves[..];
      ScoreInto(context.quiets, OfQuiet, cur);
      endGenerated := cur + |context.quiets|;
      endCur := endGenerated;
      ghost var t := moves[..];
      PartialInsertionSort(moves, cur, endCur, -3560 * depth);
      StretchSorted(t, moves[..], cur, endCur, Any);
      FrontKept(s, moves[..], ttMove, endBadCaptures, endCaptures, context.captures, outC);
    }

    /** Gives a capture or an evasion. */
    ghost method Credit(m: Move, first: bool)
      requires Some(m) != ttMove
      modifies this`out, this`outC, this`outQ
      ensures out == old(out) + [m]
      ensures outC == (if first then old(outC) + multiset{m} else old(outC))
          && outQ == (if first then old(outQ) else old(outQ) + multiset{m})
      ensures forall g :: Accounted(g, ttMove, old(out), old(outC), old(outQ)) ==> Accounted(g, ttMove, out, outC, outQ)
    {
      ghost var o, c, q := out, outC, outQ;
      out := out + [m];
      if first { outC := outC + multiset{m}; } else { outQ := outQ + multiset{m}; }
      forall g | Accounted(g, ttMove, o, c, q) ensures Accounted(g, ttMove, out, outC, outQ) {
        ExceptSum(c, multiset{m}, ttMove);
        ExceptSum(q, multiset{m}, ttMove);
      }
    }

    /** `select` for good captures: a capture losing too much is put aside. */
    method SelectGoodCapture() returns (r: Option<Move>)
      requires CapturesHeld(moves[..], ttMove, endBadCaptures, endCaptures, context.captures) && endCur == endCaptures
          && cur <= endCur
      requires Given(moves[..], ttMove, endBadCaptures, cur, Any, outC)
      modifies moves, this`cur, this`endBadCaptures, this`out, this`outC, this`outQ
      ensures CapturesHeld(moves[..], ttMove, endBadCaptures, endCaptures, context.captures) && cur <= endCur
      ensures Given(moves[..], ttMove, endBadCaptures, cur, Any, outC) && outQ == old(outQ)
      ensures r.Some? ==> out == old(out) + [r.value] && Some(r.value) != ttMove
      ensures r.None? ==> out == old(out) && cur == endCur
      ensures forall g :: Accounted(g, ttMove, old(out), old(outC), old(outQ)) ==> Accounted(g, ttMove, out, outC, outQ)
      ensures Outside(old(moves[..]), moves[..], 0, endCaptures)
    {
      hide CapturesHeld, Given, Accounted;
      HeldBounds(moves[..], ttMove, endBadCaptures, endCaptures, context.captures);
      GivenBounds(moves[..], ttMove, endBadCaptures, cur, Any, outC);
      while cur < endCur
        invariant endBadCaptures <= cur <= endCur <= moves.Length
        invariant CapturesHeld(moves[..], ttMove, endBadCaptures, endCaptures, context.captures)
        invariant Given(moves[..], ttMove, endBadCaptures, cur, Any, outC)
        invariant out == old(out) && outC == old(outC) && outQ == old(outQ)
        invariant Outside(old(moves[..]), moves[..], 0, endCaptures)
      {
        GivenNext(moves[..], ttMove, endBadCaptures, cur, Any, outC);
        if Some(moves[cur].move) != ttMove {
          if context.seeGe(moves[cur].move, Truncated(-moves[cur].value, 18)) {
            r := Some(moves[cur].move);
            Credit(r.value, true);
            cur := cur + 1;
            return;
          }
          ghost var s := moves[..];
          moves[endBadCaptures], moves[cur] := moves[cur], moves[endBadCaptures];
          SetAside(s, moves[..], ttMove, endBadCaptures, cur, endCaptures, context.captures, outC);
          endBadCaptures := endBadCaptures + 1;
        }
        cur := cur + 1;
      }
      r := None;
    }

    /** `select` with a test that does not touch the array. */
    method Select(w: Which, lo: nat, first: bool, ghost given: multiset<Move>)
        returns (r: Option<Move>, ghost given': multiset<Move>)
      requires Given(moves[..], ttMove, lo, cur, w, given) && cur <= endCur <= moves.Length
      modifies this`cur, this`out, this`outC, this`outQ
      ensures Given(moves[..], ttMove, lo, cur, w, given') && old(cur) <= cur <= endCur
      ensures r.Some? ==> out == old(out) + [r.value] && Some(r.value) != ttMove && given' == given + multiset{r.value}
                          && outC == (if first then old(outC) + multiset{r.value} else old(outC))
                          && outQ == (if first then old(outQ) else old(outQ) + multiset{r.value})
      ensures r.None? ==> out == old(out) && outC == old(outC) && outQ == old(outQ) && cur == endCur && given' == given
      ensures forall g :: Accounted(g, ttMove, old(out), old(outC), old(outQ)) ==> Accounted(g, ttMove, out, outC, outQ)
    {
      hide Given, Accounted;
      given' := given;
      while cur < endCur
        invariant old(cur) <= cur <= endCur && Given(moves[..], ttMove, lo, cur, w, given)
        invariant out == old(out) && outC == old(outC) && outQ == old(outQ)
      {
        GivenNext(moves[..], ttMove, lo, cur, w, given);
        if Some(moves[cur].move) != ttMove && Picks(w, moves[cur]) {
          r := Some(moves[cur].move);
          Credit(r.value, first);
          given' := given + multiset{r.value};
          cur := cur + 1;
          return;
        }
        cur := cur + 1;
      }
      r := None;
    }

    /** The table move, in the first stage of each kind of picker. */
    method GiveTt() returns (r: Option<Move>)
      requires Valid() && IsTtStage(stage)
      modifies this`stage, this`out
      ensures Valid() && stage == old(stage) + 1 && r == ttMove && r.Some? && out == old(out) + [r.value]
    {
      hide MainState, OtherState, Accounted;
      TtState(context, ttMove, threshold, stage, moves[..], cur, endCur, endBadCaptures, endCaptures, endGenerated,
          skipQuiets, outC, outQ);
      AccountedTt(ttMove, out, outC, outQ);
      stage := stage + 1;
      out := out + [ttMove.value];
      r := ttMove;
    }

    /** Main search, up to the last good capture. */
    method NextGoodCapture() returns (r: Option<Move>)
      requires Valid() && CAPTURE_INIT <= stage <= GOOD_CAPTURE
      modifies moves, this`cur, this`endCur, this`endBadCaptures, this`endCaptures, this`stage, this`out, this`outC,
          this`outQ
      ensures Valid() && (r.None? ==> stage == QUIET_INIT) && GOOD_CAPTURE <= stage <= QUIET_INIT
      ensures out == if r.Some? then old(out) + [r.value] else old(out)
    {
      hide MainState, OtherState, CapturesHeld, Given, Outside, Accounted;
      if stage == CAPTURE_INIT {
        EarlyState(context, ttMove, stage, moves[..], cur, endCur, endBadCaptures, endCaptures, endGenerated,
            skipQuiets, outC, outQ);
        InitCaptures();
        StartCaptures(moves[..], ttMove, context.captures);
        stage := stage + 1;
      } else {
        GoodState(context, ttMove, moves[..], cur, endCur, endBadCaptures, endCaptures, endGenerated, skipQuiets,
            outC, outQ);
      }
      r := SelectGoodCapture();
      if r.None? { stage := stage + 1; }
      AfterGood(context, ttMove, stage, moves[..], cur, endCur, endBadCaptures, endCaptures, endGenerated, skipQuiets,
          outC, outQ);
    }

    /** Generates the quiets, unless they are skipped already. */
    method PrepareQuiets()
      requires Valid() && stage == QUIET_INIT
      modifies moves, this`endCur, this`endGenerated, this`stage
      ensures stage == GOOD_QUIET && (skipQuiets ==> outQ == multiset{}) && (!skipQuiets ==> Valid())
      ensures CapturesHeld(moves[..], ttMove, endBadCaptures, endCaptures, context.captures)
          && endCaptures == |context.captures|
      ensures Given(moves[..], ttMove, endBadCaptures, endCaptures, Any, outC)
    {
      hide MainState, OtherState, CapturesHeld, Given, Outside, Accounted, QuietsHeld;
      QuietState(context, ttMove, stage, moves[..], cur, endCur, endBadCaptures, endCaptures, endGenerated,
          skipQuiets, outC, outQ);
      stage := stage + 1;
      if !skipQuiets {
        InitQuiets();
        GivenNothing(moves[..], ttMove, endCaptures, Good);
        QuietBounds(moves[..], endCaptures, endGenerated, context.quiets);
        AfterGoodQuiet(context, ttMove, moves[..], cur, endCur, endBadCaptures, endCaptures, endGenerated, skipQuiets,
            outC, outQ);
      }
    }

    /** Main search, the good quiets, unless quiets are skipped. */
    method NextGoodQuiet() returns (r: Option<Move>)
      requires Valid() && (stage == QUIET_INIT || stage == GOOD_QUIET)
      modifies moves, this`cur, this`endCur, this`endGenerated, this`stage, this`out, this`outC, this`outQ
      ensures Valid() && (r.None? ==> stage == BAD_CAPTURE) && GOOD_QUIET <= stage <= BAD_CAPTURE
      ensures out == if r.Some? then old(out) + [r.value] else old(out)
    {
      hide MainState, OtherState, CapturesHeld, Given, Accounted, QuietsHeld, BadGiven;
      r := None;
      if stage == QUIET_INIT {
        PrepareQuiets();
      } else {
        QuietState(context, ttMove, stage, moves[..], cur, endCur, endBadCaptures, endCaptures, endGenerated,
            skipQuiets, outC, outQ);
      }
      if !skipQuiets {
        r := SelectGoodQuiet();
        if r.Some? { return; }
      }
      StartBadCaptures();
    }

    /** Prepares the pointers to loop over the bad captures. */
    method StartBadCaptures()
      requires Sized() && stage == GOOD_QUIET && (useTt ==> ttMove.Some?) && Accounted(useTt, ttMove, out, outC, outQ)
      requires CapturesHeld(moves[..], ttMove, endBadCaptures, endCaptures, context.captures)
          && endCaptures == |context.captures|
      requires Given(moves[..], ttMove, endBadCaptures, endCaptures, Any, outC) && outQ <= multiset(context.quiets)
      requires !skipQuiets ==>
          QuietsHeld(moves[..], endCaptures, endGenerated, context.quiets)
          && Given(moves[..], ttMove, endCaptures, endGenerated, Good, outQ)
      modifies this`cur, this`endCur, this`stage
      ensures Valid() && stage == BAD_CAPTURE
    {
      hide MainState, OtherState, CapturesHeld, Given, Accounted, QuietsHeld, BadGiven;
      cur := 0;
      endCur := endBadCaptures;
      StartBad(moves[..], ttMove, endBadCaptures, endCaptures, outC);
      stage := stage + 1;
      AfterQuiets(context, ttMove, moves[..], cur, endCur, endBadCaptures, endCaptures, endGenerated, skipQuiets,
          outC, outQ);
    }

    /** `select` for good quiets. */
    method SelectGoodQuiet() returns (r: Option<Move>)
      requires Valid() && stage == GOOD_QUIET
      modifies this`cur, this`out, this`outC, this`outQ
      ensures Valid() && out == if r.Some? then old(out) + [r.value] else old(out)
      ensures r.None? ==> Given(moves[..], ttMove, endCaptures, endGenerated, Good, outQ)
      ensures CapturesHeld(moves[..], ttMove, endBadCaptures, endCaptures, context.captures)
          && endCaptures == |context.captures|
      ensures Given(moves[..], ttMove, endBadCaptures, endCaptures, Any, outC)
          && QuietsHeld(moves[..], endCaptures, endGenerated, context.quiets)
      ensures outQ <= multiset(context.quiets)
    {
      hide MainState, OtherState, CapturesHeld, Given, Accounted, QuietsHeld;
      QuietState(context, ttMove, stage, moves[..], cur, endCur, endBadCaptures, endCaptures, endGenerated,
          skipQuiets, outC, outQ);
      QuietBounds(moves[..], endCaptures, endGenerated, context.quiets);
      ghost var given;
      r, given := Select(Good, endCaptures, false, outQ);
      QuietsBound(moves[..], ttMove, endCaptures, cur, endGenerated, context.quiets, Good, outQ);
      AfterGoodQuiet(context, ttMove, moves[..], cur, endCur, endBadCaptures, endCaptures, endGenerated, skipQuiets,
          outC, outQ);
    }

    /** Main search, the captures put aside. */
    method NextBadCapture() returns (r: Option<Move>)
      requires Valid() && stage == BAD_CAPTURE
      modifies this`cur, this`endCur, this`stage, this`out, this`outC, this`outQ
      ensures Valid() && (r.None? ==> stage == BAD_QUIET) && BAD_CAPTURE <= stage <= BAD_QUIET
      ensures out == if r.Some? then old(out) + [r.value] else old(out)
    {
      hide MainState, OtherState, CapturesHeld, Given, Accounted, QuietsHeld;
      r := SelectBadCapture();
      if r.None? { StartRemainingQuiets(); }
    }

    /** `select` for bad captures. */
    method SelectBadCapture() returns (r: Option<Move>)
      requires Valid() && stage == BAD_CAPTURE
      modifies this`cur, this`out, this`outC, this`outQ
      ensures Valid() && out == if r.Some? then old(out) + [r.value] else old(out)
      ensures r.None? ==> outC == Except(multiset(context.captures), ttMove)
    {
      hide MainState, OtherState, CapturesHeld, Given, Accounted, QuietsHeld, BadGiven, Except;
      ghost var good, bad := BadState(context, ttMove, moves[..], cur, endCur, endBadCaptures, endCaptures,
          endGenerated, skipQuiets, outC, outQ);
      ghost var bad';
      r, bad' := Select(Any, 0, true, bad);
      BadAgain(moves[..], ttMove, endBadCaptures, endCaptures, cur, good, bad', outC);
      AfterBad(context, ttMove, moves[..], cur, endCur, endBadCaptures, endCaptures, endGenerated, skipQuiets, outC,
          outQ);
      if r.None? { CapturesDone(moves[..], ttMove, endBadCaptures, endCaptures, context.captures, good, bad); }
    }

    /** Prepares the pointers to loop over the quiets again. */
    method StartRemainingQuiets()
      requires Valid() && stage == BAD_CAPTURE && outC == Except(multiset(context.captures), ttMove)
      modifies this`cur, this`endCur, this`stage
      ensures Valid() && stage == BAD_QUIET
    {
      hide MainState, OtherState, CapturesHeld, Given, Accounted, QuietsHeld, BadGiven, BadQuietsGiven, Except;
      ghost var good, bad := BadState(context, ttMove, moves[..], cur, endCur, endBadCaptures, endCaptures,
          endGenerated, skipQuiets, outC, outQ);
      cur := endCaptures;
      endCur := endGenerated;
      if !skipQuiets {
        QuietBounds(moves[..], endCaptures, endGenerated, context.quiets);
        StartBadQuiets(moves[..], ttMove, endCaptures, endGenerated, outQ);
      }
      stage := stage + 1;
      AfterCaptures(context, ttMove, moves[..], cur, endCur, endBadCaptures, endCaptures, endGenerated, skipQuiets,
          outC, outQ);
    }

    /** Main search, the remaining quiets, unless quiets are skipped. */
    method NextBadQuiet() returns (r: Option<Move>)
      requires Valid() && stage == BAD_QUIET
      modifies this`cur, this`out, this`outC, this`outQ
      ensures Valid()
      ensures out == if r.Some? then old(out) + [r.value] else old(out)
      ensures r.None? ==> outC == Except(multiset(context.captures), ttMove) && outQ <= multiset(context.quiets)
      ensures r.None? && !skipQuiets ==> outQ == Except(multiset(context.quiets), ttMove)
    {
      hide MainState, OtherState, CapturesHeld, Given, Outside, Accounted, QuietsHeld, BadQuietsGiven, Except;
      r := None;
      ghost var good, bad := LastState(context, ttMove, moves[..], cur, endCur, endBadCaptures, endCaptures,
          endGenerated, skipQuiets, outC, outQ);
      if !skipQuiets {
        ghost var bad';
        r, bad' := Select(Bad, endCaptures, false, bad);
        BadQuietsAgain(moves[..], ttMove, endCaptures, endGenerated, cur, good, bad', outQ, context.quiets);
        if r.None? { QuietsDone(moves[..], ttMove, endCaptures, endGenerated, context.quiets, good, bad'); }
      }
      AfterCaptures(context, ttMove, moves[..], cur, endCur, endBadCaptures, endCaptures, endGenerated, skipQuiets,
          outC, outQ);
    }

    /** `next_move` for the main search: the cases from CAPTURE_INIT on fall through. */
    method NextMain() returns (r: Option<Move>)
      requires Valid() && CAPTURE_INIT <= stage <= BAD_QUIET
      modifies moves, this`cur, this`endCur, this`endBadCaptures, this`endCaptures, this`endGenerated, this`stage,
          this`out, this`outC, this`outQ
      ensures Valid() && CAPTURE_INIT < stage <= BAD_QUIET
          && out == (if r.Some? then old(out) + [r.value] else old(out))
      ensures r.None? ==> MainDone()
    {
      hide MainState, OtherState, Accounted;
      if stage <= GOOD_CAPTURE {
        r := NextGoodCapture();
        if r.Some? { return; }
      }
      if stage <= GOOD_QUIET {
        r := NextGoodQuiet();
        if r.Some? { return; }
      }
      if stage == BAD_CAPTURE {
        r := NextBadCapture();
        if r.Some? { return; }
      }
      r := NextBadQuiet();
    }

    /** Every capture has been given, and every quiet unless quiets were skipped. */
    ghost predicate MainDone()
      reads this
    {
      && outC == Except(multiset(context.captures), ttMove) && outQ <= multiset(context.quiets)
      && (!skipQuiets ==> outQ == Except(multiset(context.quiets), ttMove))
    }

    lemma DoneMeans()
      requires MainDone()
      ensures outC == Except(multiset(context.captures), ttMove) && outQ <= multiset(context.quiets)
      ensures !skipQuiets ==> outQ == Except(multiset(context.quiets), ttMove)
    {}

    /** The generation stages of the other pickers. */
    method InitOther()
      requires Valid() && (stage == EVASION_INIT || stage == PROBCUT_INIT || stage == QCAPTURE_INIT)
      modifies moves, this`cur, this`endCur, this`endBadCaptures, this`endCaptures, this`endGenerated, this`stage
      ensures Valid() && stage == old(stage) + 1
    {
      hide MainState, Accounted, Stretch, Permuted, Outside, PartlySorted, Given;
      if stage == EVASION_INIT {
        cur := 0;
        ScoreInto(context.evasions, OfEvasion, 0);
        endGenerated := |context.evasions|;
        endCur := endGenerated;
        ghost var s := moves[..];
        PartialInsertionSort(moves, cur, endCur, -0x8000_0000);
        StretchSorted(s, moves[..], 0, endCur, Any);
      } else {
        InitCaptures();
      }
      stage := stage + 1;
      GivenNothing(moves[..], ttMove, 0, Rule(context, threshold, stage));
    }

    /** `next_move` for evasions, ProbCut and quiescence. */
    method NextOther() returns (r: Option<Move>)
      requires Valid() && stage > BAD_QUIET && !IsTtStage(stage)
      modifies moves, this`cur, this`endCur, this`endBadCaptures, this`endCaptures, this`endGenerated, this`stage,
          this`out, this`outC, this`outQ
      ensures Valid() && (stage == EVASION || stage == PROBCUT || stage == QCAPTURE)
          && out == (if r.Some? then old(out) + [r.value] else old(out))
      ensures Kind(stage) == Kind(old(stage))
      ensures r.None? ==> outC == Except(Stretch(moves[..], 0, endCur, Rule(context, threshold, stage)), ttMove)
      ensures Stretch(moves[..], 0, endCur, Any) == multiset(if stage == EVASION then context.evasions
          else context.captures)
    {
      hide MainState, Accounted, Given, Stretch, Except;
      if stage == EVASION_INIT || stage == PROBCUT_INIT || stage == QCAPTURE_INIT { InitOther(); }
      ghost var given;
      r, given := Select(Rule(context, threshold, stage), 0, true, outC);
      if r.None? { GivenIs(moves[..], ttMove, 0, endCur, Rule(context, threshold, stage), outC); }
    }

    /** Everything on the one list has been given that its rule lets pass. */
    ghost predicate OtherDone()
      reads this, moves
    {
      && (stage == EVASION || stage == PROBCUT || stage == QCAPTURE)
          && Stretch(moves[..], 0, endCur, Any) == multiset(Source(context, stage))
      && outC == Except(Stretch(moves[..], 0, endCur, Rule(context, threshold, stage)), ttMove)
    }

    /** `next_move`. */
    method NextMove() returns (r: Option<Move>)
      requires Valid()
      modifies moves, this`cur, this`endCur, this`endBadCaptures, this`endCaptures, this`endGenerated, this`stage,
          this`out, this`outC, this`outQ
      ensures Valid() && out == (if r.Some? then old(out) + [r.value] else old(out))
      ensures (stage <= BAD_QUIET <==> old(stage) <= BAD_QUIET) && !IsTtStage(stage)
      ensures r.None? && stage <= BAD_QUIET ==> !IsTtStage(stage) && MainDone()
      ensures Kind(stage) == Kind(old(stage)) && (r.None? && stage > BAD_QUIET ==> OtherDone())
      ensures IsTtStage(old(stage)) ==> r == ttMove && r.Some?
    {
      hide MainState, OtherState, Accounted;
      if IsTtStage(stage) {
        r := GiveTt();
      } else if stage <= BAD_QUIET {
        r := NextMain();
      } else {
        r := NextOther();
      }
    }

    /** One turn of a main search: perhaps dropping the quiets, then asking for the next move. */
    method Turn(skip: bool) returns (r: Option<Move>)
      requires Valid() && stage <= BAD_QUIET
      modifies moves, this`cur, this`endCur, this`endBadCaptures, this`endCaptures, this`endGenerated, this`stage,
          this`skipQuiets, this`out, this`outC, this`outQ
      ensures Valid() && stage <= BAD_QUIET && skipQuiets == (old(skipQuiets) || skip)
      ensures out == (if r.Some? then old(out) + [r.value] else old(out))
          && |out| <= 1 + |context.captures| + |context.quiets|
      ensures r.None? ==> MainDone()
      ensures stage > MAIN_TT && (old(stage) == MAIN_TT ==> r == ttMove && r.Some?)
    {
      hide MainState, OtherState, Accounted;
      if skip { SkipQuietMoves(); }
      r := NextMove();
      CapturesBound(context, ttMove, stage, moves[..], cur, endCur, endBadCaptures, endCaptures, endGenerated,
          skipQuiets, outC, outQ);
      OutBound(context, ttMove, useTt && !IsTtStage(stage), out, outC, outQ);
    }

    /** Past the first stage, everything given is accounted for. */
    lemma Books()
      requires Valid() && MAIN_TT < stage <= BAD_QUIET
      ensures Accounted(useTt, ttMove, out, outC, outQ) && (useTt ==> ttMove.Some?)
    {
      hide MainState, OtherState, Accounted;
    }

    /**
     * A full run, quiets dropped at any turns: whatever the scores and exchange tests, every
     * capture comes exactly once, and every quiet move does unless quiets were dropped.
     */
    method RunMain(skipBefore: nat -> bool) returns (given: seq<Move>)
      requires Valid() && out == [] && stage <= CAPTURE_INIT
      modifies moves, this`cur, this`endCur, this`endBadCaptures, this`endCaptures, this`endGenerated, this`stage,
          this`skipQuiets, this`out, this`outC, this`outQ
      ensures old(stage) == MAIN_TT ==> given != [] && Some(given[0]) == ttMove
      ensures EachOnce(context, ttMove, useTt, given, outQ)
      ensures !skipQuiets ==> outQ == Except(multiset(context.quiets), ttMove)
      ensures skipQuiets == (old(skipQuiets) || SkippedBy(skipBefore, |given| + 1))
    {
      hide Valid, MainState, OtherState, Accounted, Except, EachOnce, SkippedBy, MainDone;
      given := [];
      SkippedNext(skipBefore, 0);
      var r := Turn(skipBefore(0));
      while r.Some?
        invariant Valid() && MAIN_TT < stage <= BAD_QUIET && out == if r.Some? then given + [r.value] else given
        invariant old(stage) == MAIN_TT ==> out != [] && Some(out[0]) == ttMove
        invariant skipQuiets == (old(skipQuiets) || SkippedBy(skipBefore, |given| + 1))
        invariant |out| <= 1 + |context.captures| + |context.quiets| && (r.None? ==> MainDone())
        decreases 2 + |context.captures| + |context.quiets| - |out|, r.Some?
      {
        given := given + [r.value];
        SkippedNext(skipBefore, |given|);
        r := Turn(skipBefore(|given|));
      }
      Books();
      DoneMeans();
      RunDone(context, ttMove, useTt, given, outC, outQ);
    }

    /** One turn of an evasion, ProbCut or quiescence search. */
    method TurnOther() returns (r: Option<Move>)
      requires Valid() && stage > BAD_QUIET
      modifies moves, this`cur, this`endCur, this`endBadCaptures, this`endCaptures, this`endGenerated, this`stage,
          this`out, this`outC, this`outQ
      ensures Valid() && stage > BAD_QUIET && !IsTtStage(stage) && Kind(stage) == Kind(old(stage))
      ensures out == (if r.Some? then old(out) + [r.value] else old(out)) && |out| <= 1 + |Source(context, stage)|
      ensures r.None? ==> OtherDone()
      ensures IsTtStage(old(stage)) ==> r == ttMove && r.Some?
    {
      hide MainState, OtherState, Accounted, Stretch, Except;
      r := NextMove();
      OtherBound(context, ttMove, threshold, useTt && !IsTtStage(stage), stage, moves[..], cur, endCur, out, outC,
          outQ);
    }

    /**
     * A full evasion, ProbCut or quiescence run: the table move first if it is in use, and of the
     * list every other move once, in ProbCut if its exchange reaches the threshold.
     */
    method RunOther() returns (given: seq<Move>)
      requires Valid() && out == [] && stage > BAD_QUIET
      modifies moves, this`cur, this`endCur, this`endBadCaptures, this`endCaptures, this`endGenerated, this`stage,
          this`out, this`outC, this`outQ
      ensures IsTtStage(old(stage)) ==> given != [] && Some(given[0]) == ttMove
      ensures useTt ==> ttMove.Some?
      ensures forall m :: multiset(given)[m] ==
                if Some(m) == ttMove then (if useTt then 1 else 0)
                else if Kind(old(stage)) == 2 && !context.seeGe(m, threshold) then 0
                    else multiset(Source(context, old(stage)))[m]
    {
      hide Valid, MainState, OtherState, Accounted, Except, Stretch, Kind, Source, OtherDone;
      given := [];
      var r := TurnOther();
      while r.Some?
        invariant Valid() && stage > BAD_QUIET && !IsTtStage(stage)
            && out == if r.Some? then given + [r.value] else given
        invariant IsTtStage(old(stage)) ==> out != [] && Some(out[0]) == ttMove
        invariant Kind(stage) == Kind(old(stage)) && |out| <= 1 + |Source(context, stage)| && (r.None? ==> OtherDone())
        decreases 2 + |Source(context, old(stage))| - |out|, r.Some?
      {
        given := given + [r.value];
        SameSource(context, stage, old(stage));
        r := TurnOther();
        SameSource(context, stage, old(stage));
      }
      SameSource(context, stage, old(stage));
      OtherBooks();
      RunOtherDone(context, ttMove, useTt, threshold, stage, moves[..], endCur, given, outC, outQ);
    }

    /** Past the first stage, everything given is accounted for. */
    lemma OtherBooks()
      requires Valid() && stage > BAD_QUIET && !IsTtStage(stage) && OtherDone()
      ensures Accounted(useTt, ttMove, out, outC, outQ) && outQ == multiset{} && (useTt ==> ttMove.Some?)
      ensures Stretch(moves[..], 0, endCur, Any) == multiset(Source(context, stage))
      ensures outC == Except(Stretch(moves[..], 0, endCur, Rule(context, threshold, stage)), ttMove)
      ensures stage == EVASION || stage == PROBCUT || stage == QCAPTURE
    {
      hide MainState, Accounted, Stretch, Except;
    }
  }

  lemma SameSource(c: Context, s: int, t: int)
    requires Kind(s) == Kind(t)
    ensures Source(c, s) == Source(c, t)
  {}

  /** What has been given is never more than the table move and the list. */
  lemma OtherBound(c: Context, tt: Option<Move>, threshold: int, ttGiven: bool, stage: int, s: seq<ExtMove>, cur: nat,
      endCur: nat, out: seq<Move>,
                   outC: multiset<Move>, outQ: multiset<Move>)
    requires Accounted(ttGiven, tt, out, outC, outQ) && OtherState(c, tt, threshold, stage, s, cur, endCur, outC)
        && outQ == multiset{}
    requires BAD_QUIET < stage <= QCAPTURE
    ensures |out| <= 1 + |Source(c, stage)|
  {
    if stage == EVASION || stage == PROBCUT || stage == QCAPTURE {
      GivenBound(s, tt, 0, cur, endCur, Rule(c, threshold, stage), outC);
    }
    hide Given, Stretch, Except;
    assert outC <= multiset(Source(c, stage));
    SizeBound(outC, multiset(Source(c, stage)));
    assert |multiset(out)| == |out|;
  }

  lemma {:induction false} PassingMoves(s: seq<ExtMove>, test: Move -> bool, m: Move)
    ensures Moves(s, Passing(test))[m] == if test(m) then Moves(s, Any)[m] else 0
  {
    if s != [] { PassingMoves(s[..|s| - 1], test, m); }
  }

  lemma RunOtherDone(c: Context, tt: Option<Move>, ttGiven: bool, threshold: int, stage: int, s: seq<ExtMove>,
      endCur: nat, out: seq<Move>,
                     outC: multiset<Move>, outQ: multiset<Move>)
    requires Accounted(ttGiven, tt, out, outC, outQ) && outQ == multiset{} && stage > BAD_QUIET
    requires Stretch(s, 0, endCur, Any) == multiset(Source(c, stage))
        && outC == Except(Stretch(s, 0, endCur, Rule(c, threshold, stage)), tt)
    requires stage == EVASION || stage == PROBCUT || stage == QCAPTURE
    ensures forall m :: multiset(out)[m] ==
              if Some(m) == tt then (if ttGiven then 1 else 0)
              else if Kind(stage) == 2 && !c.seeGe(m, threshold) then 0 else multiset(Source(c, stage))[m]
  {
    var w := Rule(c, threshold, stage);
    forall m
      ensures Stretch(s, 0, endCur, w)[m] ==
              if Kind(stage) == 2 && !c.seeGe(m, threshold) then 0 else multiset(Source(c, stage))[m]
    {
      if endCur <= |s| && stage == PROBCUT { PassingMoves(s[0..endCur], w.test, m); }
    }
    hide Stretch, Rule, Source, Kind;
  }

  lemma GivenIs(s: seq<ExtMove>, tt: Option<Move>, lo: nat, cur: nat, w: Which, given: multiset<Move>)
    requires Given(s, tt, lo, cur, w, given)
    ensures given == Except(Stretch(s, lo, cur, w), tt)
  {}

  lemma AccountedTt(tt: Option<Move>, out: seq<Move>, outC: multiset<Move>, outQ: multiset<Move>)
    requires Accounted(false, tt, out, outC, outQ) && tt.Some?
    ensures Accounted(true, tt, out + [tt.value], outC, outQ)
  {
    assert multiset(out + [tt.value]) == multiset(out) + multiset{tt.value};
    assert multiset{} + outC + outQ == outC + outQ;
  }

  lemma TtState(c: Context, tt: Option<Move>, threshold: int, stage: int, s: seq<ExtMove>, cur: nat, endCur: nat,
      endBad: nat, nc: nat, ng: nat, skip: bool, outC: multiset<Move>, outQ: multiset<Move>)
    requires IsTtStage(stage)
    ensures stage <= BAD_QUIET ==>
              (MainState(c, tt, stage, s, cur, endCur, endBad, nc, ng, skip, outC, outQ) ==>
                  MainState(c, tt, stage + 1, s, cur, endCur, endBad, nc, ng, skip, outC, outQ))
    ensures stage > BAD_QUIET ==>
        (OtherState(c, tt, threshold, stage, s, cur, endCur, outC) ==>
        OtherState(c, tt, threshold, stage + 1, s, cur, endCur, outC))
    ensures !IsTtStage(stage + 1) && (stage <= BAD_QUIET <==> stage + 1 <= BAD_QUIET)
  {}

  // Reading and rebuilding the main-search state, stage by stage.

  lemma EarlyState(c: Context, tt: Option<Move>, stage: int, s: seq<ExtMove>, cur: nat, endCur: nat, endBad: nat,
      nc: nat, ng: nat, skip: bool, outC: multiset<Move>, outQ: multiset<Move>)
    requires stage <= CAPTURE_INIT && MainState(c, tt, stage, s, cur, endCur, endBad, nc, ng, skip, outC, outQ)
    ensures outC == multiset{} && outQ == multiset{}
    ensures stage < CAPTURE_INIT ==> MainState(c, tt, stage + 1, s, cur, endCur, endBad, nc, ng, skip, outC, outQ)
  {}

  lemma GoodState(c: Context, tt: Option<Move>, s: seq<ExtMove>, cur: nat, endCur: nat, endBad: nat, nc: nat, ng: nat,
      skip: bool, outC: multiset<Move>, outQ: multiset<Move>)
    requires MainState(c, tt, GOOD_CAPTURE, s, cur, endCur, endBad, nc, ng, skip, outC, outQ)
    ensures CapturesHeld(s, tt, endBad, nc, c.captures) && nc == |c.captures| && Given(s, tt, endBad, cur, Any, outC)
        && endCur == nc && cur <= nc && outQ == multiset{}
  {}

  lemma AfterGood(c: Context, tt: Option<Move>, stage: int, s: seq<ExtMove>, cur: nat, endCur: nat, endBad: nat,
      nc: nat, ng: nat, skip: bool, outC: multiset<Move>, outQ: multiset<Move>)
    requires CapturesHeld(s, tt, endBad, nc, c.captures) && nc == |c.captures| && Given(s, tt, endBad, cur, Any, outC)
        && endCur == nc && cur <= nc && outQ == multiset{}
    requires stage == GOOD_CAPTURE || (stage == QUIET_INIT && cur == nc)
    ensures MainState(c, tt, stage, s, cur, endCur, endBad, nc, ng, skip, outC, outQ)
  {}

  lemma QuietState(c: Context, tt: Option<Move>, stage: int, s: seq<ExtMove>, cur: nat, endCur: nat, endBad: nat,
      nc: nat, ng: nat, skip: bool, outC: multiset<Move>, outQ: multiset<Move>)
    requires (stage == QUIET_INIT || stage == GOOD_QUIET)
        && MainState(c, tt, stage, s, cur, endCur, endBad, nc, ng, skip, outC, outQ)
    ensures CapturesHeld(s, tt, endBad, nc, c.captures) && nc == |c.captures| && endBad <= nc <= |s|
        && Given(s, tt, endBad, nc, Any, outC)
    ensures stage == QUIET_INIT ==> cur == nc && outQ == multiset{}
    ensures stage == GOOD_QUIET ==>
        QuietsHeld(s, nc, ng, c.quiets) && Given(s, tt, nc, cur, Good, outQ) && endCur == ng && cur <= ng
    ensures outQ <= multiset(c.quiets)
  {
    if stage == GOOD_QUIET { QuietsBound(s, tt, nc, cur, ng, c.quiets, Good, outQ); }
    hide Given, Stretch, Except;
  }

  lemma AfterGoodQuiet(c: Context, tt: Option<Move>, s: seq<ExtMove>, cur: nat, endCur: nat, endBad: nat, nc: nat,
      ng: nat, skip: bool, outC: multiset<Move>, outQ: multiset<Move>)
    requires CapturesHeld(s, tt, endBad, nc, c.captures) && nc == |c.captures| && Given(s, tt, endBad, nc, Any, outC)
    requires QuietsHeld(s, nc, ng, c.quiets) && Given(s, tt, nc, cur, Good, outQ) && endCur == ng && cur <= ng
    ensures MainState(c, tt, GOOD_QUIET, s, cur, endCur, endBad, nc, ng, skip, outC, outQ)
  {}

  lemma AfterQuiets(c: Context, tt: Option<Move>, s: seq<ExtMove>, cur: nat, endCur: nat, endBad: nat, nc: nat,
      ng: nat, skip: bool, outC: multiset<Move>, outQ: multiset<Move>)
    requires CapturesHeld(s, tt, endBad, nc, c.captures) && nc == |c.captures|
        && BadGiven(s, tt, endBad, nc, cur, outC) && endCur == endBad && cur <= endBad
    requires outQ <= multiset(c.quiets)
        && (!skip ==> QuietsHeld(s, nc, ng, c.quiets) && Given(s, tt, nc, ng, Good, outQ))
    ensures MainState(c, tt, BAD_CAPTURE, s, cur, endCur, endBad, nc, ng, skip, outC, outQ)
  {}

  lemma BadState(c: Context, tt: Option<Move>, s: seq<ExtMove>, cur: nat, endCur: nat, endBad: nat, nc: nat, ng: nat,
      skip: bool, outC: multiset<Move>, outQ: multiset<Move>)
      returns (good: multiset<Move>, bad: multiset<Move>)
    requires MainState(c, tt, BAD_CAPTURE, s, cur, endCur, endBad, nc, ng, skip, outC, outQ)
    ensures CapturesHeld(s, tt, endBad, nc, c.captures) && nc == |c.captures| && endCur == endBad
        && cur <= endBad <= nc <= |s|
    ensures outC == good + bad && Given(s, tt, endBad, nc, Any, good) && Given(s, tt, 0, cur, Any, bad)
    ensures outQ <= multiset(c.quiets)
        && (!skip ==> QuietsHeld(s, nc, ng, c.quiets) && Given(s, tt, nc, ng, Good, outQ))
  {
    good, bad :| outC == good + bad && Given(s, tt, endBad, nc, Any, good) && Given(s, tt, 0, cur, Any, bad);
  }

  lemma BadAgain(s: seq<ExtMove>, tt: Option<Move>, endBad: nat, nc: nat, cur: nat, good: multiset<Move>,
      bad: multiset<Move>, outC: multiset<Move>)
    requires outC == good + bad && Given(s, tt, endBad, nc, Any, good) && Given(s, tt, 0, cur, Any, bad)
    ensures BadGiven(s, tt, endBad, nc, cur, outC)
  {}

  lemma AfterBad(c: Context, tt: Option<Move>, s: seq<ExtMove>, cur: nat, endCur: nat, endBad: nat, nc: nat, ng: nat,
      skip: bool, outC: multiset<Move>, outQ: multiset<Move>)
    requires CapturesHeld(s, tt, endBad, nc, c.captures) && nc == |c.captures|
        && BadGiven(s, tt, endBad, nc, cur, outC) && endCur == endBad && cur <= endBad
    requires outQ <= multiset(c.quiets)
        && (!skip ==> QuietsHeld(s, nc, ng, c.quiets) && Given(s, tt, nc, ng, Good, outQ))
    ensures MainState(c, tt, BAD_CAPTURE, s, cur, endCur, endBad, nc, ng, skip, outC, outQ)
  {
    AfterQuiets(c, tt, s, cur, endCur, endBad, nc, ng, skip, outC, outQ);
  }

  lemma AfterCaptures(c: Context, tt: Option<Move>, s: seq<ExtMove>, cur: nat, endCur: nat, endBad: nat, nc: nat,
      ng: nat, skip: bool, outC: multiset<Move>, outQ: multiset<Move>)
    requires CapturesHeld(s, tt, endBad, nc, c.captures) && nc == |c.captures|
        && outC == Except(multiset(c.captures), tt) && outQ <= multiset(c.quiets)
    requires !skip ==>
        QuietsHeld(s, nc, ng, c.quiets) && BadQuietsGiven(s, tt, nc, ng, cur, outQ) && endCur == ng && cur <= ng
    ensures MainState(c, tt, BAD_QUIET, s, cur, endCur, endBad, nc, ng, skip, outC, outQ)
  {}

  lemma LastState(c: Context, tt: Option<Move>, s: seq<ExtMove>, cur: nat, endCur: nat, endBad: nat, nc: nat, ng: nat,
      skip: bool, outC: multiset<Move>, outQ: multiset<Move>)
      returns (good: multiset<Move>, bad: multiset<Move>)
    requires MainState(c, tt, BAD_QUIET, s, cur, endCur, endBad, nc, ng, skip, outC, outQ)
    ensures CapturesHeld(s, tt, endBad, nc, c.captures) && nc == |c.captures|
        && outC == Except(multiset(c.captures), tt) && outQ <= multiset(c.quiets)
    ensures !skip ==>
        QuietsHeld(s, nc, ng, c.quiets) && nc <= ng <= |s| && endCur == ng && cur <= ng && outQ == good + bad
                      && Given(s, tt, nc, ng, Good, good) && Given(s, tt, nc, cur, Bad, bad)
  {
    if !skip {
      good, bad :| outQ == good + bad && Given(s, tt, nc, ng, Good, good) && Given(s, tt, nc, cur, Bad, bad);
    } else {
      good, bad := multiset{}, multiset{};
    }
  }

  lemma BadQuietsAgain(s: seq<ExtMove>, tt: Option<Move>, nc: nat, ng: nat, cur: nat, good: multiset<Move>,
      bad: multiset<Move>, outQ: multiset<Move>, quiets: seq<Move>)
    requires QuietsHeld(s, nc, ng, quiets) && outQ == good + bad && Given(s, tt, nc, ng, Good, good)
        && Given(s, tt, nc, cur, Bad, bad) && cur <= ng
    ensures BadQuietsGiven(s, tt, nc, ng, cur, outQ) && outQ <= multiset(quiets)
  {
    BadQuietsBound(s, tt, nc, cur, ng, quiets, good, bad);
  }

  lemma StartCaptures(s: seq<ExtMove>, tt: Option<Move>, captures: seq<Move>)
    requires |captures| <= |s| && Stretch(s, 0, |captures|, Any) == multiset(captures)
    ensures CapturesHeld(s, tt, 0, |captures|, captures) && Given(s, tt, 0, 0, Any, multiset{})
  {
    StretchEmpty(s, 0, Any);
    GivenNothing(s, tt, 0, Any);
    ExceptUnit(Any, ExtMove(Move(0, 0, Normal, Knight), 0), tt);
  }

  lemma StartBad(s: seq<ExtMove>, tt: Option<Move>, endBad: nat, nc: nat, outC: multiset<Move>)
    requires Given(s, tt, endBad, nc, Any, outC)
    ensures BadGiven(s, tt, endBad, nc, 0, outC)
  {
    GivenNothing(s, tt, 0, Any);
    assert outC == outC + multiset{};
  }

  lemma StartBadQuiets(s: seq<ExtMove>, tt: Option<Move>, nc: nat, ng: nat, outQ: multiset<Move>)
    requires Given(s, tt, nc, ng, Good, outQ)
    ensures BadQuietsGiven(s, tt, nc, ng, nc, outQ)
  {
    GivenNothing(s, tt, nc, Bad);
    assert outQ == outQ + multiset{};
  }

  lemma QuietBounds(s: seq<ExtMove>, nc: nat, ng: nat, quiets: seq<Move>)
    requires QuietsHeld(s, nc, ng, quiets)
    ensures nc <= ng <= |s|
  {}

  lemma BadQuietsBound(s: seq<ExtMove>, tt: Option<Move>, nc: nat, cur: nat, ng: nat, quiets: seq<Move>,
      good: multiset<Move>, bad: multiset<Move>)
    requires QuietsHeld(s, nc, ng, quiets) && Given(s, tt, nc, ng, Good, good) && Given(s, tt, nc, cur, Bad, bad)
        && cur <= ng
    ensures good + bad <= multiset(quiets)
  {
    hide Moves, Except;
    StretchSplit(s, nc, cur, ng, Bad);
    MovesPartition(s[nc..ng]);
    ExceptFewer(Stretch(s, nc, ng, Good), tt);
    ExceptFewer(Stretch(s, nc, cur, Bad), tt);
  }

  lemma ScoredStretch(s: seq<ExtMove>, at: nat, list: seq<Move>)
    requires at + |list| <= |s| && forall k | 0 <= k < |list| :: s[at + k].move == list[k]
    ensures Stretch(s, at, at + |list|, Any) == multiset(list)
  {
    ScoredMoves(s[at..at + |list|], list);
  }

  lemma {:induction false} ScoredMoves(s: seq<ExtMove>, list: seq<Move>)
    requires |s| == |list| && forall k | 0 <= k < |list| :: s[k].move == list[k]
    ensures Moves(s, Any) == multiset(list)
  {
    if list != [] {
      var n := |list| - 1;
      ScoredMoves(s[..n], list[..n]);
      LastCounted(list);
    }
  }

  lemma LastCounted(list: seq<Move>)
    requires list != []
    ensures multiset(list) == multiset(list[..|list| - 1]) + multiset{list[|list| - 1]}
  {
    assert list == list[..|list| - 1] + [list[|list| - 1]];
  }

  /** What lies before the quiets is left alone when they are written. */
  lemma FrontKept(s: seq<ExtMove>, t: seq<ExtMove>, tt: Option<Move>, endBad: nat, nc: nat, captures: seq<Move>,
      given: multiset<Move>)
    requires CapturesHeld(s, tt, endBad, nc, captures) && Given(s, tt, endBad, nc, Any, given)
    requires |t| == |s| && forall k | 0 <= k < nc :: t[k] == s[k]
    ensures CapturesHeld(t, tt, endBad, nc, captures) && Given(t, tt, endBad, nc, Any, given)
  {
    StretchSame(s, t, 0, nc, Any);
    StretchSame(s, t, 0, endBad, Any);
    StretchSame(s, t, endBad, nc, Any);
    hide Stretch, Except;
  }

  lemma HeldBounds(s: seq<ExtMove>, tt: Option<Move>, endBad: nat, nc: nat, captures: seq<Move>)
    requires CapturesHeld(s, tt, endBad, nc, captures)
    ensures endBad <= nc <= |s|
  {}

  lemma GivenBounds(s: seq<ExtMove>, tt: Option<Move>, lo: nat, cur: nat, w: Which, given: multiset<Move>)
    requires Given(s, tt, lo, cur, w, given)
    ensures lo <= cur <= |s|
  {}

  /** Everything given is the table move, a capture or evasion, or a quiet move. */
  ghost predicate Accounted(ttGiven: bool, tt: Option<Move>, out: seq<Move>, outC: multiset<Move>,
      outQ: multiset<Move>) {
    && (ttGiven ==> tt.Some?)
    && multiset(out) == (if ttGiven then multiset{tt.value} else multiset{}) + outC + outQ
    && Except(outC, tt) == outC && Except(outQ, tt) == outQ
  }

  // ----- A full main-search run -----

  /** What has been given of a list is never more than the list. */
  lemma GivenBound(s: seq<ExtMove>, tt: Option<Move>, lo: nat, cur: nat, hi: nat, w: Which, given: multiset<Move>)
    requires Given(s, tt, lo, cur, w, given) && cur <= hi <= |s|
    ensures given <= Stretch(s, lo, hi, Any)
  {
    StretchSplit(s, lo, cur, hi, Any);
    PickedBound(s[lo..cur], w);
  }

  lemma CapturesBound(c: Context, tt: Option<Move>, stage: int, s: seq<ExtMove>, cur: nat, endCur: nat, endBad: nat,
      nc: nat, ng: nat, skip: bool, outC: multiset<Move>, outQ: multiset<Move>)
    requires MainState(c, tt, stage, s, cur, endCur, endBad, nc, ng, skip, outC, outQ)
    ensures outC <= multiset(c.captures) && outQ <= multiset(c.quiets)
  {
    if stage > CAPTURE_INIT {
      StretchSplit(s, 0, endBad, nc, Any);
      if stage <= GOOD_QUIET {
        if stage == GOOD_CAPTURE {
          GivenBound(s, tt, endBad, cur, nc, Any, outC);
        } else {
          GivenBound(s, tt, endBad, nc, nc, Any, outC);
        }
        if stage == GOOD_QUIET { QuietsBound(s, tt, nc, cur, ng, c.quiets, Good, outQ); }
      } else if stage == BAD_CAPTURE {
        var good, bad := BadState(c, tt, s, cur, endCur, endBad, nc, ng, skip, outC, outQ);
        GivenBound(s, tt, endBad, nc, nc, Any, good);
        GivenBound(s, tt, 0, cur, endBad, Any, bad);
      }
      hide Given, Stretch, BadGiven, BadQuietsGiven, QuietsHeld;
    }
  }

  lemma SizeBound(a: multiset<Move>, b: multiset<Move>)
    requires a <= b
    ensures |a| <= |b|
  {
    assert b == a + (b - a);
  }

  /** Moves left to give at most. */
  lemma OutBound(c: Context, tt: Option<Move>, ttGiven: bool, out: seq<Move>, outC: multiset<Move>,
      outQ: multiset<Move>)
    requires Accounted(ttGiven, tt, out, outC, outQ) && outC <= multiset(c.captures) && outQ <= multiset(c.quiets)
    ensures |out| <= 1 + |c.captures| + |c.quiets|
  {
    SizeBound(outC, multiset(c.captures));
    SizeBound(outQ, multiset(c.quiets));
    assert |multiset(out)| == |out|;
  }

  /** Were quiets dropped before one of the first n turns? */
  function SkippedBy(skipBefore: nat -> bool, n: nat): bool {
    n > 0 && (skipBefore(n - 1) || SkippedBy(skipBefore, n - 1))
  }

  lemma SkippedNext(skipBefore: nat -> bool, n: nat)
    ensures SkippedBy(skipBefore, n + 1) == (skipBefore(n) || SkippedBy(skipBefore, n)) && !SkippedBy(skipBefore, 0)
  {}

  /** The table move if it is in use, every capture once, and quiet moves each at most once. */
  ghost predicate EachOnce(c: Context, tt: Option<Move>, useTt: bool, given: seq<Move>, quietsGiven: multiset<Move>) {
    && (useTt ==> tt.Some?)
    && multiset(given) == (if useTt then multiset{tt.value} else multiset{}) + Except(multiset(c.captures), tt)
        + quietsGiven
    && quietsGiven <= Except(multiset(c.quiets), tt)
  }

  lemma RunDone(c: Context, tt: Option<Move>, ttGiven: bool, out: seq<Move>, outC: multiset<Move>, outQ: multiset<Move>)
    requires Accounted(ttGiven, tt, out, outC, outQ) && outC == Except(multiset(c.captures), tt)
        && outQ <= multiset(c.quiets)
    ensures EachOnce(c, tt, ttGiven, out, outQ)
  {
    if tt.Some? { assert Except(outQ, tt)[tt.value] == 0; }
  }
}
