/**
 * The repetition field: what the backward walk of do_move finds, and what its value says
 * about the whole history.
 */
module Repetition {
  import opened Keys

  /** One state of the history, as far as repetition is concerned. */
  datatype Node = Node(key: Key, rule50: int, pliesFromNull: int, repetition: int)

  function Min(a: int, b: int): int { if a < b then a else b }

  /** How many plies back a repetition may lie. */
  function Window(h: seq<Node>, i: int): int
    requires 0 <= i < |h|
  {
    Min(h[i].rule50, h[i].pliesFromNull)
  }

  /** An equal position d plies before state i. */
  predicate SameAt(h: seq<Node>, i: int, d: int) {
    4 <= d <= i < |h| && d % 2 == 0 && h[i - d].key == h[i].key
  }

  /** The declared meaning of the field: the distance to the nearest repeat, negative if that was one itself. */
  ghost predicate RepetitionIs(h: seq<Node>, i: int, r: int)
    requires 0 <= i < |h|
  {
    var d := if r < 0 then -r else r;
    if r == 0 then forall e :: SameAt(h, i, e) && e <= Window(h, i) ==> false
    else
      && SameAt(h, i, d) && d <= Window(h, i)
      && (forall e :: SameAt(h, i, e) ==> d <= e)
      && (r < 0 <==> h[i - d].repetition != 0)
  }

  /** Counters step by one or restart; a null move restarts the null counter and leaves rule50 alone. */
  predicate CountersOk(h: seq<Node>, i: int)
    requires 0 <= i < |h|
  {
    && 0 <= h[i].rule50 && 0 <= h[i].pliesFromNull <= i
    && (i > 0 && h[i].pliesFromNull != 0 ==>
          h[i].pliesFromNull == h[i - 1].pliesFromNull + 1 && (h[i].rule50 == 0 || h[i].rule50 == h[i - 1].rule50 + 1))
  }

  ghost predicate StateIs(h: seq<Node>, i: int)
    requires 0 <= i < |h|
  {
    CountersOk(h, i) && RepetitionIs(h, i, h[i].repetition)
  }

  ghost predicate History(h: seq<Node>) {
    forall i {:trigger StateIs(h, i)} | 0 <= i < |h| :: StateIs(h, i)
  }

  /** Inside the window every counter runs back without a break. */
  lemma {:induction false} WindowShift(h: seq<Node>, i: int, d: int)
    requires History(h) && 0 <= i < |h| && 0 <= d <= Window(h, i)
    ensures d <= i && Window(h, i - d) == Window(h, i) - d
    decreases d
  {
    assert StateIs(h, i);
    if d > 0 {
      WindowShift(h, i - 1, d - 1);
      assert h[i].rule50 == h[i - 1].rule50 + 1;
    }
  }

  /** The field is non-zero exactly when the position occurred before within the window. */
  lemma RepeatedOnce(h: seq<Node>, i: int)
    requires History(h) && 0 <= i < |h|
    ensures h[i].repetition != 0 <==> exists d :: SameAt(h, i, d) && d <= Window(h, i)
  {
    var r := h[i].repetition;
    assert StateIs(h, i);
    if r != 0 { assert SameAt(h, i, if r < 0 then -r else r); }
  }

  /** Two earlier occurrences: the nearest, d plies back, and one four or more plies before it. */
  ghost predicate TwiceBefore(h: seq<Node>, i: int, d: int, e: int)
    requires 0 <= i < |h|
  {
    SameAt(h, i, d) && (forall f :: SameAt(h, i, f) ==> d <= f) && SameAt(h, i, e) && d + 4 <= e <= Window(h, i)
  }

  /** The field is negative exactly when the position occurred twice before, four or more plies apart, nearest first. */
  lemma RepeatedTwice(h: seq<Node>, i: int)
    requires History(h) && 0 <= i < |h|
    ensures h[i].repetition < 0 <==> exists d, e :: TwiceBefore(h, i, d, e)
  {
    hide TwiceBefore, History;
    if h[i].repetition < 0 { var e := NegativeMeans(h, i); }
    if d, e :| TwiceBefore(h, i, d, e) { TwiceNegative(h, i, d, e); }
  }

  lemma NegativeMeans(h: seq<Node>, i: int) returns (e: int)
    requires History(h) && 0 <= i < |h| && h[i].repetition < 0
    ensures TwiceBefore(h, i, -h[i].repetition, e)
  {
    assert StateIs(h, i);
    var d := -h[i].repetition;
    RepeatedOnce(h, i - d);
    var e' :| SameAt(h, i - d, e') && e' <= Window(h, i - d);
    WindowShift(h, i, d);
    e := d + e';
  }

  lemma TwiceNegative(h: seq<Node>, i: int, d: int, e: int)
    requires History(h) && 0 <= i < |h| && TwiceBefore(h, i, d, e)
    ensures h[i].repetition < 0
  {
    assert StateIs(h, i);
    var r := h[i].repetition;
    assert r != 0;
    var d' := if r < 0 then -r else r;
    assert SameAt(h, i, d') && d' == d;
    WindowShift(h, i, d);
    assert SameAt(h, i - d, e - d);
    RepeatedOnce(h, i - d);
  }

  /** Adding a state that meets its own conditions keeps the history good. */
  lemma HistoryExtend(h: seq<Node>, x: Node)
    requires History(h) && StateIs(h + [x], |h|)
    ensures History(h + [x])
  {
    var g := h + [x];
    forall i | 0 <= i < |g|
      ensures StateIs(g, i)
    {
      if i < |h| {
        assert StateIs(h, i);
        forall d ensures SameAt(g, i, d) == SameAt(h, i, d) {}
      }
    }
  }

  /** Storing the field does not change what it should be. */
  lemma RepetitionStored(h: seq<Node>, i: int, r: int)
    requires 0 <= i < |h| && CountersOk(h, i) && RepetitionIs(h, i, r)
    ensures var g := h[i := h[i].(repetition := r)];
            CountersOk(g, i) && RepetitionIs(g, i, r)
  {
    var g := h[i := h[i].(repetition := r)];
    forall d ensures SameAt(g, i, d) == SameAt(h, i, d) {}
  }

  lemma HistoryPrefix(h: seq<Node>, n: nat)
    requires History(h) && n <= |h|
    ensures History(h[..n])
  {
    forall i | 0 <= i < n
      ensures StateIs(h[..n], i)
    {
      assert StateIs(h, i);
      forall d ensures SameAt(h[..n], i, d) == SameAt(h, i, d) {}
    }
  }

  /** Two equal positions, the later one k plies before state n, both inside n's window. */
  predicate Repeats(h: seq<Node>, n: int, k: int, e: int)
    requires 0 <= n < |h|
  {
    0 <= k && SameAt(h, n - k, e) && k + e <= Window(h, n)
  }

  /** What has_repeated is asked: has any position been repeated since the last irreversible move? */
  ghost predicate SomeRepeat(h: seq<Node>, n: int)
    requires 0 <= n < |h|
  {
    exists k, e :: Repeats(h, n, k, e)
  }

  /** The field of the state k plies back tells whether its position was itself a repeat. */
  lemma SeenBack(h: seq<Node>, n: int, k: int)
    requires History(h) && 0 <= n < |h| && 0 <= k <= Window(h, n)
    ensures k <= n && (h[n - k].repetition != 0 <==> exists e :: Repeats(h, n, k, e))
  {
    WindowShift(h, n, k);
    RepeatedOnce(h, n - k);
    if h[n - k].repetition != 0 {
      var d :| SameAt(h, n - k, d) && d <= Window(h, n - k);
      assert Repeats(h, n, k, d);
    }
    if e :| Repeats(h, n, k, e) { assert SameAt(h, n - k, e); }
  }

  /** Closer than four plies to the end of the window nothing repeats. */
  lemma NoneLeft(h: seq<Node>, n: int, k: int)
    requires 0 <= n < |h| && Window(h, n) < k + 4 && forall j, e | 0 <= j < k :: !Repeats(h, n, j, e)
    ensures !SomeRepeat(h, n)
  {}
}
