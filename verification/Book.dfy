/**
 * The opening book in the experience store: of a new position's root moves those the store
 * vouches for come first and carry what is known of them.
 */
module Book {
  import opened Options
  import opened Experience

  /** What the book looks at of a root move: its line, which starts with the move, and its scores. */
  datatype RootMove = RootMove(
    pv: seq<nat>, score: int, previousScore: int, averageScore: int, meanSquaredScore: int, selDepth: int)

  function Max(a: int, b: int): int { if a < b then b else a }

  // ----- The entries the book may use -----

  predicate Suits(s: Settings, e: Entry) {
    e.bestMove != 0 && e.depth >= s.bookMinDepth && Abs(e.score) >= s.minScore
  }

  function Candidates(s: Settings, es: seq<Entry>): seq<Entry> {
    if es == [] then [] else
      var n := |es| - 1;
      Candidates(s, es[..n]) + (if Suits(s, es[n]) then [es[n]] else [])
  }

  function Quality(s: Settings, e: Entry): int {
    e.eval * s.bookEvalImportance + e.visits * (10 - s.bookEvalImportance) * 16 + e.depth * 8
  }

  /** e behind all that are at least as good. */
  function Inserted(s: Settings, r: seq<Entry>, e: Entry): seq<Entry> {
    if r == [] then [e] else
      var n := |r| - 1;
      if Quality(s, r[n]) >= Quality(s, e) then r + [e] else Inserted(s, r[..n], e) + [r[n]]
  }

  /** The stable sort by falling quality. */
  function Ranked(s: Settings, cs: seq<Entry>): seq<Entry> {
    if cs == [] then [] else
      var n := |cs| - 1;
      Inserted(s, Ranked(s, cs[..n]), cs[n])
  }

  predicate Falling(s: Settings, r: seq<Entry>) {
    forall i, j | 0 <= i < j < |r| :: Quality(s, r[i]) >= Quality(s, r[j])
  }

  /** The entries of quality q, in order. */
  function OfQuality(s: Settings, es: seq<Entry>, q: int): seq<Entry> {
    if es == [] then [] else
      var n := |es| - 1;
      OfQuality(s, es[..n], q) + (if Quality(s, es[n]) == q then [es[n]] else [])
  }

  lemma OfQualityNext(s: Settings, es: seq<Entry>, e: Entry, q: int)
    ensures OfQuality(s, es + [e], q) == OfQuality(s, es, q) + (if Quality(s, e) == q then [e] else [])
  {
    assert (es + [e])[..|es|] == es;
  }

  lemma {:induction false} InsertedHolds(s: Settings, r: seq<Entry>, e: Entry)
    ensures multiset(Inserted(s, r, e)) == multiset(r) + multiset{e}
  {
    if r != [] {
      var n := |r| - 1;
      assert r == r[..n] + [r[n]];
      InsertedHolds(s, r[..n], e);
    }
  }

  lemma {:induction false} InsertedFalls(s: Settings, r: seq<Entry>, e: Entry)
    requires Falling(s, r)
    ensures Falling(s, Inserted(s, r, e))
  {
    var n := |r| - 1;
    if r != [] && Quality(s, r[n]) < Quality(s, e) {
      hide Quality;
      InsertedFalls(s, r[..n], e);
      InsertedHolds(s, r[..n], e);
      var t := Inserted(s, r[..n], e);
      forall i | 0 <= i < |t| ensures Quality(s, t[i]) >= Quality(s, r[n]) {
        assert t[i] in multiset(t);
        if t[i] != e { assert t[i] in r[..n]; }
      }
    }
  }

  lemma {:induction false} InsertedStable(s: Settings, r: seq<Entry>, e: Entry, q: int)
    ensures OfQuality(s, Inserted(s, r, e), q) == OfQuality(s, r + [e], q)
  {
    var n := |r| - 1;
    if r == [] {
      assert r + [e] == [e];
    } else if Quality(s, r[n]) < Quality(s, e) {
      hide Quality;
      InsertedStable(s, r[..n], e, q);
      assert r == r[..n] + [r[n]];
      OfQualityNext(s, Inserted(s, r[..n], e), r[n], q);
      OfQualityNext(s, r[..n], e, q);
      OfQualityNext(s, r[..n], r[n], q);
      OfQualityNext(s, r, e, q);
    }
  }

  /** The sort is one: nothing is lost, the qualities fall, and entries of the same quality keep their order. */
  lemma {:induction false} RankedSorts(s: Settings, cs: seq<Entry>)
    ensures Falling(s, Ranked(s, cs)) && multiset(Ranked(s, cs)) == multiset(cs)
  {
    if cs != [] {
      hide Inserted, Falling, Quality;
      var n := |cs| - 1;
      RankedSorts(s, cs[..n]);
      InsertedFalls(s, Ranked(s, cs[..n]), cs[n]);
      InsertedHolds(s, Ranked(s, cs[..n]), cs[n]);
      LastApart(cs);
    }
  }

  lemma LastApart(cs: seq<Entry>)
    requires cs != []
    ensures multiset(cs) == multiset(cs[..|cs| - 1]) + multiset{cs[|cs| - 1]}
  {
    assert cs == cs[..|cs| - 1] + [cs[|cs| - 1]];
  }

  lemma {:induction false} RankedStable(s: Settings, cs: seq<Entry>, q: int)
    ensures OfQuality(s, Ranked(s, cs), q) == OfQuality(s, cs, q)
  {
    if cs != [] {
      hide Inserted, Quality;
      var n := |cs| - 1;
      RankedStable(s, cs[..n], q);
      InsertedStable(s, Ranked(s, cs[..n]), cs[n], q);
      OfQualityNext(s, Ranked(s, cs[..n]), cs[n], q);
    }
  }

  lemma {:induction false} CandidatesAre(s: Settings, es: seq<Entry>)
    ensures forall e :: e in Candidates(s, es) <==> e in es && Suits(s, e)
  {
    if es != [] {
      var n := |es| - 1;
      hide Suits;
      CandidatesAre(s, es[..n]);
      assert es == es[..n] + [es[n]];
    }
  }

  lemma {:induction false} CandidatesDistinct(s: Settings, es: seq<Entry>)
    requires DistinctMoves(es)
    ensures DistinctMoves(Candidates(s, es))
  {
    if es != [] {
      var n := |es| - 1;
      CandidatesDistinct(s, es[..n]);
      CandidatesAre(s, es[..n]);
      var all := Candidates(s, es[..n]);
      forall i | 0 <= i < |all| ensures all[i].bestMove != es[n].bestMove { assert all[i] in es[..n]; }
    }
  }

  lemma {:induction false} InsertedDistinct(s: Settings, r: seq<Entry>, e: Entry)
    requires DistinctMoves(r + [e])
    ensures DistinctMoves(Inserted(s, r, e))
  {
    var n := |r| - 1;
    if r != [] && Quality(s, r[n]) < Quality(s, e) {
      hide Quality;
      DistinctPart(r, e);
      InsertedDistinct(s, r[..n], e);
      InsertedHolds(s, r[..n], e);
      var t := Inserted(s, r[..n], e);
      forall i | 0 <= i < |t| ensures t[i].bestMove != r[n].bestMove {
        assert t[i] in multiset(t);
        if t[i] != e { assert t[i] in r[..n]; }
      }
    }
  }

  lemma DistinctPart(r: seq<Entry>, e: Entry)
    requires r != [] && DistinctMoves(r + [e])
    ensures DistinctMoves(r[..|r| - 1] + [e])
    ensures r[|r| - 1].bestMove != e.bestMove
    ensures forall x | x in r[..|r| - 1] :: x.bestMove != r[|r| - 1].bestMove
  {
    var t := r + [e];
    assert t[|r|] == e && t[|r| - 1] == r[|r| - 1];
    forall i | 0 <= i < |r| ensures t[i] == r[i] {}
  }

  lemma {:induction false} RankedDistinct(s: Settings, cs: seq<Entry>)
    requires DistinctMoves(cs)
    ensures DistinctMoves(Ranked(s, cs))
  {
    if cs != [] {
      hide Inserted;
      var n := |cs| - 1;
      RankedDistinct(s, cs[..n]);
      var r := Ranked(s, cs[..n]);
      forall i | 0 <= i < |r| ensures r[i].bestMove != cs[n].bestMove { RankedHolds(s, cs[..n], r[i]); }
      InsertedDistinct(s, r, cs[n]);
    }
  }

  lemma RankedHolds(s: Settings, cs: seq<Entry>, e: Entry)
    ensures e in Ranked(s, cs) <==> e in cs
  {
    RankedSorts(s, cs);
    hide *;
    assert e in multiset(Ranked(s, cs)) <==> e in multiset(cs);
  }

  /** The entry ranked first: a candidate none is better than, and of those the one that comes first. */
  lemma BestRanked(s: Settings, es: seq<Entry>)
    ensures var cs := Ranked(s, Candidates(s, es));
            && (cs == [] <==> forall e | e in es :: !Suits(s, e))
            && (forall e | e in cs :: e in es && Suits(s, e))
            && (cs != [] ==>
                  && (forall e | e in es && Suits(s, e) :: Quality(s, e) <= Quality(s, cs[0]))
                  && OfQuality(s, Candidates(s, es), Quality(s, cs[0])) != []
                  && OfQuality(s, Candidates(s, es), Quality(s, cs[0]))[0] == cs[0])
  {
    var all := Candidates(s, es);
    var cs := Ranked(s, all);
    CandidatesAre(s, es);
    RankedSorts(s, all);
    hide Candidates, Ranked, Suits, Quality, Falling, OfQuality;
    forall e { RankedHolds(s, all, e); }
    if cs != [] {
      assert cs[0] in cs;
      FirstOfTop(s, cs);
      RankedStable(s, all, Quality(s, cs[0]));
      forall e | e in cs ensures Quality(s, e) <= Quality(s, cs[0]) { TopIsFirst(s, cs, e); }
    } else {
      forall e | e in es ensures !Suits(s, e) { assert e !in all; }
    }
  }

  lemma TopIsFirst(s: Settings, cs: seq<Entry>, e: Entry)
    requires Falling(s, cs) && e in cs
    ensures Quality(s, e) <= Quality(s, cs[0])
  {
    hide Quality;
    var i :| 0 <= i < |cs| && cs[i] == e;
  }

  lemma {:induction false} FirstOfTop(s: Settings, cs: seq<Entry>)
    requires cs != []
    ensures var t := OfQuality(s, cs, Quality(s, cs[0])); t != [] && t[0] == cs[0]
  {
    hide Quality;
    var n := |cs| - 1;
    if n == 0 {
      assert OfQuality(s, cs[..n], Quality(s, cs[0])) == [];
    } else {
      FirstOfTop(s, cs[..n]);
    }
  }

  // ----- The root moves -----

  predicate Starts(m: RootMove, move: nat) { m.pv != [] && m.pv[0] == move }

  /** The first root move with the move. */
  function FindRoot(ms: seq<RootMove>, move: nat): (r: Option<nat>)
    ensures r.Some? ==> r.value < |ms| && Starts(ms[r.value], move)
    ensures forall i | 0 <= i < (if r.Some? then r.value else |ms|) :: !Starts(ms[i], move)
  {
    if ms == [] then None
    else if Starts(ms[0], move) then Some(0)
    else match FindRoot(ms[1..], move) case None => None case Some(i) => Some(i + 1)
  }

  /** `apply_entry`. */
  function Applied(e: Entry, m: RootMove): RootMove {
    m.(score := Max(m.score, e.score), previousScore := Max(m.previousScore, e.score), averageScore := e.score,
        meanSquaredScore := e.score * e.score, selDepth := Max(m.selDepth, e.depth))
  }

  /** The entries cs[1], ..., cs[n - 1] applied to their root moves. */
  function Spread(ms: seq<RootMove>, cs: seq<Entry>, n: nat): (r: seq<RootMove>)
    requires n <= |cs|
    ensures |r| == |ms|
  {
    if n <= 1 then ms else
      var r := Spread(ms, cs, n - 1);
      match FindRoot(r, cs[n - 1].bestMove)
      case None => r
      case Some(k) => r[k := Applied(cs[n - 1], r[k])]
  }

  function Rotated(ms: seq<RootMove>, i: nat): seq<RootMove>
    requires i < |ms|
  {
    [ms[i]] + ms[..i] + ms[i + 1..]
  }

  /** The root moves after the book has been asked. */
  function Booked(s: Settings, es: seq<Entry>, ms: seq<RootMove>): (r: seq<RootMove>) {
    var cs := Ranked(s, Candidates(s, es));
    if cs == [] then ms else
      match FindRoot(ms, cs[0].bestMove)
      case None => ms
      case Some(i) =>
        var turned := Rotated(ms, i);
        Spread(turned[0 := Applied(cs[0], turned[0])], cs, Min(s.bookWidth, |cs|))
  }

  /** Applying an entry leaves the line alone, so the same root moves are found. */
  lemma {:induction false} FindSame(ms: seq<RootMove>, r: seq<RootMove>, move: nat)
    requires |r| == |ms| && forall j | 0 <= j < |ms| :: r[j].pv == ms[j].pv
    ensures FindRoot(r, move) == FindRoot(ms, move)
  {
    if ms != [] { FindSame(ms[1..], r[1..], move); }
  }

  lemma {:induction false} SpreadLines(ms: seq<RootMove>, cs: seq<Entry>, n: nat)
    requires n <= |cs|
    ensures forall j | 0 <= j < |ms| :: Spread(ms, cs, n)[j].pv == ms[j].pv
  {
    if n > 1 { SpreadLines(ms, cs, n - 1); }
  }

  lemma SpreadNext(ms: seq<RootMove>, cs: seq<Entry>, n: nat, j: nat)
    requires 1 < n <= |cs| && j < |ms|
    ensures var x := Spread(ms, cs, n - 1)[j];
            Spread(ms, cs, n)[j] == if FindRoot(ms, cs[n - 1].bestMove) == Some(j) then Applied(cs[n - 1], x) else x
  {
    hide Applied, FindRoot;
    SpreadLines(ms, cs, n - 1);
    FindSame(ms, Spread(ms, cs, n - 1), cs[n - 1].bestMove);
  }

  lemma OneEntryEach(ms: seq<RootMove>, cs: seq<Entry>, k: nat, l: nat, j: nat)
    requires DistinctMoves(cs) && k < l < |cs| && FindRoot(ms, cs[l].bestMove) == Some(j)
    ensures FindRoot(ms, cs[k].bestMove) != Some(j)
  {}

  /** A root move has been given the entry that names it, if one does, and nothing else. */
  lemma {:induction false} SpreadAt(ms: seq<RootMove>, cs: seq<Entry>, n: nat, j: nat)
    requires n <= |cs| && DistinctMoves(cs) && j < |ms|
    ensures forall k | 1 <= k < n && FindRoot(ms, cs[k].bestMove) == Some(j) ::
              Spread(ms, cs, n)[j] == Applied(cs[k], ms[j])
    ensures (forall k | 1 <= k < n :: FindRoot(ms, cs[k].bestMove) != Some(j)) ==> Spread(ms, cs, n)[j] == ms[j]
  {
    if n > 1 {
      hide Spread, Applied, FindRoot, DistinctMoves;
      SpreadAt(ms, cs, n - 1, j);
      SpreadNext(ms, cs, n, j);
      if FindRoot(ms, cs[n - 1].bestMove) == Some(j) {
        forall k | 1 <= k < n - 1 ensures FindRoot(ms, cs[k].bestMove) != Some(j) { OneEntryEach(ms, cs, k, n - 1, j); }
      }
    }
  }

  // ----- What the book makes of the root moves -----

  /** Where the j-th root move is once the i-th has gone to the front. */
  function Place(i: nat, j: nat): nat { if j == i then 0 else if j < i then j + 1 else j }

  lemma RotatedAt(ms: seq<RootMove>, i: nat, j: nat)
    requires i < |ms| && j < |ms|
    ensures |Rotated(ms, i)| == |ms| && Place(i, j) < |ms| && Rotated(ms, i)[Place(i, j)] == ms[j]
  {}

  lemma {:induction false} FindIs(ms: seq<RootMove>, move: nat, k: nat)
    requires k < |ms| && Starts(ms[k], move) && forall j | 0 <= j < k :: !Starts(ms[j], move)
    ensures FindRoot(ms, move) == Some(k)
  {
    if k > 0 { FindIs(ms[1..], move, k - 1); }
  }

  /** Turning does not change which root move is found, the one in front aside. */
  lemma FindTurned(ms: seq<RootMove>, i: nat, front: RootMove, move: nat)
    requires i < |ms| && front.pv == ms[i].pv && !Starts(ms[i], move)
    ensures var f := FindRoot(ms, move);
            FindRoot(Rotated(ms, i)[0 := front], move) == if f.Some? then Some(Place(i, f.value)) else None
  {
    var t, f := Rotated(ms, i)[0 := front], FindRoot(ms, move);
    forall j | 0 <= j < |ms| { RotatedAt(ms, i, j); }
    hide Rotated, FindRoot;
    forall j | 0 <= j < |ms| ensures Starts(t[Place(i, j)], move) <==> Starts(ms[j], move) {}
    if f.Some? {
      forall p | 0 <= p < Place(i, f.value) ensures !Starts(t[p], move) {
        var j := if p == 0 then i else if p <= i then p - 1 else p;
        assert Place(i, j) == p;
      }
      FindIs(t, move, Place(i, f.value));
    } else {
      forall p | 0 <= p < |ms| ensures !Starts(t[p], move) {
        var j := if p == 0 then i else if p <= i then p - 1 else p;
        assert Place(i, j) == p;
      }
    }
  }

  /** The best entry's move, if it is a root move, goes to the front; all else keeps its order. */
  lemma BookedOrder(s: Settings, es: seq<Entry>, ms: seq<RootMove>)
    ensures var cs, r := Ranked(s, Candidates(s, es)), Booked(s, es, ms);
            && (cs == [] || FindRoot(ms, cs[0].bestMove) == None ==> r == ms)
            && (cs != [] && FindRoot(ms, cs[0].bestMove).Some? ==>
                  var i := FindRoot(ms, cs[0].bestMove).value;
                  |r| == |ms| && forall j | 0 <= j < |ms| :: r[j].pv == Rotated(ms, i)[j].pv)
  {
    hide Ranked, Candidates, Rotated, FindRoot, Spread;
    var cs := Ranked(s, Candidates(s, es));
    if cs != [] && FindRoot(ms, cs[0].bestMove).Some? {
      var i := FindRoot(ms, cs[0].bestMove).value;
      forall j | 0 <= j < |ms| { RotatedAt(ms, i, j); }
      var turned := Rotated(ms, i);
      RotatedAt(ms, i, i);
      SpreadLines(turned[0 := Applied(cs[0], turned[0])], cs, Min(s.bookWidth, |cs|));
    }
  }

  lemma FrontLine(e: Entry, m: RootMove)
    ensures Applied(e, m).pv == m.pv
  {}

  /** The best entry goes to the front, the next ones each to the root move it names. */
  lemma GivenAt(ms: seq<RootMove>, cs: seq<Entry>, i: nat, w: nat, j: nat)
    requires DistinctMoves(cs) && cs != [] && w <= |cs| && j < |ms| && FindRoot(ms, cs[0].bestMove) == Some(i)
    ensures var r := Spread(Rotated(ms, i)[0 := Applied(cs[0], ms[i])], cs, w);
            && |r| == |ms| && Place(i, j) < |ms| && (j == i ==> r[Place(i, j)] == Applied(cs[0], ms[i]))
            && (forall k | 1 <= k < w && FindRoot(ms, cs[k].bestMove) == Some(j) ::
                  r[Place(i, j)] == Applied(cs[k], ms[j]))
            && (j != i && (forall k | 1 <= k < w :: FindRoot(ms, cs[k].bestMove) != Some(j)) ==>
                  r[Place(i, j)] == ms[j])
  {
    hide Rotated, Spread, Applied, FindRoot;
    RotatedAt(ms, i, j);
    var front := Applied(cs[0], ms[i]);
    FrontLine(cs[0], ms[i]);
    var t := Rotated(ms, i)[0 := front];
    forall k | 1 <= k < w
      ensures FindRoot(t, cs[k].bestMove) == Some(Place(i, j)) <==> FindRoot(ms, cs[k].bestMove) == Some(j)
      ensures FindRoot(ms, cs[k].bestMove) != Some(i)
    {
      FindTurned(ms, i, front, cs[k].bestMove);
    }
    SpreadAt(t, cs, w, Place(i, j));
  }

  /**
   * The best entry is applied to the move in front, the next ones as far as the width goes each
   * to the root move it names; the other root moves keep their scores.
   */
  lemma BookedScores(s: Settings, es: seq<Entry>, ms: seq<RootMove>, i: nat, j: nat)
    requires DistinctMoves(es) && j < |ms| && Ranked(s, Candidates(s, es)) != []
    requires FindRoot(ms, Ranked(s, Candidates(s, es))[0].bestMove) == Some(i)
    ensures var cs, r := Ranked(s, Candidates(s, es)), Booked(s, es, ms);
            && |r| == |ms| && Place(i, j) < |ms| && (j == i ==> r[Place(i, j)] == Applied(cs[0], ms[i]))
            && (forall k | 1 <= k < Min(s.bookWidth, |cs|) && FindRoot(ms, cs[k].bestMove) == Some(j) ::
                  r[Place(i, j)] == Applied(cs[k], ms[j]))
            && (j != i && (forall k | 1 <= k < Min(s.bookWidth, |cs|) :: FindRoot(ms, cs[k].bestMove) != Some(j)) ==>
                  r[Place(i, j)] == ms[j])
  {
    var cs := Ranked(s, Candidates(s, es));
    CandidatesDistinct(s, es);
    RankedDistinct(s, Candidates(s, es));
    RotatedAt(ms, i, i);
    hide Ranked, Candidates, Rotated, Spread, Applied, FindRoot, DistinctMoves;
    GivenAt(ms, cs, i, Min(s.bookWidth, |cs|), j);
  }

  // ----- on_new_position -----

  /** Is the book asked at all? */
  predicate Asked(s: Settings, gamePly: int, ms: seq<RootMove>) {
    s.enabled && s.bookEnabled && ms != [] && (s.bookMaxMoves > 0 ==> gamePly < s.bookMaxMoves * 2)
  }

  /** The loop over the entries. */
  method Select(s: Settings, es: seq<Entry>) returns (cs: seq<Entry>)
    ensures cs == Candidates(s, es)
  {
    cs := [];
    for i := 0 to |es|
      invariant cs == Candidates(s, es[..i])
    {
      assert es[..i + 1][..i] == es[..i];
      if es[i].bestMove == 0 { continue; }
      if es[i].depth < s.bookMinDepth { continue; }
      if Abs(es[i].score) < s.minScore { continue; }
      cs := cs + [es[i]];
    }
    assert es[..|es|] == es;
  }

  /** `std::find_if` over the root moves. */
  method SearchRoot(ms: seq<RootMove>, move: nat) returns (r: Option<nat>)
    ensures r == FindRoot(ms, move)
  {
    for i := 0 to |ms|
      invariant forall j | 0 <= j < i :: !Starts(ms[j], move)
    {
      if ms[i].pv != [] && ms[i].pv[0] == move {
        FindIs(ms, move, i);
        return Some(i);
      }
    }
    r := None;
  }

  /** The entries after the best, as far as the width goes. */
  method SpreadEntries(ms: seq<RootMove>, cs: seq<Entry>, width: nat) returns (r: seq<RootMove>)
    requires width <= |cs|
    ensures r == Spread(ms, cs, width)
  {
    r := ms;
    if width > 1 {
      for i := 1 to width
        invariant r == Spread(ms, cs, i)
      {
        var found := SearchRoot(r, cs[i].bestMove);
        if found.Some? { r := r[found.value := Applied(cs[i], r[found.value])]; }
      }
    }
  }

  /** `on_new_position`: a position found becomes the one used last, and the book has its say. */
  method OnNewPosition(store: Store, key: Key, gamePly: int, rootMoves: seq<RootMove>) returns (ms: seq<RootMove>)
    requires store.Valid()
    modifies store`lru, store`lruIndex
    ensures store.Valid()
    ensures var asked := Asked(store.settings, gamePly, rootMoves);
            && store.lru == (if asked && key in store.table then Touched(old(store.lru), key) else old(store.lru))
            && ms == if asked then Booked(store.settings, At(store.table, key), rootMoves) else rootMoves
  {
    hide Store.Valid, Touched, Candidates, Ranked, Spread, Applied, FindRoot;
    ms := rootMoves;
    var s := store.settings;
    if !s.enabled || !s.bookEnabled || rootMoves == [] { return; }
    if s.bookMaxMoves > 0 && gamePly >= s.bookMaxMoves * 2 { return; }
    var entries := store.UsePosition(key);
    var candidates := Select(s, entries);
    if candidates == [] {
      RankedSorts(s, candidates);
      return;
    }
    RankedSorts(s, candidates);
    var ranked := Ranked(s, candidates);
    var best := SearchRoot(ms, ranked[0].bestMove);
    if best.None? { return; }
    RotatedAt(ms, best.value, best.value);
    ms := Rotated(ms, best.value);
    ms := ms[0 := Applied(ranked[0], ms[0])];
    ms := SpreadEntries(ms, ranked, Min(s.bookWidth, |ranked|));
  }
}
