/**
 * The experience store: entries by position, kept in order of use, bounded in number, and
 * written to and read from a text file.
 */
module Experience {
  import opened Options
  import opened Numerals

  type Key = nat

  /** `Entry`; the move is its 16 raw bits, zero for none. */
  datatype Entry = Entry(bestMove: nat, score: int, eval: int, depth: int, visits: nat)

  datatype Stats = Stats(uniqueMoves: int, duplicateMoves: int, totalPositions: int)

  const MAX_VISITS := 0xFFFF
  const KEY_LIMIT := 0x1_0000_0000_0000_0000

  function Min(a: int, b: int): int { if a < b then a else b }

  function Abs(x: int): int { if x < 0 then -x else x }

  // ----- The order of use -----

  predicate NoDuplicates<T(==)>(s: seq<T>) { forall i, j | 0 <= i < j < |s| :: s[i] != s[j] }

  function Without(lru: seq<Key>, key: Key): seq<Key> {
    if lru == [] then [] else if lru[0] == key then lru[1..] else [lru[0]] + Without(lru[1..], key)
  }

  /** The order after using key: it comes last, the others keep their order. */
  function Touched(lru: seq<Key>, key: Key): seq<Key> { Without(lru, key) + [key] }

  lemma {:induction false} WithoutKeys(lru: seq<Key>, key: Key)
    requires NoDuplicates(lru)
    ensures NoDuplicates(Without(lru, key)) && forall k :: k in Without(lru, key) <==> k in lru && k != key
  {
    if lru != [] {
      WithoutKeys(lru[1..], key);
      assert lru == [lru[0]] + lru[1..];
      if lru[0] != key {
        var w := Without(lru[1..], key);
        assert lru[0] !in w;
      }
    }
  }

  /** Touching keeps the list free of duplicates and adds at most the key touched. */
  lemma TouchedKeys(lru: seq<Key>, key: Key)
    requires NoDuplicates(lru)
    ensures NoDuplicates(Touched(lru, key)) && forall k :: k in Touched(lru, key) <==> k in lru || k == key
    ensures Touched(lru, key)[|Touched(lru, key)| - 1] == key
  {
    WithoutKeys(lru, key);
    var w := Without(lru, key);
    forall i | 0 <= i < |w| ensures w[i] != key { assert w[i] in w; }
  }

  // ----- Entries of one position -----

  predicate DistinctMoves(es: seq<Entry>) { forall i, j | 0 <= i < j < |es| :: es[i].bestMove != es[j].bestMove }

  /** `find_entry`: the first entry with the move. */
  function FindEntry(es: seq<Entry>, move: nat): (r: Option<nat>)
    ensures r.Some? ==> r.value < |es| && es[r.value].bestMove == move
    ensures r.None? ==> forall i | 0 <= i < |es| :: es[i].bestMove != move
  {
    if es == [] then None
    else if es[0].bestMove == move then Some(0)
    else match FindEntry(es[1..], move) case None => None case Some(i) => Some(i + 1)
  }

  /** What loading makes of two entries for one move: the deeper one, or of equals the later, with visits added up. */
  function Combined(a: Entry, e: Entry): Entry {
    var visits := Min(a.visits + e.visits, MAX_VISITS);
    if e.depth > a.depth then e.(visits := visits)
    else if e.depth == a.depth then a.(score := e.score, eval := e.eval, visits := visits)
    else a.(visits := visits)
  }

  function MergedInto(es: seq<Entry>, e: Entry): (r: seq<Entry>)
    ensures r != [] && (DistinctMoves(es) ==> DistinctMoves(r))
    ensures |r| == |es| + (if FindEntry(es, e.bestMove).Some? then 0 else 1)
  {
    match FindEntry(es, e.bestMove)
    case Some(i) => es[i := Combined(es[i], e)]
    case None => es + [e]
  }

  function At(table: map<Key, seq<Entry>>, key: Key): seq<Entry> { if key in table then table[key] else [] }

  // ----- The whole table -----

  /** How many entries the keys of the list have. */
  function TotalOf(table: map<Key, seq<Entry>>, keys: seq<Key>): nat {
    if keys == [] then 0 else |At(table, keys[0])| + TotalOf(table, keys[1..])
  }

  lemma {:induction false} TotalAppend(table: map<Key, seq<Entry>>, a: seq<Key>, key: Key)
    ensures TotalOf(table, a + [key]) == TotalOf(table, a) + |At(table, key)|
  {
    if a == [] {
      assert a + [key] == [key] && [key][1..] == [];
    } else {
      assert (a + [key])[1..] == a[1..] + [key];
      TotalAppend(table, a[1..], key);
    }
  }

  lemma {:induction false} TotalWithout(table: map<Key, seq<Entry>>, lru: seq<Key>, key: Key)
    requires key in lru
    ensures TotalOf(table, lru) == TotalOf(table, Without(lru, key)) + |At(table, key)|
  {
    if lru[0] != key {
      assert key in lru[1..];
      TotalWithout(table, lru[1..], key);
      var w := [lru[0]] + Without(lru[1..], key);
      assert w[1..] == Without(lru[1..], key);
    }
  }

  lemma {:induction false} TotalSame(t: map<Key, seq<Entry>>, u: map<Key, seq<Entry>>, keys: seq<Key>)
    requires forall k | k in keys :: At(t, k) == At(u, k)
    ensures TotalOf(t, keys) == TotalOf(u, keys)
  {
    if keys != [] { TotalSame(t, u, keys[1..]); }
  }

  lemma {:induction false} WithoutAbsent(lru: seq<Key>, key: Key)
    requires key !in lru
    ensures Without(lru, key) == lru
  {
    if lru != [] { WithoutAbsent(lru[1..], key); }
  }

  /** The total after one position's entries have been replaced and the position used. */
  lemma TotalTouched(table: map<Key, seq<Entry>>, lru: seq<Key>, key: Key, es: seq<Entry>)
    requires NoDuplicates(lru) && (key in lru <==> key in table)
    ensures TotalOf(table[key := es], Touched(lru, key)) == TotalOf(table, lru) + |es| - |At(table, key)|
  {
    var t := table[key := es];
    WithoutKeys(lru, key);
    TotalAppend(t, Without(lru, key), key);
    TotalSame(table, t, Without(lru, key));
    if key in lru { TotalWithout(table, lru, key); } else { WithoutAbsent(lru, key); }
  }

  /** The list, the index and the table have the same keys; every position has entries, their moves distinct. */
  ghost predicate Linked(table: map<Key, seq<Entry>>, lru: seq<Key>, lruIndex: set<Key>) {
    && NoDuplicates(lru) && lruIndex == table.Keys && (forall k :: k in lru <==> k in table)
    && forall k | k in table :: table[k] != [] && DistinctMoves(table[k])
  }

  lemma {:induction false} ListSize(lru: seq<Key>, keys: set<Key>)
    requires NoDuplicates(lru) && forall k :: k in lru <==> k in keys
    ensures |lru| == |keys|
  {
    if lru == [] {
      assert keys == {};
    } else {
      assert lru == [lru[0]] + lru[1..];
      ListSize(lru[1..], keys - {lru[0]});
    }
  }

  /** The list and its index hold the same keys, each once. */
  ghost predicate Indexed(lru: seq<Key>, lruIndex: set<Key>) {
    NoDuplicates(lru) && forall k :: k in lru <==> k in lruIndex
  }

  lemma LinkedParts(table: map<Key, seq<Entry>>, lru: seq<Key>, lruIndex: set<Key>, key: Key)
    requires Linked(table, lru, lruIndex)
    ensures Indexed(lru, lruIndex) && NoDuplicates(lru) && (key in lru <==> key in table)
    ensures DistinctMoves(At(table, key)) && (At(table, key) == [] <==> key !in table)
  {}

  lemma LinkedSize(table: map<Key, seq<Entry>>, lru: seq<Key>, lruIndex: set<Key>)
    requires Linked(table, lru, lruIndex)
    ensures |lru| == |table|
  {
    hide DistinctMoves;
    ListSize(lru, table.Keys);
  }

  lemma WholeRestricted(table: map<Key, seq<Entry>>, lru: seq<Key>, lruIndex: set<Key>)
    requires Linked(table, lru, lruIndex)
    ensures Restricted(table, lru) == table
  {
    hide DistinctMoves, NoDuplicates;
  }

  /** Replacing one position's entries and using it keeps everything linked. */
  lemma TouchLinked(table: map<Key, seq<Entry>>, lru: seq<Key>, lruIndex: set<Key>, key: Key, es: seq<Entry>)
    requires Linked(table, lru, lruIndex) && es != [] && DistinctMoves(es)
    ensures Linked(table[key := es], Touched(lru, key), lruIndex + {key})
  {
    TouchedKeys(lru, key);
  }

  /** What replacing one position's entries and using it keeps. */
  lemma Replaced(table: map<Key, seq<Entry>>, lru: seq<Key>, lruIndex: set<Key>, key: Key, es: seq<Entry>)
    requires Linked(table, lru, lruIndex) && es != [] && (DistinctMoves(At(table, key)) ==> DistinctMoves(es))
    ensures Indexed(lru, lruIndex) && Linked(table[key := es], Touched(lru, key), lruIndex + {key})
    ensures TotalOf(table[key := es], Touched(lru, key)) == TotalOf(table, lru) + |es| - |At(table, key)|
    ensures var l := Touched(lru, key); l != [] && l[|l| - 1] == key && |l| == |table[key := es]|
  {
    LinkedParts(table, lru, lruIndex, key);
    TouchLinked(table, lru, lruIndex, key, es);
    TotalTouched(table, lru, key, es);
    TouchedKeys(lru, key);
    LinkedSize(table[key := es], Touched(lru, key), lruIndex + {key});
    hide *;
  }

  /** Using a position again changes nothing but the order. */
  lemma UsedAgain(table: map<Key, seq<Entry>>, lru: seq<Key>, lruIndex: set<Key>, key: Key)
    requires Linked(table, lru, lruIndex) && key in table
    ensures Indexed(lru, lruIndex) && Linked(table, Touched(lru, key), lruIndex + {key})
        && TotalOf(table, Touched(lru, key)) == TotalOf(table, lru)
  {
    LinkedParts(table, lru, lruIndex, key);
    TouchLinked(table, lru, lruIndex, key, table[key]);
    TotalTouched(table, lru, key, table[key]);
    hide *;
    assert table[key := table[key]] == table;
  }

  lemma NotThere(table: map<Key, seq<Entry>>, key: Key)
    requires key !in table
    ensures At(table, key) == []
  {}

  /** The table restricted to the keys of a list. */
  function Restricted(table: map<Key, seq<Entry>>, keys: seq<Key>): map<Key, seq<Entry>> {
    map k | k in table && k in keys :: table[k]
  }

  /** How many of the oldest positions go. */
  function Surplus(size: nat, maxEntries: nat): nat {
    if maxEntries == 0 || size <= maxEntries then 0 else size - maxEntries
  }

  /** The table and list after the limit: the newest positions, in order, with the entries they had. */
  predicate NewestOf(table: map<Key, seq<Entry>>, lru: seq<Key>, maxEntries: nat, table': map<Key, seq<Entry>>,
      lru': seq<Key>) {
    var gone := Surplus(|lru|, maxEntries);
    gone <= |lru| && lru' == lru[gone..] && table' == Restricted(table, lru[gone..])
  }

  lemma NewestOfNone(maxEntries: nat)
    ensures NewestOf(map[], [], maxEntries, map[], [])
  {}

  // ----- The text format -----

  function Header(): string { "# Wordfish experience format v1" }

  /** One line of the file. */
  function LineOf(key: Key, e: Entry): string { Decimal(key) + ([' '] + Decimal(e.bestMove) + TailOf(e)) }

  /** Reading a line: comments, empty and malformed lines give nothing. */
  function ParseLine(line: string): Option<(Key, Entry)> {
    if line == [] || line[0] == '#' then None else
    match ReadUnsigned(line, KEY_LIMIT)
    case None => None
    case Some((key, s1)) =>
      match ReadUnsigned(s1, 0x1_0000_0000)
      case None => None
      case Some((raw, s2)) => match ParseTail(s2, raw % 0x1_0000) case None => None case Some(e) => Some((key, e))
  }

  /** The numbers after the move; a missing visit count means one visit. */
  function ParseTail(s2: string, move: nat): Option<Entry> {
    match ReadInt(s2)
    case None => None
    case Some((score, s3)) =>
      match ReadInt(s3)
      case None => None
      case Some((eval, s4)) =>
        match ReadInt(s4)
        case None => None
        case Some((depth, s5)) =>
          var visits := match ReadUnsigned(s5, 0x1_0000_0000) case None => 1 case Some((v, _)) => v;
          Some(Entry(move, score, eval, depth, Min(visits, MAX_VISITS)))
  }

  /** An entry whose fields fit their C++ types. */
  predicate InRange(key: Key, e: Entry) {
    key < KEY_LIMIT && e.bestMove < 0x1_0000 && IsInt32(e.score) && IsInt32(e.eval) && IsInt32(e.depth)
        && e.visits <= MAX_VISITS
  }

  function TailOf(e: Entry): string {
    [' '] + Signed(e.score) + ([' '] + Signed(e.eval) + ([' '] + Signed(e.depth) + ([' '] + Decimal(e.visits) + [])))
  }

  lemma TailBack(key: Key, e: Entry)
    requires InRange(key, e)
    ensures ParseTail(TailOf(e), e.bestMove) == Some(e) && NoDigitFirst(TailOf(e))
  {
    hide ReadUnsigned, ReadInt, Decimal, Numerals.Signed;
    var t5 := [' '] + Decimal(e.visits) + [];
    var t4 := [' '] + Signed(e.depth) + t5;
    var t3 := [' '] + Signed(e.eval) + t4;
    ReadIntBack(e.score, t3);
    ReadIntBack(e.eval, t4);
    ReadIntBack(e.depth, t5);
    ReadUnsignedBack(e.visits, 0x1_0000_0000, []);
  }

  /** A line that was written is read back. */
  lemma LineBack(key: Key, e: Entry)
    requires InRange(key, e)
    ensures ParseLine(LineOf(key, e)) == Some((key, e))
  {
    hide ReadUnsigned, Decimal, TailOf, ParseTail;
    var t1 := [' '] + Decimal(e.bestMove) + TailOf(e);
    var line := LineOf(key, e);
    TailBack(key, e);
    ReadUnsignedBack(key, KEY_LIMIT, t1);
    ReadUnsignedBack(e.bestMove, 0x1_0000_0000, TailOf(e));
    assert line[0] == Decimal(key)[0];
  }

  // ----- Saving and loading, as functions -----

  function LinesOf(key: Key, es: seq<Entry>): seq<string> {
    if es == [] then [] else (if es[0].bestMove == 0 then [] else [LineOf(key, es[0])]) + LinesOf(key, es[1..])
  }

  /** What is written: a header, then the entries by order of use. */
  function Written(table: map<Key, seq<Entry>>, lru: seq<Key>): seq<string> {
    if lru == [] then [] else LinesOf(lru[0], At(table, lru[0])) + Written(table, lru[1..])
  }

  datatype Loaded = Loaded(table: map<Key, seq<Entry>>, lru: seq<Key>, stats: Stats, any: bool)

  /** One entry merged while loading. */
  function Merge(l: Loaded, key: Key, e: Entry): Loaded {
    var es := At(l.table, key);
    Loaded(l.table[key := MergedInto(es, e)], Touched(l.lru, key),
           Stats(l.stats.uniqueMoves + (if FindEntry(es, e.bestMove).None? then 1 else 0),
                 l.stats.duplicateMoves + (if FindEntry(es, e.bestMove).Some? then 1 else 0),
                 l.stats.totalPositions + (if es == [] then 1 else 0)), true)
  }

  /** A whole file read into what is there. */
  function ReadLines(l: Loaded, lines: seq<string>): Loaded
    decreases |lines|
  {
    if lines == [] then l else
      ReadLines(match ParseLine(lines[0]) case None => l case Some((key, e)) => Merge(l, key, e), lines[1..])
  }

  lemma {:induction false} ReadAppend(l: Loaded, a: seq<string>, b: seq<string>)
    ensures ReadLines(l, a + b) == ReadLines(ReadLines(l, a), b)
    decreases |a|
  {
    if a == [] {
      assert a + b == b;
    } else {
      assert (a + b)[1..] == a[1..] + b;
      var m := match ParseLine(a[0]) case None => l case Some((key, e)) => Merge(l, key, e);
      hide ParseLine, Merge;
      ReadAppend(m, a[1..], b);
    }
  }

  predicate Storable(table: map<Key, seq<Entry>>) {
    forall k | k in table ::
        table[k] != [] && DistinctMoves(table[k]) && forall i | 0 <= i < |table[k]| ::
        table[k][i].bestMove != 0 && InRange(k, table[k][i])
  }

  /** The entries of key read so far are `done`, and key was used last. */
  ghost predicate Reading(l: Loaded, key: Key, done: seq<Entry>) {
    && NoDuplicates(l.lru) && At(l.table, key) == done
    && (if done == [] then key !in l.lru && key !in l.table
        else l.lru != [] && l.lru[|l.lru| - 1] == key && key in l.table)
  }

  function After(l: Loaded, key: Key, done: seq<Entry>, more: seq<Entry>): Loaded {
    Loaded(l.table[key := done + more], if done == [] then l.lru + [key] else l.lru,
           Stats(l.stats.uniqueMoves + |more|, l.stats.duplicateMoves,
               l.stats.totalPositions + (if done == [] then 1 else 0)), true)
  }

  lemma MergeNew(l: Loaded, key: Key, done: seq<Entry>, e: Entry)
    requires Reading(l, key, done) && FindEntry(done, e.bestMove) == None
    ensures Merge(l, key, e) == After(l, key, done, [e]) && Reading(Merge(l, key, e), key, done + [e])
  {
    TouchLast(l.lru, key);
    TouchedKeys(l.lru, key);
  }

  /** Reading the lines of one position adds its entries, in order, after what is there. */
  lemma {:induction false} ReadPosition(l: Loaded, key: Key, done: seq<Entry>, rest: seq<Entry>)
    requires DistinctMoves(done + rest) && rest != [] && Reading(l, key, done)
    requires forall i | 0 <= i < |rest| :: rest[i].bestMove != 0 && InRange(key, rest[i])
    ensures ReadLines(l, LinesOf(key, rest)) == After(l, key, done, rest)
    decreases |rest|
  {
    hide *;
    var e := rest[0];
    LineBack(key, e);
    NotFound(done, rest);
    MergeNew(l, key, done, e);
    var m := Merge(l, key, e);
    LinesStep(key, rest);
    ReadStep(l, key, e, LinesOf(key, rest[1..]));
    if |rest| > 1 {
      assert (done + [e]) + rest[1..] == done + rest;
      ReadPosition(m, key, done + [e], rest[1..]);
      AfterAfter(l, key, done, e, rest);
    } else {
      assert rest == [e];
    }
  }

  lemma LinesStep(key: Key, es: seq<Entry>)
    requires es != [] && es[0].bestMove != 0
    ensures LinesOf(key, es) == [LineOf(key, es[0])] + LinesOf(key, es[1..])
    ensures |es| == 1 ==> LinesOf(key, es[1..]) == []
  {}

  lemma ReadStep(l: Loaded, key: Key, e: Entry, lines: seq<string>)
    requires ParseLine(LineOf(key, e)) == Some((key, e))
    ensures ReadLines(l, [LineOf(key, e)] + lines) == ReadLines(Merge(l, key, e), lines)
    ensures ReadLines(Merge(l, key, e), []) == Merge(l, key, e)
  {
    assert ([LineOf(key, e)] + lines)[1..] == lines;
  }

  lemma AfterAfter(l: Loaded, key: Key, done: seq<Entry>, e: Entry, rest: seq<Entry>)
    requires |rest| > 1 && rest[0] == e
    ensures After(After(l, key, done, [e]), key, done + [e], rest[1..]) == After(l, key, done, rest)
  {
    assert (done + [e]) + rest[1..] == done + rest;
  }

  lemma NotFound(done: seq<Entry>, rest: seq<Entry>)
    requires DistinctMoves(done + rest) && rest != []
    ensures FindEntry(done, rest[0].bestMove) == None
  {
    var all := done + rest;
    assert all[|done|] == rest[0];
    forall i | 0 <= i < |done| ensures done[i].bestMove != rest[0].bestMove { assert all[i] == done[i]; }
  }

  /** Touching the key used last, or a new one. */
  lemma TouchLast(lru: seq<Key>, key: Key)
    ensures key !in lru ==> Touched(lru, key) == lru + [key]
    ensures lru != [] && lru[|lru| - 1] == key && NoDuplicates(lru) ==> Touched(lru, key) == lru
  {
    if key !in lru { WithoutAbsent(lru, key); }
    if lru != [] && lru[|lru| - 1] == key && NoDuplicates(lru) {
      WithoutLast(lru, key);
    }
  }

  lemma {:induction false} WithoutLast(lru: seq<Key>, key: Key)
    requires lru != [] && lru[|lru| - 1] == key && NoDuplicates(lru)
    ensures Without(lru, key) == lru[..|lru| - 1]
  {
    if |lru| > 1 {
      assert lru[0] != key;
      WithoutLast(lru[1..], key);
    }
  }

  /** What reading the positions of rest makes of l. */
  function AfterAll(table: map<Key, seq<Entry>>, done: seq<Key>, rest: seq<Key>, l: Loaded): Loaded {
    Loaded(Restricted(table, done + rest), done + rest,
           Stats(l.stats.uniqueMoves + TotalOf(table, rest), l.stats.duplicateMoves, l.stats.totalPositions + |rest|),
               l.any || rest != [])
  }

  /** Reading a written table adds its positions in the order of use. */
  lemma {:induction false} ReadWritten(table: map<Key, seq<Entry>>, done: seq<Key>, rest: seq<Key>, l: Loaded)
    requires Storable(table) && NoDuplicates(done + rest) && (forall k | k in done + rest :: k in table)
    requires l.lru == done && l.table == Restricted(table, done)
    ensures ReadLines(l, Written(table, rest)) == AfterAll(table, done, rest, l)
    decreases |rest|
  {
    if rest == [] {
      NothingRead(table, done, l);
    } else {
      hide *;
      var key := rest[0];
      KeyIsNew(done, rest);
      assert key in done + rest;
      StoredPosition(table, key, done, l);
      ReadPosition(l, key, [], table[key]);
      PositionAdded(table, done, rest, l);
      assert (done + [key]) + rest[1..] == done + rest;
      ReadAppend(l, LinesOf(key, table[key]), Written(table, rest[1..]));
      ReadWritten(table, done + [key], rest[1..], After(l, key, [], table[key]));
    }
  }

  lemma NothingRead(table: map<Key, seq<Entry>>, done: seq<Key>, l: Loaded)
    requires l.lru == done && l.table == Restricted(table, done)
    ensures ReadLines(l, Written(table, [])) == AfterAll(table, done, [], l)
  {
    assert done + [] == done;
  }

  /** A stored position may be read next. */
  lemma StoredPosition(table: map<Key, seq<Entry>>, key: Key, done: seq<Key>, l: Loaded)
    requires Storable(table) && key in table && key !in done && NoDuplicates(done) && l.lru == done
        && l.table == Restricted(table, done)
    ensures var es := table[key];
            es != [] && DistinctMoves([] + es) && Reading(l, key, []) && forall i | 0 <= i < |es| ::
                es[i].bestMove != 0 && InRange(key, es[i])
  {
    assert [] + table[key] == table[key];
    hide InRange;
  }

  lemma PositionAdded(table: map<Key, seq<Entry>>, done: seq<Key>, rest: seq<Key>, l: Loaded)
    requires rest != [] && rest[0] in table && rest[0] !in done && l.lru == done && l.table == Restricted(table, done)
    ensures var key, es := rest[0], table[rest[0]];
            var m := After(l, key, [], es);
            && m.table == Restricted(table, done + [key]) && m.lru == done + [key]
            && AfterAll(table, done + [key], rest[1..], m) == AfterAll(table, done, rest, l)
            && Written(table, rest) == LinesOf(key, es) + Written(table, rest[1..])
  {
    assert [] + table[rest[0]] == table[rest[0]];
    assert (done + [rest[0]]) + rest[1..] == done + rest;
    hide LinesOf;
  }

  lemma KeyIsNew(done: seq<Key>, rest: seq<Key>)
    requires NoDuplicates(done + rest) && rest != []
    ensures rest[0] !in done && NoDuplicates(done)
  {
    var all := done + rest;
    assert all[|done|] == rest[0];
    forall i | 0 <= i < |done| ensures done[i] != rest[0] { assert all[i] == done[i]; }
    forall i, j | 0 <= i < j < |done| ensures done[i] != done[j] { assert all[i] != all[j]; }
  }

  function Empty(): Loaded { Loaded(map[], [], Stats(0, 0, 0), false) }

  /** Saving and loading gives the table, the order of use and the statistics back. */
  lemma RoundTrip(table: map<Key, seq<Entry>>, lru: seq<Key>, lruIndex: set<Key>)
    requires Linked(table, lru, lruIndex) && Storable(table)
    ensures var r := ReadLines(Empty(), [Header()] + Written(table, lru));
            r == Loaded(table, lru, Stats(TotalOf(table, lru), 0, |lru|), lru != [])
  {
    hide *;
    HeaderSkipped(Written(table, lru));
    LinkedMeans(table, lru, lruIndex);
    NothingYet(table);
    assert [] + lru == lru;
    ReadWritten(table, [], lru, Empty());
    AllRead(table, lru, lruIndex);
  }

  lemma HeaderSkipped(lines: seq<string>)
    ensures ReadLines(Empty(), [Header()] + lines) == ReadLines(Empty(), lines)
  {
    assert ([Header()] + lines)[1..] == lines;
    assert ParseLine(Header()) == None;
    hide ParseLine;
  }

  lemma NothingYet(table: map<Key, seq<Entry>>)
    ensures Empty().lru == [] && Empty().table == Restricted(table, [])
  {}

  lemma AllRead(table: map<Key, seq<Entry>>, lru: seq<Key>, lruIndex: set<Key>)
    requires Linked(table, lru, lruIndex)
    ensures AfterAll(table, [], lru, Empty()) == Loaded(table, lru, Stats(TotalOf(table, lru), 0, |lru|), lru != [])
  {
    WholeRestricted(table, lru, lruIndex);
    hide Linked, Restricted, TotalOf, DistinctMoves, NoDuplicates;
    var all := [] + lru;
    assert all == lru;
  }

  // ----- Tables with null moves -----

  /** The entries of a position that are written: those with a move. */
  function WithMoves(es: seq<Entry>): seq<Entry> {
    if es == [] then [] else (if es[0].bestMove == 0 then [] else [es[0]]) + WithMoves(es[1..])
  }

  /** The table without null moves, positions left without an entry gone. */
  function WithoutNull(table: map<Key, seq<Entry>>): map<Key, seq<Entry>> {
    map k | k in table && WithMoves(table[k]) != [] :: WithMoves(table[k])
  }

  /** The keys left, in the order they were. */
  function KeysLeft(table: map<Key, seq<Entry>>, lru: seq<Key>): seq<Key> {
    if lru == [] then [] else (if WithMoves(At(table, lru[0])) == [] then [] else [lru[0]]) + KeysLeft(table, lru[1..])
  }

  /** Every entry fits the file. */
  predicate Writable(table: map<Key, seq<Entry>>) {
    forall k | k in table :: forall i | 0 <= i < |table[k]| :: InRange(k, table[k][i])
  }

  predicate NoNullMoves(table: map<Key, seq<Entry>>) {
    forall k | k in table :: forall i | 0 <= i < |table[k]| :: table[k][i].bestMove != 0
  }

  lemma {:induction false} WithMovesIs(es: seq<Entry>)
    ensures forall e :: e in WithMoves(es) <==> e in es && e.bestMove != 0
    ensures |WithMoves(es)| <= |es|
    ensures WithMoves(es) == es <==> forall i | 0 <= i < |es| :: es[i].bestMove != 0
    ensures |WithMoves(es)| == |es| ==> WithMoves(es) == es
  {
    if es != [] {
      WithMovesIs(es[1..]);
      assert es == [es[0]] + es[1..];
    }
  }

  lemma {:induction false} WithMovesDistinct(es: seq<Entry>)
    requires DistinctMoves(es)
    ensures DistinctMoves(WithMoves(es))
  {
    if es != [] {
      FirstDiffers(es);
      WithMovesDistinct(es[1..]);
      WithMovesIs(es[1..]);
      hide DistinctMoves;
      DistinctCons(es[0], WithMoves(es[1..]));
      assert [] + WithMoves(es[1..]) == WithMoves(es[1..]);
    }
  }

  lemma FirstDiffers(es: seq<Entry>)
    requires DistinctMoves(es) && es != []
    ensures DistinctMoves(es[1..]) && forall e | e in es[1..] :: e.bestMove != es[0].bestMove
  {}

  lemma DistinctCons(e: Entry, es: seq<Entry>)
    requires DistinctMoves(es) && forall x | x in es :: x.bestMove != e.bestMove
    ensures DistinctMoves([e] + es)
  {
    forall i | 0 <= i < |es| ensures es[i].bestMove != e.bestMove { assert es[i] in es; }
  }

  /** Null moves make no line. */
  lemma {:induction false} NullMovesSkipped(key: Key, es: seq<Entry>)
    ensures LinesOf(key, WithMoves(es)) == LinesOf(key, es)
  {
    if es != [] {
      hide LineOf;
      NullMovesSkipped(key, es[1..]);
      var w := WithMoves(es[1..]);
      if es[0].bestMove == 0 {
        assert [] + w == w && [] + LinesOf(key, es[1..]) == LinesOf(key, es[1..]);
      } else {
        assert ([es[0]] + w)[1..] == w;
      }
    }
  }

  lemma {:induction false} WrittenWithoutNull(table: map<Key, seq<Entry>>, lru: seq<Key>)
    requires forall k | k in lru :: k in table
    ensures Written(WithoutNull(table), KeysLeft(table, lru)) == Written(table, lru)
  {
    if lru != [] {
      hide LinesOf, WithMoves;
      WrittenWithoutNull(table, lru[1..]);
      NullMovesSkipped(lru[0], table[lru[0]]);
      NoLines(lru[0]);
      var left := KeysLeft(table, lru[1..]);
      if WithMoves(table[lru[0]]) == [] {
        assert [] + left == left && [] + Written(table, lru[1..]) == Written(table, lru[1..]);
      } else {
        assert ([lru[0]] + left)[1..] == left;
      }
    }
  }

  lemma NoLines(key: Key)
    ensures LinesOf(key, []) == []
  {}

  lemma {:induction false} KeysLeftAre(table: map<Key, seq<Entry>>, lru: seq<Key>)
    requires NoDuplicates(lru) && forall k | k in lru :: k in table
    ensures NoDuplicates(KeysLeft(table, lru)) && forall k ::
        k in KeysLeft(table, lru) <==> k in lru && k in WithoutNull(table)
  {
    if lru != [] {
      hide WithMoves;
      assert lru == [lru[0]] + lru[1..];
      KeysLeftAre(table, lru[1..]);
      var w := KeysLeft(table, lru[1..]);
      assert lru[0] !in lru[1..];
      assert lru[0] !in w;
    }
  }

  /** What is left can be stored. */
  lemma LeftStorable(table: map<Key, seq<Entry>>, k: Key)
    requires Writable(table) && k in table && DistinctMoves(table[k])
    ensures var w := WithMoves(table[k]);
            DistinctMoves(w) && forall i | 0 <= i < |w| :: w[i].bestMove != 0 && InRange(k, w[i])
  {
    WithMovesIs(table[k]);
    WithMovesDistinct(table[k]);
    hide DistinctMoves, InRange;
    var w := WithMoves(table[k]);
    forall i | 0 <= i < |w| ensures w[i].bestMove != 0 && InRange(k, w[i]) { assert w[i] in w; }
  }

  lemma WithoutNullStorable(table: map<Key, seq<Entry>>)
    requires Writable(table) && forall k | k in table :: DistinctMoves(table[k])
    ensures Storable(WithoutNull(table))
  {
    hide InRange, DistinctMoves, WithMoves;
    forall k: Key | k in table { LeftStorable(table, k); }
    hide Writable;
  }

  lemma LinkedDistinct(table: map<Key, seq<Entry>>, lru: seq<Key>, lruIndex: set<Key>)
    requires Linked(table, lru, lruIndex)
    ensures NoDuplicates(lru) && (forall k :: k in lru <==> k in table) && forall k | k in table ::
        DistinctMoves(table[k])
  {
    hide DistinctMoves, NoDuplicates;
  }

  /** What is left is linked and can be stored. */
  lemma WithoutNullLinked(table: map<Key, seq<Entry>>, lru: seq<Key>, lruIndex: set<Key>)
    requires Linked(table, lru, lruIndex) && Writable(table)
    ensures Linked(WithoutNull(table), KeysLeft(table, lru), WithoutNull(table).Keys) && Storable(WithoutNull(table))
  {
    hide NoDuplicates, InRange, DistinctMoves, WithMoves, KeysLeft, Writable;
    LinkedDistinct(table, lru, lruIndex);
    KeysLeftAre(table, lru);
    WithoutNullStorable(table);
    StorableLinked(WithoutNull(table), KeysLeft(table, lru));
    hide *;
  }

  lemma StorableLinked(table: map<Key, seq<Entry>>, lru: seq<Key>)
    requires Storable(table) && NoDuplicates(lru) && forall k :: k in lru <==> k in table
    ensures Linked(table, lru, table.Keys)
  {
    hide InRange, DistinctMoves, NoDuplicates;
  }

  /**
   * What saving and loading makes of any table: null moves are gone, positions that had nothing else
   * are gone, and the rest comes back in the order of use.
   */
  lemma SavedAndLoaded(table: map<Key, seq<Entry>>, lru: seq<Key>, lruIndex: set<Key>)
    requires Linked(table, lru, lruIndex) && Writable(table)
    ensures var left, w := KeysLeft(table, lru), WithoutNull(table);
            ReadLines(Empty(), [Header()] + Written(table, lru))
                == Loaded(w, left, Stats(TotalOf(w, left), 0, |left|), left != [])
  {
    LinkedMeans(table, lru, lruIndex);
    WrittenWithoutNull(table, lru);
    WithoutNullLinked(table, lru, lruIndex);
    RoundTrip(WithoutNull(table), KeysLeft(table, lru), WithoutNull(table).Keys);
    hide *;
  }

  lemma LinkedMeans(table: map<Key, seq<Entry>>, lru: seq<Key>, lruIndex: set<Key>)
    requires Linked(table, lru, lruIndex)
    ensures NoDuplicates(lru) && forall k | k in lru :: k in table
  {}

  lemma {:induction false} AllKeysLeft(table: map<Key, seq<Entry>>, lru: seq<Key>)
    requires forall k | k in lru :: k in table && WithMoves(table[k]) != []
    ensures KeysLeft(table, lru) == lru
  {
    if lru != [] { AllKeysLeft(table, lru[1..]); }
  }

  /** The table comes back exactly when it holds no null move. */
  lemma ComesBackExactly(table: map<Key, seq<Entry>>, lru: seq<Key>, lruIndex: set<Key>)
    requires Linked(table, lru, lruIndex) && Writable(table)
    ensures var r := ReadLines(Empty(), [Header()] + Written(table, lru));
            (r.table == table && r.lru == lru) <==> NoNullMoves(table)
  {
    SavedAndLoaded(table, lru, lruIndex);
    hide ReadLines, Written, Writable, Header, Empty;
    if NoNullMoves(table) {
      forall k | k in table ensures WithMoves(table[k]) == table[k] { WithMovesIs(table[k]); }
      assert WithoutNull(table) == table;
      AllKeysLeft(table, lru);
    } else {
      var k :| k in table && exists i | 0 <= i < |table[k]| :: table[k][i].bestMove == 0;
      WithMovesIs(table[k]);
      assert k !in WithoutNull(table) || WithoutNull(table)[k] != table[k];
    }
  }

  /** There are tables that do not come back. */
  lemma NullMoveIsLost() returns (table: map<Key, seq<Entry>>, lru: seq<Key>)
    ensures Linked(table, lru, table.Keys) && Writable(table)
    ensures ReadLines(Empty(), [Header()] + Written(table, lru)).table != table
  {
    var e := Entry(0, 0, 0, 1, 1);
    table, lru := map[1 := [e]], [1];
    assert table[1][0].bestMove == 0 && !NoNullMoves(table);
    ComesBackExactly(table, lru, table.Keys);
    SavedAndLoaded(table, lru, table.Keys);
    hide ReadLines, Written, Header, Empty;
    WithMovesIs(table[1]);
    assert |WithMoves(table[1])| != |table[1]|;
  }

  // ----- The store -----

  datatype Settings = Settings(
    enabled: bool, readonly: bool, named: bool, bookEnabled: bool, bookWidth: nat, bookEvalImportance: int,
    bookMinDepth: int, bookMaxMoves: int, minScore: int, maxEntries: nat)

  const FLUSH_INTERVAL := 64

  /** A finished search, as far as the store looks at it. */
  datatype Finished = Finished(
    key: Key, move: Option<nat>, bestScore: int, evalScore: int, depth: int, rootInTB: bool, bound: bool,
        infinite: bool)

  /** The conditions under which on_search_complete records the search. */
  predicate Recorded(s: Settings, f: Finished) {
    && s.enabled && f.move.Some? && !f.rootInTB && f.depth > 0 && !f.infinite && !f.bound
    && f.depth >= s.bookMinDepth && Abs(f.bestScore) >= s.minScore && !s.readonly
  }

  /** What recording a search makes of the position's entries. */
  function Updated(es: seq<Entry>, f: Finished, move: nat): (r: seq<Entry>)
    ensures r != [] && (DistinctMoves(es) ==> DistinctMoves(r))
    ensures |r| == |es| + (if FindEntry(es, move).Some? then 0 else 1)
  {
    match FindEntry(es, move)
    case Some(i) => es[i := es[i].(score := f.bestScore, eval := f.evalScore, depth := if es[i].depth > f.depth
        then es[i].depth else f.depth,
                                   visits := if es[i].visits < MAX_VISITS then es[i].visits + 1 else es[i].visits)]
    case None => es + [Entry(move, f.bestScore, f.evalScore, f.depth, 1)]
  }

  lemma RecordedMeans(s: Settings, f: Finished)
    ensures Recorded(s, f) ==> f.move.Some? && !s.readonly
  {}

  class Store {
    var settings: Settings
    var table: map<Key, seq<Entry>>
    var lru: seq<Key>
    var lruIndex: set<Key>
    var stats: Stats
    var dirty: bool
    var pendingFlush: nat
    var file: seq<string>

    /** Everything but the size limit and the statistics. */
    ghost predicate Sound()
      reads this
    {
      Linked(table, lru, lruIndex)
    }

    /** The list, index and table agree, the statistics are right, and the limit holds. */
    ghost predicate Valid()
      reads this
    {
      && Sound() && stats.uniqueMoves == TotalOf(table, lru) && stats.totalPositions == |table|
      && (settings.maxEntries > 0 ==> |table| <= settings.maxEntries)
    }

    constructor (s: Settings)
      ensures Valid() && settings == s && table == map[] && lru == []
    {
      settings, table, lru, lruIndex, stats := s, map[], [], {}, Stats(0, 0, 0);
      dirty, pendingFlush, file := false, 0, [];
    }

    /** `touch_lru`: the key becomes the one used last. */
    method TouchLru(key: Key)
      requires Indexed(lru, lruIndex)
      modifies this`lru, this`lruIndex
      ensures lru == Touched(old(lru), key) && lruIndex == old(lruIndex) + {key}
    {
      if key in lruIndex {
        lru := Without(lru, key) + [key];
      } else {
        WithoutAbsent(lru, key);
        lru := lru + [key];
        lruIndex := lruIndex + {key};
      }
      assert lruIndex == old(lruIndex) + {key};
    }

    /** `merge_entry_for_load`. */
    method MergeEntryForLoad(key: Key, e: Entry, loadStats: Stats) returns (newStats: Stats)
      requires Sound()
      modifies this`table, this`lru, this`lruIndex
      ensures Sound() && forall any ::
          Merge(Loaded(old(table), old(lru), loadStats, any), key, e) == Loaded(table, lru, newStats, true)
    {
      newStats := loadStats;
      var entries := At(table, key);
      var wasEmpty := entries == [];
      var merged, found := MergeInto(entries, e);
      hide Linked, Indexed, NoDuplicates, TotalOf, Touched, Without, DistinctMoves, FindEntry, Restricted, At,
          MergedInto, Combined;
      Replaced(table, lru, lruIndex, key, merged);
      if found {
        newStats := newStats.(duplicateMoves := newStats.duplicateMoves + 1);
      } else {
        newStats := newStats.(uniqueMoves := newStats.uniqueMoves + 1);
      }
      if wasEmpty { newStats := newStats.(totalPositions := newStats.totalPositions + 1); }
      table := table[key := merged];
      TouchLru(key);
    }

    /** The entry update of merge_entry_for_load. */
    static method MergeInto(entries: seq<Entry>, e: Entry) returns (merged: seq<Entry>, found: bool)
      ensures merged == MergedInto(entries, e) && found == FindEntry(entries, e.bestMove).Some?
    {
      var existing := FindEntry(entries, e.bestMove);
      found := existing.Some?;
      if existing.None? { return entries + [e], false; }
      var x := entries[existing.value];
      var combinedVisits := x.visits + e.visits;
      if e.depth > x.depth {
        x := x.(bestMove := e.bestMove, score := e.score, eval := e.eval, depth := e.depth);
      } else if e.depth == x.depth {
        x := x.(score := e.score, eval := e.eval);
      }
      merged := entries[existing.value := x.(visits := Min(combinedVisits, MAX_VISITS))];
    }

    /** `enforce_limit`: the positions not used for longest go first. */
    method EnforceLimit()
      requires Sound() && stats.uniqueMoves == TotalOf(table, lru)
      modifies this`table, this`lru, this`lruIndex, this`stats
      ensures Sound() && stats.uniqueMoves == TotalOf(table, lru) && stats.duplicateMoves == old(stats.duplicateMoves)
      ensures settings.maxEntries > 0 ==> |table| <= settings.maxEntries
      ensures NewestOf(old(table), old(lru), settings.maxEntries, table, lru)
    {
      hide Linked, Restricted, TotalOf, NoDuplicates;
      LinkedSize(table, lru, lruIndex);
      WholeRestricted(table, lru, lruIndex);
      assert lru[0..] == lru;
      if settings.maxEntries == 0 { return; }
      ghost var gone := 0;
      while |table| > settings.maxEntries && lru != []
        invariant Sound() && stats.uniqueMoves == TotalOf(table, lru)
            && stats.duplicateMoves == old(stats.duplicateMoves)
        invariant 0 <= gone <= |old(lru)| && |lru| == |table| && (gone == 0 || |table| >= settings.maxEntries)
        invariant lru == old(lru)[gone..] && table == Restricted(old(table), lru)
        decreases |lru|
      {
        var key := lru[0];
        DropFirst(old(table), table, lru, lruIndex);
        LinkedSize(table - {key}, lru[1..], lruIndex - {key});
        lru := lru[1..];
        lruIndex := lruIndex - {key};
        if key in table {
          var size := |table[key]|;
          stats := stats.(uniqueMoves := if stats.uniqueMoves >= size then stats.uniqueMoves - size else 0,
                          totalPositions := if stats.totalPositions > 0 then stats.totalPositions - 1
                              else stats.totalPositions);
          table := table - {key};
        }
        gone := gone + 1;
      }
    }

    /** `save_table_unlocked`: the header, then the entries in the order of use. */
    method SaveTable()
      modifies this`file
      ensures file == if settings.readonly || !settings.named then old(file) else [Header()] + Written(table, lru)
    {
      hide LineOf, LinesOf, Written, At, Header;
      if settings.readonly || !settings.named { return; }
      file := [Header()];
      NothingWritten(table);
      for i := 0 to |lru|
        invariant file == [Header()] + Written(table, lru[..i])
      {
        SavePosition(lru[i], At(table, lru[i]));
        WrittenAppend(table, lru[..i], lru[i]);
        assert lru[..i + 1] == lru[..i] + [lru[i]];
      }
      assert lru[..|lru|] == lru;
    }

    /** The inner loop of save_table_unlocked. */
    method SavePosition(key: Key, entries: seq<Entry>)
      modifies this`file
      ensures file == old(file) + LinesOf(key, entries)
    {
      hide LineOf, LinesOf;
      LinesNone(key);
      for j := 0 to |entries|
        invariant file == old(file) + LinesOf(key, entries[..j])
      {
        LinesAppend(key, entries[..j], [entries[j]]);
        assert entries[..j + 1] == entries[..j] + [entries[j]];
        LinesOne(key, entries[j]);
        if entries[j].bestMove != 0 { file := file + [LineOf(key, entries[j])]; }
      }
      assert entries[..|entries|] == entries;
    }

    /** `load_text_format`. */
    method LoadTextFormat(lines: seq<string>, loadStats: Stats) returns (parsedAny: bool, newStats: Stats)
      requires Sound()
      modifies this`table, this`lru, this`lruIndex
      ensures Sound() && ReadLines(Loaded(old(table), old(lru), loadStats, false), lines)
          == Loaded(table, lru, newStats, parsedAny)
    {
      parsedAny, newStats := false, loadStats;
      ghost var l := Loaded(table, lru, loadStats, false);
      for i := 0 to |lines|
        invariant Sound() && ReadLines(l, lines[..i]) == Loaded(table, lru, newStats, parsedAny)
      {
        hide ParseLine, Merge, Linked;
        assert lines[..i + 1] == lines[..i] + [lines[i]];
        ReadAppend(l, lines[..i], [lines[i]]);
        ReadOne(Loaded(table, lru, newStats, parsedAny), lines[i]);
        var parsed := ParseLine(lines[i]);
        if parsed.Some? {
          newStats := MergeEntryForLoad(parsed.value.0, parsed.value.1, newStats);
          parsedAny := true;
        }
      }
      assert lines[..|lines|] == lines;
    }

    /** `load_table_unlocked`, for a text file. */
    method LoadTable(lines: seq<string>)
      modifies this`table, this`lru, this`lruIndex, this`stats, this`dirty, this`pendingFlush
      ensures Valid()
      ensures var r := ReadLines(Empty(), lines); NewestOf(r.table, r.lru, settings.maxEntries, table, lru)
    {
      table, lru, lruIndex, dirty, pendingFlush, stats := map[], [], {}, false, 0, Stats(0, 0, 0);
      var loaded, loadStats := LoadTextFormat(lines, Stats(0, 0, 0));
      ReadCounts(Empty(), lines);
      NewestOfNone(settings.maxEntries);
      hide NewestOf, Restricted, ReadLines, NoDuplicates, DistinctMoves;
      if !loaded {
        NothingLoaded(Empty(), lines);
        table, lru, lruIndex, stats := map[], [], {}, Stats(0, 0, 0);
        return;
      }
      stats := loadStats;
      EnforceLimit();
      stats := stats.(totalPositions := |table|);
    }

    /** `flush_unlocked`. */
    method Flush()
      modifies this`file, this`dirty, this`pendingFlush
      ensures !dirty
      ensures file == if !old(dirty) || settings.readonly || !settings.named then old(file)
          else [Header()] + Written(table, lru)
    {
      if !dirty { return; }
      if !settings.readonly { SaveTable(); }
      dirty, pendingFlush := false, 0;
    }

    /** `on_search_complete`: the search is recorded, its position used last, and the store saved. */
    method OnSearchComplete(f: Finished)
      requires Valid()
      modifies this
      ensures Valid() && settings == old(settings)
      ensures !Recorded(settings, f) ==> table == old(table) && lru == old(lru) && file == old(file)
      ensures Recorded(settings, f) ==>
                var es := Updated(At(old(table), f.key), f, f.move.value);
                && f.key in table && table[f.key] == es && lru != [] && lru[|lru| - 1] == f.key
                && NewestOf(old(table)[f.key := es], Touched(old(lru), f.key), settings.maxEntries, table, lru)
                && (settings.named ==> file == [Header()] + Written(table, lru))
    {
      hide Linked, Indexed, NoDuplicates, TotalOf, Touched, Without, DistinctMoves, FindEntry, Restricted, At,
          Updated, Written, Recorded, Header,
           NewestOf;
      RecordedMeans(settings, f);
      if Recorded(settings, f) {
        Record(f);
        dirty := true;
        pendingFlush := pendingFlush + 1;
        if pendingFlush >= FLUSH_INTERVAL { Flush(); }
        Flush();
      }
    }

    /** The table update of on_search_complete. */
    method Record(f: Finished)
      requires Valid() && f.move.Some?
      modifies this`table, this`lru, this`lruIndex, this`stats
      ensures Valid()
      ensures var es := Updated(At(old(table), f.key), f, f.move.value);
              && f.key in table && table[f.key] == es && lru != [] && lru[|lru| - 1] == f.key
              && NewestOf(old(table)[f.key := es], Touched(old(lru), f.key), settings.maxEntries, table, lru)
    {
      hide Linked, Indexed, NoDuplicates, TotalOf, Touched, Without, DistinctMoves, FindEntry, Restricted, At,
          Updated, Surplus;
      var key, move := f.key, f.move.value;
      var entries := At(table, key);
      var updated, found := UpdateEntries(entries, f, move);
      PutEntries(key, updated, found);
      LastKept(table, lru, settings.maxEntries);
      EnforceLimit();
      stats := stats.(totalPositions := |table|);
    }

    /** The position's entries are replaced and counted, and the position is used. */
    method PutEntries(key: Key, updated: seq<Entry>, found: bool)
      requires Valid() && updated != [] && |updated| == |At(table, key)| + (if found then 0 else 1)
      requires DistinctMoves(At(table, key)) ==> DistinctMoves(updated)
      modifies this`table, this`lru, this`lruIndex, this`stats
      ensures Sound() && stats.uniqueMoves == TotalOf(table, lru) && |lru| == |table|
      ensures table == old(table)[key := updated] && lru == Touched(old(lru), key) && lru != [] && lru[|lru| - 1] == key
    {
      hide Linked, Indexed, NoDuplicates, TotalOf, Touched, Without, DistinctMoves, FindEntry, Restricted, At;
      Replaced(table, lru, lruIndex, key, updated);
      if found {
        stats := stats.(duplicateMoves := stats.duplicateMoves + 1);
      } else {
        stats := stats.(uniqueMoves := stats.uniqueMoves + 1);
      }
      if At(table, key) == [] { stats := stats.(totalPositions := stats.totalPositions + 1); }
      table := table[key := updated];
      TouchLru(key);
    }

    /** The entry update of on_search_complete. */
    static method UpdateEntries(entries: seq<Entry>, f: Finished, move: nat) returns (updated: seq<Entry>, found: bool)
      ensures updated == Updated(entries, f, move) && found == FindEntry(entries, move).Some?
    {
      var existing := FindEntry(entries, move);
      found := existing.Some?;
      if existing.None? { return entries + [Entry(move, f.bestScore, f.evalScore, f.depth, 1)], false; }
      var x := entries[existing.value];
      x := x.(score := f.bestScore, eval := f.evalScore, depth := if x.depth > f.depth then x.depth else f.depth);
      if x.visits < MAX_VISITS { x := x.(visits := x.visits + 1); }
      updated := entries[existing.value := x];
    }

    /** The lookup of on_new_position: a position found becomes the one used last. */
    method UsePosition(key: Key) returns (entries: seq<Entry>)
      requires Valid()
      modifies this`lru, this`lruIndex
      ensures Valid() && entries == At(table, key)
      ensures lru == if key in table then Touched(old(lru), key) else old(lru)
    {
      hide Linked, Indexed, NoDuplicates, TotalOf, Touched, Without, DistinctMoves, FindEntry, Restricted, At;
      entries := At(table, key);
      if key in table {
        UsedAgain(table, lru, lruIndex, key);
        TouchLru(key);
      } else {
        NotThere(table, key);
      }
    }
  }

  /** Dropping the key used longest ago. */
  lemma DropFirst(whole: map<Key, seq<Entry>>, table: map<Key, seq<Entry>>, lru: seq<Key>, lruIndex: set<Key>)
    requires Linked(table, lru, lruIndex) && lru != [] && table == Restricted(whole, lru)
    ensures lru[0] in table && Linked(table - {lru[0]}, lru[1..], lruIndex - {lru[0]})
    ensures TotalOf(table, lru) == |table[lru[0]]| + TotalOf(table - {lru[0]}, lru[1..])
    ensures table - {lru[0]} == Restricted(whole, lru[1..])
  {
    hide *;
    FirstListed(table, lru, lruIndex);
    DropLinked(table, lru, lruIndex);
    DropTotal(table, lru);
    DropRestricted(whole, lru);
  }

  lemma FirstListed(table: map<Key, seq<Entry>>, lru: seq<Key>, lruIndex: set<Key>)
    requires Linked(table, lru, lruIndex) && lru != []
    ensures lru[0] in table && lru[0] !in lru[1..]
  {
    hide DistinctMoves;
    assert lru[0] in lru;
  }

  lemma DropLinked(table: map<Key, seq<Entry>>, lru: seq<Key>, lruIndex: set<Key>)
    requires Linked(table, lru, lruIndex) && lru != [] && lru[0] !in lru[1..]
    ensures Linked(table - {lru[0]}, lru[1..], lruIndex - {lru[0]})
  {
    hide DistinctMoves;
    assert lru == [lru[0]] + lru[1..];
  }

  lemma DropTotal(table: map<Key, seq<Entry>>, lru: seq<Key>)
    requires lru != [] && lru[0] in table && lru[0] !in lru[1..]
    ensures TotalOf(table, lru) == |table[lru[0]]| + TotalOf(table - {lru[0]}, lru[1..])
  {
    TotalSame(table, table - {lru[0]}, lru[1..]);
  }

  /** The position used last survives the limit, with its entries. */
  lemma LastKept(table: map<Key, seq<Entry>>, lru: seq<Key>, maxEntries: nat)
    requires lru != [] && lru[|lru| - 1] in table
    ensures var gone, key := Surplus(|lru|, maxEntries), lru[|lru| - 1];
            && gone < |lru| && lru[gone..][|lru| - gone - 1] == key
            && key in Restricted(table, lru[gone..]) && Restricted(table, lru[gone..])[key] == table[key]
  {
    var gone := Surplus(|lru|, maxEntries);
    assert lru[gone..][|lru| - gone - 1] in lru[gone..];
  }

  lemma DropRestricted(whole: map<Key, seq<Entry>>, lru: seq<Key>)
    requires lru != [] && lru[0] !in lru[1..]
    ensures Restricted(whole, lru) - {lru[0]} == Restricted(whole, lru[1..])
  {
    assert lru == [lru[0]] + lru[1..];
  }

  lemma {:induction false} LinesAppend(key: Key, a: seq<Entry>, b: seq<Entry>)
    ensures LinesOf(key, a + b) == LinesOf(key, a) + LinesOf(key, b)
  {
    if a == [] {
      assert a + b == b;
    } else {
      assert (a + b)[1..] == a[1..] + b;
      LinesAppend(key, a[1..], b);
    }
  }

  lemma LinesNone(key: Key)
    ensures LinesOf(key, []) == []
  {}

  lemma NothingWritten(table: map<Key, seq<Entry>>)
    ensures Written(table, []) == []
  {}

  lemma LinesOne(key: Key, e: Entry)
    ensures LinesOf(key, [e]) == if e.bestMove == 0 then [] else [LineOf(key, e)]
  {
    assert [e][1..] == [];
  }

  lemma {:induction false} WrittenAppend(table: map<Key, seq<Entry>>, a: seq<Key>, key: Key)
    ensures Written(table, a + [key]) == Written(table, a) + LinesOf(key, At(table, key))
  {
    if a == [] {
      assert a + [key] == [key] && [key][1..] == [];
    } else {
      assert (a + [key])[1..] == a[1..] + [key];
      WrittenAppend(table, a[1..], key);
    }
  }

  lemma ReadOne(l: Loaded, line: string)
    ensures ReadLines(l, [line]) == match ParseLine(line) case None => l case Some((key, e)) => Merge(l, key, e)
  {
    assert [line][1..] == [];
  }

  /** Loading counts every new move. */
  lemma {:induction false} ReadCounts(l: Loaded, lines: seq<string>)
    requires Linked(l.table, l.lru, l.table.Keys) && l.stats.uniqueMoves == TotalOf(l.table, l.lru)
    ensures var r := ReadLines(l, lines);
        Linked(r.table, r.lru, r.table.Keys) && r.stats.uniqueMoves == TotalOf(r.table, r.lru)
    decreases |lines|
  {
    if lines != [] {
      var m := match ParseLine(lines[0]) case None => l case Some((key, e)) => Merge(l, key, e);
      if ParseLine(lines[0]).Some? { MergeCounts(l, ParseLine(lines[0]).value.0, ParseLine(lines[0]).value.1); }
      hide ParseLine, Merge;
      ReadCounts(m, lines[1..]);
    }
  }

  lemma MergeCounts(l: Loaded, key: Key, e: Entry)
    requires Linked(l.table, l.lru, l.table.Keys) && l.stats.uniqueMoves == TotalOf(l.table, l.lru)
    ensures var m := Merge(l, key, e);
        Linked(m.table, m.lru, m.table.Keys) && m.stats.uniqueMoves == TotalOf(m.table, m.lru)
  {
    var es := MergedInto(At(l.table, key), e);
    TouchLinked(l.table, l.lru, l.table.Keys, key, es);
    TotalTouched(l.table, l.lru, key, es);
    assert (l.table[key := es]).Keys == l.table.Keys + {key};
  }

  lemma {:induction false} NothingLoaded(l: Loaded, lines: seq<string>)
    requires !ReadLines(l, lines).any
    ensures ReadLines(l, lines) == l
    decreases |lines|
  {
    if lines != [] {
      var m := match ParseLine(lines[0]) case None => l case Some((key, e)) => Merge(l, key, e);
      if ParseLine(lines[0]).Some? { AnyStays(m, lines[1..]); }
      assert m == l;
      hide ParseLine, Merge;
      NothingLoaded(l, lines[1..]);
    }
  }

  lemma {:induction false} AnyStays(l: Loaded, lines: seq<string>)
    requires l.any
    ensures ReadLines(l, lines).any
    decreases |lines|
  {
    if lines != [] {
      var m := match ParseLine(lines[0]) case None => l case Some((key, e)) => Merge(l, key, e);
      assert m.any;
      hide ParseLine, Merge;
      AnyStays(m, lines[1..]);
    }
  }
}
