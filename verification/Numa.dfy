/**
 * Distributing threads over the nodes of a machine, and bundling cache domains into nodes.
 */
module Numa {
  import opened Options

  type Cpu = nat

  datatype L3Domain = L3Domain(systemNumaIndex: nat, cpus: set<Cpu>)

  class NumaConfig {
    var nodes: seq<set<Cpu>>
    var nodeByCpu: map<Cpu, nat>
    var highestCpuIndex: Cpu

    /** Every processor is in one node, the one the map names. */
    ghost predicate Valid()
      reads this
    {
      Placed(nodes, nodeByCpu) && forall c | c in nodeByCpu :: c <= highestCpuIndex
    }

    /** `empty()`. */
    constructor ()
      ensures Valid() && nodes == [] && nodeByCpu == map[]
    {
      nodes, nodeByCpu, highestCpuIndex := [], map[], 0;
    }

    /** Adds empty nodes until node n exists. */
    method Grow(n: nat)
      requires Valid()
      modifies this`nodes
      ensures Valid() && nodes == Extended(old(nodes), n)
    {
      hide Placed;
      ghost var before := nodes;
      while |nodes| <= n
        invariant Valid() && |nodes| <= Max(|before|, n + 1)
        invariant nodes == before + seq(|nodes| - |before|, _ => {}) && |before| <= |nodes|
      {
        PlaceMore(nodes, nodeByCpu);
        nodes := nodes + [{}];
      }
    }

    /** `add_cpu_to_node`: fails, changing nothing, for a processor already assigned. */
    method AddCpuToNode(n: nat, c: Cpu) returns (ok: bool)
      requires Valid()
      modifies this
      ensures Valid() && ok == (c !in old(nodeByCpu))
      ensures !ok ==> nodes == old(nodes) && nodeByCpu == old(nodeByCpu) && highestCpuIndex == old(highestCpuIndex)
      ensures ok ==>
          nodes == Extended(old(nodes), n)[n := Extended(old(nodes), n)[n] + {c}] && nodeByCpu == old(nodeByCpu)[c := n]
      ensures ok ==> highestCpuIndex == Max(old(highestCpuIndex), c)
    {
      hide Placed;
      if c in nodeByCpu { return false; }
      Grow(n);
      PlaceOne(nodes, nodeByCpu, n, c);
      nodes := nodes[n := nodes[n] + {c}];
      nodeByCpu := nodeByCpu[c := n];
      if c > highestCpuIndex { highestCpuIndex := c; }
      ok := true;
    }

    /** `add_cpu_range_to_node`: all of the range, or nothing. */
    method AddCpuRangeToNode(n: nat, first: Cpu, last: Cpu) returns (ok: bool)
      requires Valid()
      modifies this
      ensures Valid() && ok == (forall c: Cpu | first <= c <= last :: c !in old(nodeByCpu))
      ensures !ok ==> nodes == old(nodes) && nodeByCpu == old(nodeByCpu) && highestCpuIndex == old(highestCpuIndex)
      ensures ok ==>
          |nodes| == |Extended(old(nodes), n)| && (forall k | 0 <= k < |nodes| && k != n ::
          nodes[k] == Extended(old(nodes), n)[k])
      ensures ok ==> forall c :: c in nodes[n] <==> c in Extended(old(nodes), n)[n] || first <= c <= last
    {
      hide Placed;
      var c := first;
      while c <= last
        invariant first <= c
        invariant forall k: Cpu | first <= k < c && k <= last :: k !in nodeByCpu
      {
        if c in nodeByCpu { return false; }
        c := c + 1;
      }
      Grow(n);
      c := first;
      while c <= last
        invariant first <= c && |nodes| == |Extended(old(nodes), n)| && Settling(last)
        invariant forall k: Cpu | first <= k <= last :: k !in old(nodeByCpu)
        invariant forall k | 0 <= k < |nodes| && k != n :: nodes[k] == Extended(old(nodes), n)[k]
        invariant forall k :: k in nodes[n] <==> k in Extended(old(nodes), n)[n] || (first <= k < c && k <= last)
        invariant forall k :: k in nodeByCpu <==> k in old(nodeByCpu) || (first <= k < c && k <= last)
      {
        PlaceOne(nodes, nodeByCpu, n, c);
        nodes := nodes[n := nodes[n] + {c}];
        nodeByCpu := nodeByCpu[c := n];
        c := c + 1;
      }
      if last > highestCpuIndex { highestCpuIndex := last; }
      ok := true;
    }

    /** Valid, but for the highest index, which is settled last. */
    ghost predicate Settling(last: Cpu)
      reads this
    {
      Placed(nodes, nodeByCpu) && forall k | k in nodeByCpu :: k <= highestCpuIndex || k <= last
    }

    /** `distribute_threads_among_numa_nodes`: each thread goes where the node ends up least full. */
    method DistributeThreads(numThreads: nat) returns (ns: seq<nat>)
      requires |nodes| > 0
      ensures |ns| == numThreads && forall c | 0 <= c < numThreads :: ns[c] < |nodes|
      ensures forall n, m | 0 <= n < |nodes| && 0 <= m < |nodes| ::
          Share(ns, n) * |nodes[m]| <= (Share(ns, m) + 1) * |nodes[n]|
      ensures numThreads <= Processors(nodes, |nodes|) ==> forall n | 0 <= n < |nodes| :: Share(ns, n) <= |nodes[n]|
    {
      if |nodes| == 1 {
        ns := seq(numThreads, _ => 0);
        AllOnOne(ns);
        assert Processors(nodes, 1) == |nodes[0]| by { assert Processors(nodes, 0) == 0; }
      } else {
        ghost var occupation;
        ns, occupation := Greedy(numThreads);
        hide Balanced, Share, Total, Processors;
        SharesSum(ns, nodes, occupation);
        NotOverfull(nodes, occupation);
        FairShares(nodes, ns, occupation);
      }
    }

    /** The greedy loop. */
    method Greedy(numThreads: nat) returns (ns: seq<nat>, ghost occ: seq<nat>)
      requires |nodes| > 0
      ensures |ns| == numThreads && forall c | 0 <= c < numThreads :: ns[c] < |nodes|
      ensures |occ| == |nodes| && (forall n | 0 <= n < |nodes| :: occ[n] == Share(ns, n)) && Balanced(nodes, occ)
    {
      hide Balanced;
      ns := [];
      var occupation := seq(|nodes|, _ => 0);
      StartBalanced(nodes, occupation);
      for c := 0 to numThreads
        invariant |ns| == c && (forall k | 0 <= k < c :: ns[k] < |nodes|)
        invariant |occupation| == |nodes| && forall n | 0 <= n < |nodes| :: occupation[n] == Share(ns, n)
        invariant Balanced(nodes, occupation)
      {
        var bestNode := BestNode(occupation);
        KeepsBalance(nodes, occupation, bestNode);
        ns := ns + [bestNode];
        occupation := occupation[bestNode := occupation[bestNode] + 1];
      }
      occ := occupation;
    }

    /**
     * The scan for the node with the smallest fill; the first one wins ties, and an empty node,
     * infinitely full, never does.
     */
    method BestNode(occupation: seq<nat>) returns (bestNode: nat)
      requires |occupation| == |nodes| > 0
      ensures bestNode < |nodes|
      ensures forall m | 0 <= m < |nodes| ::
          (occupation[bestNode] + 1) * |nodes[m]| <= (occupation[m] + 1) * |nodes[bestNode]|
    {
      bestNode := 0;
      var bestNodeFill: Option<real> := None;
      for n := 0 to |nodes|
        invariant bestNodeFill == None ==> bestNode == 0 && forall m | 0 <= m < n :: |nodes[m]| == 0
        invariant bestNodeFill.Some? ==>
                    && bestNode < n && |nodes[bestNode]| > 0
                    && bestNodeFill.value == (occupation[bestNode] + 1) as real / |nodes[bestNode]| as real
        invariant bestNodeFill.Some? ==> LeastFull(nodes, occupation, bestNode, n)
      {
        if |nodes[n]| > 0 {
          var fill: real := (occupation[n] + 1) as real / |nodes[n]| as real;
          if bestNodeFill.Some? {
            CrossLess(occupation[n] + 1, |nodes[n]|, occupation[bestNode] + 1, |nodes[bestNode]|);
          }
          if bestNodeFill == None || fill < bestNodeFill.value {
            if bestNodeFill.Some? { LessFull(nodes, occupation, bestNode, n); }
            bestNode, bestNodeFill := n, Some(fill);
          }
        }
      }
    }
  }

  /** Of the first k nodes, best is the one that one more thread would leave least full. */
  predicate LeastFull(nodes: seq<set<Cpu>>, occ: seq<nat>, best: nat, k: nat)
    requires best < |nodes| == |occ| && k <= |nodes|
  {
    forall m | 0 <= m < k :: (occ[best] + 1) * |nodes[m]| <= (occ[m] + 1) * |nodes[best]|
  }

  lemma LessFull(nodes: seq<set<Cpu>>, occ: seq<nat>, best: nat, n: nat)
    requires best < n < |nodes| == |occ| && |nodes[best]| > 0 && |nodes[n]| > 0
    requires LeastFull(nodes, occ, best, n) && (occ[n] + 1) * |nodes[best]| < (occ[best] + 1) * |nodes[n]|
    ensures LeastFull(nodes, occ, n, n)
  {
    forall m | 0 <= m < n
      ensures (occ[n] + 1) * |nodes[m]| <= (occ[m] + 1) * |nodes[n]|
    {
      if |nodes[m]| > 0 { CrossTrans(occ[n] + 1, |nodes[n]|, occ[best] + 1, |nodes[best]|, occ[m] + 1, |nodes[m]|); }
    }
  }

  /** Each processor is in the node the map names, and in no other. */
  ghost predicate Placed(nodes: seq<set<Cpu>>, nodeByCpu: map<Cpu, nat>) {
    && (forall n, c | 0 <= n < |nodes| :: c in nodes[n] <==> c in nodeByCpu && nodeByCpu[c] == n)
    && (forall c | c in nodeByCpu :: nodeByCpu[c] < |nodes|)
  }

  lemma PlaceOne(nodes: seq<set<Cpu>>, nodeByCpu: map<Cpu, nat>, n: nat, c: Cpu)
    requires Placed(nodes, nodeByCpu) && n < |nodes| && c !in nodeByCpu
    ensures Placed(nodes[n := nodes[n] + {c}], nodeByCpu[c := n])
  {}

  lemma PlaceMore(nodes: seq<set<Cpu>>, nodeByCpu: map<Cpu, nat>)
    requires Placed(nodes, nodeByCpu)
    ensures Placed(nodes + [{}], nodeByCpu)
  {}

  function Max(a: nat, b: nat): nat { if a > b then a else b }

  /** The nodes, with empty ones added up to index n. */
  function Extended(nodes: seq<set<Cpu>>, n: nat): (r: seq<set<Cpu>>)
    ensures |r| == Max(|nodes|, n + 1)
  {
    if |nodes| > n then nodes else nodes + seq(n + 1 - |nodes|, _ => {})
  }

  /** How many threads went to node n. */
  function Share(ns: seq<nat>, n: nat): nat {
    if ns == [] then 0 else Share(ns[..|ns| - 1], n) + (if ns[|ns| - 1] == n then 1 else 0)
  }

  function Processors(nodes: seq<set<Cpu>>, k: nat): nat
    requires k <= |nodes|
  {
    if k == 0 then 0 else Processors(nodes, k - 1) + |nodes[k - 1]|
  }

  /** Node n is at most as full as node m would be with one thread more. */
  predicate Pair(nodes: seq<set<Cpu>>, occ: seq<nat>, n: nat, m: nat)
    requires n < |nodes| == |occ| && m < |nodes|
  {
    occ[n] * |nodes[m]| <= (occ[m] + 1) * |nodes[n]|
  }

  ghost predicate Balanced(nodes: seq<set<Cpu>>, occ: seq<nat>)
    requires |nodes| == |occ|
  {
    forall n, m | 0 <= n < |nodes| && 0 <= m < |nodes| :: Pair(nodes, occ, n, m)
  }

  lemma StartBalanced(nodes: seq<set<Cpu>>, occ: seq<nat>)
    requires |nodes| == |occ| && forall n | 0 <= n < |occ| :: occ[n] == 0
    ensures Balanced(nodes, occ)
  {}

  lemma FairShares(nodes: seq<set<Cpu>>, ns: seq<nat>, occ: seq<nat>)
    requires |nodes| == |occ| && Balanced(nodes, occ) && forall n | 0 <= n < |nodes| :: occ[n] == Share(ns, n)
    ensures forall n, m | 0 <= n < |nodes| && 0 <= m < |nodes| ::
        Share(ns, n) * |nodes[m]| <= (Share(ns, m) + 1) * |nodes[n]|
  {
    forall n, m | 0 <= n < |nodes| && 0 <= m < |nodes|
      ensures Share(ns, n) * |nodes[m]| <= (Share(ns, m) + 1) * |nodes[n]|
    {
      assert Pair(nodes, occ, n, m);
    }
  }

  lemma KeepsBalance(nodes: seq<set<Cpu>>, occ: seq<nat>, best: nat)
    requires best < |nodes| == |occ| && Balanced(nodes, occ)
    requires forall m | 0 <= m < |nodes| :: (occ[best] + 1) * |nodes[m]| <= (occ[m] + 1) * |nodes[best]|
    ensures Balanced(nodes, occ[best := occ[best] + 1])
  {
    var next := occ[best := occ[best] + 1];
    forall n, m | 0 <= n < |nodes| && 0 <= m < |nodes|
      ensures Pair(nodes, next, n, m)
    {
      assert Pair(nodes, occ, n, m);
      MoreRoom(occ[m] + 1, |nodes[n]|);
    }
  }

  lemma MoreRoom(x: nat, y: nat)
    ensures x * y <= (x + 1) * y
  {}

  lemma CrossLess(a: nat, b: nat, c: nat, d: nat)
    requires b > 0 && d > 0
    ensures a as real / b as real < c as real / d as real <==> a * d < c * b
  {
    var x, y := a as real / b as real, c as real / d as real;
    assert x * b as real == a as real && y * d as real == c as real;
    assert (a * d) as real == x * (b as real * d as real) && (c * b) as real == y * (b as real * d as real) by {
      assert (a * d) as real == a as real * d as real;
      assert (c * b) as real == c as real * b as real;
    }
    RealOrder(x, y, b as real * d as real);
  }

  lemma RealOrder(x: real, y: real, k: real)
    requires k > 0.0
    ensures x < y <==> x * k < y * k
  {}

  /** Comparing fills is transitive. */
  lemma CrossTrans(a: nat, b: nat, c: nat, d: nat, e: nat, f: nat)
    requires b > 0 && d > 0 && f > 0 && a * d < c * b && c * f <= e * d
    ensures a * f <= e * b
  {
    TimesLess(c * b, a * d, f);
    TimesLess(e * d, c * f, b);
    assert a * d * f == a * f * d && c * b * f == c * f * b && e * d * b == e * b * d;
    TimesLess(e * b, a * f, d);
  }

  lemma TimesLess(x: nat, y: nat, k: nat)
    requires k > 0
    ensures x < y <==> x * k < y * k
  {}

  lemma {:induction false} AllOnOne(ns: seq<nat>)
    requires forall k | 0 <= k < |ns| :: ns[k] == 0
    ensures Share(ns, 0) == |ns|
  {
    if ns != [] { AllOnOne(ns[..|ns| - 1]); }
  }

  function Total(occ: seq<nat>, k: nat): nat
    requires k <= |occ|
  {
    if k == 0 then 0 else Total(occ, k - 1) + occ[k - 1]
  }

  /** All threads are somewhere. */
  lemma {:induction false} SharesSum(ns: seq<nat>, nodes: seq<set<Cpu>>, occ: seq<nat>)
    requires |occ| == |nodes| && (forall k | 0 <= k < |ns| :: ns[k] < |nodes|) && forall n | 0 <= n < |nodes| ::
        occ[n] == Share(ns, n)
    ensures Total(occ, |occ|) == |ns|
  {
    if ns == [] {
      NoShares(occ, |occ|);
    } else {
      var last, before := ns[|ns| - 1], seq(|nodes|, n requires 0 <= n < |nodes| => Share(ns[..|ns| - 1], n));
      SharesSum(ns[..|ns| - 1], nodes, before);
      assert occ == before[last := before[last] + 1];
      TotalUpdate(before, last, |occ|);
    }
  }

  lemma {:induction false} NoShares(occ: seq<nat>, k: nat)
    requires k <= |occ| && forall n | 0 <= n < |occ| :: occ[n] == 0
    ensures Total(occ, k) == 0
  {
    if k > 0 { NoShares(occ, k - 1); }
  }

  lemma {:induction false} TotalUpdate(occ: seq<nat>, i: nat, k: nat)
    requires i < |occ| && k <= |occ|
    ensures Total(occ[i := occ[i] + 1], k) == Total(occ, k) + (if i < k then 1 else 0)
  {
    if k > 0 { TotalUpdate(occ, i, k - 1); }
  }

  /** No node gets more threads than processors while there are processors enough. */
  lemma NotOverfull(nodes: seq<set<Cpu>>, occ: seq<nat>)
    requires |nodes| == |occ| && Balanced(nodes, occ)
    ensures Total(occ, |occ|) <= Processors(nodes, |nodes|) ==> forall n | 0 <= n < |nodes| :: occ[n] <= |nodes[n]|
  {
    if n :| 0 <= n < |nodes| && occ[n] > |nodes[n]| {
      forall m | 0 <= m < |nodes|
        ensures occ[m] >= |nodes[m]|
      {
        assert Pair(nodes, occ, n, m);
        FullBefore(occ[n], |nodes[n]|, occ[m], |nodes[m]|);
      }
      TotalExceeds(nodes, occ, n, |nodes|);
    }
  }

  lemma FullBefore(a: nat, b: nat, c: nat, d: nat)
    requires a > b && a * d <= (c + 1) * b
    ensures c >= d
  {
    if b == 0 {
      assert a * d == 0;
    } else if d > 0 {
      FullerThan(a, b, c, d);
    }
  }

  lemma FullerThan(a: nat, b: nat, c: nat, d: nat)
    requires b > 0 && d > 0 && a > b && a * d <= (c + 1) * b
    ensures c >= d
  {
    assert (b + 1) * d <= a * d by { MoreOf(b + 1, a, d); }
    assert (b + 1) * d == b * d + d && (c + 1) * b == b * (c + 1);
    assert b * (c + 1 - d) == b * (c + 1) - b * d >= d;
    PositiveFactor(b, c + 1 - d);
  }

  lemma MoreOf(x: nat, y: nat, k: nat)
    requires x <= y
    ensures x * k <= y * k
  {}

  lemma PositiveFactor(b: nat, x: int)
    requires b > 0 && b * x > 0
    ensures x > 0
  {}

  lemma {:induction false} TotalExceeds(nodes: seq<set<Cpu>>, occ: seq<nat>, n: nat, k: nat)
    requires |nodes| == |occ| && n < |nodes| && k <= |nodes| && occ[n] > |nodes[n]|
    requires forall m | 0 <= m < |nodes| :: occ[m] >= |nodes[m]|
    ensures Total(occ, k) >= Processors(nodes, k) + (if n < k then 1 else 0)
  {
    if k > 0 { TotalExceeds(nodes, occ, n, k - 1); }
  }

  // ----- Bundling cache domains -----

  function Union(ds: seq<L3Domain>, lo: nat, hi: nat): set<Cpu>
    requires lo <= hi <= |ds|
  {
    if lo == hi then {} else Union(ds, lo, hi - 1) + ds[hi - 1].cpus
  }

  ghost predicate Disjoint(ds: seq<L3Domain>) {
    forall i, j | 0 <= i < j < |ds| :: ds[i].cpus !! ds[j].cpus
  }

  /** The groups are the domains between consecutive cuts, put together. */
  ghost predicate Grouped(domains: seq<L3Domain>, ds: seq<L3Domain>, cuts: seq<nat>) {
    && |cuts| == |ds| + 1 && cuts[0] == 0 && cuts[|ds|] == |domains|
    && (forall k | 0 <= k < |ds| :: GroupAt(domains, ds, cuts, k))
  }

  ghost predicate GroupAt(domains: seq<L3Domain>, ds: seq<L3Domain>, cuts: seq<nat>, k: nat)
    requires k < |ds| && |cuts| == |ds| + 1
  {
    cuts[k] < cuts[k + 1] <= |domains| && ds[k].cpus == Union(domains, cuts[k], cuts[k + 1])
  }

  /** A group put together from several domains is never larger than the bundle size. */
  ghost predicate WithinBundle(ds: seq<L3Domain>, cuts: seq<nat>, bundle: nat)
    requires |cuts| == |ds| + 1
  {
    forall k | 0 <= k < |ds| && cuts[k + 1] > cuts[k] + 1 :: |ds[k].cpus| <= bundle
  }

  /** No two neighbours would still fit together. */
  ghost predicate NoneFits(ds: seq<L3Domain>, bundle: nat) {
    forall j | 0 <= j < |ds| - 1 :: |ds[j].cpus| + |ds[j + 1].cpus| > bundle
  }

  /** The groups of one system node, neighbours merged while they fit. */
  method Bundle(domains: seq<L3Domain>, bundleSize: nat) returns (ds: seq<L3Domain>, ghost cuts: seq<nat>)
    requires Disjoint(domains)
    ensures Grouped(domains, ds, cuts) && WithinBundle(ds, cuts, bundleSize) && NoneFits(ds, bundleSize) && Disjoint(ds)
  {
    hide Grouped, WithinBundle, Disjoint;
    ds := domains;
    cuts := seq(|domains| + 1, k => k);
    EachAlone(domains, cuts, bundleSize);
    var changed := true;
    while changed
      invariant Grouped(domains, ds, cuts) && WithinBundle2(ds, cuts, bundleSize) && Disjoint(ds)
      invariant changed || NoneFits(ds, bundleSize)
      decreases |ds|, changed
    {
      changed := false;
      ghost var size := |ds|;
      var j := 0;
      while j + 1 < |ds|
        invariant Grouped(domains, ds, cuts) && WithinBundle2(ds, cuts, bundleSize) && Disjoint(ds)
        invariant |ds| <= size && (changed ==> |ds| < size)
        invariant !changed ==> forall i | 0 <= i < j && i + 1 < |ds| :: |ds[i].cpus| + |ds[i + 1].cpus| > bundleSize
        decreases |ds| - j
      {
        if |ds[j].cpus| + |ds[j + 1].cpus| <= bundleSize {
          changed := true;
          MergeOk(domains, ds, cuts, j, bundleSize);
          var merged := ds[j].(cpus := ds[j].cpus + ds[j + 1].cpus);
          ds := ds[..j] + [merged] + ds[j + 2..];
          cuts := cuts[..j + 1] + cuts[j + 2..];
        }
        j := j + 1;
      }
    }
  }

  ghost predicate WithinBundle2(ds: seq<L3Domain>, cuts: seq<nat>, bundle: nat) {
    |cuts| == |ds| + 1 && WithinBundle(ds, cuts, bundle)
  }

  lemma EachAlone(domains: seq<L3Domain>, cuts: seq<nat>, bundle: nat)
    requires |cuts| == |domains| + 1 && forall k | 0 <= k < |cuts| :: cuts[k] == k
    ensures Grouped(domains, domains, cuts) && WithinBundle(domains, cuts, bundle)
  {
    forall k | 0 <= k < |domains| ensures GroupAt(domains, domains, cuts, k) { assert Union(domains, k, k) == {}; }
  }

  lemma {:induction false} UnionJoin(ds: seq<L3Domain>, lo: nat, mid: nat, hi: nat)
    requires lo <= mid <= hi <= |ds|
    ensures Union(ds, lo, hi) == Union(ds, lo, mid) + Union(ds, mid, hi)
  {
    if mid < hi { UnionJoin(ds, lo, mid, hi - 1); }
  }

  lemma MergeOk(domains: seq<L3Domain>, ds: seq<L3Domain>, cuts: seq<nat>, j: nat, bundle: nat)
    requires Grouped(domains, ds, cuts) && WithinBundle2(ds, cuts, bundle) && Disjoint(ds) && j + 1 < |ds|
    requires |ds[j].cpus| + |ds[j + 1].cpus| <= bundle
    ensures var es, cs := ds[..j] + [ds[j].(cpus := ds[j].cpus + ds[j + 1].cpus)] + ds[j + 2..],
        cuts[..j + 1] + cuts[j + 2..];
            Grouped(domains, es, cs) && WithinBundle2(es, cs, bundle) && Disjoint(es)
  {
    MergedGroups(domains, ds, cuts, j);
    MergedSizes(ds, cuts, j, bundle);
    MergedDisjoint(ds, j);
  }

  function Merged(ds: seq<L3Domain>, j: nat): seq<L3Domain>
    requires j + 1 < |ds|
  {
    ds[..j] + [ds[j].(cpus := ds[j].cpus + ds[j + 1].cpus)] + ds[j + 2..]
  }

  lemma MergedGroups(domains: seq<L3Domain>, ds: seq<L3Domain>, cuts: seq<nat>, j: nat)
    requires Grouped(domains, ds, cuts) && j + 1 < |ds|
    ensures Grouped(domains, Merged(ds, j), cuts[..j + 1] + cuts[j + 2..])
  {
    var es, cs := Merged(ds, j), cuts[..j + 1] + cuts[j + 2..];
    assert GroupAt(domains, ds, cuts, j) && GroupAt(domains, ds, cuts, j + 1);
    UnionJoin(domains, cuts[j], cuts[j + 1], cuts[j + 2]);
    forall k | 0 <= k < |es|
      ensures GroupAt(domains, es, cs, k)
    {
      assert GroupAt(domains, ds, cuts, if k <= j then k else k + 1);
    }
  }

  lemma MergedSizes(ds: seq<L3Domain>, cuts: seq<nat>, j: nat, bundle: nat)
    requires WithinBundle2(ds, cuts, bundle) && j + 1 < |ds| && |ds[j].cpus| + |ds[j + 1].cpus| <= bundle
    ensures WithinBundle2(Merged(ds, j), cuts[..j + 1] + cuts[j + 2..], bundle)
  {
    var es, cs := Merged(ds, j), cuts[..j + 1] + cuts[j + 2..];
    UnionSize(ds[j].cpus, ds[j + 1].cpus);
    forall k | 0 <= k < |es| && cs[k + 1] > cs[k] + 1
      ensures |es[k].cpus| <= bundle
    {
      if k < j { assert cuts[k + 1] > cuts[k] + 1; } else if k > j { assert cuts[k + 2] > cuts[k + 1] + 1; }
    }
  }

  lemma UnionSize(a: set<Cpu>, b: set<Cpu>)
    ensures |a + b| <= |a| + |b|
  {
    assert a + b == a + (b - a);
    assert b == (b - a) + (b * a);
  }

  lemma MergedDisjoint(ds: seq<L3Domain>, j: nat)
    requires Disjoint(ds) && j + 1 < |ds|
    ensures Disjoint(Merged(ds, j))
  {
    var es := Merged(ds, j);
    forall a, b | 0 <= a < b < |es|
      ensures es[a].cpus !! es[b].cpus
    {
      var a', b' := if a <= j then a else a + 1, if b <= j then b else b + 1;
      assert ds[a'].cpus !! ds[b'].cpus;
      if a == j { assert ds[j + 1].cpus !! ds[b'].cpus; }
      if b == j { assert ds[a'].cpus !! ds[j + 1].cpus; }
    }
  }

  /** All processors of the domains. */
  function AllCpus(ds: seq<L3Domain>): set<Cpu> { Union(ds, 0, |ds|) }

  lemma {:induction false} UnionHas(ds: seq<L3Domain>, lo: nat, hi: nat, c: Cpu)
    requires lo <= hi <= |ds|
    ensures c in Union(ds, lo, hi) <==> exists k | lo <= k < hi :: c in ds[k].cpus
  {
    if lo < hi { UnionHas(ds, lo, hi - 1, c); }
  }

  /** The groups hold exactly the processors of the domains. */
  lemma {:induction false} GroupsConserve(domains: seq<L3Domain>, ds: seq<L3Domain>, cuts: seq<nat>, k: nat)
    requires Grouped(domains, ds, cuts) && k <= |ds|
    ensures cuts[k] <= |domains| && Union(ds, 0, k) == Union(domains, 0, cuts[k])
  {
    if k > 0 {
      GroupsConserve(domains, ds, cuts, k - 1);
      assert GroupAt(domains, ds, cuts, k - 1);
      UnionJoin(domains, 0, cuts[k - 1], cuts[k]);
    }
  }

  /** Adds the groups as nodes after the existing ones. */
  method AddGroups(cfg: NumaConfig, ds: seq<L3Domain>)
    requires cfg.Valid() && Disjoint(ds) && (forall k | 0 <= k < |ds| :: ds[k].cpus != {})
        && AllCpus(ds) !! cfg.nodeByCpu.Keys
    modifies cfg
    ensures cfg.Valid() && |cfg.nodes| == old(|cfg.nodes|) + |ds| && cfg.nodes[..old(|cfg.nodes|)] == old(cfg.nodes)
    ensures forall k | 0 <= k < |ds| :: cfg.nodes[old(|cfg.nodes|) + k] == ds[k].cpus
    ensures cfg.nodeByCpu.Keys == old(cfg.nodeByCpu.Keys) + AllCpus(ds)
  {
    ghost var before := cfg.nodes;
    for k := 0 to |ds|
      invariant cfg.Valid() && |cfg.nodes| == |before| + k && cfg.nodes[..|before|] == before
      invariant forall i | 0 <= i < k :: cfg.nodes[|before| + i] == ds[i].cpus
      invariant cfg.nodeByCpu.Keys == old(cfg.nodeByCpu.Keys) + Union(ds, 0, k)
    {
      hide NumaConfig.Valid;
      FreshGroup(ds, k, old(cfg.nodeByCpu.Keys));
      AddGroup(cfg, |cfg.nodes|, ds[k].cpus);
    }
  }

  lemma FreshGroup(ds: seq<L3Domain>, k: nat, taken: set<Cpu>)
    requires k < |ds| && Disjoint(ds) && AllCpus(ds) !! taken
    ensures ds[k].cpus !! taken + Union(ds, 0, k)
  {
    forall c | c in ds[k].cpus
      ensures c !in taken + Union(ds, 0, k)
    {
      UnionHas(ds, 0, |ds|, c);
      UnionHas(ds, 0, k, c);
      assert c in AllCpus(ds);
    }
  }

  /** Adds one group as the next node, processor by processor. */
  method AddGroup(cfg: NumaConfig, n: nat, cpus: set<Cpu>)
    requires cfg.Valid() && n == |cfg.nodes| && cpus != {} && cpus !! cfg.nodeByCpu.Keys
    modifies cfg
    ensures cfg.Valid() && cfg.nodes == old(cfg.nodes) + [cpus] && cfg.nodeByCpu.Keys == old(cfg.nodeByCpu.Keys) + cpus
  {
    hide Placed;
    ghost var before := cfg.nodes;
    var left := cpus;
    while left != {}
      invariant left <= cpus && cfg.Valid() && cfg.nodeByCpu.Keys == old(cfg.nodeByCpu.Keys) + (cpus - left)
      invariant cfg.nodes == if left == cpus then before else before + [cpus - left]
    {
      var cpu :| cpu in left;
      ghost var was := cfg.nodes;
      var ok := cfg.AddCpuToNode(n, cpu);
      assert ok;
      NextNode(before, was, cfg.nodes, cpu);
      if left == cpus {
        assert cpus - (left - {cpu}) == {cpu};
      } else {
        assert was[|before|] == cpus - left && was[..|before|] == before;
      }
      assert cpus - (left - {cpu}) == (cpus - left) + {cpu};
      left := left - {cpu};
      assert cfg.nodes == before + [cpus - left];
    }
    assert cpus - left == cpus;
  }

  /** The new node is made by its first processor and filled by the others. */
  lemma NextNode(before: seq<set<Cpu>>, was: seq<set<Cpu>>, now: seq<set<Cpu>>, cpu: Cpu)
    requires now == Extended(was, |before|)[|before| := Extended(was, |before|)[|before|] + {cpu}]
    ensures was == before ==> now == before + [{cpu}]
    ensures |was| == |before| + 1 && was[..|before|] == before ==> now == before + [was[|before|] + {cpu}]
  {
    if was == before {
      var one: seq<set<Cpu>> := seq(1, _ => {});
      assert one == [{}];
      assert Extended(was, |before|) == before + one;
      var none: set<Cpu> := {};
      assert none + {cpu} == {cpu};
      assert now == before + [none + {cpu}];
    }
    assert |was| == |before| + 1 && was[..|before|] == before ==> was == before + [was[|before|]];
  }

  /** The domains of one system node, in order. */
  function OfSystem(domains: seq<L3Domain>, n: nat): seq<L3Domain> {
    if domains == [] then [] else
      OfSystem(domains[..|domains| - 1], n) + (if domains[|domains| - 1].systemNumaIndex == n
          then [domains[|domains| - 1]] else [])
  }

  lemma Apart(domains: seq<L3Domain>)
    requires domains != [] && Disjoint(domains)
    ensures Disjoint(domains[..|domains| - 1])
    ensures forall d | d in domains[..|domains| - 1] :: d.cpus !! domains[|domains| - 1].cpus
  {}

  lemma LastApart(l: seq<L3Domain>, last: L3Domain)
    requires Disjoint(l) && forall d | d in l :: d.cpus !! last.cpus
    ensures Disjoint(l + [last])
  {}

  lemma {:induction false} OfSystemHas(domains: seq<L3Domain>, n: nat)
    ensures forall d :: d in OfSystem(domains, n) <==> d in domains && d.systemNumaIndex == n
    ensures Disjoint(domains) ==> Disjoint(OfSystem(domains, n))
  {
    if domains != [] {
      hide Disjoint;
      var m := |domains| - 1;
      OfSystemHas(domains[..m], n);
      assert forall d :: d in domains <==> d in domains[..m] || d == domains[m];
      if Disjoint(domains) {
        Apart(domains);
        LastApart(OfSystem(domains[..m], n), domains[m]);
      }
    }
  }

  /** The std::map of domain lists, filled in the order of the domains. */
  method GroupBySystem(domains: seq<L3Domain>) returns (list: map<nat, seq<L3Domain>>)
    ensures forall n :: n in list <==> OfSystem(domains, n) != []
    ensures forall n | n in list :: list[n] == OfSystem(domains, n)
  {
    list := map[];
    for i := 0 to |domains|
      invariant forall n :: n in list <==> OfSystem(domains[..i], n) != []
      invariant forall n | n in list :: list[n] == OfSystem(domains[..i], n)
    {
      var d := domains[i];
      assert domains[..i + 1][..i] == domains[..i];
      list := list[d.systemNumaIndex := (if d.systemNumaIndex in list then list[d.systemNumaIndex] else []) + [d]];
    }
    assert domains[..|domains|] == domains;
  }

  predicate IsLeast(s: set<nat>, n: nat) { n in s && forall k | k in s :: n <= k }

  function Smallest(s: set<nat>): (n: nat)
    requires s != {}
    ensures IsLeast(s, n)
  {
    SmallestExists(s);
    var n: nat :| n in s && IsLeast(s, n);
    n
  }

  lemma SmallestExists(s: set<nat>)
    requires s != {}
    ensures exists n :: IsLeast(s, n)
  {
    var x :| x in s;
    if s == {x} {
      assert IsLeast(s, x);
    } else {
      var rest := s - {x};
      assert rest != {};
      SmallestExists(rest);
      var m :| IsLeast(rest, m);
      var n := if x <= m then x else m;
      forall k | k in s ensures n <= k { if k != x { assert k in rest; } }
      assert IsLeast(s, n);
    }
  }

  /** The processors of the systems treated so far. */
  ghost predicate Assigned(domains: seq<L3Domain>, left: set<nat>, cpus: set<Cpu>) {
    forall c :: c in cpus <==> exists d :: d in domains && d.systemNumaIndex !in left && c in d.cpus
  }

  /** One system node: its domains are bundled and become nodes. */
  method AddSystem(ghost domains: seq<L3Domain>, n: nat, own: seq<L3Domain>, ghost left: set<nat>, cfg: NumaConfig,
      bundleSize: nat)
      returns (ghost groups: seq<L3Domain>, ghost cuts: seq<nat>)
    requires Disjoint(domains) && (forall i | 0 <= i < |domains| :: domains[i].cpus != {})
        && own == OfSystem(domains, n)
    requires cfg.Valid() && n in left && Assigned(domains, left, cfg.nodeByCpu.Keys)
    modifies cfg
    ensures cfg.Valid() && Assigned(domains, left - {n}, cfg.nodeByCpu.Keys)
        && GoodGroups(domains, n, groups, cuts, bundleSize)
    ensures |cfg.nodes| == |old(cfg.nodes)| + |groups| && cfg.nodes[..|old(cfg.nodes)|] == old(cfg.nodes)
    ensures forall k | 0 <= k < |groups| :: cfg.nodes[|old(cfg.nodes)| + k] == groups[k].cpus
  {
    OwnDomains(domains, n);
    hide NumaConfig.Valid, Grouped, WithinBundle2, NoneFits, Disjoint, Assigned, AllCpus, GoodGroups, WithinBundle;
    var ds;
    ds, cuts := Bundle(own, bundleSize);
    groups := ds;
    BundleFull(own, ds, cuts);
    GroupsIntro(domains, n, ds, cuts, bundleSize);
    NewCpus(domains, left, n, ds, cfg.nodeByCpu.Keys);
    AddGroups(cfg, ds);
  }

  lemma OwnDomains(domains: seq<L3Domain>, n: nat)
    requires Disjoint(domains) && forall i | 0 <= i < |domains| :: domains[i].cpus != {}
    ensures var own := OfSystem(domains, n);
            Disjoint(own) && forall i | 0 <= i < |own| :: own[i].cpus != {}
  {
    OfSystemHas(domains, n);
    var own := OfSystem(domains, n);
    forall i | 0 <= i < |own| ensures own[i].cpus != {} { assert own[i] in domains; }
  }

  type Groups = map<nat, (seq<L3Domain>, seq<nat>)>

  function CpusOf(ds: seq<L3Domain>): (r: seq<set<Cpu>>)
    ensures |r| == |ds| && forall k | 0 <= k < |ds| :: r[k] == ds[k].cpus
  {
    seq(|ds|, k requires 0 <= k < |ds| => ds[k].cpus)
  }

  /** The groups of the system nodes, one system node after the other. */
  function Laid(order: seq<nat>, groups: Groups): seq<set<Cpu>> {
    if order == [] then [] else
      var n := order[|order| - 1];
      Laid(order[..|order| - 1], groups) + (if n in groups then CpusOf(groups[n].0) else [])
  }

  lemma {:induction false} LaidBefore(order: seq<nat>, groups: Groups, n: nat, g: (seq<L3Domain>, seq<nat>))
    requires n !in order
    ensures Laid(order, groups[n := g]) == Laid(order, groups)
  {
    if order != [] { LaidBefore(order[..|order| - 1], groups, n, g); }
  }

  predicate Ascending(order: seq<nat>) { forall i, j | 0 <= i < j < |order| :: order[i] < order[j] }

  /** The system nodes treated so far: in ascending order, all before those that are left. */
  ghost predicate Treated(order: seq<nat>, groups: Groups, left: set<nat>) {
    && Ascending(order) && (forall n :: n in order <==> n in groups) && forall n, x | n in order && x in left :: n < x
  }

  /** The groups of one more system node are laid behind the others. */
  lemma LaidNext(order: seq<nat>, groups: Groups, left: set<nat>, n: nat, ds: seq<L3Domain>, cuts: seq<nat>,
                 before: seq<set<Cpu>>, after: seq<set<Cpu>>)
    requires Treated(order, groups, left) && IsLeast(left, n) && before == Laid(order, groups)
    requires |after| == |before| + |ds| && after[..|before|] == before
    requires forall k | 0 <= k < |ds| :: after[|before| + k] == ds[k].cpus
    ensures Treated(order + [n], groups[n := (ds, cuts)], left - {n})
    ensures after == Laid(order + [n], groups[n := (ds, cuts)])
  {
    TreatedNext(order, groups, left, n, (ds, cuts));
    hide Treated, IsLeast;
    assert n !in order by { TreatedBefore(order, groups, left, n); }
    LaidBefore(order, groups, n, (ds, cuts));
    assert (order + [n])[..|order|] == order;
    assert after == before + CpusOf(ds);
  }

  lemma TreatedBefore(order: seq<nat>, groups: Groups, left: set<nat>, n: nat)
    requires Treated(order, groups, left) && n in left
    ensures n !in order && forall i | 0 <= i < |order| :: order[i] < n
  {
    forall i | 0 <= i < |order| ensures order[i] < n { assert order[i] in order; }
  }

  lemma TreatedNext(order: seq<nat>, groups: Groups, left: set<nat>, n: nat, g: (seq<L3Domain>, seq<nat>))
    requires Treated(order, groups, left) && IsLeast(left, n)
    ensures Treated(order + [n], groups[n := g], left - {n})
  {
    TreatedBefore(order, groups, left, n);
  }

  /**
   * `from_l3_info`: every processor lands in one node; the groups of each system node are what bundling
   * its domains gives, and they are all the nodes there are, system node by system node.
   */
  method FromL3Info(domains: seq<L3Domain>, bundleSize: nat)
      returns (cfg: NumaConfig, ghost groups: Groups, ghost order: seq<nat>)
    requires domains != [] && Disjoint(domains) && forall i | 0 <= i < |domains| :: domains[i].cpus != {}
    ensures fresh(cfg) && cfg.Valid() && cfg.nodeByCpu.Keys == AllCpus(domains)
    ensures forall n | n in groups :: GoodGroups(domains, n, groups[n].0, groups[n].1, bundleSize)
    ensures forall d | d in domains :: d.systemNumaIndex in groups
    ensures Ascending(order) && (forall n :: n in order <==> n in groups) && cfg.nodes == Laid(order, groups)
  {
    hide NumaConfig.Valid, GoodGroups, Disjoint, Assigned, AllCpus, Treated, Laid, IsLeast, OfSystem, Ascending;
    var list := GroupBySystem(domains);
    cfg := new NumaConfig();
    groups, order := map[], [];
    var left := list.Keys;
    StartAssigned(domains, list);
    assert cfg.nodeByCpu.Keys == {};
    StartTreated(left);
    while left != {}
      invariant left <= list.Keys && cfg.Valid() && Assigned(domains, left, cfg.nodeByCpu.Keys) && fresh(cfg)
      invariant groups.Keys == list.Keys - left
      invariant forall n | n in groups :: GoodGroups(domains, n, groups[n].0, groups[n].1, bundleSize)
      invariant Treated(order, groups, left) && cfg.nodes == Laid(order, groups)
    {
      var n := Smallest(left);
      SmallestIn(left, n);
      ghost var before := cfg.nodes;
      ghost var ds, cuts := AddSystem(domains, n, list[n], left, cfg, bundleSize);
      LaidNext(order, groups, left, n, ds, cuts, before, cfg.nodes);
      groups, order := groups[n := (ds, cuts)], order + [n];
      left := left - {n};
    }
    AllAssigned(domains, list, cfg.nodeByCpu.Keys);
    EverySystem(domains, list);
    AllTreated(order, groups);
  }

  lemma StartTreated(left: set<nat>)
    ensures Treated([], map[], left) && Laid([], map[]) == []
  {}

  lemma AllTreated(order: seq<nat>, groups: Groups)
    requires Treated(order, groups, {})
    ensures Ascending(order) && forall n :: n in order <==> n in groups
  {}

  lemma EverySystem(domains: seq<L3Domain>, list: map<nat, seq<L3Domain>>)
    requires forall n :: n in list <==> OfSystem(domains, n) != []
    ensures forall d | d in domains :: d.systemNumaIndex in list
  {
    forall d | d in domains
      ensures d.systemNumaIndex in list
    {
      OfSystemHas(domains, d.systemNumaIndex);
      assert d in OfSystem(domains, d.systemNumaIndex);
    }
  }

  lemma SmallestIn(left: set<nat>, n: nat)
    requires IsLeast(left, n)
    ensures n in left
  {}

  ghost predicate GoodGroups(domains: seq<L3Domain>, n: nat, ds: seq<L3Domain>, cuts: seq<nat>, bundle: nat) {
    Grouped(OfSystem(domains, n), ds, cuts) && WithinBundle2(ds, cuts, bundle) && NoneFits(ds, bundle)
  }

  lemma GroupsIntro(domains: seq<L3Domain>, n: nat, ds: seq<L3Domain>, cuts: seq<nat>, bundle: nat)
    requires Grouped(OfSystem(domains, n), ds, cuts) && |cuts| == |ds| + 1 && WithinBundle(ds, cuts, bundle)
        && NoneFits(ds, bundle)
    ensures GoodGroups(domains, n, ds, cuts, bundle)
  {}

  lemma StartAssigned(domains: seq<L3Domain>, list: map<nat, seq<L3Domain>>)
    requires forall n :: n in list <==> OfSystem(domains, n) != []
    ensures Assigned(domains, list.Keys, {})
  {
    forall d | d in domains
      ensures d.systemNumaIndex in list.Keys
    {
      OfSystemHas(domains, d.systemNumaIndex);
      assert d in OfSystem(domains, d.systemNumaIndex);
    }
  }

  /** Bundling keeps the processors and leaves no group empty. */
  lemma BundleFull(domains: seq<L3Domain>, ds: seq<L3Domain>, cuts: seq<nat>)
    requires Grouped(domains, ds, cuts) && forall i | 0 <= i < |domains| :: domains[i].cpus != {}
    ensures |cuts| == |ds| + 1 && AllCpus(ds) == AllCpus(domains) && forall k | 0 <= k < |ds| :: ds[k].cpus != {}
  {
    GroupsConserve(domains, ds, cuts, |ds|);
    forall k | 0 <= k < |ds|
      ensures ds[k].cpus != {}
    {
      assert GroupAt(domains, ds, cuts, k);
      var c :| c in domains[cuts[k]].cpus;
      UnionHas(domains, cuts[k], cuts[k + 1], c);
    }
  }

  /** The processors of one more system are new, and then assigned. */
  lemma NewCpus(domains: seq<L3Domain>, left: set<nat>, n: nat, ds: seq<L3Domain>, cpus: set<Cpu>)
    requires Disjoint(domains) && n in left && Assigned(domains, left, cpus)
        && AllCpus(ds) == AllCpus(OfSystem(domains, n))
    ensures AllCpus(ds) !! cpus && Assigned(domains, left - {n}, cpus + AllCpus(ds))
  {
    OfSystemHas(domains, n);
    var l := OfSystem(domains, n);
    forall c
      ensures c in AllCpus(ds) <==> exists d :: d in domains && d.systemNumaIndex == n && c in d.cpus
    {
      UnionHas(l, 0, |l|, c);
      if d :| d in domains && d.systemNumaIndex == n && c in d.cpus {
        assert d in l;
        var k :| 0 <= k < |l| && l[k] == d;
      }
    }
    forall c | c in AllCpus(ds)
      ensures c !in cpus
    {
      SameOwner(domains, c);
      var d :| d in domains && d.systemNumaIndex == n && c in d.cpus;
    }
  }

  /** A processor belongs to one domain. */
  lemma SameOwner(domains: seq<L3Domain>, c: Cpu)
    requires Disjoint(domains)
    ensures forall d, e | d in domains && e in domains && c in d.cpus && c in e.cpus :: d == e
  {}

  lemma AllAssigned(domains: seq<L3Domain>, list: map<nat, seq<L3Domain>>, cpus: set<Cpu>)
    requires Assigned(domains, {}, cpus)
    ensures cpus == AllCpus(domains)
  {
    forall c
      ensures c in cpus <==> c in AllCpus(domains)
    {
      UnionHas(domains, 0, |domains|, c);
      if c in cpus {
        var d :| d in domains && d.systemNumaIndex !in {} && c in d.cpus;
        var k :| 0 <= k < |domains| && domains[k] == d;
      }
    }
  }
}
