/**
 * The Monte-Carlo tree: selection, expansion, rollout and backup, with the position moved in
 * place and taken back. A node is named by its place in one growing list.
 */
module Mcts {
  import opened Options

  type Move = nat

  /** What the tree needs of the game; going back undoes going forward. */
  datatype Game<!P> = Game(
    moves: P -> seq<Move>, after: (P, Move) -> P, back: (P, Move) -> P,
    check: P -> bool, drawn: P -> bool, material: P -> real, mated: real)

  ghost predicate Lawful<P(!new)>(g: Game<P>) {
    forall p, m :: m in g.moves(p) ==> g.back(g.after(p, m), m) == p
  }

  datatype Node = Node(
    move: Move, terminal: bool, terminalValue: real, unexpanded: seq<Move>, children: seq<nat>, totalValue: real,
        visits: nat)

  /** What is known of a node besides its fields: its parent, its position and its own first evaluation. */
  datatype Spot<P> = Spot(parent: nat, place: P, first: Option<real>)

  /** `terminal_evaluation`, as a real. */
  function Terminal<P>(g: Game<P>, p: P): real { if g.check(p) then g.mated else 0.0 }

  // ----- The shape of the tree -----

  function MoveAt(nodes: seq<Node>, c: nat): Move { if c < |nodes| then nodes[c].move else 0 }

  function ChildMoves(nodes: seq<Node>, cs: seq<nat>): (r: seq<Move>)
    ensures |r| == |cs| && forall k | 0 <= k < |cs| :: r[k] == MoveAt(nodes, cs[k])
  {
    if cs == [] then [] else [MoveAt(nodes, cs[0])] + ChildMoves(nodes, cs[1..])
  }

  predicate Distinct(cs: seq<nat>) { forall i, j | 0 <= i < j < |cs| :: cs[i] != cs[j] }

  /** c is a child of node i, one move further. */
  predicate ChildOf<P(==)>(g: Game<P>, nodes: seq<Node>, spots: seq<Spot<P>>, i: nat, c: nat)
    requires i < |nodes| == |spots|
  {
    i < c < |nodes| && spots[c].parent == i && spots[c].place == g.after(spots[i].place, nodes[c].move)
  }

  predicate ChildrenOk<P(==)>(g: Game<P>, nodes: seq<Node>, spots: seq<Spot<P>>, i: nat)
    requires i < |nodes| == |spots|
  {
    Distinct(nodes[i].children) && forall c | c in nodes[i].children :: ChildOf(g, nodes, spots, i, c)
  }

  /** The moves of the children and the moves still unexpanded are the legal moves, each once. */
  predicate MovesSplit<P>(g: Game<P>, nodes: seq<Node>, spots: seq<Spot<P>>, i: nat)
    requires i < |nodes| == |spots|
  {
    multiset(ChildMoves(nodes, nodes[i].children)) + multiset(nodes[i].unexpanded) == multiset(g.moves(spots[i].place))
  }

  /** A node is terminal exactly when it has no legal move. */
  predicate TerminalOk<P>(g: Game<P>, n: Node, p: P) {
    && (n.terminal <==> g.moves(p) == []) && (n.terminal ==> n.terminalValue == Terminal(g, p))
  }

  predicate ShapeAt<P(==)>(g: Game<P>, nodes: seq<Node>, spots: seq<Spot<P>>, i: nat)
    requires i < |nodes| == |spots|
  {
    && ChildrenOk(g, nodes, spots, i) && MovesSplit(g, nodes, spots, i) && TerminalOk(g, nodes[i], spots[i].place)
    && (i > 0 ==> spots[i].parent < i && i in nodes[spots[i].parent].children)
  }

  predicate Shape<P(==)>(g: Game<P>, nodes: seq<Node>, spots: seq<Spot<P>>) {
    |nodes| == |spots| > 0 && forall i | 0 <= i < |nodes| :: ShapeAt(g, nodes, spots, i)
  }

  // ----- The accounts -----

  function SumVisits(nodes: seq<Node>, cs: seq<nat>): nat {
    if cs == [] then 0 else (if cs[0] < |nodes| then nodes[cs[0]].visits else 0) + SumVisits(nodes, cs[1..])
  }

  function SumValues(nodes: seq<Node>, cs: seq<nat>): real {
    if cs == [] then 0.0 else (if cs[0] < |nodes| then nodes[cs[0]].totalValue else 0.0) + SumValues(nodes, cs[1..])
  }

  function Once(first: Option<real>): nat { if first.Some? then 1 else 0 }

  function Own(first: Option<real>): real { if first.Some? then first.value else 0.0 }

  /**
   * Node i owes dv visits and the value de: with them, a terminal node has its value once a visit, and any other
   * has its own first evaluation, less what its children have.
   */
  predicate Owes<P>(nodes: seq<Node>, spots: seq<Spot<P>>, i: nat, dv: nat, de: real)
    requires i < |nodes| == |spots|
  {
    var n := nodes[i];
    if n.terminal then
      n.totalValue + de == (n.visits + dv) as real * n.terminalValue && spots[i].first == None
    else
      && n.visits + dv == Once(spots[i].first) + SumVisits(nodes, n.children)
      && n.totalValue + de == Own(spots[i].first) - SumValues(nodes, n.children)
  }

  /** Only node x owes: a visit and the value de. */
  predicate OnlyOwes<P>(nodes: seq<Node>, spots: seq<Spot<P>>, x: nat, de: real)
    requires x < |nodes| == |spots|
  {
    Owes(nodes, spots, x, 1, de) && forall i | 0 <= i < |nodes| && i != x :: Owes(nodes, spots, i, 0, 0.0)
  }

  predicate Settled<P>(nodes: seq<Node>, spots: seq<Spot<P>>)
    requires |nodes| == |spots|
  {
    forall i | 0 <= i < |nodes| :: Owes(nodes, spots, i, 0, 0.0)
  }

  // ----- Backing up -----

  function Bump(n: Node, e: real): Node { n.(visits := n.visits + 1, totalValue := n.totalValue + e) }

  predicate InTree(path: seq<nat>, size: nat) { forall k | 0 <= k < |path| :: path[k] < size }

  /** The backup along a path, from its end. */
  function Backed(nodes: seq<Node>, path: seq<nat>, e: real): (r: seq<Node>)
    requires InTree(path, |nodes|)
    ensures |r| == |nodes|
    ensures forall i | 0 <= i < |nodes| :: r[i] == nodes[i].(visits := r[i].visits, totalValue := r[i].totalValue)
    decreases |path|
  {
    if path == [] then nodes else
    var x := path[|path| - 1];
    Backed(nodes[x := Bump(nodes[x], e)], path[..|path| - 1], -e)
  }

  lemma BackedStep(nodes: seq<Node>, path: seq<nat>, e: real)
    requires InTree(path, |nodes|) && path != []
    ensures var x := path[|path| - 1];
        Backed(nodes, path, e) == Backed(nodes[x := Bump(nodes[x], e)], path[..|path| - 1], -e)
  {}

  lemma BackedNothing(nodes: seq<Node>, path: seq<nat>, e: real)
    requires path == []
    ensures Backed(nodes, path, e) == nodes
  {}

  lemma {:induction false} SumsElsewhere(nodes: seq<Node>, cs: seq<nat>, x: nat, e: real)
    requires x < |nodes| && x !in cs
    ensures SumVisits(nodes[x := Bump(nodes[x], e)], cs) == SumVisits(nodes, cs)
    ensures SumValues(nodes[x := Bump(nodes[x], e)], cs) == SumValues(nodes, cs)
  {
    if cs != [] { SumsElsewhere(nodes, cs[1..], x, e); }
  }

  lemma {:induction false} SumsHere(nodes: seq<Node>, cs: seq<nat>, x: nat, e: real)
    requires x < |nodes| && x in cs && Distinct(cs)
    ensures SumVisits(nodes[x := Bump(nodes[x], e)], cs) == SumVisits(nodes, cs) + 1
    ensures SumValues(nodes[x := Bump(nodes[x], e)], cs) == SumValues(nodes, cs) + e
  {
    assert cs == [cs[0]] + cs[1..];
    if cs[0] == x {
      assert x !in cs[1..];
      SumsElsewhere(nodes, cs[1..], x, e);
    } else {
      assert x in cs[1..];
      SumsHere(nodes, cs[1..], x, e);
    }
  }

  /** A node whose children are the same as before stays in the state it was in. */
  lemma OthersKeep<P>(nodes: seq<Node>, spots: seq<Spot<P>>, i: nat, x: nat, e: real)
    requires i < |nodes| == |spots| && x < |nodes| && i != x && x !in nodes[i].children && Owes(nodes, spots, i, 0, 0.0)
    ensures Owes(nodes[x := Bump(nodes[x], e)], spots, i, 0, 0.0)
  {
    SumsElsewhere(nodes, nodes[i].children, x, e);
  }

  /** The node that owed is paid. */
  lemma Paid<P>(nodes: seq<Node>, spots: seq<Spot<P>>, x: nat, e: real)
    requires x < |nodes| == |spots| && x !in nodes[x].children && Owes(nodes, spots, x, 1, e)
    ensures Owes(nodes[x := Bump(nodes[x], e)], spots, x, 0, 0.0)
  {
    SumsElsewhere(nodes, nodes[x].children, x, e);
  }

  /** Its parent now owes the opposite value. */
  lemma ParentOwes<P>(nodes: seq<Node>, spots: seq<Spot<P>>, y: nat, x: nat, e: real)
    requires y < x < |nodes| == |spots| && x in nodes[y].children && Distinct(nodes[y].children) && !nodes[y].terminal
    requires Owes(nodes, spots, y, 0, 0.0)
    ensures Owes(nodes[x := Bump(nodes[x], e)], spots, y, 1, -e)
  {
    SumsHere(nodes, nodes[y].children, x, e);
  }

  /** Shape does not look at visits and values. */
  lemma BumpShape<P>(g: Game<P>, nodes: seq<Node>, spots: seq<Spot<P>>, x: nat, e: real)
    requires Shape(g, nodes, spots) && x < |nodes|
    ensures Shape(g, nodes[x := Bump(nodes[x], e)], spots)
  {
    var after := nodes[x := Bump(nodes[x], e)];
    forall i | 0 <= i < |after| ensures ShapeAt(g, after, spots, i) {
      assert ShapeAt(g, nodes, spots, i);
      SameShapeAt(g, nodes, after, spots, i);
    }
  }

  lemma SameShapeAt<P>(g: Game<P>, nodes: seq<Node>, after: seq<Node>, spots: seq<Spot<P>>, i: nat)
    requires i < |nodes| == |spots| == |after| && ShapeAt(g, nodes, spots, i)
    requires forall j | 0 <= j < |nodes| ::
        after[j] == nodes[j].(visits := after[j].visits, totalValue := after[j].totalValue)
    ensures ShapeAt(g, after, spots, i)
  {
    hide Distinct, TerminalOk;
    assert after[i] == nodes[i].(visits := after[i].visits, totalValue := after[i].totalValue);
    forall c | c in after[i].children ensures ChildOf(g, after, spots, i, c) {
      assert ChildOf(g, nodes, spots, i, c);
    }
    assert ChildMoves(after, after[i].children) == ChildMoves(nodes, nodes[i].children);
    SameTerminal(g, nodes[i], after[i], spots[i].place);
  }

  lemma SameTerminal<P>(g: Game<P>, n: Node, m: Node, p: P)
    requires TerminalOk(g, n, p) && m.terminal == n.terminal && m.terminalValue == n.terminalValue
    ensures TerminalOk(g, m, p)
  {}

  /** A path from the root, each node a child of the one before. */
  predicate Path<P>(nodes: seq<Node>, spots: seq<Spot<P>>, path: seq<nat>)
    requires |nodes| == |spots|
  {
    && path != [] && path[0] == 0 && InTree(path, |nodes|)
    && forall k | 1 <= k < |path| :: path[k - 1] < path[k] && path[k] in nodes[path[k - 1]].children
  }

  /** Paying the last node of a path leaves the one before it owing the opposite. */
  lemma Step<P>(g: Game<P>, nodes: seq<Node>, spots: seq<Spot<P>>, y: nat, x: nat, e: real)
    requires Shape(g, nodes, spots) && y < x < |nodes| && x in nodes[y].children && OnlyOwes(nodes, spots, x, e)
    ensures OnlyOwes(nodes[x := Bump(nodes[x], e)], spots, y, -e)
  {
    var after := nodes[x := Bump(nodes[x], e)];
    hide Owes;
    assert ShapeAt(g, nodes, spots, y);
    NotChildless(g, nodes, spots, y, x);
    ParentOwes(nodes, spots, y, x, e);
    forall i | 0 <= i < |nodes| && i != y ensures Owes(after, spots, i, 0, 0.0) {
      NotChildOf(g, nodes, spots, i, y, x);
      if i == x { Paid(nodes, spots, x, e); } else { OthersKeep(nodes, spots, i, x, e); }
    }
  }

  lemma NotChildless<P>(g: Game<P>, nodes: seq<Node>, spots: seq<Spot<P>>, y: nat, x: nat)
    requires y < |nodes| == |spots| && ShapeAt(g, nodes, spots, y) && x in nodes[y].children
    ensures !nodes[y].terminal && Distinct(nodes[y].children)
  {
    assert |ChildMoves(nodes, nodes[y].children)| > 0;
    assert |multiset(g.moves(spots[y].place))| > 0;
  }

  /** A node is the child of one node only. */
  lemma NotChildOf<P>(g: Game<P>, nodes: seq<Node>, spots: seq<Spot<P>>, i: nat, y: nat, x: nat)
    requires Shape(g, nodes, spots) && y < |nodes| && i < |nodes| && i != y && x in nodes[y].children
    ensures x !in nodes[i].children
  {
    assert ShapeAt(g, nodes, spots, y) && ShapeAt(g, nodes, spots, i);
    assert ChildOf(g, nodes, spots, y, x);
    assert x in nodes[i].children ==> ChildOf(g, nodes, spots, i, x);
  }

  /** The root is nobody's child. */
  lemma RootPaid<P>(g: Game<P>, nodes: seq<Node>, spots: seq<Spot<P>>, e: real)
    requires Shape(g, nodes, spots) && OnlyOwes(nodes, spots, 0, e)
    ensures Settled(nodes[0 := Bump(nodes[0], e)], spots)
  {
    var after := nodes[0 := Bump(nodes[0], e)];
    hide Owes;
    forall i | 0 <= i < |nodes| ensures Owes(after, spots, i, 0, 0.0) {
      assert ShapeAt(g, nodes, spots, i);
      assert 0 in nodes[i].children ==> ChildOf(g, nodes, spots, i, 0);
      if i == 0 { Paid(nodes, spots, 0, e); } else { OthersKeep(nodes, spots, i, 0, e); }
    }
  }

  /** Backing a value up from the one node that owes it settles every account. */
  lemma {:induction false} BackupSettles<P>(g: Game<P>, nodes: seq<Node>, spots: seq<Spot<P>>, path: seq<nat>, e: real)
    requires Shape(g, nodes, spots) && Path(nodes, spots, path) && OnlyOwes(nodes, spots, path[|path| - 1], e)
    ensures Shape(g, Backed(nodes, path, e), spots) && Settled(Backed(nodes, path, e), spots)
    decreases |path|
  {
    var x := path[|path| - 1];
    var after := nodes[x := Bump(nodes[x], e)];
    BumpShape(g, nodes, spots, x, e);
    if |path| == 1 {
      hide ShapeAt, Owes;
      assert path[..0] == [];
      RootPaid(g, nodes, spots, e);
    } else {
      hide Shape, OnlyOwes, Settled;
      Step(g, nodes, spots, path[|path| - 2], x, e);
      PathOn(nodes, after, spots, path);
      BackupSettles(g, after, spots, path[..|path| - 1], -e);
    }
  }

  lemma PathOn<P>(nodes: seq<Node>, after: seq<Node>, spots: seq<Spot<P>>, path: seq<nat>)
    requires |nodes| == |spots| == |after| && Path(nodes, spots, path) && |path| > 1
    requires forall i | 0 <= i < |nodes| :: after[i].children == nodes[i].children
    ensures Path(after, spots, path[..|path| - 1])
  {}

  /** Backing up visits the nodes of the path once and no others. */
  lemma {:induction false} BackupCounts(nodes: seq<Node>, path: seq<nat>, e: real)
    requires InTree(path, |nodes|) && Distinct(path)
    ensures forall i | 0 <= i < |nodes| ::
        Backed(nodes, path, e)[i].visits == nodes[i].visits + (if i in path then 1 else 0)
    decreases |path|
  {
    if path != [] {
      var x := path[|path| - 1];
      assert path == path[..|path| - 1] + [x];
      assert x !in path[..|path| - 1];
      BackupCounts(nodes[x := Bump(nodes[x], e)], path[..|path| - 1], -e);
    }
  }

  // ----- Growing -----

  function NewNode<P>(g: Game<P>, p: P, m: Move, unexpanded: seq<Move>): Node {
    Node(m, unexpanded == [], if unexpanded == [] then Terminal(g, p) else 0.0, unexpanded, [], 0.0, 0)
  }

  /** Node x with its last unexpanded move made a child. */
  function Grown(nodes: seq<Node>, x: nat, child: Node): seq<Node>
    requires x < |nodes| && nodes[x].unexpanded != []
  {
    nodes[x := nodes[x].(unexpanded := nodes[x].unexpanded[..|nodes[x].unexpanded| - 1],
        children := nodes[x].children + [|nodes|])] + [child]
  }

  function NewSpot<P>(g: Game<P>, spots: seq<Spot<P>>, x: nat, m: Move): Spot<P>
    requires x < |spots|
  {
    Spot(x, g.after(spots[x].place, m), None)
  }

  ghost predicate MayGrow<P>(g: Game<P>, nodes: seq<Node>, spots: seq<Spot<P>>, x: nat, child: Node) {
    && Shape(g, nodes, spots) && x < |nodes| && nodes[x].unexpanded != []
    && child.move == nodes[x].unexpanded[|nodes[x].unexpanded| - 1]
    && child == NewNode(g, g.after(spots[x].place, child.move), child.move, child.unexpanded)
    && multiset(child.unexpanded) == multiset(g.moves(g.after(spots[x].place, child.move)))
  }

  lemma {:induction false} MovesAppend(nodes: seq<Node>, cs: seq<nat>, c: nat)
    ensures ChildMoves(nodes, cs + [c]) == ChildMoves(nodes, cs) + [MoveAt(nodes, c)]
  {
    if cs == [] { assert [] + [c] == [c]; } else {
      assert (cs + [c])[1..] == cs[1..] + [c];
      MovesAppend(nodes, cs[1..], c);
    }
  }

  lemma SameMoves(nodes: seq<Node>, after: seq<Node>, cs: seq<nat>)
    requires forall c | c in cs :: MoveAt(after, c) == MoveAt(nodes, c)
    ensures ChildMoves(after, cs) == ChildMoves(nodes, cs)
  {}

  /** An expanded node keeps its shape, with the move moved from one side of the split to the other. */
  lemma GrownHere<P>(g: Game<P>, nodes: seq<Node>, spots: seq<Spot<P>>, x: nat, child: Node)
    requires MayGrow(g, nodes, spots, x, child)
    ensures MovesSplit(g, Grown(nodes, x, child), spots + [NewSpot(g, spots, x, child.move)], x)
  {
    var after := Grown(nodes, x, child);
    var u := nodes[x].unexpanded;
    assert ShapeAt(g, nodes, spots, x);
    forall c | c in nodes[x].children ensures MoveAt(after, c) == MoveAt(nodes, c) {
      assert ChildOf(g, nodes, spots, x, c);
    }
    SameMoves(nodes, after, nodes[x].children);
    MovesAppend(after, nodes[x].children, |nodes|);
    assert u == u[..|u| - 1] + [child.move];
  }

  /** Every other node keeps its shape. */
  lemma GrownThere<P>(g: Game<P>, nodes: seq<Node>, spots: seq<Spot<P>>, x: nat, child: Node, i: nat)
    requires MayGrow(g, nodes, spots, x, child) && i < |nodes| && i != x
    ensures MovesSplit(g, Grown(nodes, x, child), spots + [NewSpot(g, spots, x, child.move)], i)
  {
    var after := Grown(nodes, x, child);
    assert ShapeAt(g, nodes, spots, i);
    forall c | c in nodes[i].children ensures MoveAt(after, c) == MoveAt(nodes, c) {
      assert ChildOf(g, nodes, spots, i, c);
    }
    SameMoves(nodes, after, nodes[i].children);
  }

  lemma GrownChildren<P>(g: Game<P>, nodes: seq<Node>, spots: seq<Spot<P>>, x: nat, child: Node, i: nat)
    requires MayGrow(g, nodes, spots, x, child) && i < |nodes|
    ensures ChildrenOk(g, Grown(nodes, x, child), spots + [NewSpot(g, spots, x, child.move)], i)
  {
    hide MovesSplit, TerminalOk;
    var after, more := Grown(nodes, x, child), spots + [NewSpot(g, spots, x, child.move)];
    assert ShapeAt(g, nodes, spots, i);
    forall c | c in after[i].children ensures ChildOf(g, after, more, i, c) {
      assert c in nodes[i].children ==> ChildOf(g, nodes, spots, i, c);
    }
    forall c | c in nodes[i].children ensures c != |nodes| { assert ChildOf(g, nodes, spots, i, c); }
    DistinctAppend(nodes[i].children, |nodes|);
    hide Distinct, Shape;
  }

  lemma DistinctAppend(cs: seq<nat>, c: nat)
    requires Distinct(cs) && c !in cs
    ensures Distinct(cs + [c])
  {}

  lemma GrownNew<P>(g: Game<P>, nodes: seq<Node>, spots: seq<Spot<P>>, x: nat, child: Node)
    requires MayGrow(g, nodes, spots, x, child)
    ensures ShapeAt(g, Grown(nodes, x, child), spots + [NewSpot(g, spots, x, child.move)], |nodes|)
  {
    var p := g.after(spots[x].place, child.move);
    hide Shape;
    assert |multiset(child.unexpanded)| == |child.unexpanded| && |multiset(g.moves(p))| == |g.moves(p)|;
    assert ChildMoves(Grown(nodes, x, child), []) == [];
  }

  /** Expanding a move keeps the tree in shape. */
  lemma GrowShape<P>(g: Game<P>, nodes: seq<Node>, spots: seq<Spot<P>>, x: nat, child: Node)
    requires MayGrow(g, nodes, spots, x, child)
    ensures Shape(g, Grown(nodes, x, child), spots + [NewSpot(g, spots, x, child.move)])
  {
    var after, more := Grown(nodes, x, child), spots + [NewSpot(g, spots, x, child.move)];
    forall i | 0 <= i < |after| ensures ShapeAt(g, after, more, i) {
      if i == |nodes| { GrownNew(g, nodes, spots, x, child); } else {
        hide MovesSplit, ChildrenOk, TerminalOk;
        assert ShapeAt(g, nodes, spots, i);
        GrownChildren(g, nodes, spots, x, child, i);
        if i == x {
          GrownHere(g, nodes, spots, x, child);
          SameTerminal(g, nodes[x], after[x], spots[x].place);
        } else {
          GrownThere(g, nodes, spots, x, child, i);
        }
      }
    }
  }

  lemma {:induction false} SumsGrown(nodes: seq<Node>, x: nat, child: Node, cs: seq<nat>)
    requires x < |nodes| && nodes[x].unexpanded != [] && child.visits == 0 && child.totalValue == 0.0
    ensures SumVisits(Grown(nodes, x, child), cs) == SumVisits(nodes, cs)
        && SumValues(Grown(nodes, x, child), cs) == SumValues(nodes, cs)
  {
    if cs != [] { SumsGrown(nodes, x, child, cs[1..]); }
  }

  lemma {:induction false} SumsAppend(nodes: seq<Node>, cs: seq<nat>, c: nat)
    requires c < |nodes| && nodes[c].visits == 0 && nodes[c].totalValue == 0.0
    ensures SumVisits(nodes, cs + [c]) == SumVisits(nodes, cs) && SumValues(nodes, cs + [c]) == SumValues(nodes, cs)
  {
    if cs == [] {
      assert [] + [c] == [c] && [c][1..] == [];
    } else {
      assert (cs + [c])[1..] == cs[1..] + [c];
      SumsAppend(nodes, cs[1..], c);
    }
  }

  /** An expanded move leaves every account settled. */
  lemma GrowSettled<P>(g: Game<P>, nodes: seq<Node>, spots: seq<Spot<P>>, x: nat, child: Node)
    requires MayGrow(g, nodes, spots, x, child) && Settled(nodes, spots)
    ensures Settled(Grown(nodes, x, child), spots + [NewSpot(g, spots, x, child.move)])
  {
    hide Owes, ShapeAt;
    var after, more := Grown(nodes, x, child), spots + [NewSpot(g, spots, x, child.move)];
    forall i | 0 <= i < |after| ensures Owes(after, more, i, 0, 0.0) {
      if i < |nodes| { GrowSettledAt(g, nodes, spots, x, child, i); } else { NothingOwed(after, more, i); }
    }
  }

  lemma NothingOwed<P>(nodes: seq<Node>, spots: seq<Spot<P>>, i: nat)
    requires i < |nodes| == |spots| && spots[i].first == None
    requires nodes[i].children == [] && nodes[i].visits == 0 && nodes[i].totalValue == 0.0
    ensures Owes(nodes, spots, i, 0, 0.0)
  {}

  lemma GrowSettledAt<P>(g: Game<P>, nodes: seq<Node>, spots: seq<Spot<P>>, x: nat, child: Node, i: nat)
    requires |nodes| == |spots| && x < |nodes| && nodes[x].unexpanded != [] && i < |nodes|
        && Owes(nodes, spots, i, 0, 0.0)
    requires child.visits == 0 && child.totalValue == 0.0
    ensures Owes(Grown(nodes, x, child), spots + [NewSpot(g, spots, x, child.move)], i, 0, 0.0)
  {
    SumsGrown(nodes, x, child, nodes[i].children);
    SumsAppend(Grown(nodes, x, child), nodes[i].children, |nodes|);
  }

  // ----- Paying for a leaf -----

  /** A terminal leaf owes its value for one more visit. */
  lemma TerminalOwes<P>(nodes: seq<Node>, spots: seq<Spot<P>>, x: nat)
    requires |nodes| == |spots| && Settled(nodes, spots) && x < |nodes| && nodes[x].terminal
    ensures OnlyOwes(nodes, spots, x, nodes[x].terminalValue)
  {
    var n := nodes[x];
    assert Owes(nodes, spots, x, 0, 0.0);
    assert (n.visits + 1) as real * n.terminalValue == n.visits as real * n.terminalValue + n.terminalValue;
  }

  /** A new leaf evaluated for the first time owes that value. */
  lemma NewLeafOwes<P>(nodes: seq<Node>, spots: seq<Spot<P>>, x: nat, e: real)
    requires |nodes| == |spots| && Settled(nodes, spots) && x < |nodes| && !nodes[x].terminal && spots[x].first == None
    ensures OnlyOwes(nodes, spots[x := spots[x].(first := Some(e))], x, e)
  {
    var more := spots[x := spots[x].(first := Some(e))];
    assert Owes(nodes, spots, x, 0, 0.0);
    forall i | 0 <= i < |nodes| && i != x ensures Owes(nodes, more, i, 0, 0.0) { assert Owes(nodes, spots, i, 0, 0.0); }
  }

  /** Shape does not look at first evaluations. */
  lemma FirstShape<P>(g: Game<P>, nodes: seq<Node>, spots: seq<Spot<P>>, x: nat, e: real)
    requires Shape(g, nodes, spots) && x < |nodes|
    ensures Shape(g, nodes, spots[x := spots[x].(first := Some(e))])
  {
    var more := spots[x := spots[x].(first := Some(e))];
    hide MovesSplit, Distinct, TerminalOk;
    forall i | 0 <= i < |nodes| ensures ShapeAt(g, nodes, more, i) {
      assert ShapeAt(g, nodes, spots, i);
      FirstShapeAt(g, nodes, spots, x, e, i);
    }
  }

  lemma FirstShapeAt<P>(g: Game<P>, nodes: seq<Node>, spots: seq<Spot<P>>, x: nat, e: real, i: nat)
    requires i < |nodes| == |spots| && x < |nodes| && ShapeAt(g, nodes, spots, i)
    ensures ShapeAt(g, nodes, spots[x := spots[x].(first := Some(e))], i)
  {
    hide Distinct, TerminalOk, ChildMoves;
    var more := spots[x := spots[x].(first := Some(e))];
    assert more[i].place == spots[i].place;
    forall c | c in nodes[i].children ensures ChildOf(g, nodes, more, i, c) { assert ChildOf(g, nodes, spots, i, c); }
  }

  // ----- Lines of moves -----

  function EndOf<P>(g: Game<P>, p: P, line: seq<Move>): P
    decreases |line|
  {
    if line == [] then p else g.after(EndOf(g, p, line[..|line| - 1]), line[|line| - 1])
  }

  /** A line each move of which is legal where it is made. */
  predicate LegalLine<P>(g: Game<P>, p: P, line: seq<Move>)
    decreases |line|
  {
    line == [] || (LegalLine(g, p, line[..|line| - 1]) && line[|line| - 1] in g.moves(EndOf(g, p, line[..|line| - 1])))
  }

  lemma LineOn<P>(g: Game<P>, p: P, line: seq<Move>, m: Move)
    requires LegalLine(g, p, line) && m in g.moves(EndOf(g, p, line))
    ensures LegalLine(g, p, line + [m]) && EndOf(g, p, line + [m]) == g.after(EndOf(g, p, line), m)
  {
    assert (line + [m])[..|line|] == line;
  }

  /** Taking the last move of a legal line back. */
  lemma LineBack<P(!new)>(g: Game<P>, p: P, line: seq<Move>)
    requires Lawful(g) && LegalLine(g, p, line) && line != []
    ensures LegalLine(g, p, line[..|line| - 1])
    ensures g.back(EndOf(g, p, line), line[|line| - 1]) == EndOf(g, p, line[..|line| - 1])
  {
    assert line[|line| - 1] in g.moves(EndOf(g, p, line[..|line| - 1]));
  }

  /** The value of the end of a rollout: a draw, the end of the game, or what is on the board. */
  function RolloutValue<P>(g: Game<P>, p: P, cut: bool): real {
    if cut then g.material(p) else if g.drawn(p) then 0.0 else Terminal(g, p)
  }

  // ----- Choosing -----

  function Mean(n: Node): real { if n.visits > 0 then n.totalValue / n.visits as real else 0.0 }

  /** What the parent looks for in a child: a bad mean for the side to move there, and few visits. */
  function Score(n: Node, parentVisits: nat, bonus: (nat, nat) -> real): real {
    -Mean(n) + bonus(parentVisits, n.visits)
  }

  /** The first of the best scores. */
  predicate FirstBest(scores: seq<real>, b: nat) {
    && b < |scores| && (forall k | 0 <= k < |scores| :: scores[k] <= scores[b])
    && forall k | 0 <= k < b :: scores[k] < scores[b]
  }

  /** A child's move is legal at its parent, and the child stands after it. */
  lemma ChildLegal<P>(g: Game<P>, nodes: seq<Node>, spots: seq<Spot<P>>, x: nat, c: nat)
    requires Shape(g, nodes, spots) && x < |nodes| && c in nodes[x].children
    ensures x < c < |nodes| && nodes[c].move in g.moves(spots[x].place)
        && spots[c].place == g.after(spots[x].place, nodes[c].move)
  {
    assert ShapeAt(g, nodes, spots, x) && ChildOf(g, nodes, spots, x, c);
    var cs := nodes[x].children;
    var k :| 0 <= k < |cs| && cs[k] == c;
    assert ChildMoves(nodes, cs)[k] == nodes[c].move;
    assert nodes[c].move in multiset(ChildMoves(nodes, cs));
    assert nodes[c].move in multiset(g.moves(spots[x].place));
  }

  /** An unexpanded move is legal. */
  lemma UnexpandedLegal<P>(g: Game<P>, nodes: seq<Node>, spots: seq<Spot<P>>, x: nat)
    requires Shape(g, nodes, spots) && x < |nodes| && nodes[x].unexpanded != []
    ensures nodes[x].unexpanded[|nodes[x].unexpanded| - 1] in g.moves(spots[x].place) && !nodes[x].terminal
  {
    assert ShapeAt(g, nodes, spots, x);
    var u := nodes[x].unexpanded;
    assert u[|u| - 1] in multiset(u);
    assert u[|u| - 1] in multiset(g.moves(spots[x].place));
  }

  /** A node that is not terminal has a move to expand or a child to go to. */
  lemma SomewhereToGo<P>(g: Game<P>, nodes: seq<Node>, spots: seq<Spot<P>>, x: nat)
    requires Shape(g, nodes, spots) && x < |nodes| && !nodes[x].terminal && nodes[x].unexpanded == []
    ensures nodes[x].children != []
  {
    assert ShapeAt(g, nodes, spots, x);
    assert |multiset(g.moves(spots[x].place))| == |g.moves(spots[x].place)| > 0;
  }

  // ----- The search -----

  /** Every node but the root has been visited, and evaluated unless the game ends there. */
  predicate Visited<P>(nodes: seq<Node>, spots: seq<Spot<P>>)
    requires |nodes| == |spots|
  {
    forall i | 1 <= i < |nodes| :: nodes[i].visits > 0 && (nodes[i].terminal || spots[i].first.Some?)
  }

  lemma AloneInShape<P>(g: Game<P>, nodes: seq<Node>, spots: seq<Spot<P>>)
    requires |nodes| == |spots| == 1 && spots[0].first == None
        && multiset(nodes[0].unexpanded) == multiset(g.moves(spots[0].place))
    requires nodes[0] == NewNode(g, spots[0].place, 0, nodes[0].unexpanded)
    ensures Shape(g, nodes, spots) && Settled(nodes, spots)
  {
    assert |multiset(nodes[0].unexpanded)| == |nodes[0].unexpanded|
        && |multiset(g.moves(spots[0].place))| == |g.moves(spots[0].place)|;
    assert ShapeAt(g, nodes, spots, 0) && Owes(nodes, spots, 0, 0, 0.0);
  }

  /** One line of `moveStats`. */
  datatype MoveStat = MoveStat(move: Move, score: real, visits: nat)

  // ----- Values of the engine and of the tree -----

  const VALUE_MATE := 32000
  const PAWN_VALUE := 208

  /** `value_to_double`. */
  function ToReal(v: int): real { v as real / PAWN_VALUE as real }

  /** `std::round`: to the nearest integer, halves away from zero. */
  function Round(x: real): int { if x >= 0.0 then (x + 0.5).Floor else -(0.5 - x).Floor }

  function Clamped(x: real, bound: real): real { if x < -bound then -bound else if bound < x then bound else x }

  function Clamp(x: int, bound: int): int { if x < -bound then -bound else if bound < x then bound else x }

  /** `double_to_value`. */
  function ToValue(x: real): int {
    Clamp(Round(Clamped(x, VALUE_MATE as real) * PAWN_VALUE as real), VALUE_MATE)
  }

  /** A value of the engine taken into the tree comes back as it was. */
  lemma ValueBack(v: int)
    requires -VALUE_MATE <= v <= VALUE_MATE
    ensures ToValue(ToReal(v)) == v
  {
    assert ToReal(v) * PAWN_VALUE as real == v as real;
  }

  /** The value of a mean is the opposite one for the other side, and better means are never worth less. */
  lemma ValueOrdered(x: real, y: real)
    ensures ToValue(-x) == -ToValue(x) && (x <= y ==> ToValue(x) <= ToValue(y))
    ensures -VALUE_MATE <= ToValue(x) <= VALUE_MATE
  {}

  /** Between the limits the value is off by at most half a unit. */
  lemma ValueNear(x: real)
    requires -(VALUE_MATE as real) <= x * PAWN_VALUE as real <= VALUE_MATE as real
    ensures -0.5 <= ToValue(x) as real - x * PAWN_VALUE as real <= 0.5
  {}

  datatype Outcome =
    Outcome(simulations: nat, evaluation: int, bestMove: Move, line: seq<Move>, moveStats: seq<MoveStat>)

  function StatOf(child: Node): MoveStat { MoveStat(child.move, -Mean(child), child.visits) }

  class Search<P(!new)> {
    const game: Game<P>
    var pos: P
    var nodes: seq<Node>
    ghost var spots: seq<Spot<P>>

    /** The tree is in shape and its accounts are settled. */
    ghost predicate Valid()
      reads this
    {
      Shape(game, nodes, spots) && Settled(nodes, spots) && spots[0].first == None
    }

    /** The root, with every move still to expand. */
    constructor (g: Game<P>, p: P)
      ensures game == g && pos == p && Valid() && |nodes| == 1 && nodes[0].visits == 0 && spots[0].place == p
    {
      game, pos, nodes, spots := g, p, [], [Spot(0, p, None)];
      new;
      var unexpanded := GenerateMoves();
      nodes := [NewNode(game, pos, 0, unexpanded)];
      AloneInShape(game, nodes, spots);
    }

    /** `generate_moves`: the legal moves, shuffled. */
    method GenerateMoves() returns (moves: seq<Move>)
      ensures multiset(moves) == multiset(game.moves(pos))
    {
      moves := game.moves(pos);
      var i := |moves|;
      while i > 1
        invariant 0 <= i <= |moves|
        invariant multiset(moves) == multiset(game.moves(pos))
      {
        var j: nat :| j < i;
        moves := moves[i - 1 := moves[j]][j := moves[i - 1]];
        i := i - 1;
      }
    }

    /** Taking a line of moves back, last first. */
    method TakeBack(line: seq<Move>, ghost start: P)
      requires Lawful(game) && LegalLine(game, start, line) && pos == EndOf(game, start, line)
      modifies this`pos
      ensures pos == start
    {
      var i := |line|;
      assert line[..i] == line;
      while i > 0
        invariant 0 <= i <= |line| && LegalLine(game, start, line[..i]) && pos == EndOf(game, start, line[..i])
      {
        LineBack(game, start, line[..i]);
        assert line[..i][..i - 1] == line[..i - 1];
        i := i - 1;
        pos := game.back(pos, line[i]);
      }
    }

    /** `rollout`: random moves to the end, to a draw or to the depth given, then back; none when told to stop. */
    method Rollout(maxDepth: int) returns (r: Option<real>, ghost line: seq<Move>)
      requires Lawful(game)
      modifies this`pos
      ensures pos == old(pos)
      ensures r.Some? ==>
                && LegalLine(game, pos, line) && |line| <= (if maxDepth > 0 then maxDepth else 0)
                && r.value == RolloutValue(game, EndOf(game, pos, line),
                    |line| == (if maxDepth > 0 then maxDepth else 0))
                && (|line| < maxDepth ==>
                    game.drawn(EndOf(game, pos, line)) || game.moves(EndOf(game, pos, line)) == [])
    {
      var played: seq<Move> := [];
      r, line := None, [];
      var depth := 0;
      while depth < maxDepth
        invariant depth == |played| && (depth == 0 || depth <= maxDepth)
        invariant LegalLine(game, old(pos), played) && pos == EndOf(game, old(pos), played)
      {
        var stop: bool := *;
        if stop {
          TakeBack(played, old(pos));
          return;
        }
        var drawn := game.drawn(pos);
        var legal := game.moves(pos);
        if drawn || |legal| == 0 {
          r, line := Some(if drawn then 0.0 else Terminal(game, pos)), played;
          TakeBack(played, old(pos));
          return;
        }
        var index: nat :| index < |legal|;
        var move := legal[index];
        LineOn(game, old(pos), played, move);
        pos := game.after(pos, move);
        played := played + [move];
        depth := depth + 1;
      }
      r, line := Some(game.material(pos)), played;
      TakeBack(played, old(pos));
    }

    /** The expansion of node x, at which the position stands. */
    method Expand(x: nat) returns (ghost child: Node)
      requires Valid() && x < |nodes| && nodes[x].unexpanded != [] && pos == spots[x].place
      modifies this`pos, this`nodes, this`spots
      ensures MayGrow(game, old(nodes), old(spots), x, child) && nodes == Grown(old(nodes), x, child)
      ensures spots == old(spots) + [NewSpot(game, old(spots), x, child.move)] && Valid()
          && pos == spots[|old(nodes)|].place
    {
      hide ShapeAt, Owes;
      var move := nodes[x].unexpanded[|nodes[x].unexpanded| - 1];
      pos := game.after(pos, move);
      var unexpanded := GenerateMoves();
      child := NewNode(game, pos, move, unexpanded);
      GrowShape(game, nodes, spots, x, child);
      GrowSettled(game, nodes, spots, x, child);
      spots := spots + [NewSpot(game, spots, x, move)];
      nodes := Grown(nodes, x, NewNode(game, pos, move, unexpanded));
    }

    /** The selection rule: the first child of best score. */
    method Select(x: nat, bonus: (nat, nat) -> real) returns (c: nat)
      requires x < |nodes| && nodes[x].children != [] && InTree(nodes[x].children, |nodes|)
      ensures c in nodes[x].children
      ensures exists b: nat ::
          FirstBest(Scores(nodes, nodes[x].children, nodes[x].visits, bonus), b) && nodes[x].children[b] == c
    {
      var cs := nodes[x].children;
      ghost var scores := Scores(nodes, cs, nodes[x].visits, bonus);
      var best, bestScore := 0, Score(nodes[cs[0]], nodes[x].visits, bonus);
      for k := 1 to |cs|
        invariant best < k && bestScore == scores[best] && FirstBest(scores[..k], best)
      {
        var score := Score(nodes[cs[k]], nodes[x].visits, bonus);
        if score > bestScore { best, bestScore := k, score; }
      }
      assert scores[..|cs|] == scores;
      c := cs[best];
    }

    /** From the root down to a terminal node or a new one, the position moving along. */
    method Descend(bonus: (nat, nat) -> real) returns (path: seq<nat>, moves: seq<Move>)
      requires Valid() && pos == spots[0].place
      modifies this`pos, this`nodes, this`spots
      ensures Valid() && Path(nodes, spots, path) && LegalLine(game, old(pos), moves)
          && pos == EndOf(game, old(pos), moves)
      ensures var leaf := path[|path| - 1];
              || (nodes == old(nodes) && spots == old(spots) && nodes[leaf].terminal)
              || (leaf == |old(nodes)| && OneMore(old(nodes), old(spots), nodes, spots))
    {
      path, moves := [0], [];
      while true
        invariant Valid() && nodes == old(nodes) && spots == old(spots) && Path(nodes, spots, path)
        invariant LegalLine(game, old(pos), moves) && pos == EndOf(game, old(pos), moves)
            && pos == spots[path[|path| - 1]].place
        decreases |nodes| - path[|path| - 1]
      {
        hide Shape, Settled, LegalLine, EndOf, OneMore, FirstBest, Distinct;
        var node := path[|path| - 1];
        if nodes[node].terminal { break; }
        if |nodes[node].unexpanded| > 0 {
          UnexpandedLegal(game, nodes, spots, node);
          var move := nodes[node].unexpanded[|nodes[node].unexpanded| - 1];
          LineOn(game, old(pos), moves, move);
          ghost var child := Expand(node);
          PathGrown(game, old(nodes), old(spots), path, child);
          path, moves := path + [|nodes| - 1], moves + [move];
          break;
        }
        SomewhereToGo(game, nodes, spots, node);
        ChildrenInTree(game, nodes, spots, node);
        var c := Select(node, bonus);
        ChildLegal(game, nodes, spots, node, c);
        LineOn(game, old(pos), moves, nodes[c].move);
        PathDown(nodes, spots, path, c);
        pos := game.after(pos, nodes[c].move);
        path, moves := path + [c], moves + [nodes[c].move];
      }
    }

    /** The backup: each node of the path is visited, the value changing sign from one to the next. */
    method BackUp(path: seq<nat>, leafValue: real)
      requires InTree(path, |nodes|)
      modifies this`nodes
      ensures nodes == Backed(old(nodes), path, leafValue)
    {
      hide Backed;
      var evaluation := leafValue;
      var i := |path|;
      assert path[..i] == path;
      while i > 0
        invariant 0 <= i <= |path| && |nodes| == |old(nodes)|
        invariant Backed(nodes, path[..i], evaluation) == Backed(old(nodes), path, leafValue)
      {
        BackedStep(nodes, path[..i], evaluation);
        assert path[..i][..i - 1] == path[..i - 1];
        i := i - 1;
        nodes := nodes[path[i] := nodes[path[i]].(visits := nodes[path[i]].visits + 1,
            totalValue := nodes[path[i]].totalValue + evaluation)];
        evaluation := -evaluation;
      }
      BackedNothing(nodes, path[..0], evaluation);
    }

    /**
     * One iteration: descend, evaluate, back up, take the moves back; without the backup when the
     * rollout is stopped.
     */
    method Iterate(bonus: (nat, nat) -> real, rolloutDepth: int) returns (completed: bool)
      requires Valid() && Visited(nodes, spots) && Lawful(game) && pos == spots[0].place
      modifies this`pos, this`nodes, this`spots
      ensures Valid() && pos == old(pos) && |old(spots)| <= |spots| && spots[..|old(spots)|] == old(spots)
      ensures nodes[0].visits == old(nodes[0].visits) + (if completed then 1 else 0)
      ensures completed ==> Visited(nodes, spots)
    {
      hide ShapeAt, Owes, LegalLine, EndOf, Visited, Backed, Lawful;
      var path, moves := Descend(bonus);
      var leaf := path[|path| - 1];
      var evaluation := 0.0;
      completed := true;
      label Found:
      if nodes[leaf].terminal {
        evaluation := nodes[leaf].terminalValue;
        LeafPays(game, nodes, spots, path);
      } else {
        var rolled, line := Rollout(rolloutDepth - |moves|);
        if rolled.None? {
          completed := false;
        } else {
          evaluation := rolled.value;
          LeafEvaluated(game, nodes, spots, path, evaluation);
          spots := spots[leaf := spots[leaf].(first := Some(evaluation))];
        }
      }
      if completed {
        VisitsBacked(old(nodes), old(spots), nodes, spots, path, evaluation);
        BackUp(path, evaluation);
      }
      TakeBack(moves, old(pos));
    }

    /** The loop of `analyze`; patience is how many iterations it takes at most for the stop or the clock to end it. */
    method Analyze(maxIterations: nat, patience: nat, bonus: (nat, nat) -> real, rolloutDepth: int)
        returns (iterations: nat)
      requires Valid() && Visited(nodes, spots) && Lawful(game) && pos == spots[0].place && nodes[0].visits == 0
      modifies this`pos, this`nodes, this`spots
      ensures Valid() && pos == old(pos) && spots[0] == old(spots[0])
      ensures nodes[0].visits == iterations && (nodes[0].terminal ==> iterations == 0)
      ensures maxIterations > 0 ==> iterations <= maxIterations
      ensures !nodes[0].terminal ==> SumVisits(nodes, nodes[0].children) == iterations
    {
      hide ShapeAt, Visited, Lawful;
      iterations := 0;
      RootEnds(game, nodes, spots);
      while !nodes[0].terminal
        invariant Valid() && Visited(nodes, spots) && pos == old(pos) == spots[0].place && |spots| >= 1
            && spots[0] == old(spots[0])
        invariant nodes[0].terminal <==> game.moves(old(pos)) == []
        invariant nodes[0].visits == iterations && (nodes[0].terminal ==> iterations == 0) && iterations <= patience
        invariant maxIterations > 0 ==> iterations <= maxIterations
        decreases patience - iterations
      {
        var stop: bool := *;
        if stop || iterations == patience { break; }
        if maxIterations > 0 && iterations >= maxIterations { break; }
        ghost var before := spots;
        var completed := Iterate(bonus, rolloutDepth);
        assert spots[0] == spots[..|before|][0];
        RootEnds(game, nodes, spots);
        if !completed { break; }
        iterations := iterations + 1;
      }
      assert Owes(nodes, spots, 0, 0, 0.0);
    }

    /** `best_child_for_player`: the first visited child of lowest mean, none if no child was visited. */
    method BestChildForPlayer(x: nat) returns (r: Option<nat>)
      requires x < |nodes| && InTree(nodes[x].children, |nodes|)
      ensures r.None? ==> forall k | 0 <= k < |nodes[x].children| :: nodes[nodes[x].children[k]].visits == 0
      ensures r.Some? ==> FirstLowest(nodes, nodes[x].children, r.value)
    {
      var cs := nodes[x].children;
      var best: Option<nat>, bestMean := None, 0.0;
      for k := 0 to |cs|
        invariant best.None? ==> forall j | 0 <= j < k :: nodes[cs[j]].visits == 0
        invariant best.Some? ==>
            best.value < k && bestMean == Mean(nodes[cs[best.value]]) && LowestUpTo(nodes, cs, best.value, k)
      {
        if nodes[cs[k]].visits > 0 {
          var mean := nodes[cs[k]].totalValue / nodes[cs[k]].visits as real;
          if best.None? || -mean > -bestMean { best, bestMean := Some(k), mean; }
        }
      }
      if best.None? { return None; }
      r := Some(cs[best.value]);
    }

    /** The end of `analyze`: the best root child, and the line of best replies after it. */
    method Report(iterations: nat, rolloutDepth: int) returns (o: Outcome)
      requires Valid()
      ensures o.simulations == iterations && o.evaluation == ToValue(Mean(nodes[0]))
      ensures InTree(nodes[0].children, |nodes|) && |o.moveStats| == |nodes[0].children|
      ensures forall k | 0 <= k < |o.moveStats| :: o.moveStats[k] == StatOf(nodes[nodes[0].children[k]])
      ensures nodes[0].children == [] ==> o.bestMove == 0 && o.line == [0]
      ensures nodes[0].children != [] ==>
                && InTree(nodes[0].children, |nodes|) && BestIs(nodes, nodes[0].children, o.bestMove)
                && o.line != [] && o.line[0] == o.bestMove && LegalLine(game, spots[0].place, o.line)
                && |o.line| <= (if rolloutDepth > 1 then rolloutDepth else 1)
    {
      hide ShapeAt, Owes, LegalLine, EndOf, FirstLowest, LowestUpTo, ToValue;
      o := Outcome(iterations, ToValue(Mean(nodes[0])), 0, [0], []);
      ChildrenInTree(game, nodes, spots, 0);
      var cs := nodes[0].children;
      if cs == [] { return; }
      var best, bestScore, stats := 0, -Mean(nodes[cs[0]]), [StatOf(nodes[cs[0]])];
      for k := 1 to |cs|
        invariant |stats| == k && forall j | 0 <= j < k :: stats[j] == StatOf(nodes[cs[j]])
        invariant best < k && bestScore == -Mean(nodes[cs[best]])
        invariant forall j | 0 <= j < k ::
            -Mean(nodes[cs[j]]) <= bestScore && (j < best ==> -Mean(nodes[cs[j]]) < bestScore)
      {
        var score := -Mean(nodes[cs[k]]);
        stats := stats + [StatOf(nodes[cs[k]])];
        if score > bestScore { best, bestScore := k, score; }
      }
      var move := nodes[cs[best]].move;
      assert BestIs(nodes, cs, move);
      var line := FollowLine(cs[best], rolloutDepth);
      o := Outcome(iterations, ToValue(Mean(nodes[0])), move, line, stats);
    }

    /** The principal variation from a child of the root. */
    method FollowLine(start: nat, rolloutDepth: int) returns (line: seq<Move>)
      requires Valid() && start in nodes[0].children
      ensures start < |nodes| && line != [] && line[0] == nodes[start].move
      ensures LegalLine(game, spots[0].place, line) && |line| <= (if rolloutDepth > 1 then rolloutDepth else 1)
    {
      hide ShapeAt, Owes, LegalLine, EndOf, FirstLowest, LowestUpTo;
      EmptyLine(game, spots[0].place);
      ChildLegal(game, nodes, spots, 0, start);
      LineOn(game, spots[0].place, [], nodes[start].move);
      assert [] + [nodes[start].move] == [nodes[start].move];
      line := [nodes[start].move];
      var current, depth := start, 1;
      while depth < rolloutDepth
        invariant |line| == depth && (depth == 1 || depth <= rolloutDepth) && line[0] == nodes[start].move
            && current < |nodes|
        invariant LegalLine(game, spots[0].place, line) && EndOf(game, spots[0].place, line) == spots[current].place
      {
        ChildrenInTree(game, nodes, spots, current);
        var next := BestChildForPlayer(current);
        if next.None? { break; }
        LowestIsChild(nodes, nodes[current].children, next.value);
        ChildLegal(game, nodes, spots, current, next.value);
        LineOn(game, spots[0].place, line, nodes[next.value].move);
        current := next.value;
        line := line + [nodes[current].move];
        depth := depth + 1;
      }
    }
  }

  /** Child number b is the first visited one of lowest mean among the first n. */
  predicate LowestUpTo(nodes: seq<Node>, cs: seq<nat>, b: nat, n: nat)
    requires InTree(cs, |nodes|) && b < n <= |cs|
  {
    && nodes[cs[b]].visits > 0
    && forall j | 0 <= j < n && nodes[cs[j]].visits > 0 ::
         Mean(nodes[cs[b]]) <= Mean(nodes[cs[j]]) && (j < b ==> Mean(nodes[cs[b]]) < Mean(nodes[cs[j]]))
  }

  predicate FirstLowest(nodes: seq<Node>, cs: seq<nat>, c: nat)
    requires InTree(cs, |nodes|)
  {
    exists b | 0 <= b < |cs| :: cs[b] == c && LowestUpTo(nodes, cs, b, |cs|)
  }

  lemma LowestIsChild(nodes: seq<Node>, cs: seq<nat>, c: nat)
    requires InTree(cs, |nodes|) && FirstLowest(nodes, cs, c)
    ensures c in cs
  {}

  /** The move is that of the first child of lowest mean. */
  predicate BestIs(nodes: seq<Node>, cs: seq<nat>, move: Move)
    requires InTree(cs, |nodes|)
  {
    exists b | 0 <= b < |cs| :: nodes[cs[b]].move == move
      && forall j | 0 <= j < |cs| ::
          -Mean(nodes[cs[j]]) <= -Mean(nodes[cs[b]]) && (j < b ==> -Mean(nodes[cs[j]]) < -Mean(nodes[cs[b]]))
  }

  lemma EmptyLine<P>(g: Game<P>, p: P)
    ensures LegalLine(g, p, []) && EndOf(g, p, []) == p
  {}

  lemma RootEnds<P>(g: Game<P>, nodes: seq<Node>, spots: seq<Spot<P>>)
    requires Shape(g, nodes, spots)
    ensures nodes[0].terminal <==> g.moves(spots[0].place) == []
  {
    assert ShapeAt(g, nodes, spots, 0);
  }

  /** Backing up from a terminal leaf. */
  lemma LeafPays<P>(g: Game<P>, nodes: seq<Node>, spots: seq<Spot<P>>, path: seq<nat>)
    requires Shape(g, nodes, spots) && Settled(nodes, spots) && Path(nodes, spots, path)
        && nodes[path[|path| - 1]].terminal
    ensures var after := Backed(nodes, path, nodes[path[|path| - 1]].terminalValue);
        Shape(g, after, spots) && Settled(after, spots)
  {
    TerminalOwes(nodes, spots, path[|path| - 1]);
    BackupSettles(g, nodes, spots, path, nodes[path[|path| - 1]].terminalValue);
  }

  /** Backing up from a leaf just evaluated. */
  lemma LeafEvaluated<P>(g: Game<P>, nodes: seq<Node>, spots: seq<Spot<P>>, path: seq<nat>, e: real)
    requires Shape(g, nodes, spots) && Settled(nodes, spots) && Path(nodes, spots, path)
    requires var leaf := path[|path| - 1]; !nodes[leaf].terminal && spots[leaf].first == None
    ensures var leaf := path[|path| - 1];
            var more := spots[leaf := spots[leaf].(first := Some(e))];
            Shape(g, Backed(nodes, path, e), more) && Settled(Backed(nodes, path, e), more)
  {
    hide ShapeAt, Owes;
    var leaf := path[|path| - 1];
    NewLeafOwes(nodes, spots, leaf, e);
    FirstShape(g, nodes, spots, leaf, e);
    BackupSettles(g, nodes, spots[leaf := spots[leaf].(first := Some(e))], path, e);
  }

  /** A backup visits the root once more, and the new node if there is one. */
  lemma VisitsBacked<P>(nodes: seq<Node>, spots: seq<Spot<P>>, after: seq<Node>, more: seq<Spot<P>>, path: seq<nat>,
      e: real)
    requires |nodes| == |spots| > 0 && |after| == |more| && Visited(nodes, spots) && Path(after, more, path)
    requires |after| >= |nodes| && more[..|spots|] == spots && forall i | 0 <= i < |nodes| ::
        after[i].visits == nodes[i].visits && after[i].terminal == nodes[i].terminal
    requires |after| == |nodes| || (|after| == |nodes| + 1 && path[|path| - 1] == |nodes|
        && (after[|nodes|].terminal || more[|nodes|].first.Some?))
    ensures Backed(after, path, e)[0].visits == nodes[0].visits + 1
    ensures Visited(Backed(after, path, e), more)
  {
    var r := Backed(after, path, e);
    PathIncreases(after, more, path);
    BackupCounts(after, path, e);
    assert path[0] in path && path[|path| - 1] in path;
    forall i | 1 <= i < |r| ensures r[i].visits > 0 && (r[i].terminal || more[i].first.Some?) {
      if i < |nodes| { assert more[i] == more[..|spots|][i]; }
    }
    hide Backed;
  }

  lemma {:induction false} PathIncreases<P>(nodes: seq<Node>, spots: seq<Spot<P>>, path: seq<nat>)
    requires |nodes| == |spots| && Path(nodes, spots, path)
    ensures forall i, j | 0 <= i < j < |path| :: path[i] < path[j]
    decreases |path|
  {
    if |path| > 1 {
      var shorter := path[..|path| - 1];
      PathIncreases(nodes, spots, shorter);
      forall i | 0 <= i < |path| - 1 ensures path[i] < path[|path| - 1] {
        assert shorter[i] <= shorter[|path| - 2];
      }
      assert forall i, j | 0 <= i < j < |path| - 1 :: shorter[i] < shorter[j];
    }
  }

  /** One new node, not visited yet; the visits, the ends and the positions of the others are as before. */
  predicate OneMore<P(==)>(nodes: seq<Node>, spots: seq<Spot<P>>, after: seq<Node>, more: seq<Spot<P>>) {
    && |after| == |more| == |nodes| + 1 == |spots| + 1 && more[..|spots|] == spots && more[|spots|].first == None
    && after[|nodes|].visits == 0
    && forall i | 0 <= i < |nodes| :: after[i].visits == nodes[i].visits && after[i].terminal == nodes[i].terminal
  }

  lemma ChildrenInTree<P>(g: Game<P>, nodes: seq<Node>, spots: seq<Spot<P>>, x: nat)
    requires Shape(g, nodes, spots) && x < |nodes|
    ensures InTree(nodes[x].children, |nodes|)
  {
    assert ShapeAt(g, nodes, spots, x);
    forall k | 0 <= k < |nodes[x].children| ensures nodes[x].children[k] < |nodes| {
      assert ChildOf(g, nodes, spots, x, nodes[x].children[k]);
    }
  }

  lemma PathDown<P>(nodes: seq<Node>, spots: seq<Spot<P>>, path: seq<nat>, c: nat)
    requires |nodes| == |spots| && Path(nodes, spots, path) && path[|path| - 1] < c < |nodes|
        && c in nodes[path[|path| - 1]].children
    ensures Path(nodes, spots, path + [c])
  {}

  lemma PathGrown<P>(g: Game<P>, nodes: seq<Node>, spots: seq<Spot<P>>, path: seq<nat>, child: Node)
    requires |nodes| == |spots| && Path(nodes, spots, path) && MayGrow(g, nodes, spots, path[|path| - 1], child)
    ensures var more := spots + [NewSpot(g, spots, path[|path| - 1], child.move)];
            var after := Grown(nodes, path[|path| - 1], child);
            Path(after, more, path + [|nodes|]) && OneMore(nodes, spots, after, more)
  {
    hide Shape;
    var x := path[|path| - 1];
    var after := Grown(nodes, x, child);
    var more := spots + [NewSpot(g, spots, x, child.move)];
    assert forall i | 0 <= i < |nodes| :: forall c | c in nodes[i].children :: c in after[i].children;
    PathDown(after, more, path, |nodes|);
  }

  /** The scores of children. */
  function Scores(nodes: seq<Node>, cs: seq<nat>, parentVisits: nat, bonus: (nat, nat) -> real): (r: seq<real>)
    requires InTree(cs, |nodes|)
    ensures |r| == |cs| && forall k | 0 <= k < |cs| :: r[k] == Score(nodes[cs[k]], parentVisits, bonus)
  {
    if cs == [] then [] else [Score(nodes[cs[0]], parentVisits, bonus)] + Scores(nodes, cs[1..], parentVisits, bonus)
  }
}
