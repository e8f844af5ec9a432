/**
 * The board side of a search: position, accumulator stack and refresh cache move together, and
 * whatever is made and taken back in between, an evaluation finds both sides' sums.
 */
module Searching {
  import opened Options
  import opened Types
  import opened Board
  import opened Checks
  import opened Legality
  import opened Keys
  import opened Making
  import opened States
  import opened Playing
  import opened Position
  import opened Runs
  import Accumulator
  import Features
  import Fen
  import Indices
  import Loading
  import MoveGen
  import Placement

  // ----- The network's view of the board -----

  lemma PawnInside(b: Board, c: Color, s: Square)
    requires Features.Inside(Features.PawnsOf(b)) && b[s] == Man(c, Pawn)
    ensures 1 <= Rank(s) <= 6
  {
    assert s in Features.PawnsOf(b).All();
  }

  /** No generated move leaves a pawn on the first or last rank. */
  lemma PawnsStayInside(g: MoveGen.Source, m: Move, c: Color, s: Square)
    requires Coherent(g) && Pieces(g.v.board, g.v.us, King) != {} && Generated(g, m)
    requires Features.Inside(Features.PawnsOf(g.v.board)) && ApplyMove(g.v.board, g.v.us, m)[s] == Man(c, Pawn)
    ensures 1 <= Rank(s) <= 6
  {
    hide Coherent, Generated, Features.Inside, Features.PawnsOf, RelativeRank, Fen.EpPawns, PawnBB, PawnAttacks,
        KingTo, RookTo;
    var b, us := g.v.board, g.v.us;
    if b[s] == Man(c, Pawn) {
      PawnInside(b, c, s);
    } else {
      match m.mtype {
        case Normal => GeneratedNormal(g, m);
        case EnPassant =>
          GeneratedEnPassant(g, m);
          TakenOnSixth(g, m.to);
        case Promotion => GeneratedWellFormed(g, m);
        case Castling =>
      }
    }
  }

  lemma TakenOnSixth(g: MoveGen.Source, e: Square)
    requires Coherent(g) && g.ep == Some(e)
    ensures 1 <= Rank(e) <= 6
  {
    hide Fen.EpCounts, ViewOk, EnemyKingSafe;
  }

  /** What the feature sets rely on is kept by every generated legal move. */
  lemma FineStays(g: MoveGen.Source, m: Move)
    requires Coherent(g) && Pieces(g.v.board, g.v.us, King) != {} && Generated(g, m)
    requires Indices.BoardFine(g.v.board)
    ensures Indices.BoardFine(ApplyMove(g.v.board, g.v.us, m))
  {
    var b, us := g.v.board, g.v.us;
    var a := ApplyMove(b, us, m);
    GeneratedWellFormed(g, m);
    FineKings(b);
    KingsStay(b, us, g.ep, m);
    hide Coherent, Generated, MoveOk, ApplyMove, Rank;
    forall s | s in Features.PawnsOf(a).All() ensures 1 <= Rank(s) <= 6 {
      PawnsStayInside(g, m, a[s].color, s);
    }
    FineKings(a);
  }

  lemma FineKings(b: Board)
    ensures Indices.BoardFine(b) <==> OneKingEach(b) && Features.Inside(Features.PawnsOf(b))
  {
    hide Features.Inside, Features.PawnsOf, Pieces;
    if OneKingEach(b) { assert |Pieces(b, White, King)| == 1 && |Pieces(b, Black, King)| == 1; }
    if Indices.BoardFine(b) {
      forall c ensures |Pieces(b, c, King)| == 1 { if c.White? {} else {} }
    }
  }

  /** A string that is accepted has no pawn on those ranks either. */
  lemma AcceptedFine(b: Board)
    requires Fen.BoardError(b) == None
    ensures Indices.BoardFine(b)
  {
    Fen.KingsThere(b);
    FineKings(b);
    hide OneKingEach, Indices.BoardFine, Fen.ColorError;
    forall s | s in Features.PawnsOf(b).All() ensures 1 <= Rank(s) <= 6 {
      assert s in ByType(b, Pawn) && s !in ByType(b, Pawn) * Fen.BackRanks();
    }
  }

  // ----- Slots and positions -----

  /** The boards that have a slot: the first one, and one for each move made since. */
  function Slots(past: seq<Snap>, played: seq<Played>): (r: seq<Board>)
    requires |past| == |played| + 1
    ensures |r| > 0
  {
    var n := |played|;
    if n == 0 then [past[0].board] else
      Slots(past[..n], played[..n - 1]) + (if played[n - 1].Made? then [past[n].board] else [])
  }

  /** A pass leaves the board alone. */
  ghost predicate PassesKeep(past: seq<Snap>, played: seq<Played>) {
    |past| == |played| + 1 && forall i | 0 <= i < |played| && played[i].Null? :: past[i + 1].board == past[i].board
  }

  /** The top slot is that of the position on the board. */
  lemma {:induction false} TopSlot(past: seq<Snap>, played: seq<Played>)
    requires PassesKeep(past, played)
    ensures var r := Slots(past, played); r[|r| - 1] == past[|played|].board
  {
    var n := |played|;
    if n > 0 && played[n - 1].Null? { TopSlot(past[..n], played[..n - 1]); }
  }

  lemma Rooted(past: seq<Snap>, played: seq<Played>)
    requires |past| == 1 && played == []
    ensures PassesKeep(past, played) && Slots(past, played) == [past[0].board]
  {}

  lemma SlotOfMove(past: seq<Snap>, played: seq<Played>)
    requires |past| == |played| + 1 && |played| > 0 && played[|played| - 1].Made?
    ensures |Slots(past, played)| > 1
  {}

  /** Position, stack and cache of one search thread, the stack being that of the line from state `root` on. */
  class Worker {
    const pos: Position
    const home: Home
    const stack: Accumulator.AccumulatorStack
    const cache: Accumulator.AccumulatorCaches
    ghost var root: nat

    ghost predicate Valid()
      reads this, pos, pos.board, pos.line, stack, stack.accumulators, cache
    {
      && Ready(pos, home) && stack.Valid() && cache.Valid() && cache.net == stack.net
      && root < |pos.past| == |pos.played| + 1 && PassesKeep(pos.past[root..], pos.played[root..])
      && stack.boards == Slots(pos.past[root..], pos.played[root..])
    }

    /** A search thread on a position that is ready. */
    constructor (q: Position, h: Home, n: Features.Network, maxSize: nat)
      requires Ready(q, h) && Indices.BoardFine(q.Pieces64()) && maxSize > 0
      ensures Valid() && pos == q && home == h && stack.net == n && stack.accumulators.Length == maxSize
      ensures root == |q.played| && fresh(stack) && fresh(stack.accumulators) && fresh(cache)
    {
      pos, home, root := q, h, |q.played|;
      stack := new Accumulator.AccumulatorStack(n, maxSize, q.Pieces64());
      cache := new Accumulator.AccumulatorCaches(n);
      new;
      hide *;
      HereCoherent(q, h);
      Rooted(pos.past[root..], pos.played[root..]);
      Whole();
    }

    lemma Parts()
      requires Valid()
      ensures Ready(pos, home) && stack.Valid() && cache.Valid() && cache.net == stack.net
      ensures root < |pos.past| == |pos.played| + 1 && PassesKeep(pos.past[root..], pos.played[root..])
      ensures stack.boards == Slots(pos.past[root..], pos.played[root..])
    {
      hide Ready, Accumulator.AccumulatorStack.Valid, Accumulator.AccumulatorCaches.Valid, PassesKeep, Slots;
    }

    lemma Whole()
      requires Ready(pos, home) && stack.Valid() && cache.Valid() && cache.net == stack.net
      requires root < |pos.past| == |pos.played| + 1 && PassesKeep(pos.past[root..], pos.played[root..])
      requires stack.boards == Slots(pos.past[root..], pos.played[root..])
      ensures Valid()
    {
      hide Ready, Accumulator.AccumulatorStack.Valid, Accumulator.AccumulatorCaches.Valid;
    }

    lemma StackParts()
      requires stack.Valid()
      ensures |stack.boards| == stack.size > 0 && stack.size <= stack.accumulators.Length
      ensures Indices.BoardFine(stack.boards[|stack.boards| - 1])
    {
      hide Indices.BoardFine, Accumulator.SlotRight, Features.Describes;
    }

    /** The slot on top is that of the position, and the position suits the network. */
    lemma OnTop()
      requires Valid()
      ensures Ready(pos, home) && stack.Valid() && cache.Valid() && cache.net == stack.net
      ensures |stack.boards| == stack.size > 0 && stack.boards[|stack.boards| - 1] == pos.Pieces64()
      ensures pos.board.Length == 64 && Indices.BoardFine(pos.Pieces64()) && stack.size <= stack.accumulators.Length
      ensures root < |pos.past| == |pos.played| + 1 && PassesKeep(pos.past[root..], pos.played[root..])
      ensures pos.past[|pos.played|] == Snap(pos.Pieces64(), pos.sideToMove, pos.gamePly)
      ensures stack.boards == Slots(pos.past[root..], pos.played[root..])
    {
      hide *;
      Parts();
      StackParts();
      HereCoherent(pos, home);
      TopSlot(pos.past[root..], pos.played[root..]);
    }

    /** One step further along the line. */
    lemma Onward(past: seq<Snap>, played: seq<Played>, how: Played)
      requires root < |past| == |played| + 1 && PassesKeep(past[root..], played[root..])
      requires Ready(pos, home) && stack.Valid() && cache.Valid() && cache.net == stack.net
      requires |pos.past| == |past| + 1 && pos.past[..|past|] == past && pos.played == played + [how]
      requires how.Null? ==> pos.past[|past|].board == past[|played|].board
      requires stack.boards == Slots(past[root..], played[root..])
                               + (if how.Made? then [pos.past[|past|].board] else [])
      ensures Valid()
    {
      hide Ready, Accumulator.AccumulatorStack.Valid, Accumulator.AccumulatorCaches.Valid;
      var n := |played| - root;
      assert pos.past[root..][..n + 1] == past[root..] && pos.played[root..][..n] == played[root..];
    }

    lemma NextFine(m: Move)
      requires Valid() && MayPlay(pos, home, m)
      ensures Indices.BoardFine(ApplyMove(pos.Pieces64(), pos.sideToMove, m))
    {
      hide *;
      OnTop();
      HereCoherent(pos, home);
      MayPlayMeans(pos, home, m);
      FineStays(Here(pos, home), m);
    }

    /** `do_move`: a slot is pushed, and the position's report goes into it. */
    method DoMove(m: Move, newSt: StateInfo)
      requires Valid() && MayPlay(pos, home, m) && newSt !in pos.line && stack.size < stack.accumulators.Length
      modifies pos, pos.board, newSt, stack, stack.accumulators
      ensures Valid() && root == old(root) && stack.size == old(stack.size) + 1
      ensures pos.line == old(pos.line) + [newSt] && pos.played == old(pos.played) + [Made(m)]
      ensures pos.Pieces64() == ApplyMove(old(pos.Pieces64()), old(pos.sideToMove), m)
          && pos.sideToMove == old(pos.sideToMove).Other()
    {
      hide *;
      OnTop();
      NextFine(m);
      ghost var past, played := pos.past, pos.played;
      stack.Push();
      var d := Play(pos, home, m, newSt);
      stack.Report(d, pos.Pieces64());
      Onward(past, played, Made(m));
    }

    /** One step back along the line. */
    lemma Backward(past: seq<Snap>, played: seq<Played>)
      requires root < |played| && |past| == |played| + 1 && PassesKeep(past[root..], played[root..])
      requires Ready(pos, home) && stack.Valid() && cache.Valid() && cache.net == stack.net
      requires pos.past == past[..|played|] && pos.played == played[..|played| - 1]
      requires var r := Slots(past[root..], played[root..]);
               stack.boards == if played[|played| - 1].Made? then r[..|r| - 1] else r
      ensures Valid()
    {
      hide Ready, Accumulator.AccumulatorStack.Valid, Accumulator.AccumulatorCaches.Valid;
      var n := |played| - root;
      assert past[root..][..n] == pos.past[root..] && played[root..][..n - 1] == pos.played[root..];
    }

    /** After a move the stack has a slot to give back. */
    lemma SlotBelow()
      requires Valid() && root < |pos.played| && pos.played[|pos.played| - 1].Made?
      ensures stack.size > 1
    {
      hide *;
      OnTop();
      SlotOfMove(pos.past[root..], pos.played[root..]);
    }

    /** `undo_move`: the position of before, and the stack of before. */
    method UndoMove(m: Move)
      requires Valid() && root < |pos.played| && pos.played[|pos.played| - 1] == Made(m)
      modifies pos, pos.board, stack`size, stack`boards
      ensures Valid() && root == old(root) && stack.size == old(stack.size) - 1
      ensures pos.line == old(pos.line[..|pos.played|]) && pos.played == old(pos.played[..|pos.played| - 1])
      ensures Snap(pos.Pieces64(), pos.sideToMove, pos.gamePly) == old(pos.past[|pos.played| - 1])
    {
      hide *;
      OnTop();
      SlotBelow();
      HereCoherent(pos, home);
      ghost var past, played, states := pos.past, pos.played, pos.line;
      pos.UndoMove(m);
      KeepReady(pos, home, past, states, |played|);
      stack.Pop();
      Backward(past, played);
      OnTop();
    }

    /** `do_null_move`: the board stays, and so does the stack. */
    method DoNullMove(newSt: StateInfo)
      requires Valid() && newSt !in pos.line && pos.st.checkersBB == {}
      modifies pos, newSt
      ensures Valid() && root == old(root)
      ensures pos.line == old(pos.line) + [newSt] && pos.played == old(pos.played) + [Null]
      ensures pos.Pieces64() == old(pos.Pieces64()) && pos.sideToMove == old(pos.sideToMove).Other()
    {
      hide *;
      OnTop();
      ghost var past, played := pos.past, pos.played;
      Pass(pos, home, newSt);
      Onward(past, played, Null);
    }

    /** `undo_null_move`. */
    method UndoNullMove()
      requires Valid() && root < |pos.played| && pos.played[|pos.played| - 1] == Null
      modifies pos
      ensures Valid() && root == old(root)
      ensures pos.line == old(pos.line[..|pos.played|]) && pos.played == old(pos.played[..|pos.played| - 1])
      ensures Snap(pos.Pieces64(), pos.sideToMove, pos.gamePly) == old(pos.past[|pos.played| - 1])
    {
      hide *;
      OnTop();
      HereCoherent(pos, home);
      ghost var past, played, states := pos.past, pos.played, pos.line;
      pos.UndoNullMove();
      KeepReady(pos, home, past, states, |played|);
      Backward(past, played);
      OnTop();
    }

    /** `accumulatorStack.reset()`: a new search starts from where the position is. */
    method Restart()
      requires Valid()
      modifies this`root, stack, stack.accumulators
      ensures Valid() && root == |pos.played|
    {
      hide *;
      OnTop();
      root := |pos.played|;
      stack.Reset(pos.Pieces64());
      Rooted(pos.past[root..], pos.played[root..]);
      Whole();
    }

    /** `evaluate`: whatever was made and taken back before, both sides' sums are those of the position. */
    method Evaluate()
      requires Valid()
      modifies stack.accumulators, cache
      ensures Valid() && stack.accumulators[stack.size - 1].computed == Indices.PerColor(true, true)
      ensures stack.size > 0 && Indices.BoardFine(pos.Pieces64())
      ensures var b, acc := pos.Pieces64(), stack.accumulators[stack.size - 1].acc;
              && Indices.Right(stack.net, White, Indices.Ksq(b, White), b, acc.white)
              && Indices.Right(stack.net, Black, Indices.Ksq(b, Black), b, acc.black)
    {
      hide *;
      OnTop();
      HereCoherent(pos, home);
      BoardIs(pos);
      stack.Evaluate(pos.board[..], cache);
      Whole();
    }
  }

  lemma AcceptedSuits(s: string, chess960: bool)
    requires Fen.Set(s, chess960).Ok?
    ensures Indices.BoardFine(Fen.Set(s, chess960).value.board)
  {
    Fen.AcceptedIsProper(s, chess960);
    AcceptedFine(Fen.Set(s, chess960).value.board);
    hide Fen.Set, Fen.BoardError, Fen.WellPlaced, Fen.EpCounts, AttackersToExist, Indices.BoardFine, Occ, Pieces;
  }

  /** A search thread on the position of a string: whatever is accepted can be searched and evaluated. */
  method Begin(s: string, chess960: bool, z: Zobrist, si: StateInfo, n: Features.Network, maxSize: nat)
      returns (r: Placement.Result<Fen.Setup>, w: Worker?)
    requires ZobristOk(z) && maxSize > 0
    modifies si
    ensures r == Fen.Set(s, chess960) && (r.Ok? <==> w != null)
    ensures r.Ok? ==>
              && fresh(w) && fresh(w.pos) && fresh(w.pos.board) && fresh(w.stack) && fresh(w.stack.accumulators)
              && fresh(w.cache) && w.Valid() && w.pos.Pieces64() == r.value.board && w.pos.sideToMove == r.value.side
              && w.pos.line == [si] && w.root == 0 && w.stack.net == n && w.stack.accumulators.Length == maxSize
  {
    hide *;
    var q: Position?, h;
    r, q, h := Loading.SetFrom(s, chess960, z, si);
    w := null;
    if r.Ok? {
      AcceptedSuits(s, chess960);
      HereCoherent(q, h);
      q.TopOfRun();
      w := new Worker(q, h, n, maxSize);
    }
  }
}
