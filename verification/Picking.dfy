/** The staged picker and the generator together: what a search is given are the generated moves, each once. */
module Picking {
  import opened Options
  import opened Types
  import opened Board
  import opened Legality
  import MoveGen
  import MovePick

  /** Every move of the list once. */
  ghost predicate AllOnce(g: MoveGen.Source, given: seq<Move>)
    requires Pieces(g.v.board, g.v.us, King) != {}
  {
    forall m :: multiset(given)[m] == MoveGen.One(m in MoveGen.ListedMoves(g, MoveGen.Kind(g)))
  }

  lemma NeverSkipped(skip: nat -> bool, n: nat)
    requires forall k :: !skip(k)
    ensures !MovePick.SkippedBy(skip, n)
  {
    if n > 0 { NeverSkipped(skip, n - 1); }
  }

  /** Captures and quiets, and the table move before them, are the moves out of check. */
  lemma MainOnce(g: MoveGen.Source, c: MovePick.Context, tt: Option<Move>, useTt: bool, given: seq<Move>,
      quiets: multiset<Move>)
    requires MoveGen.SourceOk(g, MoveGen.NonEvasions) && Pieces(g.v.board, g.v.us, King) != {} && g.v.checkers == {}
    requires MoveGen.Grown([], c.captures, MoveGen.ListedMoves(g, MoveGen.Captures))
    requires MoveGen.Grown([], c.quiets, MoveGen.ListedMoves(g, MoveGen.Quiets))
    requires MovePick.EachOnce(c, tt, useTt, given, quiets) && quiets == MovePick.Except(multiset(c.quiets), tt)
    requires useTt <==> tt.Some? && tt.value in MoveGen.ListedMoves(g, MoveGen.NonEvasions)
    ensures AllOnce(g, given)
  {
    hide MoveGen.SourceOk, MoveGen.Listed, MoveGen.CaptureStage;
    forall m ensures multiset(given)[m] == MoveGen.One(m in MoveGen.ListedMoves(g, MoveGen.Kind(g))) {
      MoveGen.StagesSplit(g, m);
    }
  }

  lemma OtherOnce(g: MoveGen.Source, c: MovePick.Context, tt: Option<Move>, useTt: bool, given: seq<Move>)
    requires Pieces(g.v.board, g.v.us, King) != {} && g.v.checkers != {}
    requires MoveGen.Grown([], c.evasions, MoveGen.ListedMoves(g, MoveGen.Evasions))
    requires forall m ::
        multiset(given)[m] == if Some(m) == tt then (if useTt then 1 else 0) else multiset(c.evasions)[m]
    requires useTt <==> tt.Some? && tt.value in MoveGen.ListedMoves(g, MoveGen.Evasions)
    ensures AllOnce(g, given)
  {
    hide MoveGen.ListedMoves;
  }

  lemma InLists(g: MoveGen.Source, m: Move)
    requires Pieces(g.v.board, g.v.us, King) != {}
    ensures m in MoveGen.ListedMoves(g, MoveGen.Kind(g)) <==> MoveGen.Listed(g, MoveGen.Kind(g), m)
  {
    hide MoveGen.Listed;
  }

  /**
   * A whole search node: whatever table move comes in, and whatever the scores and exchange
   * tests say, the moves given are those generated, each exactly once, a usable table move first.
   */
  method PickAll(g: MoveGen.Source, ttm: Option<Move>, d: int, score: (MovePick.ScoreType, Move) -> int,
      seeGe: (Move, int) -> bool)
    returns (given: seq<Move>)
    requires MoveGen.SourceOk(g, MoveGen.Kind(g)) && (g.v.checkers != {} || d > 0)
    requires ttm.Some? && ttm.value.mtype == Normal ==> ttm.value.promo == Knight
    ensures Pieces(g.v.board, g.v.us, King) != {} && AllOnce(g, given)
    ensures ttm.Some? && ttm.value in MoveGen.ListedMoves(g, MoveGen.Kind(g)) ==> given != [] && given[0] == ttm.value
  {
    hide MoveGen.SourceOk, MoveGen.Listed, MoveGen.ListedMoves, MoveGen.Grown, MovePick.MovePicker.Valid, AllOnce,
        Pieces, MovePick.EachOnce, MovePick.Except;
    MoveGen.SourceKing(g, MoveGen.Kind(g));
    var pseudoLegal := false;
    if ttm.Some? {
      pseudoLegal := MoveGen.IsPseudoLegal(g, ttm.value);
      InLists(g, ttm.value);
    }
    if g.v.checkers != {} {
      var evasions := MoveGen.GenerateAll(g, MoveGen.Evasions);
      var c := MovePick.Context([], [], evasions, score, seeGe);
      var p := new MovePick.MovePicker(c, ttm, pseudoLegal, true, d, |evasions|);
      given := p.RunOther();
      OtherOnce(g, c, ttm, p.useTt, given);
    } else {
      StageSource(g);
      var captures := MoveGen.GenerateAll(g, MoveGen.Captures);
      var quiets := MoveGen.GenerateAll(g, MoveGen.Quiets);
      var c := MovePick.Context(captures, quiets, [], score, seeGe);
      var p := new MovePick.MovePicker(c, ttm, pseudoLegal, false, d, |captures| + |quiets|);
      var never := (n: nat) => false;
      given := p.RunMain(never);
      NeverSkipped(never, |given| + 1);
      MainOnce(g, c, ttm, p.useTt, given, p.outQ);
    }
  }

  lemma StageSource(g: MoveGen.Source)
    requires MoveGen.SourceOk(g, MoveGen.Kind(g)) && g.v.checkers == {}
    ensures MoveGen.SourceOk(g, MoveGen.Captures) && MoveGen.SourceOk(g, MoveGen.Quiets)
  {
    hide ViewOk;
  }
}
