/**
 * The relation "this piece threatens that piece" that the network's threat features are
 * built from, and how it changes when one square is emptied or filled.
 */
module Threats {
  import opened Types
  import opened Geometry
  import opened Board

  /** A piece on square s threatening another on ts. */
  datatype Threat = Threat(pc: Piece, threatened: Piece, s: Square, ts: Square)

  /** Which types take part: no kings, pawns only at knights and rooks, rooks and bishops not at queens. */
  predicate Counted(a: PieceType, v: PieceType) {
    && !a.King? && !v.King?
    && (a.Pawn? ==> v.Knight? || v.Rook?)
    && (a.Bishop? || a.Rook? ==> !v.Queen?)
  }

  /** The full threat relation of a board. */
  predicate IsThreat(b: Board, t: Threat) {
    && b[t.s] == t.pc && b[t.ts] == t.threatened
    && t.pc.Man? && t.threatened.Man?
    && Counted(t.pc.kind, t.threatened.kind)
    && Attacks(Occ(b), t.pc, t.s, t.ts)
  }

  /** A slider that reaches s and, past s, the first piece behind it. */
  predicate Discovered(b: Board, s: Square, t: Threat) {
    && b[t.s] == t.pc && b[t.ts] == t.threatened
    && t.pc.Man? && t.threatened.Man? && IsSlider(t.pc.kind)
    && Counted(t.pc.kind, t.threatened.kind)
    && SlidesAlong(t.pc.kind, t.s, s)
    && Between(t.s, s, t.ts) && Sees(Occ(b), t.s, s) && Sees(Occ(b), s, t.ts)
  }

  lemma OccUpdate(b: Board, s: Square, p: Piece)
    ensures Occ(b[s := p]) == if p == Empty then Occ(b) - {s} else Occ(b) + {s}
  {
    var c := b[s := p];
    forall t: Square ensures t in Occ(c) <==> if t == s then p != Empty else t in Occ(b) {}
  }

  /**
   * Emptying s loses exactly the threats by or at the piece there, and gains exactly the
   * threats of the sliders it was shielding others from.
   */
  lemma EmptySquare(b: Board, s: Square, t: Threat)
    requires b[s] != Empty
    ensures var a := b[s := Empty];
            && (IsThreat(b, t) && !IsThreat(a, t) <==> IsThreat(b, t) && (t.s == s || t.ts == s))
            && (IsThreat(a, t) && !IsThreat(b, t) <==> Discovered(b, s, t))
  {
    hide RookLine, BishopLine, Between, Aligned, Df, Dr;
    var a := b[s := Empty];
    OccUpdate(b, s, Empty);
    if t.s != s && t.ts != s {
      SeesThrough(Occ(b), s, t.s, t.ts);
    }
    if Discovered(b, s, t) {
      BetweenDistinct(t.s, s, t.ts);
      BetweenTypes(t.s, s, t.ts);
    }
    if Between(t.s, s, t.ts) {
      BetweenDistinct(t.s, s, t.ts);
      BetweenTypes(t.s, s, t.ts);
    }
  }

  lemma BetweenTypes(a: Square, m: Square, b: Square)
    requires Between(a, m, b)
    ensures RookLine(a, b) == RookLine(a, m) == RookLine(m, b)
    ensures BishopLine(a, b) == BishopLine(a, m) == BishopLine(m, b)
  {
    SameRayType(a, m, b);
    SameRayType(b, m, a);
    AlignedSym(a, b);
    AlignedSym(m, b);
  }

  // ----- The list of changes -----

  /** One entry of the dirty-threat list: a threat that appears or disappears. */
  datatype DirtyThreat = DirtyThreat(t: Threat, add: bool)

  class DirtyThreats {
    var list: seq<DirtyThreat>

    constructor ()
      ensures list == []
    {
      list := [];
    }
  }

  /** Entries saying t appears, minus entries saying it disappears. */
  ghost function Net(list: seq<DirtyThreat>, t: Threat): int {
    var added: int := multiset(list)[DirtyThreat(t, true)];
    var removed: int := multiset(list)[DirtyThreat(t, false)];
    added - removed
  }

  ghost function Present(b: Board, t: Threat): int { if IsThreat(b, t) then 1 else 0 }

  /** `later` is `earlier` with each entry of E appended once. */
  ghost predicate Appended(earlier: seq<DirtyThreat>, later: seq<DirtyThreat>, E: iset<DirtyThreat>) {
    forall e :: multiset(later)[e] == multiset(earlier)[e] + (if e in E then 1 else 0)
  }

  lemma AppendOne(earlier: seq<DirtyThreat>, later: seq<DirtyThreat>, E: iset<DirtyThreat>, x: DirtyThreat)
    requires Appended(earlier, later, E) && x !in E
    ensures Appended(earlier, later + [x], E + iset{x})
  {}

  lemma AppendBoth(l0: seq<DirtyThreat>, l1: seq<DirtyThreat>, l2: seq<DirtyThreat>,
                   E: iset<DirtyThreat>, F: iset<DirtyThreat>)
    requires Appended(l0, l1, E) && Appended(l1, l2, F) && E !! F
    ensures Appended(l0, l2, E + F)
  {}

  predicate CanSliderThreat(pc: Piece, slider: Piece)
    requires pc.Man? && slider.Man?
  {
    !pc.kind.Queen? || slider.kind.Queen?
  }

  /** Threats made by the piece on s against the squares of done. */
  ghost function Outgoing(b: Board, s: Square, put: bool, done: Bitboard): iset<DirtyThreat> {
    iset e: DirtyThreat | e.add == put && IsThreat(b, e.t) && e.t.s == s && e.t.ts in done
  }

  /** Threats made against the piece on s from the squares of done. */
  ghost function Incoming(b: Board, s: Square, put: bool, done: Bitboard): iset<DirtyThreat> {
    iset e: DirtyThreat | e.add == put && IsThreat(b, e.t) && e.t.ts == s && e.t.s in done
  }

  /** Threats opened behind s by the sliders of done, unless the ray holds all of noRays. */
  ghost function Behind(b: Board, s: Square, put: bool, noRays: Bitboard, done: Bitboard): iset<DirtyThreat> {
    iset e: DirtyThreat |
      e.add != put && Discovered(b, s, e.t) && e.t.s in done && !(noRays <= RayPass(e.t.s, s))
  }

  /** Everything the update of square s has to report. */
  ghost function Reported(b: Board, s: Square, put: bool, ray: bool, noRays: Bitboard): iset<DirtyThreat> {
    Outgoing(b, s, put, AllSquares()) + Incoming(b, s, put, AllSquares())
    + (if ray then Behind(b, s, put, noRays, AllSquares()) else iset{})
  }

  /** The occupied squares, kings left out: `occupied ^ pieces(KING)`. */
  function OccNoKings(b: Board): Bitboard {
    set q: Square | 0 <= q < 64 && b[q].Man? && !b[q].kind.King?
  }

  /** The sliders that reach s. */
  function SlidersOn(b: Board, s: Square): Bitboard {
    set q: Square | 0 <= q < 64 && b[q].Man? && IsSlider(b[q].kind) && Attacks(Occ(b), b[q], q, s)
  }

  /** What the masks of the slider loop single out for one slider. */
  function BehindMask(b: Board, s: Square, q: Square): Bitboard {
    RayPass(q, s) * (BishopBB(Occ(b), s) + RookBB(Occ(b), s)) * OccNoKings(b)
  }

  lemma BehindMaskMeaning(b: Board, s: Square, q: Square, x: Square)
    requires q in SlidersOn(b, s)
    ensures x in BehindMask(b, s, q) <==>
            Between(q, s, x) && Sees(Occ(b), s, x) && b[x].Man? && !b[x].kind.King?
  {
    hide RookLine, BishopLine, Df, Dr, Between, SameRay;
    if b[x].Man? { RayBehind(Occ(b), q, s, x); }
    if Between(q, s, x) { BetweenDistinct(q, s, x); }
  }

  /** One slider contributes at most one discovered threat: the one the loop emits. */
  lemma BehindOne(b: Board, s: Square, put: bool, noRays: Bitboard, q: Square, e: DirtyThreat)
    requires q in SlidersOn(b, s) && b[s].Man?
    ensures var mask := BehindMask(b, s, q);
            e in Behind(b, s, put, noRays, {q}) <==>
            && mask != {} && !(noRays <= RayPass(q, s))
            && b[Lsb(mask)].Man? && CanSliderThreat(b[Lsb(mask)], b[q])
            && e == DirtyThreat(Threat(b[q], b[Lsb(mask)], q, Lsb(mask)), !put)
  {
    hide RookLine, BishopLine, Df, Dr, Between, SameRay, Sees;
    var mask := BehindMask(b, s, q);
    BehindMaskMeaning(b, s, q, e.t.ts);
    if mask != {} {
      BehindMaskMeaning(b, s, q, Lsb(mask));
      if e.t.ts in mask {
        BehindUnique(Occ(b), q, s, e.t.ts, Lsb(mask));
      }
    }
  }

  lemma IncomingOne(b: Board, s: Square, put: bool, q: Square, e: DirtyThreat)
    requires q in SlidersOn(b, s) && b[s].Man? && !b[s].kind.King?
    ensures e in Incoming(b, s, put, {q}) <==>
            CanSliderThreat(b[s], b[q]) && e == DirtyThreat(Threat(b[q], b[s], q, s), put)
  {
    hide RookLine, BishopLine, Df, Dr, Sees;
  }

  /** What the slider loop has to report for the sliders of done. */
  ghost function SliderWork(b: Board, s: Square, put: bool, noRays: Bitboard, direct: bool,
      done: Bitboard): iset<DirtyThreat> {
    Behind(b, s, put, noRays, done) + (if direct then Incoming(b, s, put, done) else iset{})
  }

  lemma SliderWorkStep(b: Board, s: Square, put: bool, noRays: Bitboard, direct: bool, done: Bitboard, q: Square)
    requires q !in done
    ensures SliderWork(b, s, put, noRays, direct, done + {q}) ==
            SliderWork(b, s, put, noRays, direct, done) + SliderWork(b, s, put, noRays, direct, {q})
    ensures SliderWork(b, s, put, noRays, direct, done) !! SliderWork(b, s, put, noRays, direct, {q})
  {
    hide IsThreat, Discovered, RayPass;
  }

  lemma OutgoingStep(b: Board, s: Square, put: bool, done: Bitboard, q: Square)
    requires q !in done
    ensures Outgoing(b, s, put, done + {q}) == Outgoing(b, s, put, done) + Outgoing(b, s, put, {q})
    ensures Outgoing(b, s, put, done) !! Outgoing(b, s, put, {q})
  {
    hide IsThreat;
  }

  lemma IncomingStep(b: Board, s: Square, put: bool, done: Bitboard, q: Square)
    requires q !in done
    ensures Incoming(b, s, put, done + {q}) == Incoming(b, s, put, done) + Incoming(b, s, put, {q})
    ensures Incoming(b, s, put, done) !! Incoming(b, s, put, {q})
  {
    hide IsThreat;
  }

  lemma NoWork(b: Board, s: Square, put: bool, noRays: Bitboard, direct: bool, list: seq<DirtyThreat>)
    ensures Appended(list, list, SliderWork(b, s, put, noRays, direct, {}))
    ensures Appended(list, list, Incoming(b, s, put, {}))
    ensures Appended(list, list, Outgoing(b, s, put, {}))
  {}

  // ----- The masks of update_piece_threats -----

  /** The squares the piece on s threatens, as the type filter of the code leaves them. */
  function ThreatenedMask(b: Board, s: Square, pc: Piece): Bitboard
    requires pc.Man?
  {
    var reach := AttackBB(Occ(b), pc, s) * OccNoKings(b);
    match pc.kind
    case Pawn => reach * (ByType(b, Knight) + ByType(b, Rook))
    case Bishop => reach * (ByType(b, Pawn) + ByType(b, Knight) + ByType(b, Bishop) + ByType(b, Rook))
    case Rook => reach * (ByType(b, Pawn) + ByType(b, Knight) + ByType(b, Bishop) + ByType(b, Rook))
    case _ => reach
  }

  /** Knights, and pawns when the piece is one pawns are counted against. */
  function LeaperMask(b: Board, s: Square, pc: Piece): Bitboard
    requires pc.Man?
  {
    KnightBB(s) * ByType(b, Knight)
    + (if pc.kind.Knight? || pc.kind.Rook?
       then PawnBB(White, s) * Pieces(b, Black, Pawn) + PawnBB(Black, s) * Pieces(b, White, Pawn)
       else {})
  }

  function SliderMask(b: Board, s: Square): Bitboard {
    (ByType(b, Rook) + ByType(b, Queen)) * RookBB(Occ(b), s)
    + (ByType(b, Bishop) + ByType(b, Queen)) * BishopBB(Occ(b), s)
  }

  function DirectSliderMask(b: Board, s: Square, pc: Piece): Bitboard
    requires pc.Man?
  {
    if pc.kind.Queen? then SliderMask(b, s) * ByType(b, Queen) else SliderMask(b, s)
  }

  lemma SliderMaskMeaning(b: Board, s: Square)
    ensures SliderMask(b, s) == SlidersOn(b, s)
  {
    hide RookLine, BishopLine, Df, Dr, Between, SameRay, Sees;
    forall q: Square
      ensures q in SliderMask(b, s) <==> q in SlidersOn(b, s)
    {
      AlignedSym(q, s);
      SeesSym(Occ(b), q, s);
    }
  }

  lemma ThreatenedMaskMeaning(b: Board, s: Square, t: Square)
    requires b[s].Man? && !b[s].kind.King?
    ensures t in ThreatenedMask(b, s, b[s]) <==> IsThreat(b, Threat(b[s], b[t], s, t))
  {
    hide Attacks;
  }

  /** Which attackers of s the incoming masks hold. */
  lemma LeaperMaskMeaning(b: Board, s: Square, q: Square)
    requires b[s].Man? && !b[s].kind.King?
    ensures q in LeaperMask(b, s, b[s]) <==>
            IsThreat(b, Threat(b[q], b[s], q, s)) && !IsSlider(b[q].kind)
  {
    hide PawnAttacks, KnightAttacks, KingAttacks, SlidesAlong, Sees;
    PawnAttacksReverse(White, s, q);
    PawnAttacksReverse(Black, s, q);
    KnightAttacksSym(s, q);
    assert q in KnightBB(s) <==> KnightAttacks(q, s);
    assert q in PawnBB(White, s) <==> PawnAttacks(Black, q, s);
    assert q in PawnBB(Black, s) <==> PawnAttacks(White, q, s);
    assert q in ByType(b, Knight) <==> b[q].Man? && b[q].kind == Knight;
    assert q in Pieces(b, Black, Pawn) <==> b[q] == Man(Black, Pawn);
    assert q in Pieces(b, White, Pawn) <==> b[q] == Man(White, Pawn);
    if b[q].Man? {
      assert b[q] == Man(b[q].color, b[q].kind);
    }
  }

  lemma DirectSliderMaskMeaning(b: Board, s: Square, q: Square)
    requires b[s].Man? && !b[s].kind.King?
    ensures q in DirectSliderMask(b, s, b[s]) <==>
            IsThreat(b, Threat(b[q], b[s], q, s)) && IsSlider(b[q].kind)
  {
    SliderMaskMeaning(b, s);
    hide PawnAttacks, KnightAttacks, KingAttacks, SlidesAlong, Sees, SliderMask;
  }

  /** The masks of s do not depend on what stands on s. */
  lemma MasksIgnoreSelf(a: Board, s: Square, pc: Piece)
    requires pc.Man?
    ensures var b := a[s := pc];
            && ThreatenedMask(a, s, pc) == ThreatenedMask(b, s, pc)
            && LeaperMask(a, s, pc) == LeaperMask(b, s, pc)
            && SliderMask(a, s) == SliderMask(b, s)
            && DirectSliderMask(a, s, pc) == DirectSliderMask(b, s, pc)
  {
    hide RookLine, BishopLine, Df, Dr, Between, SameRay, Sees;
    var b := a[s := pc];
    OccUpdate(a, s, pc);
    assert Occ(a) - {s} == Occ(b) - {s};
    forall t: Square
      ensures t in AttackBB(Occ(a), pc, s) <==> t in AttackBB(Occ(b), pc, s)
      ensures t in RookBB(Occ(a), s) <==> t in RookBB(Occ(b), s)
      ensures t in BishopBB(Occ(a), s) <==> t in BishopBB(Occ(b), s)
    {
      SeesEnds(Occ(a), Occ(b), s, t);
    }
    assert AttackBB(Occ(a), pc, s) == AttackBB(Occ(b), pc, s);
    assert RookBB(Occ(a), s) == RookBB(Occ(b), s);
    assert BishopBB(Occ(a), s) == BishopBB(Occ(b), s);
    NotSelf(Occ(b), pc, s);
    NotSelfType(a, s, pc);
  }

  lemma NotSelf(occ: Bitboard, pc: Piece, s: Square)
    ensures s !in AttackBB(occ, pc, s) && s !in RookBB(occ, s) && s !in BishopBB(occ, s)
    ensures s !in KnightBB(s) && s !in PawnBB(White, s) && s !in PawnBB(Black, s)
  {}

  lemma NotSelfType(a: Board, s: Square, pc: Piece)
    ensures var b := a[s := pc];
            && OccNoKings(a) - {s} == OccNoKings(b) - {s}
            && (forall k :: ByType(a, k) - {s} == ByType(b, k) - {s})
            && (forall c, k :: Pieces(a, c, k) - {s} == Pieces(b, c, k) - {s})
  {}

  /** Put together, the masks account for everything there is to report. */
  lemma DirectReports(b: Board, s: Square, put: bool, targets: Bitboard, sources: Bitboard)
    requires b[s].Man?
    requires forall q: Square :: q in targets <==> IsThreat(b, Threat(b[s], b[q], s, q))
    requires forall q: Square :: q in sources <==> IsThreat(b, Threat(b[q], b[s], q, s))
    ensures Outgoing(b, s, put, AllSquares()) == Outgoing(b, s, put, targets)
    ensures Incoming(b, s, put, AllSquares()) == Incoming(b, s, put, sources)
    ensures Outgoing(b, s, put, AllSquares()) !! Incoming(b, s, put, AllSquares())
  {
    hide Attacks;
    forall e: DirtyThreat | IsThreat(b, e.t)
      ensures e.t.s == s ==> e.t.ts in targets
      ensures e.t.ts == s ==> e.t.s in sources
      ensures e.t.s != e.t.ts
    {
      assert e.t == Threat(b[e.t.s], b[e.t.ts], e.t.s, e.t.ts);
      NoSelfAttack(Occ(b), e.t.pc, e.t.s);
    }
  }

  lemma BehindAll(b: Board, s: Square, put: bool, noRays: Bitboard)
    ensures Behind(b, s, put, noRays, AllSquares()) == Behind(b, s, put, noRays, SlidersOn(b, s))
  {
    hide Sees, Between, RayPass;
  }

  lemma KingReports(b: Board, s: Square, put: bool)
    requires b[s].Man? && b[s].kind.King?
    ensures Outgoing(b, s, put, AllSquares()) == iset{}
    ensures Incoming(b, s, put, AllSquares()) == iset{}
  {}

  lemma IncomingUnion(b: Board, s: Square, put: bool, p: Bitboard, q: Bitboard)
    requires p !! q
    ensures Incoming(b, s, put, p + q) == Incoming(b, s, put, p) + Incoming(b, s, put, q)
    ensures Incoming(b, s, put, p) !! Incoming(b, s, put, q)
  {
    hide IsThreat;
  }

  lemma BehindDisjoint(b: Board, s: Square, put: bool, noRays: Bitboard, p: Bitboard, q: Bitboard)
    ensures Behind(b, s, put, noRays, p) !! Outgoing(b, s, put, q)
    ensures Behind(b, s, put, noRays, p) !! Incoming(b, s, put, q)
  {
    hide IsThreat, Discovered, RayPass;
  }

  /** With no square left out, the report is exactly the change in the threat relation. */
  lemma ReportIsChange(b: Board, s: Square, put: bool, earlier: seq<DirtyThreat>, later: seq<DirtyThreat>, t: Threat)
    requires b[s].Man?
    requires Appended(earlier, later, Reported(b, s, put, true, AllSquares()))
    ensures Net(later, t) - Net(earlier, t) ==
            if put then Present(b, t) - Present(b[s := Empty], t) else Present(b[s := Empty], t) - Present(b, t)
  {
    hide IsThreat, Discovered;
    EmptySquare(b, s, t);
    RayNotAll(t.s, s);
  }

  lemma RayNotAll(q: Square, s: Square)
    ensures !(AllSquares() <= RayPass(q, s))
  {
    assert q in AllSquares();
  }

  /** Exchanging the piece on a square needs no discovered threats. */
  lemma ExchangeIsChange(b: Board, s: Square, pc: Piece, l0: seq<DirtyThreat>, l1: seq<DirtyThreat>,
      l2: seq<DirtyThreat>, t: Threat)
    requires b[s].Man? && pc.Man?
    requires Appended(l0, l1, Reported(b, s, false, false, AllSquares()))
    requires Appended(l1, l2, Reported(b[s := pc], s, true, false, AllSquares()))
    ensures Net(l2, t) - Net(l0, t) == Present(b[s := pc], t) - Present(b, t)
  {
    hide IsThreat, Discovered;
    var c := b[s := pc];
    assert c[s := Empty] == b[s := Empty];
    EmptySquare(b, s, t);
    EmptySquare(c, s, t);
    ExchangeShields(b, s, pc, t);
  }

  /** What a piece shields does not depend on which piece it is. */
  lemma ExchangeShields(b: Board, s: Square, pc: Piece, t: Threat)
    requires b[s].Man? && pc.Man?
    ensures Discovered(b, s, t) == Discovered(b[s := pc], s, t)
  {
    OccUpdate(b, s, pc);
    assert Occ(b[s := pc]) == Occ(b);
    if Between(t.s, s, t.ts) { BetweenDistinct(t.s, s, t.ts); }
  }

  lemma MasksMeaning(b: Board, s: Square)
    requires b[s].Man? && !b[s].kind.King?
    ensures forall q: Square :: q in ThreatenedMask(b, s, b[s]) <==> IsThreat(b, Threat(b[s], b[q], s, q))
    ensures forall q: Square :: q in LeaperMask(b, s, b[s]) <==>
              IsThreat(b, Threat(b[q], b[s], q, s)) && !IsSlider(b[q].kind)
    ensures forall q: Square :: q in DirectSliderMask(b, s, b[s]) <==>
              IsThreat(b, Threat(b[q], b[s], q, s)) && IsSlider(b[q].kind)
  {
    forall q: Square
      ensures q in ThreatenedMask(b, s, b[s]) <==> IsThreat(b, Threat(b[s], b[q], s, q))
      ensures q in LeaperMask(b, s, b[s]) <==> IsThreat(b, Threat(b[q], b[s], q, s)) && !IsSlider(b[q].kind)
      ensures q in DirectSliderMask(b, s, b[s]) <==> IsThreat(b, Threat(b[q], b[s], q, s)) && IsSlider(b[q].kind)
    {
      ThreatenedMaskMeaning(b, s, q);
      LeaperMaskMeaning(b, s, q);
      DirectSliderMaskMeaning(b, s, q);
    }
  }

  /** The emission loops, run one after the other, report everything once. */
  lemma Assembled(b: Board, s: Square, put: bool, ray: bool, noRays: Bitboard,
                  l0: seq<DirtyThreat>, l1: seq<DirtyThreat>, l2: seq<DirtyThreat>, l3: seq<DirtyThreat>)
    requires b[s].Man? && !b[s].kind.King?
    requires Appended(l0, l1, Outgoing(b, s, put, ThreatenedMask(b, s, b[s])))
    requires if ray then Appended(l1, l2, SliderWork(b, s, put, noRays, true, SlidersOn(b, s))) else l1 == l2
    requires Appended(l2, l3, Incoming(b, s, put, LeaperMask(b, s, b[s]) +
                                                  (if ray then {} else DirectSliderMask(b, s, b[s]))))
    ensures Appended(l0, l3, Reported(b, s, put, ray, noRays))
  {
    hide IsThreat, Discovered, Appended, ThreatenedMask, LeaperMask, DirectSliderMask;
    var targets, leapers, direct := ThreatenedMask(b, s, b[s]), LeaperMask(b, s, b[s]), DirectSliderMask(b, s, b[s]);
    MasksMeaning(b, s);
    assert leapers !! direct;
    DirectReports(b, s, put, targets, leapers + direct);
    IncomingUnion(b, s, put, leapers, direct);
    SlidersIncoming(b, s, put);
    BehindAll(b, s, put, noRays);
    if ray {
      var behind := Behind(b, s, put, noRays, AllSquares());
      BehindDisjoint(b, s, put, noRays, AllSquares(), AllSquares());
      BehindDisjoint(b, s, put, noRays, AllSquares(), leapers);
      BehindDisjoint(b, s, put, noRays, AllSquares(), targets);
      var inDirect, inLeapers, out := Incoming(b, s, put, direct), Incoming(b, s, put, leapers),
          Outgoing(b, s, put, targets);
      assert leapers + {} == leapers;
      AppendBoth(l0, l1, l2, out, behind + inDirect);
      AppendBoth(l0, l2, l3, out + (behind + inDirect), inLeapers);
      assert Reported(b, s, put, ray, noRays) == out + (behind + inDirect) + inLeapers;
    } else {
      AppendBoth(l0, l1, l3, Outgoing(b, s, put, targets), Incoming(b, s, put, leapers + direct));
      assert Reported(b, s, put, ray, noRays) == Outgoing(b, s, put, targets) + Incoming(b, s, put, leapers + direct);
    }
  }

  /** The sliders counted against the piece on s are the direct ones. */
  lemma SlidersIncoming(b: Board, s: Square, put: bool)
    requires b[s].Man? && !b[s].kind.King?
    ensures Incoming(b, s, put, SlidersOn(b, s)) == Incoming(b, s, put, DirectSliderMask(b, s, b[s]))
  {
    hide DirectSliderMask, SlidesAlong, Sees;
    forall e: DirtyThreat | IsThreat(b, e.t) && e.t.ts == s
      ensures e.t.s in SlidersOn(b, s) <==> e.t.s in DirectSliderMask(b, s, b[s])
    {
      DirectSliderMaskMeaning(b, s, e.t.s);
    }
  }

  lemma MaskAlgebra(b: Board)
    ensures ByType(b, Pawn) * ByColor(b, White) == Pieces(b, White, Pawn)
    ensures ByType(b, Pawn) * ByColor(b, Black) == Pieces(b, Black, Pawn)
    ensures Occ(b) - ByType(b, King) == OccNoKings(b)
  {}

  /** A king is never counted, so only the sliders it shields from matter. */
  lemma KingAssembled(b: Board, s: Square, put: bool, ray: bool, noRays: Bitboard, l0: seq<DirtyThreat>,
      l1: seq<DirtyThreat>)
    requires b[s].Man? && b[s].kind.King?
    requires if ray then Appended(l0, l1, SliderWork(b, s, put, noRays, false, SlidersOn(b, s))) else l0 == l1
    ensures Appended(l0, l1, Reported(b, s, put, ray, noRays))
  {
    hide IsThreat, Discovered;
    KingReports(b, s, put);
    BehindAll(b, s, put, noRays);
  }

  // ----- Sliding a piece along an empty path -----

  /** No piece stands strictly between two squares. */
  predicate PathClear(b: Board, s: Square, t: Square) {
    forall m: Square | 0 <= m < 64 && Between(s, m, t) :: b[m] == Empty
  }

  /** The discovered threats left out because the ray holds both ends of the move. */
  ghost predicate Skipped(b: Board, s: Square, other: Square, t: Threat) {
    Discovered(b, s, t) && SameRay(t.s, s, other)
  }

  /** A threat past both ends of the move is shielded before it and after it. */
  lemma SkippedCarriesOver(b: Board, s: Square, to: Square, t: Threat)
    requires s != to && b[s].Man? && b[to] == Empty && PathClear(b, s, to)
    requires Skipped(b, s, to, t)
    ensures Skipped(b[s := Empty][to := b[s]], to, s, t)
  {
    hide RookLine, BishopLine, Df, Dr;
    var c: Board := b[s := Empty][to := b[s]];
    var q, x := t.s, t.ts;
    OccUpdate(b, s, Empty);
    OccUpdate(b[s := Empty], to, b[s]);
    assert Occ(c) == Occ(b) - {s} + {to};
    BetweenDistinct(q, s, x);
    SameRayTotal(q, s, to);
    BetweenTypes(q, s, x);
    assert c[q] == b[q] && c[x] == b[x];
    if Between(q, s, to) {
      SkippedPast(b, s, to, q, x);
    } else {
      SkippedBefore(b, s, to, q, x);
    }
    BetweenTypes(q, to, x);
  }

  lemma SkippedPast(b: Board, s: Square, to: Square, q: Square, x: Square)
    requires b[s].Man? && b[to] == Empty && PathClear(b, s, to) && b[x].Man?
    requires Between(q, s, x) && Sees(Occ(b), q, s) && Sees(Occ(b), s, x) && Between(q, s, to)
    ensures var occ := Occ(b) - {s} + {to};
            Between(q, to, x) && Sees(occ, q, to) && Sees(occ, to, x)
  {
    hide RookLine, BishopLine, Df, Dr, SameRay;
    var occ := Occ(b) - {s} + {to};
    RayShared(q, s, to, x);
    SameRayTotal(q, to, x);
    if Between(q, x, to) {
      BetweenSplit(q, s, x, to);
      BetweenDistinct(q, s, x);
    }
    BetweenDistinct(q, to, x);
    forall m: Square | 0 <= m < 64 && Between(q, m, to)
      ensures m !in occ
    {
      BetweenDistinct(q, m, to);
      if m != s { BetweenSplit(q, s, m, to); }
    }
    BetweenSplit(q, s, to, x);
    BetweenDistinct(q, s, to);
    forall m: Square | 0 <= m < 64 && Between(to, m, x)
      ensures m !in occ
    {
      BetweenDistinct(to, m, x);
      BetweenSym(to, m, x);
      BetweenSym(s, to, x);
      BetweenInner(x, m, to, s);
      BetweenSym(x, m, s);
    }
  }

  lemma SkippedBefore(b: Board, s: Square, to: Square, q: Square, x: Square)
    requires b[s].Man? && b[to] == Empty && PathClear(b, s, to) && b[x].Man?
    requires Between(q, s, x) && Sees(Occ(b), q, s) && Sees(Occ(b), s, x) && Between(q, to, s)
    ensures var occ := Occ(b) - {s} + {to};
            Between(q, to, x) && Sees(occ, q, to) && Sees(occ, to, x)
  {
    hide RookLine, BishopLine, Df, Dr, SameRay;
    var occ := Occ(b) - {s} + {to};
    BetweenInner(q, to, s, x);
    BetweenDistinct(q, to, x);
    forall m: Square | 0 <= m < 64 && Between(q, m, to)
      ensures m !in occ
    {
      BetweenInner(q, m, to, s);
      BetweenDistinct(q, m, to);
    }
    forall m: Square | 0 <= m < 64 && Between(to, m, x)
      ensures m !in occ
    {
      BetweenDistinct(to, m, x);
      if m != s {
        BetweenSplit(to, s, m, x);
        if Between(to, m, s) { BetweenSym(to, m, s); }
      }
    }
  }

  lemma RayShared(q: Square, s: Square, to: Square, x: Square)
    requires Between(q, s, to) && Between(q, s, x)
    ensures SameRay(q, to, x)
  {
    SameRayTrans(q, to, s, x);
  }

  /** Moving a piece along an empty path: the two shortened reports add up to the change. */
  lemma MoveIsChange(b: Board, s: Square, to: Square, l0: seq<DirtyThreat>, l1: seq<DirtyThreat>,
      l2: seq<DirtyThreat>, t: Threat)
    requires s != to && b[s].Man? && b[to] == Empty && PathClear(b, s, to)
    requires Appended(l0, l1, Reported(b, s, false, true, {s, to}))
    requires Appended(l1, l2, Reported(b[s := Empty][to := b[s]], to, true, true, {s, to}))
    ensures Net(l2, t) - Net(l0, t) == Present(b[s := Empty][to := b[s]], t) - Present(b, t)
  {
    var c: Board := b[s := Empty][to := b[s]];
    assert c[to := Empty][s := c[to]] == b;
    assert c[to := Empty] == b[s := Empty];
    assert PathClear(c, to, s) by {
      hide Between;
      forall m: Square | 0 <= m < 64 && Between(to, m, s)
        ensures c[m] == Empty
      {
        BetweenSym(to, m, s);
        BetweenDistinct(s, m, to);
      }
    }
    assert Skipped(b, s, to, t) <==> Skipped(c, to, s, t) by {
      if Skipped(b, s, to, t) { SkippedCarriesOver(b, s, to, t); }
      if Skipped(c, to, s, t) { SkippedCarriesOver(c, to, s, t); }
    }
    EmptySquare(b, s, t);
    EmptySquare(c, to, t);
    hide IsThreat, SameRay;
    ShortenedReport(b, s, to, false, t);
    ShortenedReport(c, to, s, true, t);
    assert {s, to} == {to, s};
    hide Discovered, Reported;
  }

  /** Which entries about t a report shortened to the pair of squares holds. */
  lemma ShortenedReport(b: Board, s: Square, other: Square, put: bool, t: Threat)
    requires b[s].Man?
    ensures DirtyThreat(t, put) in Reported(b, s, put, true, {s, other}) <==>
            IsThreat(b, t) && (t.s == s || t.ts == s)
    ensures DirtyThreat(t, !put) in Reported(b, s, put, true, {s, other}) <==>
            Discovered(b, s, t) && !Skipped(b, s, other, t)
  {
    hide IsThreat, SlidesAlong, Sees;
    if Discovered(b, s, t) {
      BetweenDistinct(t.s, s, t.ts);
      assert SameRay(t.s, s, s);
      assert s in RayPass(t.s, s);
      assert other in RayPass(t.s, s) <==> SameRay(t.s, s, other);
    }
  }

  /** The dirty list has grown by exactly the change from board b to board c. */
  ghost predicate Tracks(before: seq<DirtyThreat>, after: seq<DirtyThreat>, b: Board, c: Board) {
    forall t :: Net(after, t) - Net(before, t) == Present(c, t) - Present(b, t)
  }

  lemma PutTracks(b: Board, s: Square, pc: Piece, l0: seq<DirtyThreat>, l1: seq<DirtyThreat>)
    requires b[s] == Empty && pc.Man?
    requires Appended(l0, l1, Reported(b[s := pc], s, true, true, AllSquares()))
    ensures Tracks(l0, l1, b, b[s := pc])
  {
    hide Appended, Present, Net, Reported;
    assert b[s := pc][s := Empty] == b;
    forall t { ReportIsChange(b[s := pc], s, true, l0, l1, t); }
  }

  lemma TakeTracks(b: Board, s: Square, l0: seq<DirtyThreat>, l1: seq<DirtyThreat>)
    requires b[s].Man?
    requires Appended(l0, l1, Reported(b, s, false, true, AllSquares()))
    ensures Tracks(l0, l1, b, b[s := Empty])
  {
    hide Appended, Present, Net, Reported;
    forall t { ReportIsChange(b, s, false, l0, l1, t); }
  }

  lemma ExchangeTracks(b: Board, s: Square, pc: Piece, l0: seq<DirtyThreat>, l1: seq<DirtyThreat>, l2: seq<DirtyThreat>)
    requires b[s].Man? && pc.Man?
    requires Appended(l0, l1, Reported(b, s, false, false, AllSquares()))
    requires Appended(l1, l2, Reported(b[s := pc], s, true, false, AllSquares()))
    ensures Tracks(l0, l2, b, b[s := pc])
  {
    hide Appended, Present, Net, Reported;
    forall t { ExchangeIsChange(b, s, pc, l0, l1, l2, t); }
  }

  lemma MoveTracks(b: Board, s: Square, to: Square, l0: seq<DirtyThreat>, l1: seq<DirtyThreat>, l2: seq<DirtyThreat>)
    requires s != to && b[s].Man? && b[to] == Empty && PathClear(b, s, to)
    requires Appended(l0, l1, Reported(b, s, false, true, {s, to}))
    requires Appended(l1, l2, Reported(b[s := Empty][to := b[s]], to, true, true, {s, to}))
    ensures Tracks(l0, l2, b, b[s := Empty][to := b[s]])
  {
    hide Appended, Present, Net, Reported;
    forall t { MoveIsChange(b, s, to, l0, l1, l2, t); }
  }

  lemma TracksJoin(l0: seq<DirtyThreat>, l1: seq<DirtyThreat>, l2: seq<DirtyThreat>, b: Board, c: Board, d: Board)
    requires Tracks(l0, l1, b, c) && Tracks(l1, l2, c, d)
    ensures Tracks(l0, l2, b, d)
  {
    hide Net, Present;
    forall t
      ensures Net(l2, t) - Net(l0, t) == Present(d, t) - Present(b, t)
    {
      assert Net(l1, t) - Net(l0, t) == Present(c, t) - Present(b, t);
      assert Net(l2, t) - Net(l1, t) == Present(d, t) - Present(c, t);
    }
  }
}
