/**
 * Castling: the path that must be empty, `legal` and `gives_check` against the board after it,
 * king and rook anywhere on their first rank.
 */
module Castling {
  import opened Options
  import opened Types
  import opened Geometry
  import opened Board
  import opened Checks
  import opened Legality
  import opened Making
  import opened EnPassant
  import opened Rules

  /** `castlingPath`: what must be empty, king and rook apart. */
  function PathOf(us: Color, m: Move): Bitboard {
    BetweenBB(m.to, RookTo(us, m)) + BetweenBB(m.from, KingTo(us, m)) - {m.from, m.to}
  }

  /** A castling move as it is generated: out of check, the way empty. */
  ghost predicate Castles(v: View, m: Move) {
    var b, us := v.board, v.us;
    && m.mtype == Castling && b[m.from] == Man(us, King) && b[m.to] == Man(us, Rook)
    && RelativeRank(us, m.from) == 0 && RelativeRank(us, m.to) == 0
    && v.checkers == {} && Occ(b) * PathOf(us, m) == {}
  }

  // ----- One rank -----

  /** On one rank betweenness is a matter of numbers. */
  lemma RankLine(a: Square, b: Square)
    requires Rank(a) == Rank(b) && a != b
    ensures RookLine(a, b) && !BishopLine(a, b)
    ensures forall m: Square :: Between(a, m, b) <==> Rank(m) == Rank(a) && (a < m < b || b < m < a)
  {
    forall m: Square ensures Between(a, m, b) <==> Rank(m) == Rank(a) && (a < m < b || b < m < a) {
      RankBetween(a, m, b);
    }
  }

  lemma RankBetween(a: Square, m: Square, b: Square)
    requires Rank(a) == Rank(b) && a != b
    ensures Between(a, m, b) <==> Rank(m) == Rank(a) && (a < m < b || b < m < a)
  {
    assert a - b == File(a) - File(b);
    if Rank(m) == Rank(a) { assert a - m == File(a) - File(m); }
    hide File, Rank;
  }

  /** The first square of a side's first rank. */
  function Corner(us: Color): Square { if us.White? then 0 else 56 }

  lemma FirstRank(us: Color, s: Square)
    ensures RelativeRank(us, s) == 0 <==> Corner(us) <= s < Corner(us) + 8
    ensures RelativeRank(us, s) == 0 <==> Rank(s) == Rank(Corner(us))
  {}

  lemma Destinations(us: Color, m: Move)
    ensures KingTo(us, m) == Corner(us) + (if m.to > m.from then 6 else 2)
    ensures RookTo(us, m) == Corner(us) + (if m.to > m.from then 5 else 3)
    ensures RelativeRank(us, KingTo(us, m)) == 0 && RelativeRank(us, RookTo(us, m)) == 0
  {}

  /** Everything between the squares a castling move touches, king and rook apart, is empty. */
  lemma WayClear(v: View, m: Move, s: Square, x: Square, y: Square)
    requires Castles(v, m) && s != m.from && s != m.to
    requires x == m.from || x == m.to || x == KingTo(v.us, m) || x == RookTo(v.us, m)
    requires y == m.from || y == m.to || y == KingTo(v.us, m) || y == RookTo(v.us, m)
    requires x <= s <= y
    ensures v.board[s] == Empty
  {
    var us := v.us;
    Destinations(us, m);
    FirstRank(us, m.from);
    FirstRank(us, m.to);
    FirstRank(us, s);
    FirstRank(us, KingTo(us, m));
    FirstRank(us, RookTo(us, m));
    if m.from != KingTo(us, m) { RankLine(m.from, KingTo(us, m)); }
    if m.to != RookTo(us, m) { RankLine(m.to, RookTo(us, m)); }
    hide RelativeRank, RookLine, BishopLine, Between, RelativeSquare, Rank, KingTo, RookTo;
    assert s in PathOf(us, m);
    assert Occ(v.board) !! PathOf(us, m);
  }

  // ----- The board after castling -----

  /** Everything a castling move touches lies on the first rank; the two destinations are next to each other. */
  lemma Layout(v: View, m: Move)
    requires Castles(v, m)
    ensures var us, kt, rt := v.us, KingTo(v.us, m), RookTo(v.us, m);
            && m.from != m.to && kt != rt
            && Rank(m.from) == Rank(m.to) == Rank(kt) == Rank(rt) == Rank(Corner(us))
            && kt == Corner(us) + (if m.to > m.from then 6 else 2)
                && rt == Corner(us) + (if m.to > m.from then 5 else 3)
            && (forall s: Square :: Rank(s) == Rank(Corner(us)) <==> Corner(us) <= s < Corner(us) + 8)
            && (v.board[kt] == Empty || kt == m.from || kt == m.to)
                && (v.board[rt] == Empty || rt == m.from || rt == m.to)
  {
    var us, kt, rt := v.us, KingTo(v.us, m), RookTo(v.us, m);
    Destinations(us, m);
    if kt != m.from && kt != m.to { WayClear(v, m, kt, kt, kt); }
    if rt != m.from && rt != m.to { WayClear(v, m, rt, rt, rt); }
    forall s: Square { FirstRank(us, s); }
    hide RelativeRank, RelativeSquare, Rank, KingTo, RookTo, PathOf, Occ, Corner;
  }

  /** No path can be impeded without do_move's assertions failing: the destinations are free. */
  lemma CastlingWellFormed(v: View, m: Move, ep: Option<Square>)
    requires Castles(v, m)
    ensures MoveOk(v.board, v.us, ep, m)
  {
    Layout(v, m);
    hide RelativeRank, RelativeSquare, Rank, KingTo, RookTo, PathOf, Occ, Corner;
  }

  /** King and rook on their squares, everything else where it was. */
  lemma CastledSquare(v: View, m: Move, q: Square)
    requires Castles(v, m)
    ensures var a, kt, rt := ApplyMove(v.board, v.us, m), KingTo(v.us, m), RookTo(v.us, m);
            a[q] == if q == kt then Man(v.us, King) else if q == rt then Man(v.us, Rook)
                    else if q == m.from || q == m.to then Empty else v.board[q]
  {
    Layout(v, m);
    hide RelativeRank, RelativeSquare, Rank, KingTo, RookTo, PathOf, Corner, Occ;
  }

  lemma CastledOcc(v: View, m: Move)
    requires Castles(v, m)
    ensures Occ(ApplyMove(v.board, v.us, m)) == Occ(v.board) - {m.from, m.to} + {KingTo(v.us, m), RookTo(v.us, m)}
  {
    forall q: Square { CastledSquare(v, m, q); }
    hide RelativeRank, RelativeSquare, Rank, KingTo, RookTo, PathOf, Corner, ApplyMove, Castles;
  }

  lemma CastledKings(v: View, m: Move)
    requires ViewOk(v) && Castles(v, m)
    ensures var a := ApplyMove(v.board, v.us, m);
            && Pieces(a, v.us, King) != {} && KingSq(a, v.us) == KingTo(v.us, m) && m.from == KingSq(v.board, v.us)
            && Pieces(a, v.us.Other(), King) == Pieces(v.board, v.us.Other(), King)
  {
    var a, b, us, kt := ApplyMove(v.board, v.us, m), v.board, v.us, KingTo(v.us, m);
    Layout(v, m);
    KingUnique(b, us, m.from);
    forall s: Square ensures (a[s] == Man(us, King) <==> s == kt)
        && (a[s] == Man(us.Other(), King) <==> b[s] == Man(us.Other(), King)) {
      CastledSquare(v, m, s);
      KingUnique(b, us, s);
    }
    hide RelativeRank, RelativeSquare, Rank, KingTo, RookTo, PathOf, Corner, ApplyMove, Occ, ViewOk, Castles;
    SameKings(a, b, us, kt);
  }

  lemma SameKings(a: Board, b: Board, us: Color, kt: Square)
    requires forall s: Square :: a[s] == Man(us, King) <==> s == kt
    requires forall s: Square :: a[s] == Man(us.Other(), King) <==> b[s] == Man(us.Other(), King)
    ensures Pieces(a, us, King) == {kt} && Pieces(a, us.Other(), King) == Pieces(b, us.Other(), King)
  {}

  // ----- Legal castling -----

  /** The squares the king passes over or comes to. */
  predicate OnTheWay(us: Color, m: Move, s: Square) {
    Rank(s) == Rank(m.from) && (m.from < s <= KingTo(us, m) || KingTo(us, m) <= s < m.from)
  }

  /** No square the king passes over or comes to is attacked. */
  ghost predicate WaySafe(v: View, m: Move) {
    forall s: Square :: OnTheWay(v.us, m, s) ==> !Attacked(v.board, s, v.us.Other())
  }

  /** Out of check with a safe way, the king's destination is not attacked as the board stands. */
  lemma DestinationSafe(v: View, m: Move)
    requires ViewOk(v) && Castles(v, m) && WaySafe(v, m)
    ensures !Attacked(v.board, m.from, v.us.Other()) && !Attacked(v.board, KingTo(v.us, m), v.us.Other())
  {
    hide Rank, KingTo, RookTo, PathOf, Attacked, AttackersTo, Occ, Blockers, CheckSquaresOk, KingSq, ApplyMove,
        Pieces, ByColor, RelativeRank;
    var b, us, them := v.board, v.us, v.us.Other();
    Layout(v, m);
    CastledKings(v, m);
    Unchecked(b, m.from, them);
  }

  lemma Unchecked(b: Board, k: Square, c: Color)
    requires AttackersTo(b, k, Occ(b)) * ByColor(b, c) == {}
    ensures !Attacked(b, k, c)
  {
    hide Attacks, AttackersTo, Occ;
    forall q: Square ensures !(q in AttackersTo(b, k, Occ(b)) && q in ByColor(b, c)) {
      assert q !in AttackersTo(b, k, Occ(b)) * ByColor(b, c);
    }
    forall q: Square { AttackersToMeaning(b, k, Occ(b), q); }
  }

  /** What newly reaches the king once it has castled comes along the rank, over a square just left. */
  lemma ReachedAlongRank(v: View, m: Move, q: Square, t: Square, d: Color)
    requires Castles(v, m) && Rank(t) == Rank(m.from)
    requires Reaches(v.board, t, Occ(ApplyMove(v.board, v.us, m)), d, q) && !Attacks(Occ(v.board), v.board[q], q, t)
    ensures Rank(q) == Rank(t) && IsSlider(v.board[q].kind) && q != t
        && (v.board[q].kind == Rook || v.board[q].kind == Queen)
    ensures var l, h := if q < t then q else t, if q < t then t else q;
            && (l < m.from < h || l < m.to < h)
            && (forall y: Square | l < y < h :: y !in Occ(ApplyMove(v.board, v.us, m)))
  {
    hide Attacks, SlidesAlong, Occ, SameRay, Between, RookLine, BishopLine, ApplyMove, KingTo, RookTo, PathOf;
    var b, us, occ := v.board, v.us, Occ(ApplyMove(v.board, v.us, m));
    var x := OpenedLine(b, t, occ, d, q);
    CastledOcc(v, m);
    Layout(v, m);
    EdgeLine(us, q, x, t, x);
    BetweenDistinct(q, x, t);
    RankLine(q, t);
    RookAlong(b[q].kind, q, t);
    forall y: Square | (q < y < t || t < y < q) ensures y !in occ {
      FirstRank(us, y); FirstRank(us, q); FirstRank(us, t); assert Between(q, y, t);
    }
  }

  lemma RookAlong(k: PieceType, q: Square, t: Square)
    requires SlidesAlong(k, q, t) && RookLine(q, t)
    ensures k == Rook || k == Queen
  {
    AlignedSym(q, t);
  }

  /** A line along the rank opened onto the castled king runs over the rook's old square. */
  lemma OpenedByRook(v: View, m: Move, q: Square)
    requires ViewOk(v) && Castles(v, m) && WaySafe(v, m)
    requires Reaches(v.board, KingTo(v.us, m), Occ(ApplyMove(v.board, v.us, m)), v.us.Other(), q)
    ensures m.to in Blockers(v.board, v.us, m.from)
  {
    hide Attacks, Occ, SameRay, RookLine, BishopLine, Between, ApplyMove, KingTo, RookTo, PathOf, Corner,
        RelativeRank, Rank, Blockers, CheckSquaresOk, AttackersTo;
    var b, us, kt, rt, occ := v.board, v.us, KingTo(v.us, m), RookTo(v.us, m), Occ(ApplyMove(v.board, v.us, m));
    DestinationSafe(v, m);
    Layout(v, m);
    assert !Attacks(Occ(b), b[q], q, kt);
    ReachedAlongRank(v, m, q, kt, us.Other());
    CastledOcc(v, m);
    assert Corner(us) <= q < Corner(us) + 8;
    assert q < kt && m.to < m.from;
    if m.to < q { WayClear(v, m, q, m.to, rt); }
    assert q < m.to;
    RankLine(q, m.from);
    assert q in Snipers(b, us, m.from);
    forall y: Square | Between(q, y, m.from) && y in Occ(b) ensures y == m.to {
      Occupied(b, y);
      if y >= kt && y != m.to { WayClear(v, m, y, kt, m.from); }
    }
    Occupied(b, m.to);
    AloneIsBlocker(b, us, m.from, q, m.to);
  }

  lemma Occupied(b: Board, s: Square)
    ensures s in Occ(b) <==> b[s] != Empty
  {}

  /** A slider that the castling rook alone keeps from the king attacks it once it has castled. */
  lemma RookWasShield(v: View, m: Move) returns (z: Square)
    requires ViewOk(v) && Castles(v, m) && WaySafe(v, m)
    requires m.to in Blockers(v.board, v.us, m.from)
    ensures Reaches(v.board, KingTo(v.us, m), Occ(ApplyMove(v.board, v.us, m)), v.us.Other(), z)
  {
    hide Occ, SameRay, RookLine, BishopLine, Between, ApplyMove, KingTo, RookTo, PathOf, Corner, RelativeRank, Rank,
        Blockers, CheckSquaresOk, AttackersTo;
    var b, us, kt, rt, occ := v.board, v.us, KingTo(v.us, m), RookTo(v.us, m), Occ(ApplyMove(v.board, v.us, m));
    DestinationSafe(v, m);
    Layout(v, m);
    CastledOcc(v, m);
    z := BehindBlocker(b, us, m.from, m.to);
    SniperAligned(b, us, m.from, z);
    Occupied(b, z);
    assert !Attacks(Occ(b), b[z], z, m.from);
    assert !Attacks(Occ(b), b[z], z, kt);
    assert Between(m.from, m.to, z);
    FirstRank(us, m.to);
    EdgeLine(us, m.from, m.to, z, m.to);
    RankLine(m.from, z);
    RankLine(z, m.from);
    RookAlong(b[z].kind, z, m.from);
    if m.to > m.from {
      if z <= kt { WayClear(v, m, z, m.to, kt); } else { NextDoor(b, z, kt); }
    } else {
      if z >= kt { WayClear(v, m, z, kt, m.to); }
      RankLine(z, kt);
    }
  }

  /** A rook attacks the square next to it. */
  lemma NextDoor(b: Board, z: Square, t: Square)
    requires b[z].Man? && (b[z].kind == Rook || b[z].kind == Queen) && Rank(z) == Rank(t) && z == t + 1
    ensures Attacks(Occ(b), b[z], z, t)
  {
    RankLine(z, t);
    hide Occ, Rank, RookLine, Between;
  }

  /** `Position::legal` for castling: the way is safe, and in Chess960 the rook is no shield. */
  predicate CastlingLegal(v: View, m: Move)
    requires v.us in v.blockers
  {
    && (forall s: Square | 0 <= s < 64 && OnTheWay(v.us, m, s) ::
        !AttackersToExist(v.board, s, Occ(v.board), v.us.Other()))
    && (v.chess960 ==> m.to !in v.blockers[v.us])
  }

  lemma WayMeans(v: View, m: Move)
    ensures (forall s: Square | 0 <= s < 64 && OnTheWay(v.us, m, s) ::
        !AttackersToExist(v.board, s, Occ(v.board), v.us.Other()))
            <==> WaySafe(v, m)
  {
    hide AttackersToExist, Attacks, OnTheWay, Occ;
    forall s: Square { AttackersToExistMeaning(v.board, s, Occ(v.board), v.us.Other()); }
  }

  lemma CastlingLegalMeans(v: View, m: Move)
    requires v.us in v.blockers
    ensures CastlingLegal(v, m) <==> WaySafe(v, m) && (v.chess960 ==> m.to !in v.blockers[v.us])
  {
    WayMeans(v, m);
    hide AttackersToExist, OnTheWay, WaySafe, Occ;
  }

  /** The rules of the game: the king leaves no check, passes no attacked square, and is safe where it lands. */
  ghost predicate CastlingByRules(v: View, m: Move)
    requires ViewOk(v) && Castles(v, m)
  {
    var a := ApplyMove(v.board, v.us, m);
    WaySafe(v, m) && Pieces(a, v.us, King) != {} && !Attacked(a, KingSq(a, v.us), v.us.Other())
  }

  /** On a safe way the castled king is attacked exactly when the rook was its only shield. */
  lemma ShieldDecides(v: View, m: Move)
    requires ViewOk(v) && Castles(v, m) && WaySafe(v, m)
    ensures Attacked(ApplyMove(v.board, v.us, m), KingTo(v.us, m), v.us.Other()) <==>
        m.to in Blockers(v.board, v.us, m.from)
  {
    var b, a, us, them, kt := v.board, ApplyMove(v.board, v.us, m), v.us, v.us.Other(), KingTo(v.us, m);
    Layout(v, m);
    hide Attacks, Blockers, ApplyMove, KingTo, RookTo, Occ, ViewOk, WaySafe, Rank, Corner;
    forall q: Square
      ensures a[q].Man? && a[q].color == them && Attacks(Occ(a), a[q], q, kt) <==> Reaches(b, kt, Occ(a), them, q)
    {
      CastledSquare(v, m, q);
    }
    if Attacked(a, kt, them) {
      var q: Square :| Reaches(b, kt, Occ(a), them, q);
      OpenedByRook(v, m, q);
    }
    if m.to in Blockers(b, us, m.from) {
      var z := RookWasShield(v, m);
      assert a[z].Man? && a[z].color == them && Attacks(Occ(a), a[z], z, kt);
    }
  }

  /**
   * `legal` says of castling what the rules say, exactly unless the board is in standard mode,
   * the way is safe, and the rook alone shields its king.
   */
  lemma CastlingLegalExact(v: View, m: Move)
    requires ViewOk(v) && Castles(v, m)
    ensures v.us in v.blockers
    ensures CastlingLegal(v, m) == CastlingByRules(v, m) <==> v.chess960 || m.to !in v.blockers[v.us] || !WaySafe(v, m)
  {
    CastledKings(v, m);
    WayMeans(v, m);
    hide ApplyMove, Attacked, Blockers, WaySafe, OnTheWay, Castles, KingTo, AttackersToExist, AttackersTo;
    if WaySafe(v, m) { ShieldDecides(v, m); }
  }

  /** Behind a rook in its corner nothing can stand. */
  lemma CornerNoShield(v: View, m: Move)
    requires ViewOk(v) && Castles(v, m) && WaySafe(v, m) && (File(m.to) == 0 || File(m.to) == 7)
    ensures m.to !in Blockers(v.board, v.us, m.from)
  {
    hide Attacks, Occ, SameRay, RookLine, BishopLine, Between, KingTo, RookTo, PathOf, RelativeRank, Blockers,
        CheckSquaresOk, AttackersTo, WaySafe;
    var b, us := v.board, v.us;
    DestinationSafe(v, m);
    Layout(v, m);
    if m.to in Blockers(b, us, m.from) {
      var z := BehindBlocker(b, us, m.from, m.to);
      NoSniperSees(b, us, m.from, z);
      CornerEnds(us, m.from, m.to, z);
    }
  }

  lemma NoSniperSees(b: Board, us: Color, k: Square, z: Square)
    requires !Attacked(b, k, us.Other()) && z in Snipers(b, us, k)
    ensures !Sees(Occ(b), z, k)
  {
    hide Occ, RookLine, BishopLine;
    assert !Attacks(Occ(b), b[z], z, k);
  }

  /** With the rook in its corner the two modes agree. */
  lemma CornerIsExact(v: View, m: Move)
    requires ViewOk(v) && Castles(v, m) && (File(m.to) == 0 || File(m.to) == 7)
    ensures v.us in v.blockers && (CastlingLegal(v, m) <==> CastlingByRules(v, m))
  {
    CastlingLegalExact(v, m);
    CastledKings(v, m);
    hide Occ, ApplyMove, KingTo, RookTo, PathOf, Blockers, CheckSquaresOk, AttackersTo, Castles, WaySafe,
        CastlingLegal, CastlingByRules;
    if WaySafe(v, m) { CornerNoShield(v, m); }
  }

  lemma CornerEnds(us: Color, k: Square, r: Square, z: Square)
    requires RelativeRank(us, r) == 0 && Rank(k) == Rank(r) && (File(r) == 0 || File(r) == 7)
    ensures !Between(k, r, z)
  {
    if Between(k, r, z) { EdgeLine(us, k, r, z, r); RankLine(k, z); }
  }

  /** `Position::legal` for castling, with its walk back from the king's destination. */
  method IsCastlingLegal(v: View, m: Move) returns (r: bool)
    requires Castles(v, m) && v.us in v.blockers
    ensures r <==> CastlingLegal(v, m)
  {
    hide KingTo, RookTo, PathOf, RelativeRank, AttackersToExist, Occ, Castles, OnTheWay;
    var us, them, kto := v.us, v.us.Other(), KingTo(v.us, m);
    var step := if kto > m.from then -1 else 1;
    var s := kto;
    WayDone(us, m);
    while s != m.from
      invariant if kto > m.from then m.from <= s <= kto else kto <= s <= m.from
      invariant forall x: Square | OnTheWay(us, m, x) && (if kto > m.from then x > s else x < s) ::
          !AttackersToExist(v.board, x, Occ(v.board), them)
      decreases if s > m.from then s - m.from else m.from - s
    {
      WayAt(v, m, s);
      if AttackersToExist(v.board, s, Occ(v.board), them) { return false; }
      s := s + step;
    }
    r := !v.chess960 || m.to !in v.blockers[us];
  }

  lemma WayAt(v: View, m: Move, s: Square)
    requires Castles(v, m) && (m.from < s <= KingTo(v.us, m) || KingTo(v.us, m) <= s < m.from)
    ensures OnTheWay(v.us, m, s)
  {
    Layout(v, m);
    hide RelativeRank, KingTo, RookTo, Rank, Castles, PathOf;
  }

  /** Nothing lies before the king's destination or beyond its first square. */
  lemma WayDone(us: Color, m: Move)
    ensures var kto := KingTo(us, m);
        forall x: Square | OnTheWay(us, m, x) :: if kto > m.from then m.from < x <= kto else kto <= x < m.from
  {
    hide KingTo, Rank;
  }

  /** White king e1, rook b1; black rook a1, king h8. */
  function InnerBoard(): Board {
    seq(64, i => if i == 0 then Man(Black, Rook) else if i == 1 then Man(White, Rook)
        else if i == 4 then Man(White, King)
                 else if i == 63 then Man(Black, King) else Empty)
  }

  lemma InnerBoardStands()
    ensures var b := InnerBoard();
            && OneKingEach(b) && (forall c :: Pieces(b, c, King) != {}) && KingSq(b, White) == 4
                && Occ(b) == {0, 1, 4, 63}
            && (forall s: Square :: b[s] == if s == 0 then Man(Black, Rook) else if s == 1 then Man(White, Rook)
                                            else if s == 4 then Man(White, King) else if s == 63 then Man(Black, King)
                                                else Empty)
  {
    var b := InnerBoard();
    assert Pieces(b, White, King) == {4} && Pieces(b, Black, King) == {63};
    forall c ensures |Pieces(b, c, King)| == 1 { assert c == White || c == Black; }
  }

  /** Nothing of Black's reaches the squares from c1 to e1. */
  lemma InnerBoardQuiet(s: Square)
    requires 2 <= s <= 4
    ensures !Attacked(InnerBoard(), s, Black)
  {
    InnerBoardStands();
    RookHeldOff(s);
    hide InnerBoard, OneKingEach, Pieces, KingSq, Occ, Attacks;
    var b := InnerBoard();
    forall q: Square | b[q].Man? && b[q].color == Black ensures !Attacks(Occ(b), b[q], q, s) {
      assert q == 0 || q == 63;
    }
  }

  lemma RookHeldOff(s: Square)
    requires 2 <= s <= 4
    ensures !Attacks({0, 1, 4, 63}, Man(Black, Rook), 0, s) && !Attacks({0, 1, 4, 63}, Man(Black, King), 63, s)
  {
    hide Between, RookLine, BishopLine;
    assert File(63) == 7 && Rank(63) == 7 && Rank(0) == 0 && Rank(1) == 0 && Rank(s) == 0;
    RankLine(0, s);
    assert Between(0, 1, s) && 1 in {0, 1, 4, 63};
  }

  lemma InnerCastles(v: View, m: Move)
    requires (forall c :: Pieces(InnerBoard(), c, King) != {}) && v == ViewOf(InnerBoard(), White, false)
        && m == Move(4, 1, Castling, Knight)
    ensures ViewOk(v) && Castles(v, m) && WaySafe(v, m)
  {
    InnerBoardStands();
    ViewOfOk(InnerBoard(), White, false);
    forall s: Square | 2 <= s <= 4 { InnerBoardQuiet(s); }
    hide InnerBoard, OneKingEach, Pieces, KingSq, Occ, Attacked, ViewOk;
    Checkless(v);
    InnerPath(m);
  }

  lemma InnerPath(m: Move)
    requires m == Move(4, 1, Castling, Knight)
    ensures PathOf(White, m) == {2, 3} && forall s: Square :: OnTheWay(White, m, s) ==> 2 <= s <= 4
  {
    hide PathOf, KingTo, RookTo, Rank;
    Destinations(White, m);
    FirstRank(White, m.from);
    FirstRank(White, m.to);
    forall s: Square ensures s in PathOf(White, m) <==> s in {2, 3} { PathByNumber(White, m, s); }
  }

  /** The path by square numbers. */
  lemma PathByNumber(us: Color, m: Move, s: Square)
    requires RelativeRank(us, m.from) == 0 && RelativeRank(us, m.to) == 0
    requires m.from != KingTo(us, m) && m.to != RookTo(us, m)
    ensures var kt, rt := KingTo(us, m), RookTo(us, m);
            s in PathOf(us, m) <==>
            && s != m.from && s != m.to
            && (s == kt || s == rt || (Rank(s) == Rank(m.from) && (m.from < s < kt || kt < s < m.from))
                || (Rank(s) == Rank(m.from) && (m.to < s < rt || rt < s < m.to)))
  {
    hide Between, BetweenBB, KingTo, RookTo;
    var kt, rt := KingTo(us, m), RookTo(us, m);
    Destinations(us, m);
    RankBetween(m.to, s, rt);
    RankBetween(m.from, s, kt);
    GapHolds(m.to, rt, s);
    GapHolds(m.from, kt, s);
  }

  lemma GapHolds(a: Square, b: Square, t: Square)
    ensures t in BetweenBB(a, b) <==> t == b || Between(a, t, b)
  {
    hide Between;
  }

  lemma Checkless(v: View)
    requires (forall c :: Pieces(InnerBoard(), c, King) != {}) && v == ViewOf(InnerBoard(), White, false)
        && !Attacked(InnerBoard(), 4, Black)
    ensures v.checkers == {}
  {
    InnerBoardStands();
    hide InnerBoard, OneKingEach, Pieces, KingSq, Occ, Attacks, AttackersTo;
    var b := InnerBoard();
    forall q: Square ensures q !in v.checkers { AttackersToMeaning(b, 4, Occ(b), q); }
  }

  /** In standard mode a rook that is not in its corner can be such a shield, and `legal` lets the castling pass. */
  lemma InnerRookMissed()
    ensures exists v, m ::
        ViewOk(v) && Castles(v, m) && v.us in v.blockers && CastlingLegal(v, m) && !CastlingByRules(v, m)
  {
    InnerBoardStands();
    var v, m := ViewOf(InnerBoard(), White, false), Move(4, 1, Castling, Knight);
    InnerCastlingMissed(v, m);
    hide *;
    assert CastlingLegal(v, m);
  }

  lemma InnerCastlingMissed(v: View, m: Move)
    requires (forall c :: Pieces(InnerBoard(), c, King) != {}) && v == ViewOf(InnerBoard(), White, false)
        && m == Move(4, 1, Castling, Knight)
    ensures ViewOk(v) && Castles(v, m) && v.us in v.blockers && CastlingLegal(v, m) && !CastlingByRules(v, m)
  {
    InnerBoardStands();
    InnerCastles(v, m);
    InnerShield();
    CastlingLegalExact(v, m);
    WayMeans(v, m);
    hide InnerBoard, OneKingEach, Pieces, KingSq, Occ, WaySafe, Castles, ViewOk, CastlingByRules, Blockers;
  }

  lemma InnerShield()
    ensures 1 in Blockers(InnerBoard(), White, 4)
  {
    hide *;
    InnerSniper();
    InnerOcc();
    forall y: Square | Between(0, y, 4) && y in Occ(InnerBoard()) ensures y == 1 { OnlyBOne(y); }
    OnlyBOne(1);
    AloneIsBlocker(InnerBoard(), White, 4, 0, 1);
  }

  lemma InnerOcc()
    ensures forall y :: y in Occ(InnerBoard()) <==> y == 0 || y == 1 || y == 4 || y == 63
  {
    InnerBoardStands();
    hide InnerBoard, Occ;
  }

  lemma OnlyBOne(y: Square)
    ensures y == 0 || y == 1 || y == 4 || y == 63 ==> (Between(0, y, 4) <==> y == 1)
  {
    hide Between;
    assert Rank(63) == 7 && Rank(4) == 0 && Rank(1) == 0 && Rank(0) == 0;
    RankBetween(0, y, 4);
  }

  lemma InnerSniper()
    ensures 0 in Snipers(InnerBoard(), White, 4) && 1 !in Snipers(InnerBoard(), White, 4)
  {
    hide RookLine, BishopLine, Between;
    assert Rank(0) == 0 && Rank(4) == 0;
    RankLine(0, 4);
    assert InnerBoard()[0] == Man(Black, Rook) && InnerBoard()[1] == Man(White, Rook);
  }

  // ----- Castling with check -----

  /** The rook from its new square sees the enemy king. */
  ghost predicate RookSees(v: View, m: Move, k: Square) {
    RookLine(RookTo(v.us, m), k) && Sees(Occ(ApplyMove(v.board, v.us, m)), RookTo(v.us, m), k)
  }

  /** No other line to the enemy king opens. */
  lemma NothingElseOpens(v: View, m: Move, q: Square, k: Square)
    requires Castles(v, m) && EnemyKing(v, k)
    requires Reaches(v.board, k, Occ(ApplyMove(v.board, v.us, m)), v.us, q) && q != m.from && q != m.to
    ensures Attacks(Occ(v.board), v.board[q], q, k)
  {
    hide Attacks, Occ, SameRay, RookLine, BishopLine, Between, ApplyMove, KingTo, RookTo, PathOf, RelativeRank, Rank,
        Corner;
    var b, us, kt, rt, occ := v.board, v.us, KingTo(v.us, m), RookTo(v.us, m), Occ(ApplyMove(v.board, v.us, m));
    if !Attacks(Occ(b), b[q], q, k) {
      Layout(v, m);
      CastledOcc(v, m);
      var x := OpenedLine(b, k, occ, us, q);
      FirstRank(us, x);
      EdgeLine(us, q, x, k, x);
      ReachedAlongRank(v, m, q, k, us);
      HullHolds(v, m, q);
      HullHolds(v, m, k);
    }
  }

  predicate EnemyKing(v: View, k: Square) { v.board[k] == Man(v.us.Other(), King) }

  /** Of the squares from the leftmost to the rightmost that a castling touches, only king and rook are occupied. */
  lemma HullHolds(v: View, m: Move, s: Square)
    requires Castles(v, m) && v.board[s] != Empty && s != m.from && s != m.to
    ensures var us, kt, rt := v.us, KingTo(v.us, m), RookTo(v.us, m);
            || (s < m.from && s < m.to && s < kt && s < rt) || (s > m.from && s > m.to && s > kt && s > rt)
  {
    var us, kt, rt := v.us, KingTo(v.us, m), RookTo(v.us, m);
    var ends := {m.from, m.to, kt, rt};
    forall x, y | x in ends && y in ends ensures !(x <= s <= y) {
      if x <= s <= y { WayClear(v, m, s, x, y); }
    }
    hide *;
    assert m.from in ends && m.to in ends && kt in ends && rt in ends;
  }

  /** After castling on a safe way the enemy king can only be attacked by the rook that castled. */
  lemma RookDecides(v: View, m: Move)
    requires ViewOk(v) && Castles(v, m) && EnemyKingSafe(v) && WaySafe(v, m)
    ensures var k := KingSq(v.board, v.us.Other());
            Attacked(ApplyMove(v.board, v.us, m), k, v.us) <==> RookSees(v, m, k)
  {
    var b, a, us, k, kt, rt := v.board, ApplyMove(v.board, v.us, m), v.us, KingSq(v.board, v.us.Other()),
        KingTo(v.us, m), RookTo(v.us, m);
    DestinationSafe(v, m);
    KingAway(b, us, kt, k);
    CastledSquare(v, m, rt);
    CastledSquare(v, m, kt);
    Layout(v, m);
    RookPattern(Occ(a), us, rt, k);
    hide Attacks, Occ, ApplyMove, KingTo, RookTo, PathOf, RelativeRank, Rank, Corner, KingSq, Castles, ViewOk,
        RookSees, WaySafe;
    if q: Square :| a[q].Man? && a[q].color == us && Attacks(Occ(a), a[q], q, k) {
      if q != kt && q != rt {
        CastledSquare(v, m, q);
        NothingElseOpens(v, m, q, k);
      } else if q == kt {
        KingPattern(Occ(a), us, kt, k);
      }
    }
    if RookSees(v, m, k) { assert a[rt].Man? && a[rt].color == us && Attacks(Occ(a), a[rt], rt, k); }
  }

  lemma RookPattern(occ: Bitboard, us: Color, s: Square, k: Square)
    ensures Attacks(occ, Man(us, Rook), s, k) <==> RookLine(s, k) && Sees(occ, s, k)
  {}

  lemma KingPattern(occ: Bitboard, us: Color, s: Square, k: Square)
    ensures Attacks(occ, Man(us, King), s, k) <==> KingAttacks(s, k)
  {}

  /** The enemy king is not next to a square it does not attack. */
  lemma KingAway(b: Board, us: Color, s: Square, k: Square)
    requires b[k] == Man(us.Other(), King) && !Attacked(b, s, us.Other())
    ensures !KingAttacks(s, k)
  {
    KingAttacksSym(s, k);
    KingPattern(Occ(b), us.Other(), k, s);
    hide Attacks, KingAttacks;
    assert !Attacks(Occ(b), b[k], k, s);
  }

  /** Our king on its first rank shields no king on another. */
  lemma NoShieldOffRank(v: View, m: Move, k: Square)
    requires ViewOk(v) && Castles(v, m) && EnemyKingSafe(v) && k == KingSq(v.board, v.us.Other())
        && Rank(k) != Rank(m.from)
    ensures m.from !in Blockers(v.board, v.us.Other(), k)
  {
    hide Attacks, SameRay, RookLine, BishopLine, Between, Rank, Blockers, CheckSquaresOk, AttackersTo, Occ, KingSq,
        PathOf, RelativeRank;
    if m.from in Blockers(v.board, v.us.Other(), k) {
      var z := BehindBlocker(v.board, v.us.Other(), k, m.from);
      SniperSilent(v, k, z);
      assert Between(k, m.from, z);
      EdgeLine(v.us, k, m.from, z, m.from);
    }
  }

  /** Off the first rank the rook's line to the king is as it was. */
  lemma SameLineOffRank(v: View, m: Move, k: Square)
    requires Castles(v, m) && Rank(k) != Rank(m.from)
    ensures RookTo(v.us, m) in RookBB(Occ(v.board), k) <==> RookSees(v, m, k)
  {
    var b, us, rt := v.board, v.us, RookTo(v.us, m);
    Layout(v, m);
    CastledOcc(v, m);
    SeesSym(Occ(b), k, rt);
    AlignedSym(k, rt);
    hide SameRay, RookLine, BishopLine, Between, ApplyMove, KingTo, RookTo, PathOf, Rank, Corner, Occ;
    forall y: Square | Between(rt, y, k) ensures y in Occ(b) <==> y in Occ(ApplyMove(b, us, m)) {
      if Rank(y) == Rank(rt) {
        FirstRank(us, y);
        EdgeLine(us, rt, y, k, y);
      }
    }
  }

  lemma SniperSilent(v: View, k: Square, z: Square)
    requires ViewOk(v) && EnemyKingSafe(v) && k == KingSq(v.board, v.us.Other())
        && z in Snipers(v.board, v.us.Other(), k)
    ensures !Sees(Occ(v.board), z, k)
  {
    NoSniperSees(v.board, v.us.Other(), k, z);
    hide *;
  }

  /** Nothing stands between the enemy king and ours. */
  predicate Open(b: Board, k: Square, f: Square) {
    forall y: Square | 0 <= y < 64 && (k < y < f || f < y < k) :: y !in Occ(b)
  }

  /** The enemy king on the same rank, on the rook's open side: all squares touched lie to one side of it. */
  ghost predicate Near(us: Color, m: Move, k: Square) {
    var kt, rt := KingTo(us, m), RookTo(us, m);
    (k < m.from < m.to && k < rt < kt) || (k > m.from > m.to && k > rt > kt)
  }

  /** On the first rank betweenness is a matter of numbers. */
  lemma OnFirstRank(us: Color, x: Square, y: Square)
    requires RelativeRank(us, x) == 0 && RelativeRank(us, y) == 0 && x != y
    ensures RookLine(x, y) && Aligned(x, y) && forall s: Square :: Between(x, s, y) <==> x < s < y || y < s < x
  {
    FirstRank(us, x);
    FirstRank(us, y);
    RankLine(x, y);
    forall s: Square { FirstRank(us, s); }
    hide RookLine, Between, Rank, RelativeRank;
  }

  /** Between our king and the rook's new square nothing stands but the rook. */
  lemma StretchEmpty(v: View, m: Move, y: Square)
    requires Castles(v, m)
    requires (RookTo(v.us, m) <= y < m.from || m.from < y <= RookTo(v.us, m)) && y != m.to
    ensures y !in Occ(v.board)
  {
    var rt := RookTo(v.us, m);
    Occupied(v.board, y);
    if y < m.from { WayClear(v, m, y, rt, m.from); } else { WayClear(v, m, y, m.from, rt); }
    hide *;
  }

  lemma OpenIfRookSees(v: View, m: Move, k: Square)
    requires Castles(v, m) && Near(v.us, m, k) && RelativeRank(v.us, k) == 0
    ensures RookSees(v, m, k) <==> Open(v.board, k, m.from)
  {
    var b, us, kt, rt, occ := v.board, v.us, KingTo(v.us, m), RookTo(v.us, m), Occ(ApplyMove(v.board, v.us, m));
    Destinations(us, m);
    CastledOcc(v, m);
    OnFirstRank(us, rt, k);
    hide Occ, SameRay, RookLine, BishopLine, Between, ApplyMove, KingTo, RookTo, PathOf, RelativeRank, Corner, Castles;
    forall y: Square | (rt <= y < m.from || m.from < y <= rt) && y != m.to ensures y !in Occ(b) {
      StretchEmpty(v, m, y);
    }
    if RookSees(v, m, k) {
      forall y: Square | k < y < m.from || m.from < y < k ensures y !in Occ(b) {
        if k < y < rt || rt < y < k { assert Between(rt, y, k); }
      }
    }
  }

  lemma OpenIfMask(v: View, m: Move, k: Square)
    requires Castles(v, m) && Near(v.us, m, k) && RelativeRank(v.us, k) == 0
        && RookTo(v.us, m) in RookBB(Occ(v.board), k)
    ensures Open(v.board, k, m.from)
  {
    var b, us, rt := v.board, v.us, RookTo(v.us, m);
    Destinations(us, m);
    OnFirstRank(us, k, rt);
    hide Occ, SameRay, RookLine, BishopLine, Between, ApplyMove, KingTo, RookTo, PathOf, RelativeRank, Corner, Castles;
    forall y: Square | k < y < m.from || m.from < y < k ensures y !in Occ(b) {
      if k < y < rt || rt < y < k { assert Between(k, y, rt); } else { StretchEmpty(v, m, y); }
    }
  }

  lemma OpenIfShield(v: View, m: Move, k: Square)
    requires ViewOk(v) && Castles(v, m) && EnemyKingSafe(v) && k == KingSq(v.board, v.us.Other())
    requires Near(v.us, m, k) && RelativeRank(v.us, k) == 0
    ensures m.from in Blockers(v.board, v.us.Other(), k) <==> Open(v.board, k, m.from)
  {
    var b, us, them := v.board, v.us, v.us.Other();
    hide Occ, SameRay, BishopLine, Between, ApplyMove, PathOf, RelativeRank, Rank, Corner, Blockers, CheckSquaresOk,
        AttackersTo, KingSq, Attacks;
    OnFirstRank(us, m.from, k);
    OnFirstRank(us, m.to, k);
    forall y: Square ensures y in Occ(b) <==> b[y] != Empty { Occupied(b, y); }
    if m.from in Blockers(b, them, k) {
      var z := BehindBlocker(b, them, k, m.from);
      SniperSilent(v, k, z);
      assert Between(k, m.from, z);
      EdgeLine(us, k, m.from, z, m.from);
      FirstRank(us, k);
      FirstRank(us, z);
      FirstRank(us, m.from);
      OnFirstRank(us, k, z);
    }
    if Open(b, k, m.from) {
      forall y: Square | Between(m.to, y, k) && y in Occ(b) ensures y == m.from {
        if m.from < y < m.to {
          WayClear(v, m, y, m.from, m.to);
        } else if m.to < y < m.from {
          WayClear(v, m, y, m.to, m.from);
        }
      }
      assert m.to in Snipers(b, them, k);
      AloneIsBlocker(b, them, k, m.to, m.from);
    }
  }

  /** Beyond the king's new square the rook sees nothing, and no mask says it does. */
  lemma FarIsSilent(v: View, m: Move, k: Square)
    requires ViewOk(v) && Castles(v, m) && EnemyKingSafe(v) && k == KingSq(v.board, v.us.Other())
    requires var kt := KingTo(v.us, m); k < m.to < m.from && k < kt && RelativeRank(v.us, k) == 0
    ensures !RookSees(v, m, k) && m.from !in Blockers(v.board, v.us.Other(), k)
        && RookTo(v.us, m) !in RookBB(Occ(v.board), k)
  {
    var b, us, them, kt, rt := v.board, v.us, v.us.Other(), KingTo(v.us, m), RookTo(v.us, m);
    Layout(v, m);
    CastledOcc(v, m);
    OnFirstRank(us, rt, k);
    OnFirstRank(us, k, rt);
    OnFirstRank(us, m.to, k);
    hide Occ, SameRay, RookLine, BishopLine, Between, ApplyMove, KingTo, RookTo, PathOf, RelativeRank, Rank, Corner,
        Blockers, CheckSquaresOk, AttackersTo, KingSq;
    forall y: Square ensures y in Occ(b) <==> b[y] != Empty { Occupied(b, y); }
    assert Between(rt, kt, k);
    if m.from in Blockers(b, them, k) {
      var z := BehindBlocker(b, them, k, m.from);
      SniperSilent(v, k, z);
      EdgeLine(us, k, m.from, z, m.from);
      FirstRank(us, k);
      FirstRank(us, z);
      FirstRank(us, m.from);
      OnFirstRank(us, k, z);
    }
    if Sees(Occ(b), k, rt) {
      RookBlocksOrAttacks(v, m, k);
    }
  }

  lemma RookBlocksOrAttacks(v: View, m: Move, k: Square)
    requires ViewOk(v) && Castles(v, m) && EnemyKingSafe(v) && k == KingSq(v.board, v.us.Other())
    requires k < m.to < m.from && RelativeRank(v.us, k) == 0
    ensures !Sees(Occ(v.board), k, RookTo(v.us, m))
  {
    var b, us, rt := v.board, v.us, RookTo(v.us, m);
    Layout(v, m);
    OnFirstRank(us, k, rt);
    OnFirstRank(us, m.to, k);
    RookPattern(Occ(b), us, m.to, k);
    assert !Attacks(Occ(b), b[m.to], m.to, k);
    hide Occ, SameRay, RookLine, BishopLine, Between, ApplyMove, KingTo, RookTo, PathOf, RelativeRank, Rank, Corner,
        Blockers, CheckSquaresOk, AttackersTo, KingSq, Attacks;
    forall y: Square ensures y in Occ(b) <==> b[y] != Empty { Occupied(b, y); }
    var x: Square :| 0 <= x < 64 && Between(m.to, x, k) && x in Occ(b);
    if rt <= x { WayClear(v, m, x, rt, m.to); }
    assert Between(k, x, rt);
  }

  /** Where the enemy king can stand on the first rank once the way is safe. */
  lemma WhereKing(v: View, m: Move, k: Square)
    requires ViewOk(v) && Castles(v, m) && WaySafe(v, m) && k == KingSq(v.board, v.us.Other())
        && Rank(k) == Rank(m.from)
    ensures RelativeRank(v.us, k) == 0
    ensures Near(v.us, m, k) || (k < m.to < m.from && k < KingTo(v.us, m))
  {
    var b, us, kt := v.board, v.us, KingTo(v.us, m);
    Layout(v, m);
    DestinationSafe(v, m);
    KingAway(b, us, kt, k);
    HullHolds(v, m, k);
    FirstRank(us, k);
    if k == kt + 1 { SideBySide(kt, k); }
    hide Occ, ApplyMove, KingTo, RookTo, PathOf, RelativeRank, Rank, Corner, KingSq, KingAttacks, Attacked,
        AttackersTo, Blockers, CheckSquaresOk;
  }

  lemma SideBySide(s: Square, k: Square)
    requires k == s + 1 && Rank(k) == Rank(s)
    ensures KingAttacks(s, k)
  {}

  lemma CastlingMasks(v: View, m: Move)
    requires ViewOk(v) && Castles(v, m)
    ensures var k := KingSq(v.board, v.us.Other());
            ChecksKing(v, m) <==>
                m.from in Blockers(v.board, v.us.Other(), k) || RookTo(v.us, m) in RookBB(Occ(v.board), k)
  {
    hide Blockers, KingSq, RookBB, BishopBB, LineBB, AttackersTo, RookTo, PathOf, Occ;
  }

  /** `gives_check` is exact for castling on a safe way. */
  lemma CastlingCheckExact(v: View, m: Move)
    requires ViewOk(v) && Castles(v, m) && EnemyKingSafe(v) && WaySafe(v, m)
    ensures ChecksKing(v, m) <==> Attacked(ApplyMove(v.board, v.us, m), KingSq(v.board, v.us.Other()), v.us)
  {
    var k := KingSq(v.board, v.us.Other());
    CastlingMasks(v, m);
    RookDecides(v, m);
    hide ChecksKing, ViewOk, Castles, EnemyKingSafe, WaySafe, Attacked, RookSees, Near, Open, Rank, RelativeRank,
        Blockers, RookBB, KingTo, RookTo, ApplyMove;
    if Rank(k) != Rank(m.from) {
      NoShieldOffRank(v, m, k);
      SameLineOffRank(v, m, k);
    } else {
      WhereKing(v, m, k);
      if Near(v.us, m, k) {
        OpenIfRookSees(v, m, k);
        if RookTo(v.us, m) in RookBB(Occ(v.board), k) { OpenIfMask(v, m, k); }
        OpenIfShield(v, m, k);
      } else {
        FarIsSilent(v, m, k);
      }
    }
  }
}
