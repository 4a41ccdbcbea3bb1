/** Repetition as Article 9.2 of the FIDE Laws defines it, and what the scan of src/game.c:90-97 sees of it: the
    Laws compare the possible moves, so that an en-passant square counts only if a capture there is legal. */
module LawRepetition {
  import opened Geometry
  import opened Rules
  import opened Zobrist
  import opened Positions
  import opened MoveGenExact
  import opened Repetition

  // ---- The same position ---------------------------------------------------------------------------------

  // Some pawn can capture en passant.
  ghost predicate EpPlayable(st: State) { exists m: Move :: EnPassant(st, m) && Legal(st, m) }

  function WithoutEp(st: State): State { st.(ep := NO_SQUARE) }

  // Article 9.2: the same men, side to move and castling rights, and the same possible moves.
  ghost predicate SameByLaw(st: State, st2: State)
  {
    st.board == st2.board && st.turn == st2.turn && st.castle == st2.castle && forall m: Move :: Legal(st, m) <==> Legal(st2, m)
  }

  // Nothing but a pawn next to it can use the en-passant square.
  lemma OnlyPawnsUseEp(st: State, m: Move)
    requires WellFormed(st) && PseudoLegal(st, m) && !EnPassant(st, m)
    ensures !IsEnPassant(st, m)
  {
    hide WellFormed, EpOk, Attacked, InCheck, Hits;
    if IsEnPassant(st, m) {
      WellFormedEp(st);
      EpRelativeRank(st);
    }
  }

  lemma EpRelativeRank(st: State)
    requires WellFormed(st) && st.ep != NO_SQUARE
    ensures RelativeRank(st.turn, st.ep) == 5
  {
    hide WellFormed, InCheck;
    WellFormedEp(st);
  }

  lemma LegalWithoutEp(st: State, m: Move)
    requires WellFormed(st) && !EnPassant(st, m)
    ensures Legal(st, m) <==> Legal(WithoutEp(st), m)
  {
    hide WellFormed, InCheck;
    SameKinds(st, m);
    if PseudoLegal(st, m) {
      OnlyPawnsUseEp(st, m);
      assert PlayBoard(st, m) == PlayBoard(WithoutEp(st), m);
    }
  }

  lemma SameKinds(st: State, m: Move)
    ensures !EnPassant(WithoutEp(st), m)
    ensures !EnPassant(st, m) ==> (PseudoLegal(st, m) <==> PseudoLegal(WithoutEp(st), m))
  {
    hide Hits, Attacked;
  }

  // A legal en-passant capture is not a move of the same men with another en-passant square.
  lemma CaptureNeedsEp(st: State, st2: State, m: Move)
    requires WellFormed(st) && st2 == st.(ep := st2.ep) && st2.ep != st.ep && EnPassant(st, m)
    ensures !PseudoLegal(st2, m)
  {
    hide WellFormed, EpOk, InCheck, Hits, Attacked;
    WellFormedEp(st);
    EpRelativeRank(st);
  }

  // When the Laws see the same position in two states with the same men, turn and castling rooks: the
  // en-passant squares are equal, or neither can be used.
  lemma SameByLawIff(st: State, st2: State)
    requires WellFormed(st) && WellFormed(st2) && st2 == st.(ep := st2.ep)
    ensures SameByLaw(st, st2) <==> st.ep == st2.ep || (!EpPlayable(st) && !EpPlayable(st2))
  {
    hide WellFormed, Legal, EnPassant;
    if st.ep == st2.ep {
      assert st == st2;
    } else {
      if !EpPlayable(st) && !EpPlayable(st2) {
        forall m: Move ensures Legal(st, m) <==> Legal(st2, m) { LegalBoth(st, st2, m); }
      } else if EpPlayable(st) {
        CaptureTells(st, st2);
      } else {
        CaptureTells(st2, st);
      }
    }
  }

  lemma LegalBoth(st: State, st2: State, m: Move)
    requires WellFormed(st) && WellFormed(st2) && st2 == st.(ep := st2.ep) && !EpPlayable(st) && !EpPlayable(st2)
    ensures Legal(st, m) <==> Legal(st2, m)
  {
    hide WellFormed, Legal, EnPassant;
    UselessEp(st, m);
    UselessEp(st2, m);
    assert WithoutEp(st) == WithoutEp(st2);
  }

  // An en-passant square that cannot be used changes nothing.
  lemma UselessEp(st: State, m: Move)
    requires WellFormed(st) && !EpPlayable(st)
    ensures Legal(st, m) <==> Legal(WithoutEp(st), m)
  {
    hide WellFormed, InCheck, PlayBoard, PseudoLegal;
    if EnPassant(st, m) {
      CaptureNeedsEp(st, WithoutEp(st), m);
    } else {
      hide EnPassant;
      LegalWithoutEp(st, m);
    }
  }

  lemma CaptureTells(st: State, st2: State)
    requires WellFormed(st) && st2 == st.(ep := st2.ep) && st2.ep != st.ep && EpPlayable(st)
    ensures !SameByLaw(st, st2) && !SameByLaw(st2, st)
  {
    hide WellFormed, EnPassant, PseudoLegal, InCheck, PlayBoard;
    var m: Move :| EnPassant(st, m) && Legal(st, m);
    CaptureNeedsEp(st, st2, m);
  }

  // ---- What the scan sees of it --------------------------------------------------------------------------

  lemma KeysDifferInEp(z: Tables, st: State, st2: State)
    requires st2 == st.(ep := st2.ep)
    ensures KeyOf(z, st) == KeyOf(z, st2) <==> z.enPassant(st.ep) == z.enPassant(st2.ep)
  {
    hide MenKey, TurnKey, CastlingKey;
    XorCancels(Xor(MenKey(z, st.board), TurnKey(z, st.turn)), CastlingKey(z, st.castle), z.enPassant(st.ep), z.enPassant(st2.ep));
  }

  lemma XorCancels(a: bv64, c: bv64, e: bv64, e2: bv64)
    ensures Xor(a, Xor(c, e)) == Xor(a, Xor(c, e2)) <==> e == e2
  {}

  // The scan meets an earlier occurrence, by the Laws, of the position at ply n exactly when its en-passant
  // square has the key of the missing square.
  lemma MatchesByLaw(z: Tables, ps: seq<Pos>, i: int, n: int)
    requires History(z, ps) && BelowLimit(ps) && 0 <= i < n < |ps| && SameByLaw(StateOf(ps[i]), StateOf(ps[n]))
    ensures Matches(ps, n, n - i) <==> z.enPassant(ps[i].epSquare) == z.enPassant(NO_SQUARE)
  {
    hide Sound, WellFormed, KeyOf, Legal, BoardOf, History;
    RepeatDistance(z, ps, i, n);
    HistorySound(z, ps, i);
    HistorySound(z, ps, n);
    KeysDifferInEp(z, StateOf(ps[i]), StateOf(ps[n]));
  }

  // Third occurrences by the Laws: the scan meets the second one always, and the first one unless it has an
  // en-passant square, that nobody can use, with another key than the missing square.
  lemma ThirdByLaw(z: Tables, ps: seq<Pos>, i: int, j: int)
    requires History(z, ps) && BelowLimit(ps) && 0 <= i < j < |ps| - 1
    requires SameByLaw(StateOf(ps[i]), StateOf(ps[|ps| - 1])) && SameByLaw(StateOf(ps[j]), StateOf(ps[|ps| - 1]))
    ensures var n := |ps| - 1;
            Matches(ps, n, n - j) &&
            (Matches(ps, n, n - i) <==> z.enPassant(ps[i].epSquare) == z.enPassant(NO_SQUARE)) &&
            (z.enPassant(ps[i].epSquare) == z.enPassant(NO_SQUARE) ==> TwoMatches(ps, n)) &&
            (ps[i].epSquare != NO_SQUARE ==> !EpPlayable(StateOf(ps[i])))
  {
    hide Sound, WellFormed, KeyOf, Legal, BoardOf, History, Matches, SameByLaw, EpPlayable;
    var n := |ps| - 1;
    SameByLawTransitive(StateOf(ps[i]), StateOf(ps[n]), StateOf(ps[j]));
    MatchesByLaw(z, ps, i, n);
    MatchesByLaw(z, ps, j, n);
    SameFields(StateOf(ps[i]), StateOf(ps[j]));
    SameFields(StateOf(ps[i]), StateOf(ps[n]));
    RepeatDistance(z, ps, i, j);
    RepeatDistance(z, ps, i, n);
    HistorySound(z, ps, i);
    HistorySound(z, ps, n);
    SameByLawIff(StateOf(ps[i]), StateOf(ps[n]));
  }

  // At most one distance matches.
  ghost predicate OnlyMatch(ps: seq<Pos>, ply: int, d: int)
    requires 0 <= ply < |ps|
  {
    forall e: int :: Matches(ps, ply, e) ==> e == d
  }

  // A fourth occurrence is always found: at most the first has an en-passant square.
  lemma FourthByLaw(z: Tables, ps: seq<Pos>, h: int, i: int, j: int)
    requires History(z, ps) && BelowLimit(ps) && 0 <= h < i < j < |ps| - 1
    requires var st := StateOf(ps[|ps| - 1]);
             SameByLaw(StateOf(ps[h]), st) && SameByLaw(StateOf(ps[i]), st) && SameByLaw(StateOf(ps[j]), st)
    ensures TwoMatches(ps, |ps| - 1)
  {
    hide Sound, WellFormed, KeyOf, Legal, BoardOf, History, Matches, SameByLaw, EpPlayable, TwoMatches;
    SameByLawTransitive(StateOf(ps[h]), StateOf(ps[|ps| - 1]), StateOf(ps[i]));
    SameFields(StateOf(ps[h]), StateOf(ps[i]));
    RepeatDistance(z, ps, h, i);
    ThirdByLaw(z, ps, i, j);
  }

  lemma SameFields(st: State, st2: State)
    requires SameByLaw(st, st2)
    ensures st2 == st.(ep := st2.ep)
  {}

  lemma SameByLawTransitive(st: State, st2: State, st3: State)
    requires SameByLaw(st, st2) && SameByLaw(st3, st2)
    ensures SameByLaw(st, st3)
  {
    hide Legal;
  }
}
