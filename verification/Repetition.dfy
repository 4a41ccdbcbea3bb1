/** Game histories and the threefold-repetition scan of src/game.c:90-97. */
module Repetition {
  import opened Geometry
  import opened Rules
  import opened Zobrist
  import opened Positions
  import opened MoveGenExact
  import opened Preservation
  import opened PositionClass
  import opened Progress

  // q is p with the legal move m played.
  ghost predicate Follows(z: Tables, p: Pos, m: Move, q: Pos)
  {
    Legal(StateOf(p), m) && Sound(q, z) && StateOf(q) == NextState(StateOf(p), m) && q.lastMove == m &&
    q.chess960 == p.chess960 && q.rule50 == NextRule50(StateOf(p), m, p.rule50) && q.fullMove == NextFullMove(p)
  }

  // The positions of a game since its start, each with the move that led to it.
  ghost predicate History(z: Tables, ps: seq<Pos>)
  {
    |ps| >= 1 && Sound(ps[0], z) && forall i: int :: 0 < i < |ps| ==> Follows(z, ps[i - 1], ps[i].lastMove, ps[i])
  }

  // No position before the last one had reached the fifty-move limit: otherwise the game would have stopped.
  predicate BelowLimit(ps: seq<Pos>)
  {
    forall i: int :: 0 <= i < |ps| - 1 ==> ps[i].rule50 < 100
  }

  lemma HistorySound(z: Tables, ps: seq<Pos>, i: int)
    requires History(z, ps) && 0 <= i < |ps|
    ensures Sound(ps[i], z) && WellFormed(StateOf(ps[i])) && ps[i].key == KeyOf(z, StateOf(ps[i])) && 0 <= ps[i].rule50 < 256
  {
    hide Sound, WellFormed, KeyOf, StateOf;
    if i > 0 { assert Follows(z, ps[i - 1], ps[i].lastMove, ps[i]); }
    SoundParts(ps[i], z);
  }

  lemma HistoryStep(z: Tables, ps: seq<Pos>, i: int)
    requires History(z, ps) && 0 < i < |ps|
    ensures Follows(z, ps[i - 1], ps[i].lastMove, ps[i])
    ensures Measure(StateOf(ps[i])) <= Measure(StateOf(ps[i - 1])) - One(Resets(StateOf(ps[i - 1]), ps[i].lastMove))
  {
    hide Sound, WellFormed, KeyOf, StateOf, Measure, Resets, NextState, Legal;
    HistorySound(z, ps, i - 1);
    MoveProgress(StateOf(ps[i - 1]), ps[i].lastMove);
  }

  // A repeated position means that nothing in between reset the fifty-move counter, which therefore counts
  // every ply in between.
  lemma {:induction false} RepeatMeansNoReset(z: Tables, ps: seq<Pos>, i: int, j: int)
    requires History(z, ps) && BelowLimit(ps) && 0 <= i <= j < |ps|
    ensures Measure(StateOf(ps[j])) <= Measure(StateOf(ps[i]))
    ensures Measure(StateOf(ps[j])) == Measure(StateOf(ps[i])) ==> ps[j].rule50 == ps[i].rule50 + (j - i)
    decreases j - i
  {
    hide Sound, WellFormed, KeyOf, StateOf, Measure, Resets, NextState, Legal, History;
    if i < j {
      HistoryStep(z, ps, j);
      HistorySound(z, ps, j - 1);
      assert ps[j - 1].rule50 < 100;
      RepeatMeansNoReset(z, ps, i, j - 1);
    }
  }

  lemma {:induction false} TurnParity(z: Tables, ps: seq<Pos>, i: int, j: int)
    requires History(z, ps) && 0 <= i <= j < |ps|
    ensures ps[i].turn == ps[j].turn <==> (j - i) % 2 == 0
    decreases j - i
  {
    hide Sound, WellFormed, KeyOf, Measure, Resets, Legal, History, PlayBoard, NextCastle, NextEp, BoardOf;
    if i < j {
      HistoryStep(z, ps, j);
      TurnParity(z, ps, i, j - 1);
      assert ps[j].turn == Opposite(ps[j - 1].turn);
    }
  }

  // One quiet move by each side never restores the position: the man that moved first is no longer there.
  lemma NoRepeatAfterTwo(st: State, m: Move, m2: Move)
    requires WellFormed(st) && Legal(st, m) && !Resets(st, m)
    requires Legal(NextState(st, m), m2) && !Resets(NextState(st, m), m2)
    ensures NextState(NextState(st, m), m2).board != st.board
  {
    hide WellFormed, Legal, PlayBoard, NextCastle, NextEp, OrdinaryPawnMove;
    var st2 := NextState(st, m);
    WellFormedAfter(st, m);
    QuietBoard(st, m);
    QuietBoard(st2, m2);
    assert st2.board[m.from] == Empty;
  }

  lemma QuietBoard(st: State, m: Move)
    requires WellFormed(st) && Legal(st, m) && !Resets(st, m)
    ensures Owned(st.board, st.turn, m.from) && m.from != m.to && st.board[m.to] == Empty
    ensures PlayBoard(st, m) == st.board[m.from := Empty][m.to := st.board[m.from]]
  {
    hide WellFormed, Legal, PlayBoard, OrdinaryPawnMove, EnPassant, Castling, Hits;
    LegalMover(st, m);
    PieceKinds(st.board[m.from].piece);
    if st.board[m.from].piece == KING {
      if Castling(st, m) { CastlingOwn(st, m); }
      WellFormedEp(st);
      OrdinaryFacts(st, m);
    }
  }

  lemma SameMeasure(st: State, st2: State)
    requires st2 == st.(ep := st2.ep)
    ensures Measure(st2) == Measure(st)
  {}

  // No move between two occurrences of the same men and castling rooks is a reset.
  lemma QuietBetween(z: Tables, ps: seq<Pos>, i: int, k: int, j: int)
    requires History(z, ps) && BelowLimit(ps) && 0 <= i < k <= j < |ps| && Measure(StateOf(ps[j])) == Measure(StateOf(ps[i]))
    ensures !Resets(StateOf(ps[k - 1]), ps[k].lastMove)
  {
    hide Sound, WellFormed, KeyOf, StateOf, Measure, Resets, NextState, Legal, History;
    RepeatMeansNoReset(z, ps, i, k - 1);
    HistoryStep(z, ps, k);
    RepeatMeansNoReset(z, ps, k, j);
  }

  lemma QuietHasNoEp(z: Tables, p: Pos, q: Pos)
    requires Follows(z, p, q.lastMove, q) && !Resets(StateOf(p), q.lastMove)
    ensures q.epSquare == NO_SQUARE
  {
    hide Sound, WellFormed, KeyOf, Legal, BoardOf, PlayBoard, NextCastle;
  }

  // The same men, side to move and castling rooks come back only after four plies or more, an even number,
  // all of them counted by rule50; and only the first occurrence can have an en-passant square.
  lemma RepeatDistance(z: Tables, ps: seq<Pos>, i: int, j: int)
    requires History(z, ps) && BelowLimit(ps) && 0 <= i < j < |ps|
    requires StateOf(ps[j]) == StateOf(ps[i]).(ep := StateOf(ps[j]).ep)
    ensures j - i >= 4 && (j - i) % 2 == 0 && ps[j].rule50 >= j - i && ps[j].epSquare == NO_SQUARE
  {
    hide Sound, WellFormed, KeyOf, Measure, Legal, PlayBoard, NextCastle, NextEp, BoardOf, Resets, History;
    HistorySound(z, ps, i);
    SameMeasure(StateOf(ps[i]), StateOf(ps[j]));
    RepeatMeansNoReset(z, ps, i, j);
    TurnParity(z, ps, i, j);
    HistoryStep(z, ps, j);
    QuietBetween(z, ps, i, j, j);
    QuietHasNoEp(z, ps[j - 1], ps[j]);
    if j == i + 2 {
      HistoryStep(z, ps, i + 1);
      QuietBetween(z, ps, i, i + 1, j);
      NoRepeatAfterTwo(StateOf(ps[i]), ps[i + 1].lastMove, ps[i + 2].lastMove);
    }
  }

  // ---- The scan ------------------------------------------------------------------------------------------

  // The position i plies ago is looked at and has the key of the current one.
  predicate Matches(ps: seq<Pos>, ply: int, i: int)
    requires 0 <= ply < |ps|
  {
    4 <= i <= ps[ply].rule50 && i <= ply && i % 2 == 0 && ps[ply - i].key == ps[ply].key
  }

  ghost predicate TwoMatches(ps: seq<Pos>, ply: int)
    requires 0 <= ply < |ps|
  {
    exists i: int, j: int :: i < j && Matches(ps, ply, i) && Matches(ps, ply, j)
  }

  // src/game.c:91-96
  method ScanRepetitions(ps: seq<Pos>, ply: int) returns (threefold: bool)
    requires 0 <= ply < |ps|
    ensures threefold <==> TwoMatches(ps, ply)
  {
    var repetitions := 1;
    var i := 4;
    ghost var seen := 0;
    while i <= ps[ply].rule50 && i <= ply
      invariant i >= 4 && i % 2 == 0 && 1 <= repetitions <= 2
      invariant repetitions == 1 ==> forall k: int :: k < i ==> !Matches(ps, ply, k)
      invariant repetitions == 2 ==> seen < i && Matches(ps, ply, seen) && forall k: int :: k < i && k != seen ==> !Matches(ps, ply, k)
    {
      assert !Matches(ps, ply, i + 1);
      if ps[ply - i].key == ps[ply].key {
        assert Matches(ps, ply, i);
        repetitions := repetitions + 1;
        if repetitions >= 3 {
          return true;
        }
        seen := i;
      }
      i := i + 2;
    }
    return false;
  }

  // Threefold detection misses nothing: a position that has occurred twice before in the game is found,
  // although the scan only looks back as far as rule50, at even distances from 4 on, and compares keys.
  lemma ThreefoldFound(z: Tables, ps: seq<Pos>, i: int, j: int)
    requires History(z, ps) && BelowLimit(ps) && 0 <= i < j < |ps| - 1
    requires StateOf(ps[i]) == StateOf(ps[j]) == StateOf(ps[|ps| - 1])
    ensures TwoMatches(ps, |ps| - 1)
  {
    hide Sound, WellFormed, KeyOf, Measure, StateOf, History;
    var n := |ps| - 1;
    RepeatDistance(z, ps, i, n);
    RepeatDistance(z, ps, j, n);
    HistorySound(z, ps, i);
    HistorySound(z, ps, j);
    HistorySound(z, ps, n);
    assert Matches(ps, n, n - j) && Matches(ps, n, n - i);
  }
}
