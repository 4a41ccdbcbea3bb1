/** Properties of every finite run of legal moves from a well-formed position. */
module Runs {
  import opened Rules
  import opened Positions
  import opened Preservation
  import opened PositionClass
  import opened Progress

  // The state after the moves ms.
  function After(st: State, ms: seq<Move>): State
    decreases |ms|
  {
    if ms == [] then st else NextState(After(st, ms[..|ms| - 1]), ms[|ms| - 1])
  }

  ghost predicate LegalRun(st: State, ms: seq<Move>)
  {
    forall i: int :: 0 <= i < |ms| ==> Legal(After(st, ms[..i]), ms[i])
  }

  // Number of moves of the run that reset the fifty-move counter.
  function ResetsIn(st: State, ms: seq<Move>): nat
    decreases |ms|
  {
    if ms == [] then 0
    else ResetsIn(st, ms[..|ms| - 1]) + One(Resets(After(st, ms[..|ms| - 1]), ms[|ms| - 1]))
  }

  lemma LastStep(st: State, ms: seq<Move>)
    requires LegalRun(st, ms) && ms != []
    ensures LegalRun(st, ms[..|ms| - 1]) && Legal(After(st, ms[..|ms| - 1]), ms[|ms| - 1])
  {
    hide Legal, After;
    var k := |ms| - 1;
    assert Legal(After(st, ms[..k]), ms[k]);
    forall i: int | 0 <= i < k ensures Legal(After(st, ms[..k][..i]), ms[..k][i]) {
      assert ms[..k][..i] == ms[..i];
      assert Legal(After(st, ms[..i]), ms[i]);
    }
  }

  // Well-formedness is kept by every run, and the position reached never has more than two checkers.
  lemma {:induction false} RunKeepsWellFormed(st: State, ms: seq<Move>)
    requires WellFormed(st) && LegalRun(st, ms)
    ensures WellFormed(After(st, ms))
    ensures ms != [] ==> |CheckerSet(After(st, ms).board, After(st, ms).turn, KingSquare(After(st, ms).board, After(st, ms).turn))| <= 2
    decreases |ms|
  {
    hide WellFormed, Legal, LegalRun, NextState, CheckerSet, KingSquare;
    if ms != [] {
      LastStep(st, ms);
      var before, m := After(st, ms[..|ms| - 1]), ms[|ms| - 1];
      RunKeepsWellFormed(st, ms[..|ms| - 1]);
      WellFormedAfter(before, m);
      ReadyToFinish(before, m);
      TurnAfter(before, m);
    }
  }

  lemma TurnAfter(st: State, m: Move)
    ensures NextState(st, m).turn == Opposite(st.turn) && NextState(st, m).board == PlayBoard(st, m)
  {
    hide PlayBoard, NextCastle, NextEp;
  }

  lemma {:induction false} RunKeepsOrthodox(st: State, ms: seq<Move>)
    requires WellFormed(st) && LegalRun(st, ms) && Orthodox(st)
    ensures Orthodox(After(st, ms))
    decreases |ms|
  {
    hide WellFormed, Legal, LegalRun, NextState, Orthodox;
    if ms != [] {
      LastStep(st, ms);
      RunKeepsWellFormed(st, ms[..|ms| - 1]);
      RunKeepsOrthodox(st, ms[..|ms| - 1]);
      OrthodoxAfter(After(st, ms[..|ms| - 1]), ms[|ms| - 1]);
    }
  }

  // No move of any run takes a king.
  lemma NoKingEverTaken(st: State, ms: seq<Move>, i: nat)
    requires WellFormed(st) && LegalRun(st, ms) && i < |ms|
    ensures var before := After(st, ms[..i]); before.board[ms[i].to] != Man(Opposite(before.turn), KING)
  {
    hide WellFormed, Legal, NextState, After;
    var before := After(st, ms[..i]);
    assert Legal(before, ms[i]);
    hide LegalRun;
    RunPrefix(st, ms, i);
    RunKeepsWellFormed(st, ms[..i]);
    LegalTarget(before, ms[i]);
  }

  lemma RunPrefix(st: State, ms: seq<Move>, i: nat)
    requires LegalRun(st, ms) && i <= |ms|
    ensures LegalRun(st, ms[..i])
  {
    hide Legal, After;
    forall j: int | 0 <= j < i ensures Legal(After(st, ms[..i][..j]), ms[..i][j]) {
      assert ms[..i][..j] == ms[..j];
      assert Legal(After(st, ms[..j]), ms[j]);
    }
  }

  lemma LegalTarget(st: State, m: Move)
    requires WellFormed(st) && Legal(st, m)
    ensures st.board[m.to] != Man(Opposite(st.turn), KING)
  {
    hide WellFormed, Legal, Ordinary, Castling, EnPassant, PlayBoard;
    LegalCases(st, m);
    if Ordinary(st, m) {
      NoKingCaptured(st, m);
    } else if EnPassant(st, m) {
      EnPassantForm(st, m);
    } else {
      CastlingOwn(st, m);
    }
  }

  // However long the run, at most 130 of its moves are captures, pawn moves or castling: each of them uses
  // up a man, a pawn step or a castling rook that never comes back.
  lemma {:induction false} ResetsAreBounded(st: State, ms: seq<Move>)
    requires WellFormed(st) && LegalRun(st, ms)
    ensures ResetsIn(st, ms) + Measure(After(st, ms)) <= Measure(st)
    ensures ResetsIn(st, ms) <= 130
    decreases |ms|
  {
    hide WellFormed, Legal, LegalRun, NextState, Measure, Resets;
    MeasureBound(st);
    RunKeepsWellFormed(st, ms);
    MeasureBound(After(st, ms));
    if ms != [] {
      LastStep(st, ms);
      RunKeepsWellFormed(st, ms[..|ms| - 1]);
      ResetsAreBounded(st, ms[..|ms| - 1]);
      MoveProgress(After(st, ms[..|ms| - 1]), ms[|ms| - 1]);
    }
  }
}
