/** Why a game ends, from the replies themselves: the endings by the rules and by the replies of
    src/game.c:217-284, each with exactly its condition. */
module Endings {
  import opened Geometry
  import opened Rules
  import opened Zobrist
  import opened Positions
  import opened Repetition
  import opened Games

  // ---- What the replies say ------------------------------------------------------------------------------

  // The engine that answers at ply has run out of time.
  predicate OutOfTime(timed: seq<bool>, replies: nat -> Reply, first: int, ply: nat)
    requires |timed| == 2
  {
    timed[(first + ply) % 2] && replies(ply).timeLeft < 0
  }

  // The score of the last answer but k, and of the last answer but k of the same engine.
  function ScoreBack(replies: nat -> Reply, ply: nat, k: nat): int
    requires k <= ply
  {
    replies(ply - k).score
  }

  function OwnScoreBack(replies: nat -> Reply, ply: nat, k: nat): int
    requires 2 * k <= ply
  {
    replies(ply - 2 * k).score
  }

  // The last 2 * drawCount scores, drawCount of each engine, are level, and drawNumber moves have been made.
  predicate CalledLevel(o: Options, replies: nat -> Reply, ply: nat)
  {
    o.drawCount != 0 && ply / 2 + 1 >= o.drawNumber && Abs(replies(ply).score) <= o.drawScore && 2 * o.drawCount <= ply + 1 &&
    forall k: nat :: k < 2 * o.drawCount ==> Abs(ScoreBack(replies, ply, k)) <= o.drawScore
  }

  // In its last resignCount answers the engine that answers at ply has given itself up.
  predicate GivenUp(o: Options, replies: nat -> Reply, ply: nat)
  {
    o.resignCount != 0 && ply / 2 + 1 >= o.resignNumber && replies(ply).score <= -o.resignScore && 2 * (o.resignCount - 1) <= ply &&
    forall k: nat :: k < o.resignCount ==> OwnScoreBack(replies, ply, k) <= -o.resignScore
  }

  // ---- The counters of the loop count that ---------------------------------------------------------------

  function OwnBack(s: seq<int>, k: nat): int
    requires 2 * k < |s|
  {
    s[|s| - 1 - 2 * k]
  }

  // The last n of every second score, counted from the end, pass the test.
  predicate EverySecond(test: int -> bool, s: seq<int>, n: nat)
  {
    2 * (n - 1) < |s| && forall k: nat :: k < n ==> test(OwnBack(s, k))
  }

  lemma {:induction false} OwnRunAtLeast(test: int -> bool, s: seq<int>, first: int, n: nat)
    requires s != []
    ensures RunLength(test, OwnScores(s, first, (first + |s| - 1) % 2)) >= n <==> EverySecond(test, s, n)
    decreases |s|
  {
    hide RunLength, OwnScores, EverySecond;
    var e, last := (first + |s| - 1) % 2, s[|s| - 1];
    if n == 0 {
      NoneAsked(test, s);
    } else if |s| <= 2 {
      ShortRun(test, s, first, n);
    } else {
      var t := s[..|s| - 2];
      TwoBack(s, first);
      RunLengthPush(test, OwnScores(t, first, e), last);
      SameParity(first + |t| - 1);
      OwnRunAtLeast(test, t, first, n - 1);
      EverySecondBack(test, s, n);
    }
  }

  lemma NoneAsked(test: int -> bool, s: seq<int>)
    ensures EverySecond(test, s, 0)
  {}

  lemma SameParity(x: int)
    ensures (x + 2) % 2 == x % 2
  {}

  lemma TwoBack(s: seq<int>, first: int)
    requires |s| >= 2
    ensures OwnScores(s, first, (first + |s| - 1) % 2) == OwnScores(s[..|s| - 2], first, (first + |s| - 1) % 2) + [s[|s| - 1]]
  {
    var t := s[..|s| - 1];
    assert t[..|t| - 1] == s[..|s| - 2];
    assert (first + |t| - 1) % 2 != (first + |s| - 1) % 2;
  }

  lemma ShortRun(test: int -> bool, s: seq<int>, first: int, n: nat)
    requires 1 <= |s| <= 2 && n > 0
    ensures RunLength(test, OwnScores(s, first, (first + |s| - 1) % 2)) >= n <==> EverySecond(test, s, n)
  {
    var e, last := (first + |s| - 1) % 2, s[|s| - 1];
    assert OwnScores(s, first, e) == [last] by {
      if |s| == 2 { TwoBack(s, first); }
      assert s[..0] == [] && OwnScores([], first, e) == [];
    }
    RunLengthPush(test, [], last);
    assert [] + [last] == [last];
    assert OwnBack(s, 0) == last;
    hide OwnScores;
  }

  lemma EverySecondBack(test: int -> bool, s: seq<int>, n: nat)
    requires |s| > 2 && n > 0
    ensures EverySecond(test, s, n) <==> test(s[|s| - 1]) && EverySecond(test, s[..|s| - 2], n - 1)
  {
    var t := s[..|s| - 2];
    assert OwnBack(s, 0) == s[|s| - 1];
    if EverySecond(test, s, n) {
      forall k: nat | k < n - 1 ensures test(OwnBack(t, k)) { assert OwnBack(t, k) == OwnBack(s, k + 1); }
    }
    if test(s[|s| - 1]) && EverySecond(test, t, n - 1) {
      forall k: nat | k < n ensures test(OwnBack(s, k)) { if k > 0 { assert OwnBack(s, k) == OwnBack(t, k - 1); } }
    }
  }

  lemma DrawDueIff(o: Options, replies: nat -> Reply, s: seq<int>, ply: nat)
    requires |s| == ply + 1 && forall q: nat :: q < |s| ==> s[q] == replies(q).score
    ensures DrawDue(o, s) <==> CalledLevel(o, replies, ply)
  {
    if o.drawCount > 0 {
      RunLengthAtLeast(DrawTest(o), s, 2 * o.drawCount);
      hide RunLength;
      if CalledLevel(o, replies, ply) {
        forall i: int | |s| - 2 * o.drawCount <= i < |s| ensures DrawTest(o)(s[i]) {
          assert Abs(ScoreBack(replies, ply, ply - i)) <= o.drawScore;
        }
      }
      if DrawDue(o, s) {
        forall k: nat | k < 2 * o.drawCount ensures k <= ply && Abs(ScoreBack(replies, ply, k)) <= o.drawScore {
          assert DrawTest(o)(s[ply - k]);
        }
      }
    }
  }

  lemma ResignDueIff(o: Options, replies: nat -> Reply, s: seq<int>, first: int, ply: nat)
    requires |s| == ply + 1 && forall q: nat :: q < |s| ==> s[q] == replies(q).score
    ensures ResignDue(o, s, first) <==> GivenUp(o, replies, ply)
  {
    if o.resignCount > 0 {
      OwnRunAtLeast(ResignTest(o), s, first, o.resignCount);
      hide RunLength, OwnScores;
      if GivenUp(o, replies, ply) {
        forall k: nat | k < o.resignCount ensures ResignTest(o)(OwnBack(s, k)) {
          assert OwnScoreBack(replies, ply, k) <= -o.resignScore;
        }
      }
      if ResignDue(o, s, first) {
        forall k: nat | k < o.resignCount ensures 2 * k <= ply && OwnScoreBack(replies, ply, k) <= -o.resignScore {
          assert ResignTest(o)(OwnBack(s, k));
        }
      }
    }
  }

  // ---- Endings by a reply --------------------------------------------------------------------------------

  lemma ReplyMeans(o: Options, timed: seq<bool>, replies: nat -> Reply, first: int, s: seq<int>, legal: bool, ply: nat)
    requires |timed| == 2 && |s| == ply + 1 && forall q: nat :: q < |s| ==> s[q] == replies(q).score
    ensures var r := replies(ply);
            var late := OutOfTime(timed, replies, first, ply);
            var state := ReplyState(o, timed[Mover(first, ply)], r, legal, s, first);
            (state == TimeLoss <==> !r.ok || (legal && late)) &&
            (state == IllegalMove <==> r.ok && !legal) &&
            (state == DrawAdjudication <==> r.ok && legal && !late && CalledLevel(o, replies, ply)) &&
            (state == Resign <==> r.ok && legal && !late && !CalledLevel(o, replies, ply) && GivenUp(o, replies, ply)) &&
            (state == Unterminated <==> r.ok && legal && !late && !CalledLevel(o, replies, ply) && !GivenUp(o, replies, ply))
  {
    DrawDueIff(o, replies, s, ply);
    ResignDueIff(o, replies, s, first, ply);
    hide DrawDue, ResignDue, CalledLevel, GivenUp;
  }

  // A game that ends with a reply: which of the four endings it is.
  lemma EndsByReply(z: Tables, o: Options, timed: seq<bool>, replies: nat -> Reply, first: int, start: Pos,
                    ps: seq<Pos>, scores: seq<int>, ply: nat, state: GameState)
    requires |timed| == 2 && Ended(z, o, timed, replies, first, start, ps, scores, ply, state) && |scores| == ply + 1
    ensures var r := replies(ply);
            var legal, late := Legal(StateOf(ps[ply]), r.best), OutOfTime(timed, replies, first, ply);
            (state == TimeLoss <==> !r.ok || (legal && late)) &&
            (state == IllegalMove <==> r.ok && !legal) &&
            (state == DrawAdjudication <==> r.ok && legal && !late && CalledLevel(o, replies, ply)) &&
            (state == Resign <==> r.ok && legal && !late && !CalledLevel(o, replies, ply) && GivenUp(o, replies, ply)) &&
            (state.TimeLoss? || state.IllegalMove? || state.DrawAdjudication? || state.Resign?)
  {
    hide Potential, ReplyState, StateOf, Legal, Verdict, History, PlyContinues, CalledLevel, GivenUp, OutOfTime;
    ReplyMeans(o, timed, replies, first, scores, Legal(StateOf(ps[ply]), replies(ply).best), ply);
  }

  // At every earlier ply the reply came, was legal and in time, and called for no adjudication.
  lemma WentOn(z: Tables, o: Options, timed: seq<bool>, replies: nat -> Reply, first: int, start: Pos,
               ps: seq<Pos>, scores: seq<int>, ply: nat, state: GameState, q: nat)
    requires |timed| == 2 && Ended(z, o, timed, replies, first, start, ps, scores, ply, state) && q < ply
    ensures replies(q).ok && Legal(StateOf(ps[q]), replies(q).best) && ps[q + 1].lastMove == replies(q).best
    ensures !OutOfTime(timed, replies, first, q) && !CalledLevel(o, replies, q) && !GivenUp(o, replies, q)
  {
    hide Potential, ReplyState, StateOf, Legal, Verdict, CalledLevel, GivenUp, OutOfTime, Follows, Sound;
    assert PlyContinues(o, timed, replies, first, ps, scores, q);
    ReplyMeans(o, timed, replies, first, scores[..q + 1], true, q);
    assert Follows(z, ps[q + 1 - 1], ps[q + 1].lastMove, ps[q + 1]);
    FollowsIsLegal(z, ps[q], ps[q + 1].lastMove, ps[q + 1]);
  }

  lemma FollowsIsLegal(z: Tables, p: Pos, m: Move, q: Pos)
    requires Follows(z, p, m, q)
    ensures Legal(StateOf(p), m)
  {}

  // ---- Endings by the rules ------------------------------------------------------------------------------

  // A game that ends before a reply is asked for: which of the five endings it is.
  lemma EndsByRules(z: Tables, o: Options, timed: seq<bool>, replies: nat -> Reply, first: int, start: Pos,
                    ps: seq<Pos>, scores: seq<int>, ply: nat, state: GameState)
    requires |timed| == 2 && Ended(z, o, timed, replies, first, start, ps, scores, ply, state) && |scores| == ply
    ensures var st := StateOf(ps[ply]);
            var stuck := !exists m: Move :: Legal(st, m);
            (state == Checkmate <==> stuck && InCheck(st.board, st.turn)) &&
            (state == Stalemate <==> stuck && !InCheck(st.board, st.turn)) &&
            (state == FiftyMoves <==> !stuck && ps[ply].rule50 == 100) &&
            (state == InsufficientMaterial <==> !stuck && ps[ply].rule50 < 100 && Insufficient(st.board)) &&
            (state == Threefold <==> !stuck && ps[ply].rule50 < 100 && !Insufficient(st.board) && TwoMatches(ps, ply)) &&
            (state.Checkmate? || state.Stalemate? || state.FiftyMoves? || state.InsufficientMaterial? || state.Threefold?)
  {
    hide Potential, ReplyState, StateOf, Legal, History, PlyContinues, Insufficient, TwoMatches, InCheck;
  }
}
