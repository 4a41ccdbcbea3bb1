/** The UCI position command of src/game.c:28-49 and its reader, parse_position of test/engine.c:58-90. */
module Uci {
  import opened Geometry
  import opened Rules
  import opened Zobrist
  import opened Positions
  import opened PositionClass
  import opened Progress
  import opened Repetition
  import opened Text
  import opened Lan
  import opened FenSpec
  import opened FenRoundTrip
  import opened Fen
  import opened FenReader
  import opened StartPosition
  import opened Games

  // ---- The command ---------------------------------------------------------------------------------------

  // The moves that led from position a to position b of a game.
  function Lans(ps: seq<Pos>, a: nat, b: nat): (ls: seq<string>)
    requires b < |ps|
    ensures |ls| == if a < b then b - a else 0
  {
    if a >= b then [] else Lans(ps, a, b - 1) + [MoveToLan(ps[b - 1], ps[b].lastMove)]
  }

  lemma {:induction false} LansAt(ps: seq<Pos>, a: nat, b: nat, i: nat)
    requires a + i < b < |ps|
    ensures Lans(ps, a, b)[i] == MoveToLan(ps[a + i], ps[a + i + 1].lastMove)
  {
    hide MoveToLan;
    if a + i < b - 1 { LansAt(ps, a, b - 1, i); }
  }

  ghost function CommandTokens(ps: seq<Pos>, a: nat, b: nat): seq<string>
    requires a <= b < |ps| && ps[a].rule50 >= 0 && ps[a].fullMove >= 0
  {
    ["position", "fen"] + FenTokens(ps[a]) + (if a < b then ["moves"] + Lans(ps, a, b) else [])
  }

  lemma {:induction false} JoinedPush(ts: seq<string>, t: string)
    requires ts != []
    ensures JoinedBySpaces(ts + [t]) == JoinedBySpaces(ts) + " " + t
  {
    if |ts| == 1 {
      assert (ts + [t])[1..] == [t];
    } else {
      JoinedPush(ts[1..], t);
      assert (ts + [t])[1..] == ts[1..] + [t];
    }
  }

  lemma JoinedPrefix(t: string, ts: seq<string>)
    requires ts != []
    ensures JoinedBySpaces([t] + ts) == t + " " + JoinedBySpaces(ts)
  {
    assert ([t] + ts)[1..] == ts;
  }

  lemma CommandStart(ts: seq<string>)
    requires ts != []
    ensures "position fen " + JoinedBySpaces(ts) == JoinedBySpaces(["position", "fen"] + ts)
  {
    JoinedPrefix("fen", ts);
    JoinedPrefix("position", ["fen"] + ts);
    assert ["position"] + (["fen"] + ts) == ["position", "fen"] + ts;
    hide JoinedBySpaces;
    assert "position" + " " + ("fen" + " " + JoinedBySpaces(ts)) == "position fen " + JoinedBySpaces(ts);
  }

  // Where the command starts: the last reset of the fifty-move counter.
  function StartPly(ps: seq<Pos>, ply: nat): (ply0: nat)
    requires ply < |ps| && ps[ply].rule50 >= 0
    ensures ply0 <= ply
  {
    if ply - ps[ply].rule50 < 0 then 0 else ply - ps[ply].rule50
  }

  lemma LansPush(ps: seq<Pos>, a: nat, k: nat, start: seq<string>)
    requires a < k < |ps|
    ensures JoinedBySpaces(start + (["moves"] + Lans(ps, a, k))) ==
            JoinedBySpaces(start + (["moves"] + Lans(ps, a, k - 1))) + " " + MoveToLan(ps[k - 1], ps[k].lastMove)
  {
    hide JoinedBySpaces, MoveToLan;
    var lan := MoveToLan(ps[k - 1], ps[k].lastMove);
    assert start + (["moves"] + (Lans(ps, a, k - 1) + [lan])) == start + (["moves"] + Lans(ps, a, k - 1)) + [lan];
    JoinedPush(start + (["moves"] + Lans(ps, a, k - 1)), lan);
  }

  // src/game.c:41-47
  method PutMoves(ps: seq<Pos>, ply0: nat, ply: nat, cmd0: string, ghost start: seq<string>) returns (cmd: string)
    requires ply0 < ply < |ps| && start != [] && cmd0 == JoinedBySpaces(start)
    ensures cmd == JoinedBySpaces(start + (["moves"] + Lans(ps, ply0, ply)))
  {
    NoLans(ps, ply0);
    hide *;
    JoinedPush(start, "moves");
    cmd := cmd0 + " moves";
    assert ["moves"] + [] == ["moves"];
    assert cmd0 + " " + "moves" == cmd;
    var k := ply0 + 1;
    while k <= ply
      invariant ply0 < k <= ply + 1
      invariant cmd == JoinedBySpaces(start + (["moves"] + Lans(ps, ply0, k - 1)))
    {
      LansPush(ps, ply0, k, start);
      cmd := cmd + " " + MoveToLan(ps[k - 1], ps[k].lastMove);
      k := k + 1;
    }
  }

  lemma NoLans(ps: seq<Pos>, a: nat)
    requires a < |ps|
    ensures Lans(ps, a, a) == []
  {}

  // src/game.c:28-49
  method UciPositionCommand(z: Tables, ps: seq<Pos>, ply: nat) returns (cmd: string)
    requires History(z, ps) && ply < |ps|
    ensures ps[ply].rule50 >= 0 && ps[StartPly(ps, ply)].rule50 >= 0 && ps[StartPly(ps, ply)].fullMove >= 0
    ensures cmd == JoinedBySpaces(CommandTokens(ps, StartPly(ps, ply), ply))
  {
    hide History, Sound, FenTokens, JoinedBySpaces, MoveToLan, StateOf, KeyOf, WellFormed, Word, Lans;
    HistorySound(z, ps, ply);
    var ply0 := if ply - ps[ply].rule50 > 0 then ply - ps[ply].rule50 else 0;
    HistorySound(z, ps, ply0);
    FenTokensAreWords(z, ps[ply0]);
    var fen := PosGet(z, ps[ply0]);
    cmd := "position fen " + fen;
    CommandStart(FenTokens(ps[ply0]));
    ghost var start := ["position", "fen"] + FenTokens(ps[ply0]);
    assert start + [] == start;
    if ply0 < ply {
      cmd := PutMoves(ps, ply0, ply, cmd, start);
    }
  }

  // The moves, each behind a space.
  function MovesText(ps: seq<Pos>, a: nat, b: nat): string
    requires b < |ps|
  {
    if a >= b then "" else MovesText(ps, a, b - 1) + " " + MoveToLan(ps[b - 1], ps[b].lastMove)
  }

  // The command, character by character.
  lemma {:induction false} CommandText(ps: seq<Pos>, a: nat, b: nat)
    requires a <= b < |ps| && ps[a].rule50 >= 0 && ps[a].fullMove >= 0
    ensures JoinedBySpaces(CommandTokens(ps, a, b)) ==
            "position fen " + JoinedBySpaces(FenTokens(ps[a])) + (if a == b then "" else " moves" + MovesText(ps, a, b))
  {
    hide JoinedBySpaces, MoveToLan, FenTokens, Lans;
    FenTokensSome(ps[a]);
    CommandStart(FenTokens(ps[a]));
    var start := ["position", "fen"] + FenTokens(ps[a]);
    if a == b {
      assert start + [] == start;
    } else {
      LansPush(ps, a, b, start);
      if a == b - 1 { MovesWord(ps, a, start); } else { CommandText(ps, a, b - 1); }
      hide MovesText;
      MovesPush("position fen " + JoinedBySpaces(FenTokens(ps[a])), ps, a, b);
    }
  }

  lemma MovesWord(ps: seq<Pos>, a: nat, start: seq<string>)
    requires a < |ps| && start != []
    ensures JoinedBySpaces(start + (["moves"] + Lans(ps, a, a))) == JoinedBySpaces(start) + " moves" + MovesText(ps, a, a)
  {
    NoLans(ps, a);
    hide JoinedBySpaces, Lans;
    JoinedPush(start, "moves");
    assert ["moves"] + [] == ["moves"];
    assert JoinedBySpaces(start) + " " + "moves" == JoinedBySpaces(start) + " moves" + "";
  }

  lemma MovesPush(before: string, ps: seq<Pos>, a: nat, b: nat)
    requires a < b < |ps|
    ensures before + (" moves" + MovesText(ps, a, b)) ==
            before + " moves" + MovesText(ps, a, b - 1) + " " + MoveToLan(ps[b - 1], ps[b].lastMove)
  {
    hide MoveToLan;
  }

  lemma FenTokensSome(p: Pos)
    requires p.rule50 >= 0 && p.fullMove >= 0
    ensures FenTokens(p) != []
  {}

  // ---- The reader ----------------------------------------------------------------------------------------

  // Tokens up to the word "moves", and tokens after it.
  function BeforeMoves(ts: seq<string>): seq<string>
  {
    if ts == [] || ts[0] == "moves" then [] else [ts[0]] + BeforeMoves(ts[1..])
  }

  function AfterMoves(ts: seq<string>): seq<string>
  {
    if ts == [] then [] else if ts[0] == "moves" then ts[1..] else AfterMoves(ts[1..])
  }

  lemma {:induction false} SplitAtMoves(fields: seq<string>, rest: seq<string>)
    requires "moves" !in fields && (rest == [] || rest[0] == "moves")
    ensures BeforeMoves(fields + rest) == fields && AfterMoves(fields + rest) == if rest == [] then [] else rest[1..]
  {
    if fields == [] {
      assert fields + rest == rest;
    } else {
      SplitAtMoves(fields[1..], rest);
      assert (fields + rest)[1..] == fields[1..] + rest;
    }
  }

  // The texts name, one after the other, the moves of the run.
  ghost predicate NamesRun(z: Tables, run: seq<Pos>, lans: seq<string>)
  {
    History(z, run) && |run| == |lans| + 1 &&
    forall i: int :: 0 <= i < |lans| ==> LanToMove(run[i], lans[i]) == Some(run[i + 1].lastMove)
  }

  lemma {:induction false} TokensAreWords(s: string)
    ensures forall i: int :: 0 <= i < |Tokens(s)| ==> Word(Tokens(s)[i])
    decreases |s|
  {
    if TokenOf(s) != "" {
      TokensAreWords(TailOf(s));
    }
  }

  lemma {:induction false} SpacedPush(ws: seq<string>, w: string)
    ensures Spaced(ws + [w]) == Spaced(ws) + w + " "
  {
    if ws == [] {
      assert (ws + [w])[1..] == [];
    } else {
      SpacedPush(ws[1..], w);
      assert (ws + [w])[1..] == ws[1..] + [w];
    }
  }

  // test/engine.c:66-69: the fields up to "moves", each followed by a space.
  method CollectFen(tail0: Option<string>, token0: string) returns (fen: string, tail: Option<string>, token: string)
    requires tail0.Some?
    ensures Tokens(fen) == BeforeMoves(Rest(tail0))
    ensures token == "moves" ==> Rest(tail) == AfterMoves(Rest(tail0))
    ensures token != "moves" ==> AfterMoves(Rest(tail0)) == []
  {
    hide Tokens, Word;
    ghost var ts := Rest(tail0);
    ghost var done: seq<string> := [];
    fen := "";
    TokensAreWords(tail0.value);
    token, tail := StrTok(tail0, token0);
    while tail.Some? && token != "moves"
      invariant tail.Some? ==> done + [token] + Rest(tail) == ts
      invariant tail.None? ==> done == ts && token == ""
      invariant fen == Spaced(done) && "moves" !in done
      decreases |Rest(tail)| + (if tail.Some? then 1 else 0)
    {
      SpacedPush(done, token);
      fen := fen + token + " ";
      done := done + [token];
      token, tail := StrTok(tail, token);
      assert tail.Some? ==> done + ([token] + Rest(tail)) == ts;
    }
    if tail.Some? {
      assert done + ([token] + Rest(tail)) == ts;
      SplitAtMoves(done, [token] + Rest(tail));
    } else {
      SplitAtMoves(done, []);
      assert done + [] == ts;
    }
    assert done <= ts;
    TokensSpaced(done);
  }

  lemma FollowsFacts(z: Tables, p: Pos, m: Move, q: Pos)
    requires Follows(z, p, m, q)
    ensures Legal(StateOf(p), m) && Sound(q, z) && StateOf(q) == NextState(StateOf(p), m) && q.lastMove == m
    ensures q.chess960 == p.chess960 && q.rule50 == NextRule50(StateOf(p), m, p.rule50) && q.fullMove == NextFullMove(p)
  {}

  // A sound position is determined by its state, its counters and its mode, last move excepted.
  lemma SoundIsDetermined(z: Tables, p: Pos, q: Pos)
    requires Sound(p, z) && Sound(q, z) && StateOf(p) == StateOf(q)
    requires p.rule50 == q.rule50 && p.fullMove == q.fullMove && p.chess960 == q.chess960
    ensures SameButLastMove(q, p)
  {
    hide Sound, Represents, WellFormed, KeyOf, BoardOf, KingSquare, AttackedSet, CheckerSet, PinSet, Orthodox;
    SoundParts(p, z);
    SoundParts(q, z);
    SameSets(q, p, BoardOf(p));
  }

  lemma SameStates(p: Pos, q: Pos)
    requires SameButLastMove(p, q)
    ensures StateOf(p) == StateOf(q) && p.rule50 == q.rule50 && p.fullMove == q.fullMove && p.chess960 == q.chess960
    ensures forall lan: string :: LanToMove(p, lan) == LanToMove(q, lan)
    ensures NextFullMove(p) == NextFullMove(q)
  {
    SameBoard(p, q);
    hide NamedMove;
    forall s: Square ensures p.PieceOn(s) == q.PieceOn(s) { SamePiece(p, q, s, KNIGHT); }
  }

  // test/engine.c:84-86: one move of the run, played on the other buffer.
  method PlayNamed(z: Tables, lan: string, from: Position, to: Position, ghost p: Pos, ghost q: Pos)
    requires from != to && Sound(from.View(), z) && SameButLastMove(from.View(), p)
    requires Follows(z, p, q.lastMove, q) && LanToMove(p, lan) == Some(q.lastMove)
    modifies to
    ensures to.View() == q && Sound(to.View(), z)
  {
    hide Sound, Legal, NextState, LanToMove, NextRule50, NextFullMove, StateOf, SameButLastMove, Follows;
    FollowsFacts(z, p, q.lastMove, q);
    SameStates(from.View(), p);
    var m := LanToMove(from.View(), lan).value;
    to.Play(z, from.View(), m);
    to.ViewFields();
    to.ViewLastMove();
    SoundIsDetermined(z, q, to.View());
    SameLastMove(to.View(), q);
  }

  lemma SameLastMove(p: Pos, q: Pos)
    requires SameButLastMove(p, q) && p.lastMove == q.lastMove
    ensures p == q
  {}

  lemma NamesRunAt(z: Tables, run: seq<Pos>, lans: seq<string>, k: nat)
    requires NamesRun(z, run, lans)
    ensures |run| == |lans| + 1 && Sound(run[0], z)
    ensures k < |lans| ==> Follows(z, run[k], run[k + 1].lastMove, run[k + 1]) && LanToMove(run[k], lans[k]) == Some(run[k + 1].lastMove)
  {
    hide Sound, Follows, LanToMove;
    assert 0 < k + 1;
  }

  // test/engine.c:79-90
  method PlayMoves(z: Tables, pos: Position, tail0: Option<string>, token0: string, ghost run: seq<Pos>)
    requires Rest(tail0) != [] ==> NamesRun(z, run, Rest(tail0)) && Sound(pos.View(), z) && SameButLastMove(pos.View(), run[0])
    modifies pos
    ensures pos.View() == if Rest(tail0) == [] then old(pos.View()) else run[|run| - 1]
  {
    hide Sound, NamesRun, Tokens, LanToMove, SameButLastMove, Follows, Standing, Position.View;
    ghost var lans := Rest(tail0);
    ghost var start := pos.View();
    StandingFirst(z, start, run, lans);
    var p0 := new Position();
    var p1 := new Position();
    var p: seq<Position> := [p0, p1];
    p[0].CopyFrom(pos.View());
    var idx, k := 0, 0;
    var token, tail := StrTok(tail0, token0);
    while tail.Some?
      invariant p == [p0, p1] && p0 != p1 && fresh(p0) && fresh(p1) && 0 <= idx <= 1 && 0 <= k <= |lans|
      invariant tail.Some? ==> k < |lans| && lans[k] == token && Rest(tail) == lans[k + 1..]
      invariant tail.None? ==> k == |lans|
      invariant Standing(z, p[idx].View(), start, run, lans, k)
      decreases |Rest(tail)| + (if tail.Some? then 1 else 0)
    {
      NamesRunAt(z, run, lans, k);
      StandingAt(z, p[idx].View(), start, run, lans, k);
      PlayNamed(z, token, p[idx], p[1 - idx], run[k], run[k + 1]);
      StandingNext(z, p[1 - idx].View(), start, run, lans, k + 1);
      idx := 1 - idx;
      k := k + 1;
      token, tail := StrTok(tail, token);
    }
    StandingAt(z, p[idx].View(), start, run, lans, k);
    pos.CopyFrom(p[idx].View());
  }

  // v is what the buffer in use holds after k moves.
  ghost predicate Standing(z: Tables, v: Pos, start: Pos, run: seq<Pos>, lans: seq<string>, k: nat)
  {
    (lans != [] ==> k < |run| == |lans| + 1 && Sound(v, z) && SameButLastMove(v, run[k])) &&
    (if k == 0 then v == start else k < |run| && v == run[k])
  }

  lemma StandingFirst(z: Tables, start: Pos, run: seq<Pos>, lans: seq<string>)
    requires lans != [] ==> NamesRun(z, run, lans) && Sound(start, z) && SameButLastMove(start, run[0])
    ensures Standing(z, start, start, run, lans, 0)
  {
    hide Sound, SameButLastMove, NamesRun;
    if lans != [] { NamesRunAt(z, run, lans, 0); }
  }

  lemma StandingAt(z: Tables, v: Pos, start: Pos, run: seq<Pos>, lans: seq<string>, k: nat)
    requires Standing(z, v, start, run, lans, k)
    ensures lans != [] ==> k < |run| == |lans| + 1 && Sound(v, z) && SameButLastMove(v, run[k])
    ensures if k == 0 then v == start else k < |run| && v == run[k]
  {
    hide Sound, SameButLastMove;
  }

  lemma StandingNext(z: Tables, v: Pos, start: Pos, run: seq<Pos>, lans: seq<string>, k: nat)
    requires lans != [] && 0 < k < |run| == |lans| + 1 && Sound(v, z) && v == run[k]
    ensures Standing(z, v, start, run, lans, k)
  {
    hide Sound, SameButLastMove;
    SameAsItself(v);
  }

  lemma SameAsItself(p: Pos)
    ensures SameButLastMove(p, p)
  {}

  lemma LoadedSound(z: Tables, p: Pos, r: Pos, q: Parsed)
    requires Loaded(z, p, q) && Loaded(z, r, q) && Sound(r, z)
    ensures Sound(p, z) && SameButLastMove(p, r)
  {
    hide Represents, WellFormed, KeyOf, BoardOf, KingSquare, AttackedSet, CheckerSet, PinSet, Orthodox;
    SameSets(p, r, BoardOf(p));
  }

  // The text that a command gives its position by, token by token, and the moves that it names.
  function PositionFields(ts: seq<string>): seq<string>
    requires ts != []
  {
    if ts[0] == "startpos" then Tokens(START_FEN) else BeforeMoves(ts[1..])
  }

  function PositionMoves(ts: seq<string>): seq<string>
    requires ts != []
  {
    if ts[0] != "startpos" then AfterMoves(ts[1..]) else if |ts| > 1 && ts[1] == "moves" then ts[2..] else []
  }

  // test/engine.c:62-77: the position before the moves.
  method SetPosition(z: Tables, pos: Position, token0: string, tail0: Option<string>, uciChess960: bool)
    returns (outcome: Outcome, tail: Option<string>, token: string)
    requires tail0.Some? && (token0 == "startpos" || token0 == "fen")
    modifies pos
    ensures var ts := [token0] + Rest(tail0);
            outcome == FenMeaning(PositionFields(ts), uciChess960).Kind() &&
            (outcome.Accepted? ==> Loaded(z, pos.View(), FenMeaning(PositionFields(ts), uciChess960).value)) &&
            (token == "moves" ==> Rest(tail) == PositionMoves(ts)) && (token != "moves" ==> PositionMoves(ts) == [])
  {
    hide Tokens, FenMeaning, Loaded, START_FEN;
    assert ([token0] + Rest(tail0))[1..] == Rest(tail0);
    if token0 == "startpos" {
      outcome := PosSet(z, pos, START_FEN, uciChess960);
      StartIsAccepted(uciChess960);
      token, tail := StrTok(tail0, token0);
    } else {
      var fen;
      fen, tail, token := CollectFen(tail0, token0);
      outcome := PosSet(z, pos, fen, uciChess960);
    }
  }

  // test/engine.c:58-90.  The moves named, if any, must be the legal moves of some run from the position that the
  // text gives, as pos_move demands.
  method ParsePosition(z: Tables, text: string, pos: Position, uciChess960: bool, ghost run: seq<Pos>) returns (outcome: Outcome)
    requires Tokens(text) != [] && (Tokens(text)[0] == "startpos" || Tokens(text)[0] == "fen")
    requires var q := FenMeaning(PositionFields(Tokens(text)), uciChess960);
             q.Read? && PositionMoves(Tokens(text)) != [] ==> NamesRun(z, run, PositionMoves(Tokens(text))) && Loaded(z, run[0], q.value)
    modifies pos
    ensures outcome == FenMeaning(PositionFields(Tokens(text)), uciChess960).Kind()
    ensures outcome.Accepted? && PositionMoves(Tokens(text)) == [] ==>
            Loaded(z, pos.View(), FenMeaning(PositionFields(Tokens(text)), uciChess960).value)
    ensures outcome.Accepted? && PositionMoves(Tokens(text)) != [] ==> run != [] && pos.View() == run[|run| - 1]
  {
    hide Sound, NamesRun, Tokens, SameButLastMove, FenMeaning, Loaded, PositionFields, PositionMoves;
    var token, tail := StrTok(Some(text), "");
    assert Tokens(text) == [token] + Rest(tail);
    outcome, tail, token := SetPosition(z, pos, token, tail, uciChess960);
    if outcome != Accepted { return; }
    if PositionMoves(Tokens(text)) != [] {
      NamesRunAt(z, run, PositionMoves(Tokens(text)), 0);
      LoadedSound(z, pos.View(), run[0], FenMeaning(PositionFields(Tokens(text)), uciChess960).value);
    }
    if token == "moves" {
      PlayMoves(z, pos, tail, token, run);
    }
  }

  // ---- What is read is what was played -------------------------------------------------------------------

  lemma LanWord(z: Tables, p: Pos, m: Move)
    requires Sound(p, z) && Legal(StateOf(p), m)
    ensures Word(MoveToLan(p, m))
  {
    hide Sound, LanToMove, Legal;
    LanRoundTrip(z, p, m);
    LanChars(p, m);
    if MoveToLan(p, m) == "" { NothingNamed(p); }
  }

  lemma NothingNamed(p: Pos)
    ensures LanToMove(p, "") == None
  {}

  lemma LanChars(p: Pos, m: Move)
    ensures ' ' !in MoveToLan(p, m)
  {
    hide SquareName;
    SquareWord(m.from);
    if 0 <= LanTarget(p, m) < 64 { SquareWord(LanTarget(p, m)); }
  }

  lemma NoFieldIsMoves(z: Tables, p: Pos)
    requires Sound(p, z)
    ensures p.rule50 >= 0 && p.fullMove >= 0 && "moves" !in FenTokens(p)
  {
    hide Sound, BoardOf, WellFormed, Derived, KeyOf, CastleText, SquareName, Digits, Represents, Orthodox, RowText;
    SoundParts(p, z);
    CastleShort(z, p);
    SquareNameRoundTrip(p.epSquare);
    DigitsAreDigits(p.rule50);
    DigitsAreDigits(p.fullMove);
    var row, below := RowText(BoardOf(p), 7, 0, 0), PlacementText(BoardOf(p), 6);
    assert PlacementText(BoardOf(p), 7) == row + "/" + below;
    assert (row + "/" + below)[|row|] == '/';
    assert '/' !in "moves";
    assert "moves"[0] == 'm' && !IsDigit('m');
  }

  lemma CastleShort(z: Tables, p: Pos)
    requires Sound(p, z)
    ensures |CastleText(p)| <= 4
  {
    hide Sound, BoardOf, CastleText, CastleRights;
    CastlingRoundTrip(z, p);
  }

  lemma SubHistory(z: Tables, ps: seq<Pos>, run: seq<Pos>, a: nat)
    requires History(z, ps) && |run| >= 1 && a + |run| <= |ps| && forall i: int :: 0 <= i < |run| ==> run[i] == ps[a + i]
    ensures History(z, run)
  {
    hide Sound, Follows;
    HistorySound(z, ps, a);
    forall i: int | 0 < i < |run| ensures Follows(z, run[i - 1], run[i].lastMove, run[i]) {
      assert run[i - 1] == ps[a + i - 1];
      assert Follows(z, ps[a + i - 1], ps[a + i].lastMove, ps[a + i]);
    }
  }

  lemma LanNamesMove(z: Tables, ps: seq<Pos>, a: nat, b: nat, i: nat)
    requires History(z, ps) && a + i < b < |ps|
    ensures LanToMove(ps[a + i], Lans(ps, a, b)[i]) == Some(ps[a + i + 1].lastMove) && Word(Lans(ps, a, b)[i])
  {
    hide *;
    LansAt(ps, a, b, i);
    HistorySound(z, ps, a + i);
    HistoryStep(z, ps, a + i + 1);
    FollowsFacts(z, ps[a + i], ps[a + i + 1].lastMove, ps[a + i + 1]);
    LanRoundTrip(z, ps[a + i], ps[a + i + 1].lastMove);
    LanWord(z, ps[a + i], ps[a + i + 1].lastMove);
  }

  // The positions from a to b.
  function SubRun(ps: seq<Pos>, a: nat, b: nat): (run: seq<Pos>)
    requires a <= b < |ps|
    ensures |run| == b - a + 1 && forall i: int :: 0 <= i < |run| ==> run[i] == ps[a + i]
  {
    ps[a..b + 1]
  }

  lemma RunNames(z: Tables, ps: seq<Pos>, a: nat, b: nat)
    requires History(z, ps) && a <= b < |ps|
    ensures NamesRun(z, SubRun(ps, a, b), Lans(ps, a, b))
    ensures forall i: int :: 0 <= i < |Lans(ps, a, b)| ==> Word(Lans(ps, a, b)[i])
  {
    hide History, Sound, Follows, LanToMove, MoveToLan, Word, Lans, Legal, SubRun;
    var run := SubRun(ps, a, b);
    SubHistory(z, ps, run, a);
    forall i: int | 0 <= i < b - a
      ensures LanToMove(run[i], Lans(ps, a, b)[i]) == Some(run[i + 1].lastMove)
      ensures Word(Lans(ps, a, b)[i])
    {
      LanNamesMove(z, ps, a, b, i);
    }
  }

  // The command without its first word, token by token.
  lemma CommandReads(z: Tables, ps: seq<Pos>, a: nat, b: nat)
    requires History(z, ps) && a <= b < |ps|
    ensures ps[a].rule50 >= 0 && ps[a].fullMove >= 0
    ensures var text := JoinedBySpaces(CommandTokens(ps, a, b)); |text| >= 9 && Tokens(text[9..]) == CommandTokens(ps, a, b)[1..]
    ensures var ts := CommandTokens(ps, a, b)[2..]; BeforeMoves(ts) == FenTokens(ps[a]) && AfterMoves(ts) == Lans(ps, a, b)
  {
    hide *;
    HistorySound(z, ps, a);
    FenTokensAreWords(z, ps[a]);
    RunNames(z, ps, a, b);
    NoFieldIsMoves(z, ps[a]);
    CommandShape(ps, a, b);
    var moves := if a < b then ["moves"] + Lans(ps, a, b) else [];
    SplitAtMoves(FenTokens(ps[a]), moves);
    var ts := ["fen"] + FenTokens(ps[a]) + moves;
    JoinedPrefix("position", ts);
    assert ("position" + " " + JoinedBySpaces(ts))[9..] == JoinedBySpaces(ts);
    WordsOfCommand();
    JoinedTokens(ts);
  }

  lemma CommandShape(ps: seq<Pos>, a: nat, b: nat)
    requires a <= b < |ps| && ps[a].rule50 >= 0 && ps[a].fullMove >= 0
    ensures var moves := if a < b then ["moves"] + Lans(ps, a, b) else [];
            CommandTokens(ps, a, b) == ["position"] + (["fen"] + FenTokens(ps[a]) + moves) &&
            CommandTokens(ps, a, b)[1..] == ["fen"] + FenTokens(ps[a]) + moves &&
            CommandTokens(ps, a, b)[2..] == FenTokens(ps[a]) + moves &&
            CommandTokens(ps, a, b)[1] == "fen" && (a == b ==> Lans(ps, a, b) == [])
  {
    hide FenTokens;
  }

  // So the reader takes the position from the fields of the text, and the moves from the moves.
  lemma CommandParts(ts: seq<string>)
    requires |ts| > 1 && ts[1] == "fen"
    ensures ts[1..] != [] && ts[1..][0] == "fen"
    ensures PositionFields(ts[1..]) == BeforeMoves(ts[2..]) && PositionMoves(ts[1..]) == AfterMoves(ts[2..])
  {
    assert ts[1..][1..] == ts[2..];
    hide BeforeMoves, AfterMoves;
  }

  lemma WordsOfCommand()
    ensures Word("fen") && Word("moves")
  {}

  // The pruned command loses nothing: the reader rebuilds the position of the game, for every game prefix,
  // exactly when the position the command starts from passes the checks of the FEN reader.
  method SendPosition(z: Tables, ps: seq<Pos>, ply: nat) returns (outcome: Outcome, pos: Position)
    requires History(z, ps) && ply < |ps|
    ensures ps[ply].rule50 >= 0
    ensures var p0 := ps[StartPly(ps, ply)];
            outcome == if !(p0.rule50 < 100 && p0.fullMove >= 1) then Rejected(Refused)
                       else if |p0.checkers| > 2 then Rejected(AssertFails)
                       else Accepted
    ensures outcome.Accepted? ==> SameButLastMove(pos.View(), ps[ply])
    ensures fresh(pos)
  {
    hide *;
    HistorySound(z, ps, ply);
    ghost var ply0 := StartPly(ps, ply);
    var cmd := UciPositionCommand(z, ps, ply);
    CommandReads(z, ps, ply0, ply);
    RunNames(z, ps, ply0, ply);
    HistorySound(z, ps, ply0);
    FenIsLossless(z, ps[ply0]);
    LoadsItself(z, ps[ply0]);
    CommandShape(ps, ply0, ply);
    CommandParts(CommandTokens(ps, ply0, ply));
    SameMode(z, ps, ply0, ply);
    KindsOf(ps[ply0]);
    pos := new Position();
    outcome := ParsePosition(z, cmd[9..], pos, ps[ply].chess960, SubRun(ps, ply0, ply));
    if outcome == Accepted {
      if ply0 == ply { LoadedIsSame(z, ps[ply], pos.View()); }
      SameAsItself(ps[ply]);
    }
  }

  // ---- When the command of a game is refused -------------------------------------------------------------

  // Moves of black among the first k moves of a game, from the colour that begins.
  function BlackMoves(first: Color, k: nat): nat { if k == 0 then 0 else BlackMoves(first, k - 1) + (if MoverAt(first, k - 1) == BLACK then 1 else 0) }

  // The colour to move after k moves.
  function MoverAt(first: Color, k: nat): Color { if k == 0 then first else Opposite(MoverAt(first, k - 1)) }

  lemma BlackMovesAreHalf(first: Color, k: nat)
    ensures BlackMoves(first, k) == (if first == BLACK then (k + 1) / 2 else k / 2)
    ensures MoverAt(first, k) == if k % 2 == 0 then first else Opposite(first)
  {}

  function Wrapped(n: nat): nat { n % 65536 }

  lemma WrappedNext(p: Pos, n: nat)
    requires p.fullMove == Wrapped(n)
    ensures NextFullMove(p) == Wrapped(n + (if p.turn == BLACK then 1 else 0))
  {}

  // The full-move number counts the moves of black, on 16 bits.
  lemma {:induction false} FullMoveAt(z: Tables, ps: seq<Pos>, k: nat)
    requires History(z, ps) && k < |ps|
    ensures ps[0].fullMove >= 0 && ps[k].turn == MoverAt(ps[0].turn, k)
    ensures ps[k].fullMove == Wrapped(ps[0].fullMove + BlackMoves(ps[0].turn, k))
  {
    hide History, Sound, Legal, Measure, Resets, Wrapped, NextState, NextFullMove, StateOf, WellFormed, KeyOf, Follows, NextRule50, BlackMoves, MoverAt;
    FirstFullMove(z, ps);
    MoverUnfold(ps[0].turn, k);
    if k > 0 {
      FullMoveAt(z, ps, k - 1);
      HistoryStep(z, ps, k);
      FollowsFacts(z, ps[k - 1], ps[k].lastMove, ps[k]);
      TurnPasses(ps[k - 1], ps[k].lastMove, ps[k]);
      WrappedNext(ps[k - 1], ps[0].fullMove + BlackMoves(ps[0].turn, k - 1));
    }
  }

  lemma MoverUnfold(first: Color, k: nat)
    ensures MoverAt(first, k) == if k == 0 then first else Opposite(MoverAt(first, k - 1))
    ensures BlackMoves(first, k) ==
            if k == 0 then 0 else BlackMoves(first, k - 1) + (if MoverAt(first, k - 1) == BLACK then 1 else 0)
  {}

  lemma FirstFullMove(z: Tables, ps: seq<Pos>)
    requires History(z, ps) && |ps| > 0
    ensures 0 <= ps[0].fullMove < 65536 && ps[0].fullMove == Wrapped(ps[0].fullMove)
  {
    hide *;
    HistorySound(z, ps, 0);
    SoundParts(ps[0], z);
    NotWrapped(ps[0].fullMove);
  }

  lemma NotWrapped(n: nat)
    requires n < 65536
    ensures Wrapped(n) == n
  {}

  lemma TurnPasses(p: Pos, m: Move, q: Pos)
    requires StateOf(q) == NextState(StateOf(p), m)
    ensures q.turn == Opposite(p.turn)
  {
    hide BoardOf, PlayBoard, NextCastle, NextEp;
  }

  // No position of a game but its first can have more than two checkers.
  lemma PlayedCheckers(z: Tables, p: Pos, m: Move, q: Pos)
    requires Sound(p, z) && Follows(z, p, m, q)
    ensures |q.checkers| <= 2
  {
    hide Sound, WellFormed, Legal, BoardOf, KeyOf, Represents, PlayBoard, NextCastle, NextEp, KingSquare, KingAt, KingHit, AttackedSet, PinSet, CheckerSet, Orthodox;
    SoundParts(p, z);
    FollowsFacts(z, p, m, q);
    SoundParts(q, z);
    ReadyToFinish(StateOf(p), m);
  }

  // In a game whose start the FEN reader accepts, the command can only be refused for a full-move number that
  // has wrapped around to 0 where the command starts.
  lemma StartOfCommand(z: Tables, ps: seq<Pos>, ply: nat)
    requires History(z, ps) && BelowLimit(ps) && ply < |ps| && FenMeaning(FenTokens(ps[0]), ps[0].chess960).Read?
    ensures ps[ply].rule50 >= 0
    ensures var k := StartPly(ps, ply);
            ps[k].rule50 < 100 && |ps[k].checkers| <= 2 && ps[0].fullMove >= 0 && ps[k].fullMove == Wrapped(ps[0].fullMove + BlackMoves(ps[0].turn, k))
  {
    hide History, Sound, FenMeaning, FenTokens, StateOf, KeyOf, WellFormed, BlackMoves, Follows, Measure;
    HistorySound(z, ps, 0);
    HistorySound(z, ps, ply);
    FenIsLossless(z, ps[0]);
    var k := StartPly(ps, ply);
    FullMoveAt(z, ps, k);
    if k > 0 {
      HistorySound(z, ps, k - 1);
      HistoryStep(z, ps, k);
      PlayedCheckers(z, ps[k - 1], ps[k].lastMove, ps[k]);
    }
  }

  // The same for a game: whether the command comes back is decided by the full-move number of the first
  // position and the moves black has made up to the last reset.
  method SendPositionOfGame(z: Tables, ps: seq<Pos>, ply: nat) returns (outcome: Outcome, pos: Position)
    requires History(z, ps) && BelowLimit(ps) && ply < |ps| && FenMeaning(FenTokens(ps[0]), ps[0].chess960).Read?
    ensures ps[ply].rule50 >= 0 && ps[0].fullMove >= 0
    ensures outcome == if Wrapped(ps[0].fullMove + BlackMoves(ps[0].turn, StartPly(ps, ply))) == 0 then Rejected(Refused) else Accepted
    ensures ply <= 13100 && ps[0].fullMove <= 58985 ==> outcome == Accepted
    ensures outcome.Accepted? ==> SameButLastMove(pos.View(), ps[ply])
    ensures fresh(pos)
  {
    hide *;
    StartOfCommand(z, ps, ply);
    HistorySound(z, ps, 0);
    AcceptedFullMove(z, ps[0]);
    if ply <= 13100 && ps[0].fullMove <= 58985 { NeverWraps(ps[0].turn, ps[0].fullMove, StartPly(ps, ply)); }
    outcome, pos := SendPosition(z, ps, ply);
  }

  lemma NeverWraps(first: Color, fullMove: nat, k: nat)
    requires 1 <= fullMove <= 58985 && k <= 13100
    ensures Wrapped(fullMove + BlackMoves(first, k)) != 0
  {
    hide BlackMoves, Wrapped;
    BlackMovesAreHalf(first, k);
    NotWrapped(fullMove + BlackMoves(first, k));
  }

  // In a game that starts with a full-move number of at most 58985 that never happens: the text of every command
  // sent, from the first ply to the last, is accepted.
  lemma CommandNeverRefused(z: Tables, o: Options, timed: seq<bool>, replies: nat -> Reply, first: int, start: Pos,
                            ps: seq<Pos>, scores: seq<int>, ply: int, state: GameState, q: nat)
    requires |timed| == 2 && Ended(z, o, timed, replies, first, start, ps, scores, ply, state) && q <= ply
    requires FenMeaning(FenTokens(start), start.chess960).Read? && start.fullMove <= 58985
    ensures ps[q].rule50 >= 0 && ps[StartPly(ps, q)].rule50 >= 0 && ps[StartPly(ps, q)].fullMove >= 0
    ensures FenMeaning(BeforeMoves(CommandTokens(ps, StartPly(ps, q), q)[2..]), ps[q].chess960).Read?
  {
    hide *;
    EndedHistory(z, o, timed, replies, first, start, ps, scores, ply, state);
    AcceptedFullMove(z, start);
    StartOfCommand(z, ps, q);
    NeverWraps(ps[0].turn, start.fullMove, StartPly(ps, q));
    var k := StartPly(ps, q);
    HistorySound(z, ps, k);
    CommandReads(z, ps, k, q);
    FenIsLossless(z, ps[k]);
    SameMode(z, ps, k, q);
  }

  lemma EndedHistory(z: Tables, o: Options, timed: seq<bool>, replies: nat -> Reply, first: int, start: Pos,
                     ps: seq<Pos>, scores: seq<int>, ply: int, state: GameState)
    requires |timed| == 2 && Ended(z, o, timed, replies, first, start, ps, scores, ply, state)
    ensures History(z, ps) && BelowLimit(ps) && ps[0] == start && |ps| == ply + 1 && Sound(start, z)
    ensures start.rule50 <= 100 ==> ply <= 13100
  {
    hide Sound, PlyContinues, Potential, Verdict, ReplyState, Legal, StateOf, History;
    EndedFacts(z, o, timed, replies, first, start, ps, scores, ply, state);
    HistorySound(z, ps, 0);
    if start.rule50 <= 100 { PotentialBound(z, start); }
  }

  lemma AcceptedFullMove(z: Tables, p: Pos)
    requires Sound(p, z) && FenMeaning(FenTokens(p), p.chess960).Read?
    ensures p.fullMove >= 1 && p.rule50 < 100
  {
    hide Sound, FenMeaning, FenTokens;
    FenIsLossless(z, p);
  }

  lemma KindsOf(p: Pos)
    ensures Parse<Parsed>.Failed(Refused).Kind() == Rejected(Refused) && Parse<Parsed>.Failed(AssertFails).Kind() == Rejected(AssertFails)
    ensures Read(Parsed(StateOf(p), p.rule50, p.fullMove, p.chess960)).Kind() == Accepted
  {}

  lemma LoadsItself(z: Tables, p: Pos)
    requires Sound(p, z)
    ensures Loaded(z, p, Parsed(StateOf(p), p.rule50, p.fullMove, p.chess960))
  {
    hide Derived, WellFormed, Represents, KeyOf, BoardOf, Orthodox;
  }

  lemma {:induction false} SameMode(z: Tables, ps: seq<Pos>, a: nat, b: nat)
    requires History(z, ps) && a <= b < |ps|
    ensures ps[a].chess960 == ps[b].chess960
    decreases b - a
  {
    hide History, Sound, Legal, StateOf, NextState, Measure;
    if a < b {
      HistoryStep(z, ps, b);
      FollowsFacts(z, ps[b - 1], ps[b].lastMove, ps[b]);
      SameMode(z, ps, a, b - 1);
    }
  }

  // Where the command starts, rule50 was reset or the game begins, and nothing after that resets it: no shorter list of
  // moves would do.
  lemma StartIsLastReset(z: Tables, ps: seq<Pos>, ply: nat, q: nat)
    requires History(z, ps) && BelowLimit(ps) && ply < |ps| && ps[ply].rule50 <= 100
    ensures ps[ply].rule50 >= 0
    ensures var k := StartPly(ps, ply); (k > 0 ==> ps[k].rule50 == 0) && (k < q <= ply ==> ps[q].rule50 > 0)
  {
    hide History, Sound, BelowLimit, StateOf, KeyOf, WellFormed;
    HistorySound(z, ps, ply);
    var k := StartPly(ps, ply);
    CounterBack(z, ps, ply, ply - k);
    if k < q <= ply {
      CounterBack(z, ps, ply, ply - q);
    }
  }

  lemma {:induction false} CounterBack(z: Tables, ps: seq<Pos>, ply: nat, j: nat)
    requires History(z, ps) && BelowLimit(ps) && ply < |ps| && ps[ply].rule50 <= 100 && j <= ply && j <= ps[ply].rule50
    ensures ps[ply - j].rule50 == ps[ply].rule50 - j
  {
    hide History, Sound, StateOf, Resets, KeyOf, WellFormed, Follows, Measure;
    if j > 0 {
      CounterBack(z, ps, ply, j - 1);
      HistoryStep(z, ps, ply - j + 1);
      HistorySound(z, ps, ply - j);
      CounterStep(z, ps[ply - j], ps[ply - j + 1]);
    }
  }

  lemma CounterStep(z: Tables, p: Pos, q: Pos)
    requires Follows(z, p, q.lastMove, q) && 0 <= p.rule50 < 100
    ensures q.rule50 == 0 || q.rule50 == p.rule50 + 1
  {
    hide Sound, StateOf, Resets, Legal, NextState, KeyOf;
  }

  // Nor does the pruning lose repetitions: every earlier occurrence of the position is in the command.
  lemma PruningKeepsRepetitions(z: Tables, ps: seq<Pos>, i: nat, ply: nat)
    requires History(z, ps) && BelowLimit(ps) && i <= ply < |ps| && StateOf(ps[i]) == StateOf(ps[ply])
    ensures ps[ply].rule50 >= 0 && StartPly(ps, ply) <= i
  {
    hide History, Sound, StateOf, Measure;
    HistorySound(z, ps, i);
    HistorySound(z, ps, ply);
    RepeatMeansNoReset(z, ps, i, ply);
  }
}
