/** The tables that src/bitboard.c builds by walking over the board: slider attacks, rays, segments and
    leaper attacks are the geometric sets of the module Bitboards. */
module BoardTables {
  import opened Geometry
  import opened Rules
  import opened Bitboards
  import opened Sequences

  // A step on the board: rank and file difference.
  datatype Step = Step(dr: int, df: int)

  // A step to one of the eight neighbours.
  predicate Unit(d: Step) { -1 <= d.dr <= 1 && -1 <= d.df <= 1 && (d.dr != 0 || d.df != 0) }

  function Code(d: Step): int { 3 * d.dr + d.df }

  // Coordinate reached from x after n steps of size d.
  function Along(x: int, d: int, n: int): int { if d == 0 then x else if d > 0 then x + n else x - n }

  lemma AtNext(x: int, d: int, n: int)
    requires -1 <= d <= 1
    ensures Along(x, d, n) + d == Along(x, d, n + 1) && Along(x, d, 0) == x
  {}

  // The square reached after n steps lies in the direction of the step, at distance n.
  lemma StepSquare(s: Square, d: Step, n: int)
    requires Unit(d) && n >= 1 && OnBoard(Along(RankOf(s), d.dr, n), Along(FileOf(s), d.df, n))
    ensures var t := SquareFrom(Along(RankOf(s), d.dr, n), Along(FileOf(s), d.df, n)); Dir(s, t) == Code(d) && Dist(s, t) == n && t != s
  {
    SquareFromCoords(Along(RankOf(s), d.dr, n), Along(FileOf(s), d.df, n));
    hide RankOf, FileOf;
    DirReverse(s, SquareFrom(Along(RankOf(s), d.dr, n), Along(FileOf(s), d.df, n)));
  }

  // A square in the direction of the step is reached after as many steps as its distance.
  lemma PolarSquare(s: Square, d: Step, t: Square)
    requires Unit(d) && Dir(s, t) == Code(d)
    ensures RankOf(t) == Along(RankOf(s), d.dr, Dist(s, t)) && FileOf(t) == Along(FileOf(s), d.df, Dist(s, t)) && Dist(s, t) >= 1
  {
    hide RankOf, FileOf;
    CodeSigns(d, RankOf(t) - RankOf(s), FileOf(t) - FileOf(s));
  }

  lemma CodeSigns(d: Step, dr: int, df: int)
    requires Unit(d) && Code(d) == 3 * Sgn(dr) + Sgn(df)
    ensures d.dr == Sgn(dr) && d.df == Sgn(df)
  {}

  lemma CodeUnique(d: Step, e: Step)
    requires Unit(d) && Unit(e) && Code(d) == Code(e)
    ensures d == e && Code(d) != 0
  {}

  // Once off the board, nothing further on is on the board.
  lemma NothingBeyond(s: Square, d: Step, n: int, t: Square)
    requires Unit(d) && n >= 1 && !OnBoard(Along(RankOf(s), d.dr, n), Along(FileOf(s), d.df, n)) && Dir(s, t) == Code(d)
    ensures Dist(s, t) < n
  {
    PolarSquare(s, d, t);
    CoordsRange(s);
    CoordsRange(t);
    hide RankOf, FileOf, Dist, Dir;
  }

  // ---- Slider attacks ------------------------------------------------------------------------------------

  // What a slider on s sees in the direction with the given code.
  function Line(s: Square, occ: Bitboard, code: int): Bitboard
  {
    set t: Square | 0 <= t < 64 && Dir(s, t) == code && Visible(s, t, occ)
  }

  // The squares of the direction at distances below n.
  function Near(s: Square, code: int, n: int): Bitboard
  {
    set t: Square | 0 <= t < 64 && Dir(s, t) == code && Dist(s, t) < n
  }

  lemma NearNext(s: Square, d: Step, n: int, t: Square)
    requires Unit(d) && n >= 1 && Dir(s, t) == Code(d) && Dist(s, t) == n
    ensures Near(s, Code(d), n + 1) == Near(s, Code(d), n) + {t} && t !in Near(s, Code(d), n)
  {
    hide Dir, Dist;
    CodeUnique(d, d);
    forall u: Square ensures u in Near(s, Code(d), n + 1) <==> u in Near(s, Code(d), n) + {t} {
      if Dir(s, u) == Code(d) && Dist(s, u) == n { PolarUnique(s, t, u); }
    }
  }

  lemma BlockedLine(s: Square, occ: Bitboard, d: Step, n: int, t: Square)
    requires Unit(d) && Dir(s, t) == Code(d) && Dist(s, t) == n && t in occ && Near(s, Code(d), n) !! occ
    ensures Line(s, occ, Code(d)) == Near(s, Code(d), n + 1)
  {
    hide Dir, Dist;
    CodeUnique(d, d);
    forall u: Square ensures u in Line(s, occ, Code(d)) <==> u in Near(s, Code(d), n + 1) {
      if Dir(s, u) == Code(d) {
        if Dist(s, u) > n { assert Between(s, t, u); }
        if Dist(s, u) <= n {
          forall x: Square | Between(s, x, u) ensures x !in occ { assert x in Near(s, Code(d), n); }
        }
      }
    }
  }

  lemma OpenLine(s: Square, occ: Bitboard, d: Step, n: int)
    requires Unit(d) && Near(s, Code(d), n) !! occ && forall t: Square :: Dir(s, t) == Code(d) ==> Dist(s, t) < n
    ensures Line(s, occ, Code(d)) == Near(s, Code(d), n)
  {
    hide Dir, Dist;
    CodeUnique(d, d);
    forall u: Square ensures u in Line(s, occ, Code(d)) <==> u in Near(s, Code(d), n) {
      if Dir(s, u) == Code(d) {
        forall x: Square | Between(s, x, u) ensures x !in occ { assert x in Near(s, Code(d), n); }
      }
    }
  }

  lemma NothingNear(s: Square, d: Step)
    requires Unit(d)
    ensures Near(s, Code(d), 1) == {}
  {
    forall t: Square ensures t !in Near(s, Code(d), 1) { if Dir(s, t) == Code(d) { PolarSquare(s, d, t); } }
  }

  // src/bitboard.c:76-87: one direction.
  method WalkLine(square: Square, occ: Bitboard, d: Step, before: Bitboard) returns (result: Bitboard)
    requires Unit(d) && before !! Line(square, {}, Code(d))
    ensures result == before + Line(square, occ, Code(d))
  {
    hide RankOf, FileOf, Dir, Dist, Near, Line, Code, Unit;
    result := before;
    UnitBounds(d);
    var rank, file := RankOf(square) + d.dr, FileOf(square) + d.df;
    ghost var n := 1;
    AtNext(RankOf(square), d.dr, 0);
    AtNext(FileOf(square), d.df, 0);
    NothingNear(square, d);
    while 0 <= rank < 8 && 0 <= file < 8
      invariant n >= 1 && rank == Along(RankOf(square), d.dr, n) && file == Along(FileOf(square), d.df, n)
      invariant result == before + Near(square, Code(d), n) && Near(square, Code(d), n) !! occ
      decreases 9 - n
    {
      var sq := SquareFrom(rank, file);
      StepSquare(square, d, n);
      NearNext(square, d, n, sq);
      DistanceBound(square, sq);
      FreshSquare(square, d, n, sq, before);
      result := BbSet(result, sq);
      if sq in occ {
        BlockedLine(square, occ, d, n, sq);
        return;
      }
      AtNext(RankOf(square), d.dr, n);
      AtNext(FileOf(square), d.df, n);
      rank, file, n := rank + d.dr, file + d.df, n + 1;
    }
    forall t: Square | Dir(square, t) == Code(d) ensures Dist(square, t) < n { NothingBeyond(square, d, n, t); }
    OpenLine(square, occ, d, n);
  }

  lemma UnitBounds(d: Step)
    requires Unit(d)
    ensures -1 <= d.dr <= 1 && -1 <= d.df <= 1
  {}

  lemma DistanceBound(s: Square, t: Square)
    ensures Dist(s, t) < 8
  {
    CoordsRange(s);
    CoordsRange(t);
    hide RankOf, FileOf;
  }

  lemma FreshSquare(s: Square, d: Step, n: int, t: Square, before: Bitboard)
    requires before !! Line(s, {}, Code(d)) && Dir(s, t) == Code(d)
    ensures t !in before
  {
    hide Dir, Between;
    assert t in Line(s, {}, Code(d));
  }

  predicate InDirs(code: int, dirs: seq<Step>, k: nat) { exists j: nat :: j < k && j < |dirs| && Code(dirs[j]) == code }

  lemma InDirsNext(dirs: seq<Step>, k: nat)
    requires k < |dirs|
    ensures forall code: int :: InDirs(code, dirs, k + 1) <==> InDirs(code, dirs, k) || code == Code(dirs[k])
  {
    hide Code;
    forall code: int ensures InDirs(code, dirs, k + 1) <==> InDirs(code, dirs, k) || code == Code(dirs[k]) {
      if code == Code(dirs[k]) { assert InDirs(code, dirs, k + 1); }
      if InDirs(code, dirs, k) { var j: nat :| j < k && j < |dirs| && Code(dirs[j]) == code; assert j < k + 1; }
    }
  }

  // What is seen in the first k directions.
  function Lines(s: Square, occ: Bitboard, dirs: seq<Step>, k: nat): Bitboard
  {
    set t: Square | 0 <= t < 64 && InDirs(Dir(s, t), dirs, k) && Visible(s, t, occ)
  }

  ghost predicate DirsOk(dirs: seq<Step>)
  {
    (forall i: nat :: i < |dirs| ==> Unit(dirs[i])) && NoRepeats(dirs)
  }

  lemma LinesNext(s: Square, occ: Bitboard, dirs: seq<Step>, k: nat)
    requires DirsOk(dirs) && k < |dirs|
    ensures Lines(s, occ, dirs, k + 1) == Lines(s, occ, dirs, k) + Line(s, occ, Code(dirs[k]))
    ensures Lines(s, occ, dirs, k) !! Line(s, {}, Code(dirs[k]))
  {
    hide Dir, Visible, Code, Unit;
    InDirsNext(dirs, k);
    forall t: Square | InDirs(Dir(s, t), dirs, k) ensures Dir(s, t) != Code(dirs[k]) {
      var j: nat :| j < k && j < |dirs| && Code(dirs[j]) == Dir(s, t);
      if Code(dirs[j]) == Code(dirs[k]) { CodeUnique(dirs[j], dirs[k]); }
    }
  }

  // src/bitboard.c:71-91
  method SliderAttacks(square: Square, occ: Bitboard, dirs: seq<Step>) returns (result: Bitboard)
    requires DirsOk(dirs) && |dirs| == 4
    ensures result == Lines(square, occ, dirs, 4)
  {
    hide Lines, Line, Unit;
    result := {};
    NoLines(square, occ, dirs);
    var i := 0;
    while i < 4
      invariant 0 <= i <= 4 && result == Lines(square, occ, dirs, i)
    {
      LinesNext(square, occ, dirs, i);
      result := WalkLine(square, occ, dirs[i], result);
      i := i + 1;
    }
  }

  lemma NoLines(s: Square, occ: Bitboard, dirs: seq<Step>)
    ensures Lines(s, occ, dirs, 0) == {}
  {}

  function RookDirs(): seq<Step> { [Step(-1, 0), Step(0, -1), Step(0, 1), Step(1, 0)] }

  function BishopDirs(): seq<Step> { [Step(-1, -1), Step(-1, 1), Step(1, -1), Step(1, 1)] }

  lemma SliderDirs(code: int)
    ensures InDirs(code, RookDirs(), 4) <==> RookDir(code)
    ensures InDirs(code, BishopDirs(), 4) <==> BishopDir(code)
  {
    var r, b := RookDirs(), BishopDirs();
    assert Code(r[0]) == -3 && Code(r[1]) == -1 && Code(r[2]) == 1 && Code(r[3]) == 3;
    assert Code(b[0]) == -4 && Code(b[1]) == -2 && Code(b[2]) == 2 && Code(b[3]) == 4;
  }

  // Walking the rook's and the bishop's directions gives the attacks that the engine reasons with.
  lemma WalksAreAttacks(s: Square, occ: Bitboard)
    ensures DirsOk(RookDirs()) && DirsOk(BishopDirs())
    ensures Lines(s, occ, RookDirs(), 4) == RookAttacks(s, occ)
    ensures Lines(s, occ, BishopDirs(), 4) == BishopAttacks(s, occ)
  {
    forall t: Square
      ensures InDirs(Dir(s, t), RookDirs(), 4) <==> RookDir(Dir(s, t))
      ensures InDirs(Dir(s, t), BishopDirs(), 4) <==> BishopDir(Dir(s, t))
    {
      SliderDirs(Dir(s, t));
    }
    hide Dir, Visible, InDirs, RookDir, BishopDir;
  }

  // ---- Rays and segments ---------------------------------------------------------------------------------

  function KingDirs(): seq<Step>
  {
    [Step(-1, -1), Step(-1, 0), Step(-1, 1), Step(0, -1), Step(0, 1), Step(1, -1), Step(1, 0), Step(1, 1)]
  }

  lemma KingDirsAre(code: int)
    ensures |KingDirs()| == 8 && (forall i: nat :: i < 8 ==> Unit(KingDirs()[i])) && Code(KingDirs()[7]) == 4
    ensures InDirs(code, KingDirs(), 8) <==> RookDir(code) || BishopDir(code)
  {
    var k := KingDirs();
    assert Code(k[0]) == -4 && Code(k[1]) == -3 && Code(k[2]) == -2 && Code(k[3]) == -1;
    assert Code(k[4]) == 1 && Code(k[5]) == 2 && Code(k[6]) == 3 && Code(k[7]) == 4;
  }

  // The line from s in one direction, s included.
  function LineFrom(s: Square, code: int, n: int): Bitboard { Near(s, code, n) + {s} }

  lemma SegmentOnLine(s: Square, d: Step, n: int, t: Square)
    requires Unit(d) && n >= 1 && Dir(s, t) == Code(d) && Dist(s, t) == n && s != t
    ensures Segment(s, t) == LineFrom(s, Code(d), n + 1)
  {
    hide Dir, Dist;
    CodeUnique(d, d);
    forall u: Square ensures u in Segment(s, t) <==> u in LineFrom(s, Code(d), n + 1) {
      if Dir(s, u) == Code(d) && Dist(s, u) == n { PolarUnique(s, t, u); }
    }
  }

  // src/bitboard.c:136-145: one direction, from the square itself outwards.
  method FillSegments(square: Square, d: Step, segment: array<Bitboard>) returns (mask: Bitboard)
    requires Unit(d) && segment.Length == 64
    modifies segment
    ensures mask == LineFrom(square, Code(d), 8)
    ensures forall t: Square :: segment[t] == if t == square || Dir(square, t) == Code(d) then Segment(square, t) else old(segment[t])
  {
    hide RankOf, FileOf, Dir, Dist, Near, Code, Unit, Segment;
    UnitBounds(d);
    NothingNear(square, d);
    SelfSegment(square, d);
    CoordsRange(square);
    mask := {square};
    segment[square] := mask;
    var r2, f2 := RankOf(square) + d.dr, FileOf(square) + d.df;
    ghost var n := 1;
    AtNext(RankOf(square), d.dr, 0);
    AtNext(FileOf(square), d.df, 0);
    while 0 <= r2 < 8 && 0 <= f2 < 8
      invariant n >= 1 && r2 == Along(RankOf(square), d.dr, n) && f2 == Along(FileOf(square), d.df, n)
      invariant mask == LineFrom(square, Code(d), n)
      invariant forall t: Square :: segment[t] == if t == square || t in Near(square, Code(d), n) then Segment(square, t) else old(segment[t])
      decreases 9 - n
    {
      var s2 := SquareFrom(r2, f2);
      StepSquare(square, d, n);
      NearNext(square, d, n, s2);
      DistanceBound(square, s2);
      SegmentOnLine(square, d, n, s2);
      mask := BbSet(mask, s2);
      segment[s2] := mask;
      AtNext(RankOf(square), d.dr, n);
      AtNext(FileOf(square), d.df, n);
      r2, f2, n := r2 + d.dr, f2 + d.df, n + 1;
    }
    forall t: Square
      ensures Dir(square, t) == Code(d) <==> t in Near(square, Code(d), n)
      ensures t in Near(square, Code(d), n) <==> t in Near(square, Code(d), 8)
    {
      WholeLine(square, d, n, t);
    }
    assert Near(square, Code(d), n) == Near(square, Code(d), 8);
  }

  lemma WholeLine(s: Square, d: Step, n: int, t: Square)
    requires Unit(d) && n >= 1 && !OnBoard(Along(RankOf(s), d.dr, n), Along(FileOf(s), d.df, n))
    ensures Dir(s, t) == Code(d) <==> t in Near(s, Code(d), n)
    ensures t in Near(s, Code(d), n) <==> t in Near(s, Code(d), 8)
  {
    hide Dir, Dist, RankOf, FileOf;
    if Dir(s, t) == Code(d) {
      NothingBeyond(s, d, n, t);
      DistanceBound(s, t);
    }
  }

  lemma SelfSegment(s: Square, d: Step)
    requires Unit(d)
    ensures Segment(s, s) == {s} && Dir(s, s) != Code(d)
  {
    DirReverse(s, s);
    hide Dir;
    CodeUnique(d, d);
  }

  // src/bitboard.c:147-150
  method FillRays(mask: Bitboard, ray: array<Bitboard>)
    requires ray.Length == 64
    modifies ray
    ensures forall t: Square :: ray[t] == if t in mask then mask else old(ray[t])
  {
    var sqs := mask;
    while sqs != {}
      invariant sqs <= mask
      invariant forall t: Square :: ray[t] == if t in mask - sqs then mask else old(ray[t])
    {
      var s;
      s, sqs := PopLsb(sqs);
      ray[s] := mask;
    }
  }

  lemma RayIsLine(s: Square, t: Square, d: Step)
    requires Unit(d) && Dir(s, t) == Code(d)
    ensures Ray(s, t) == LineFrom(s, Code(d), 8)
  {
    forall x: Square ensures Dist(s, x) < 8 { DistanceBound(s, x); }
    DirReverse(s, s);
    hide Dir, Dist;
    CodeUnique(d, d);
  }

  lemma RayOfItself(s: Square)
    ensures Ray(s, s) == LineFrom(s, 4, 8)
  {
    forall x: Square ensures Dist(s, x) < 8 { DistanceBound(s, x); }
    hide Dir, Dist;
  }

  lemma InLine(s: Square, d: Step, t: Square)
    requires Unit(d)
    ensures t in LineFrom(s, Code(d), 8) <==> t == s || Dir(s, t) == Code(d)
  {
    DistanceBound(s, t);
    hide Dir, Dist;
  }

  // What the tables hold after k directions.
  ghost predicate RowsFilled(s: Square, t: Square, k: nat, segment: Bitboard, ray: Bitboard)
  {
    if t == s then (k > 0 && k <= 8 ==> segment == {s} && ray == LineFrom(s, Code(KingDirs()[k - 1]), 8))
    else if InDirs(Dir(s, t), KingDirs(), k) then segment == Segment(s, t) && ray == Ray(s, t)
    else segment == {} && ray == {}
  }

  lemma FilledNext(s: Square, t: Square, k: nat, seg: Bitboard, ray: Bitboard, seg2: Bitboard, ray2: Bitboard)
    requires k < 8 && RowsFilled(s, t, k, seg, ray)
    requires var d := KingDirs()[k];
             seg2 == (if t == s || Dir(s, t) == Code(d) then Segment(s, t) else seg) &&
             ray2 == if t in LineFrom(s, Code(d), 8) then LineFrom(s, Code(d), 8) else ray
    ensures RowsFilled(s, t, k + 1, seg2, ray2)
  {
    KingDirsAre(0);
    InDirsNext(KingDirs(), k);
    SelfSegment(s, KingDirs()[k]);
    InLine(s, KingDirs()[k], t);
    if Dir(s, t) == Code(KingDirs()[k]) { RayIsLine(s, t, KingDirs()[k]); }
    hide KingDirs, Dir, LineFrom, Segment, Ray, InDirs, Code;
  }

  lemma FilledEnd(s: Square, t: Square, seg: Bitboard, ray: Bitboard)
    requires RowsFilled(s, t, 8, seg, ray)
    ensures seg == Segment(s, t) && ray == Ray(s, t)
  {
    KingDirsAre(Dir(s, t));
    DirReverse(s, t);
    RayOfItself(s);
    hide KingDirs, Dir, LineFrom, InDirs, Code, RookDir, BishopDir;
  }

  // src/bitboard.c:133-152 for one square: rows Segment[square] and Ray[square], initially zero.
  method InitRays(square: Square, segment: array<Bitboard>, ray: array<Bitboard>)
    requires segment.Length == 64 && ray.Length == 64 && segment != ray
    requires forall t: Square :: segment[t] == {} && ray[t] == {}
    modifies segment, ray
    ensures forall t: Square :: segment[t] == Segment(square, t) && ray[t] == Ray(square, t)
  {
    hide Segment, Ray, Dir, LineFrom, KingDirs, Code, Unit;
    NoDirs();
    var d := 0;
    while d < 8
      invariant 0 <= d <= 8
      invariant forall t: Square :: RowsFilled(square, t, d, segment[t], ray[t])
    {
      hide RowsFilled;
      KingDirsAre(0);
      ghost var seg0, ray0 := segment[..], ray[..];
      var mask := FillSegments(square, KingDirs()[d], segment);
      FillRays(mask, ray);
      forall t: Square ensures RowsFilled(square, t, d + 1, segment[t], ray[t]) {
        FilledNext(square, t, d, seg0[t], ray0[t], segment[t], ray[t]);
      }
      d := d + 1;
    }
    forall t: Square ensures segment[t] == Segment(square, t) && ray[t] == Ray(square, t) {
      FilledEnd(square, t, segment[t], ray[t]);
    }
  }

  lemma NoDirs()
    ensures forall code: int :: !InDirs(code, KingDirs(), 0)
  {}

  // ---- Leapers -------------------------------------------------------------------------------------------

  function KnightDirs(): seq<Step>
  {
    [Step(-2, -1), Step(-2, 1), Step(-1, -2), Step(-1, 2), Step(1, -2), Step(1, 2), Step(2, -1), Step(2, 1)]
  }

  predicate AtStep(s: Square, t: Square, d: Step) { RankOf(t) == RankOf(s) + d.dr && FileOf(t) == FileOf(s) + d.df }

  // Squares one step away, for the first k steps.
  function Steps(s: Square, dirs: seq<Step>, k: nat): Bitboard
  {
    set t: Square | 0 <= t < 64 && Within(s, t, dirs, k)
  }

  predicate Within(s: Square, t: Square, dirs: seq<Step>, k: nat)
  {
    exists j: nat :: j < k && j < |dirs| && AtStep(s, t, dirs[j])
  }

  lemma StepTarget(s: Square, d: Step, t: Square)
    ensures var rank, file := RankOf(s) + d.dr, FileOf(s) + d.df;
            AtStep(s, t, d) <==> OnBoard(rank, file) && t == SquareFrom(rank, file)
  {
    CoordsRange(t);
    if OnBoard(RankOf(s) + d.dr, FileOf(s) + d.df) { SquareFromCoords(RankOf(s) + d.dr, FileOf(s) + d.df); }
    hide RankOf, FileOf;
  }

  // src/bitboard.c:22-25
  method SafeSetBit(b: Bitboard, s: Square, d: Step) returns (r: Bitboard)
    requires forall t: Square :: AtStep(s, t, d) ==> t !in b
    ensures forall t: Square :: t in r <==> t in b || AtStep(s, t, d)
  {
    forall t: Square
      ensures var rank, file := RankOf(s) + d.dr, FileOf(s) + d.df;
              AtStep(s, t, d) <==> OnBoard(rank, file) && t == SquareFrom(rank, file)
    {
      StepTarget(s, d, t);
    }
    hide AtStep, RankOf, FileOf;
    r := b;
    var rank, file := RankOf(s) + d.dr, FileOf(s) + d.df;
    if 0 <= rank < 8 && 0 <= file < 8 {
      assert AtStep(s, SquareFrom(rank, file), d);
      r := BbSet(b, SquareFrom(rank, file));
    }
  }

  lemma OneStep(s: Square, t: Square, d: Step, e: Step)
    requires AtStep(s, t, d) && AtStep(s, t, e)
    ensures d == e
  {
    hide RankOf, FileOf;
  }

  lemma FreshStep(s: Square, dirs: seq<Step>, d: nat, t: Square)
    requires NoRepeats(dirs) && d < |dirs| && t in Steps(s, dirs, d)
    ensures !AtStep(s, t, dirs[d])
  {
    hide AtStep;
    var j: nat :| j < d && AtStep(s, t, dirs[j]);
    assert dirs[j] != dirs[d];
    if AtStep(s, t, dirs[d]) { OneStep(s, t, dirs[j], dirs[d]); }
  }

  // src/bitboard.c:155-166: the squares that a list of steps reaches.
  method InitLeaper(s: Square, dirs: seq<Step>) returns (b: Bitboard)
    requires NoRepeats(dirs)
    ensures b == Steps(s, dirs, |dirs|)
  {
    hide AtStep, Within, NoRepeats;
    b := {};
    NothingReached(s, dirs);
    var d := 0;
    while d < |dirs|
      invariant 0 <= d <= |dirs| && b == Steps(s, dirs, d)
    {
      forall t: Square | t in b ensures !AtStep(s, t, dirs[d]) { FreshStep(s, dirs, d, t); }
      b := SafeSetBit(b, s, dirs[d]);
      StepsNext(s, dirs, d);
      d := d + 1;
      assert forall t: Square :: t in b <==> t in Steps(s, dirs, d);
    }
  }

  lemma NothingReached(s: Square, dirs: seq<Step>)
    ensures Steps(s, dirs, 0) == {}
  {}

  lemma StepsNext(s: Square, dirs: seq<Step>, k: nat)
    requires k < |dirs|
    ensures forall t: Square :: t in Steps(s, dirs, k + 1) <==> t in Steps(s, dirs, k) || AtStep(s, t, dirs[k])
  {
    hide AtStep;
    forall t: Square ensures t in Steps(s, dirs, k + 1) <==> t in Steps(s, dirs, k) || AtStep(s, t, dirs[k]) {
      if t in Steps(s, dirs, k) { var j: nat :| j < k && j < |dirs| && AtStep(s, t, dirs[j]); assert j < k + 1; }
    }
  }

  function PawnDirs(c: Color): seq<Step> { if c == WHITE then [Step(1, -1), Step(1, 1)] else [Step(-1, 1), Step(-1, -1)] }

  lemma KnightSteps(s: Square, t: Square)
    ensures t in Steps(s, KnightDirs(), 8) <==> KnightHit(s, t)
  {
    hide RankOf, FileOf;
    var k := KnightDirs();
    if KnightHit(s, t) {
      assert AtStep(s, t, k[0]) || AtStep(s, t, k[1]) || AtStep(s, t, k[2]) || AtStep(s, t, k[3]) ||
             AtStep(s, t, k[4]) || AtStep(s, t, k[5]) || AtStep(s, t, k[6]) || AtStep(s, t, k[7]);
    }
  }

  lemma KingSteps(s: Square, t: Square)
    ensures t in Steps(s, KingDirs(), 8) <==> KingHit(s, t)
  {
    hide RankOf, FileOf;
    var k := KingDirs();
    if KingHit(s, t) {
      assert AtStep(s, t, k[0]) || AtStep(s, t, k[1]) || AtStep(s, t, k[2]) || AtStep(s, t, k[3]) ||
             AtStep(s, t, k[4]) || AtStep(s, t, k[5]) || AtStep(s, t, k[6]) || AtStep(s, t, k[7]);
    }
  }

  lemma PawnStepList(c: Color, s: Square, t: Square)
    ensures t in Steps(s, PawnDirs(c), 2) <==> PawnHit(Up(c), s, t)
  {
    hide RankOf, FileOf;
    assert c == WHITE || c == BLACK;
    if PawnHit(Up(c), s, t) { assert AtStep(s, t, PawnDirs(c)[0]) || AtStep(s, t, PawnDirs(c)[1]); }
  }

  // The leaper tables hold the attacks of knight, king and pawns.
  lemma LeaperTables(s: Square, c: Color)
    ensures NoRepeats(KnightDirs()) && NoRepeats(KingDirs()) && NoRepeats(PawnDirs(c))
    ensures Steps(s, KnightDirs(), 8) == KnightAttacks(s)
    ensures Steps(s, KingDirs(), 8) == KingAttacks(s)
    ensures Steps(s, PawnDirs(c), 2) == PawnAttacks(c, s)
  {
    hide KnightHit, KingHit, PawnHit;
    forall t: Square
      ensures t in Steps(s, KnightDirs(), 8) <==> KnightHit(s, t)
      ensures t in Steps(s, KingDirs(), 8) <==> KingHit(s, t)
      ensures t in Steps(s, PawnDirs(c), 2) <==> PawnHit(Up(c), s, t)
    {
      KnightSteps(s, t);
      KingSteps(s, t);
      PawnStepList(c, s, t);
    }
    hide Steps;
  }
}
