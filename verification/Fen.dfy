/** Writing and reading FEN text: pos_get and pos_set of src/position.c:173-394. */
module Fen {
  import opened Geometry
  import opened Rules
  import opened Legality
  import opened Bitboards
  import opened Zobrist
  import opened Positions
  import opened Finish
  import opened MoveGenExact
  import opened Preservation
  import opened PositionClass
  import opened Text
  import opened Lan
  import opened FenSpec
  import opened FenRoundTrip

  // ---- Writing -------------------------------------------------------------------------------------------

  // src/position.c:341-352: one square, after cnt empty ones.
  method PutSquare(p: Pos, rank: int, file: int, fen: string, cnt: nat, ghost b: Board) returns (r: string, next: nat)
    requires OnBoard(rank, file) && cnt <= file && Represents(p.byColor, p.byPiece, b)
    ensures next <= file + 1
    ensures r + RowText(b, rank, file + 1, next) == fen + RowText(b, rank, file, cnt)
  {
    hide Represents, RankOf, FileOf, Label, DigitChar;
    var square := SquareFrom(rank, file);
    CellFacts(p, b, square, WHITE, KING);
    PieceOnBoard(p, b, square);
    ColorOnBoard(p, b, square);
    r := fen;
    if square in p.Pieces() {
      if cnt != 0 { r := r + [DigitChar(cnt)]; }
      r := r + [Label(p.ColorOn(square), p.PieceOn(square))];
      next := 0;
      SplitRow(fen, CountText(cnt), [Label(b[square].color, b[square].piece)], RowText(b, rank, file + 1, 0));
    } else {
      next := cnt + 1;
    }
  }

  lemma SplitRow(fen: string, count: string, man: string, tail: string)
    ensures fen + (count + man + tail) == fen + count + man + tail
    ensures count == "" ==> fen + count == fen
  {}

  // src/position.c:338-355
  method PutRow(p: Pos, rank: int, fen: string, ghost b: Board) returns (r: string)
    requires 0 <= rank < 8 && Represents(p.byColor, p.byPiece, b)
    ensures r == fen + RowText(b, rank, 0, 0)
  {
    hide Represents, RankOf, FileOf, Label, DigitChar;
    r := fen;
    var cnt, file := 0, 0;
    while file < 8
      invariant 0 <= cnt <= file <= 8
      invariant r + RowText(b, rank, file, cnt) == fen + RowText(b, rank, 0, 0)
    {
      hide RowText;
      r, cnt := PutSquare(p, rank, file, r, cnt, b);
      file := file + 1;
    }
    if cnt != 0 { r := r + [DigitChar(cnt)]; }
  }

  // What is still to be written of the placement.
  function RanksText(b: Board, rank: int): string
    requires -1 <= rank < 8
  {
    if rank < 0 then "" else PlacementText(b, rank) + " "
  }

  lemma RanksStep(fen: string, b: Board, rank: int)
    requires 0 <= rank < 8
    ensures fen + RanksText(b, rank) == fen + RowText(b, rank, 0, 0) + (if rank == 0 then " " else "/") + RanksText(b, rank - 1)
  {
    hide RowText;
    var row := RowText(b, rank, 0, 0);
    if rank == 0 {
      assert fen + (row + " ") == fen + row + " " + "";
    } else {
      var below := PlacementText(b, rank - 1);
      assert fen + (row + "/" + below + " ") == fen + row + "/" + (below + " ");
    }
  }

  // src/position.c:337-358
  method PutPlacement(p: Pos, ghost b: Board) returns (fen: string)
    requires Represents(p.byColor, p.byPiece, b)
    ensures fen == PlacementText(b, 7) + " "
  {
    hide Represents, RowText, PlacementText;
    fen := "";
    var rank := 7;
    assert "" + RanksText(b, 7) == RanksText(b, 7);
    while rank >= 0
      invariant -1 <= rank <= 7
      invariant fen + RanksText(b, rank) == RanksText(b, 7)
    {
      hide RanksText;
      RanksStep(fen, b, rank);
      fen := PutRow(p, rank, fen, b);
      fen := fen + (if rank == 0 then " " else "/");
      rank := rank - 1;
    }
  }

  // Ray[king][king + LEFT] and Ray[king][king + RIGHT], where there is such a square.
  function LeftRay(k: Square): Bitboard { RayOnRank(k); if FileOf(k) == 0 then {} else Ray(k, k - 1) }

  function RightRay(k: Square): Bitboard { RayOnRank(k); if FileOf(k) == 7 then {} else Ray(k, k + 1) }

  lemma RayOnRank(k: Square)
    ensures FileOf(k) != 0 ==> 0 <= k - 1 && Dir(k, k - 1) == -1
    ensures FileOf(k) != 7 ==> k + 1 < 64 && Dir(k, k + 1) == 1
  {}

  lemma OnRankRays(k: Square, r: Square)
    requires RankOf(r) == RankOf(k) && r != k
    ensures r in LeftRay(k) <==> r < k
    ensures r in RightRay(k) <==> r > k
  {
    hide Dir, RankOf, FileOf;
    RayOnRank(k);
    DirOnRank(k, r);
    CoordsRange(r);
    RankOrder(k, r);
  }

  // The two rays along the rank pick the castling rooks of the two sides.
  lemma RankRays(z: Tables, p: Pos, c: Color, k: Square)
    requires Sound(p, z) && k == KingSquare(BoardOf(p), c)
    ensures SideRooks(p.castleRooks, p.byColor[c], k, false) == p.castleRooks * p.byColor[c] * LeftRay(k)
    ensures SideRooks(p.castleRooks, p.byColor[c], k, true) == p.castleRooks * p.byColor[c] * RightRay(k)
  {
    hide Sound, BoardOf, WellFormed, Represents, KingSquare, Derived, KeyOf, Dir, Dist, LeftRay, RightRay, RankOf, FileOf;
    SoundParts(p, z);
    forall r: Square | r in p.castleRooks && r in p.byColor[c]
      ensures r in LeftRay(k) <==> r < k
      ensures r in RightRay(k) <==> r > k
    {
      CastleRookBefore(StateOf(p), r);
      KingsOk(StateOf(p), c);
      CellFacts(p, BoardOf(p), r, c, ROOK);
      OnRankRays(k, r);
    }
  }

  // src/position.c:367-387 for one colour.
  method PutCastleRooks(z: Tables, p: Pos, c: Color, fen: string) returns (r: string)
    requires Sound(p, z)
    ensures r == fen + ColorText(p, c, KingSquare(BoardOf(p), c))
  {
    hide *;
    SoundParts(p, z);
    KingsOk(StateOf(p), c);
    KingLsbOf(p, BoardOf(p), c, Ks(StateOf(p), c)) by { StateFields(p); }
    KsIs(p, c);
    var king := Lsb(p.PiecesCP(c, KING));
    RankRays(z, p, c, king);
    SideReads(z, p, c, false, {}, "");
    SideReads(z, p, c, true, {}, "");
    var left := p.castleRooks * p.byColor[c] * LeftRay(king);
    var right := p.castleRooks * p.byColor[c] * RightRay(king);
    assert |left| <= 1 && |right| <= 1;
    r := fen;
    if right != {} { r := r + [RookLetter(p.chess960, c, Lsb(right), true)]; }
    if left != {} { r := r + [RookLetter(p.chess960, c, Lsb(left), false)]; }
    ColorTextIs(p, c, king, left, right, fen, r);
  }

  lemma KsIs(p: Pos, c: Color)
    ensures Ks(StateOf(p), c) == KingSquare(BoardOf(p), c)
  {
    hide KingSquare, BoardOf;
  }

  lemma ColorTextIs(p: Pos, c: Color, king: Square, left: Bitboard, right: Bitboard, fen: string, r: string)
    requires left == SideRooks(p.castleRooks, p.byColor[c], king, false) && right == SideRooks(p.castleRooks, p.byColor[c], king, true)
    requires r == fen + (if right != {} then [RookLetter(p.chess960, c, Lsb(right), true)] else []) +
                        (if left != {} then [RookLetter(p.chess960, c, Lsb(left), false)] else [])
    ensures r == fen + ColorText(p, c, king)
  {
    hide SideRooks, RookLetter;
  }

  // src/position.c:363-388
  method PutCastling(z: Tables, p: Pos, fen: string) returns (r: string)
    requires Sound(p, z)
    ensures r == fen + CastleText(p)
  {
    hide Sound, KingSquare, BoardOf, ColorText;
    if p.castleRooks == {} {
      r := fen + "-";
    } else {
      r := PutCastleRooks(z, p, WHITE, fen);
      r := PutCastleRooks(z, p, BLACK, r);
    }
  }

  // src/position.c:334-394
  method PosGet(z: Tables, p: Pos) returns (fen: string)
    requires Sound(p, z)
    ensures fen == JoinedBySpaces(FenTokens(p))
  {
    hide Sound, KingSquare, BoardOf, WellFormed, Represents, Derived, KeyOf, CastleText, SquareName, PlacementText, Digits, Orthodox;
    SoundParts(p, z);
    fen := PutPlacement(p, BoardOf(p));
    fen := fen + (if p.turn == WHITE then "w " else "b ");
    fen := PutCastling(z, p, fen);
    var rule50 := FmtU(p.rule50);
    var fullMove := FmtU(p.fullMove);
    fen := fen + " " + SquareName(p.epSquare) + " " + rule50 + " " + fullMove;
    SixFields(FenTokens(p));
  }

  lemma SixFields(ts: seq<string>)
    requires |ts| == 6
    ensures JoinedBySpaces(ts) == ts[0] + " " + ts[1] + " " + ts[2] + " " + ts[3] + " " + ts[4] + " " + ts[5]
  {
    hide JoinedBySpaces;
    assert ts[0..] == ts && "" + ts[0] == ts[0] && "" + JoinedBySpaces(ts) == JoinedBySpaces(ts);
    ThreeFields("", ts, 0);
    ThreeFields(ts[0] + " " + ts[1] + " " + ts[2] + " ", ts, 3);
  }

  lemma ThreeFields(before: string, ts: seq<string>, i: nat)
    requires i + 2 < |ts|
    ensures before + JoinedBySpaces(ts[i..]) ==
            if i + 2 == |ts| - 1 then before + ts[i] + " " + ts[i + 1] + " " + ts[i + 2]
            else before + ts[i] + " " + ts[i + 1] + " " + ts[i + 2] + " " + JoinedBySpaces(ts[i + 3..])
  {
    hide JoinedBySpaces;
    OneField(before, ts, i);
    OneField(before + ts[i] + " ", ts, i + 1);
    OneField(before + ts[i] + " " + ts[i + 1] + " ", ts, i + 2);
  }

  // One more field, behind the fields before it.
  lemma OneField(before: string, ts: seq<string>, i: nat)
    requires i < |ts|
    ensures i == |ts| - 1 ==> before + JoinedBySpaces(ts[i..]) == before + ts[i]
    ensures i < |ts| - 1 ==> before + JoinedBySpaces(ts[i..]) == before + ts[i] + " " + JoinedBySpaces(ts[i + 1..])
  {
    assert ts[i..][1..] == ts[i + 1..];
  }

  lemma {:induction false} JoinedTokens(ts: seq<string>)
    requires ts != [] && forall i: int :: 0 <= i < |ts| ==> Word(ts[i])
    ensures Tokens(JoinedBySpaces(ts)) == ts
  {
    if |ts| == 1 {
      TokensLast(ts[0]);
    } else {
      JoinedTokens(ts[1..]);
      TokensCons(ts[0], JoinedBySpaces(ts[1..]));
    }
  }
}
