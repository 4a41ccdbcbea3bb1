/** What src/position.c:173-394 writes and reads: Forsyth-Edwards Notation (section 16.1 of the PGN standard)
    with the Chess960 castling letters.  `FenTokens` is the text of a position and `FenMeaning` is what the
    reader makes of any text, with every rejection and every assertion of the source. */
module FenSpec {
  import opened Geometry
  import opened Rules
  import opened Bitboards
  import opened Positions
  import opened Text
  import opened Lan
  import opened San

  // A text is turned down, or it runs into an assertion of the source.
  datatype Fault = Refused | AssertFails

  datatype Outcome = Accepted | Rejected(why: Fault)

  // The result of reading one part of the text.
  datatype Parse<+T> = Read(value: T) | Failed(why: Fault)
  {
    function Kind(): Outcome { if Read? then Accepted else Rejected(why) }
  }

  // ---- Men -----------------------------------------------------------------------------------------------

  function NoMen(): Board { seq(64, _ => Empty) }

  function Label(c: Color, p: OptPiece): char { if c == WHITE then Letter(p) else PIECE_LABELS[p] }

  function UpperIndex(c: char): nat
  {
    if c == 'N' then 0 else if c == 'B' then 1 else if c == 'R' then 2 else if c == 'Q' then 3
    else if c == 'K' then 4 else if c == 'P' then 5 else 6
  }

  // The man that a character of the placement stands for.
  function Labelled(c: char): Cell
  {
    if UpperIndex(c) < 6 then Man(WHITE, UpperIndex(c)) else if LabelIndex(c) < 6 then Man(BLACK, LabelIndex(c)) else Empty
  }

  lemma LabelledLabel(c: Color, p: Piece)
    ensures Labelled(Label(c, p)) == Man(c, p) && !('1' <= Label(c, p) <= '8') && Label(c, p) != '/' && Label(c, p) != ' '
  {}

  function CountText(n: nat): string
    requires n <= 8
  {
    if n == 0 then "" else [DigitChar(n)]
  }

  // The rank from `file` on, with n empty squares still to be written.
  function RowText(b: Board, rank: int, file: int, n: nat): string
    requires 0 <= rank < 8 && 0 <= file <= 8 && n <= file
    decreases 8 - file
  {
    if file == 8 then CountText(n)
    else if b[SquareFrom(rank, file)] == Empty then RowText(b, rank, file + 1, n + 1)
    else
      CountText(n) + [Label(b[SquareFrom(rank, file)].color, b[SquareFrom(rank, file)].piece)] + RowText(b, rank, file + 1, 0)
  }

  // The ranks from `rank` down to the first.
  function PlacementText(b: Board, rank: int): string
    requires 0 <= rank < 8
  {
    if rank == 0 then RowText(b, 0, 0, 0) else RowText(b, rank, 0, 0) + "/" + PlacementText(b, rank - 1)
  }

  // src/position.c:182-204, from the given square on, over the men read so far.
  function Placement(t: string, rank: int, file: int, b: Board): Parse<Board>
  {
    if t == "" then (if rank == 0 then Read(b) else Failed(Refused))
    else if '1' <= t[0] <= '8' then
      var next := file + (t[0] as int - '0' as int);
      if next > 8 then Failed(Refused) else Placement(t[1..], rank, next, b)
    else if t[0] == '/' then Placement(t[1..], rank - 1, 0, b)
    else if Labelled(t[0]) == Empty then Failed(Refused)
    else if !OnBoard(rank, file) || b[SquareFrom(rank, file)] != Empty then Failed(AssertFails)
    else Placement(t[1..], rank, file + 1, b[SquareFrom(rank, file) := Labelled(t[0])])
  }

  // ---- Turn ----------------------------------------------------------------------------------------------

  function TurnText(c: Color): string { if c == WHITE then "w" else "b" }

  function TurnNamed(t: string): Parse<Color>
  {
    if t == "w" then Read(WHITE) else if t == "b" then Read(BLACK) else Failed(Refused)
  }

  // ---- Castling rights -----------------------------------------------------------------------------------

  // The castling rook of c on the given side of its king, if there is one.
  function SideRooks(castle: Bitboard, army: Bitboard, king: Square, right: bool): Bitboard
  {
    set r: Square | 0 <= r < 64 && r in castle && r in army && (if right then r > king else r < king)
  }

  function FileLabel(c: Color, f: int): char
    requires 0 <= f < 8
  {
    (if c == WHITE then 'A' else 'a') + f as char
  }

  function RookLetter(chess960: bool, c: Color, r: Square, right: bool): char
  {
    CoordsRange(r);
    if chess960 then FileLabel(c, FileOf(r)) else Label(c, if right then KING else QUEEN)
  }

  function SideText(chess960: bool, c: Color, rooks: Bitboard, right: bool): string
  {
    if rooks == {} then "" else [RookLetter(chess960, c, Lsb(rooks), right)]
  }

  function ColorText(p: Pos, c: Color, king: Square): string
  {
    SideText(p.chess960, c, SideRooks(p.castleRooks, p.byColor[c], king, true), true) +
    SideText(p.chess960, c, SideRooks(p.castleRooks, p.byColor[c], king, false), false)
  }

  ghost function CastleText(p: Pos): string
  {
    if p.castleRooks == {} then "-"
    else ColorText(p, WHITE, KingSquare(BoardOf(p), WHITE)) + ColorText(p, BLACK, KingSquare(BoardOf(p), BLACK))
  }

  predicate IsUpper(c: char) { 'A' <= c <= 'Z' }

  function ToUpper(c: char): char { if 'a' <= c <= 'z' then c - 'a' + 'A' else c }

  // Upper case speaks of white, anything else of black.
  function SideOf(c: char): Color { if IsUpper(c) then WHITE else BLACK }

  function HomeRooks(b: Board, c: Color): Bitboard
  {
    set s: Square | 0 <= s < 64 && RankOf(s) == HomeRank(c) && b[s] == Man(c, ROOK)
  }

  predicate RightsLetter(c: char) { ToUpper(c) == 'K' || ToUpper(c) == 'Q' || 'A' <= ToUpper(c) <= 'H' }

  // The rook that a castling letter names: outermost rook of the home rank, or the file.
  function RookNamed(b: Board, c: char): Parse<Square>
    requires RightsLetter(c)
  {
    var rooks := HomeRooks(b, SideOf(c));
    if ToUpper(c) == 'K' then (if rooks == {} then Failed(AssertFails) else Read(Msb(rooks)))
    else if ToUpper(c) == 'Q' then (if rooks == {} then Failed(AssertFails) else Read(Lsb(rooks)))
    else Read(SquareFrom(HomeRank(SideOf(c)), ToUpper(c) as int - 'A' as int))
  }

  // src/position.c:227-240, over the rooks named so far.
  function CastleRights(t: string, b: Board, rooks: Bitboard): Parse<Bitboard>
  {
    if t == "" then Read(rooks)
    else if RightsLetter(t[0]) then
      var r := RookNamed(b, t[0]);
      if r.Failed? then Failed(r.why)
      else if r.value in rooks then Failed(AssertFails)
      else CastleRights(t[1..], b, rooks + {r.value})
    else if t[0] != '-' || rooks != {} || |t| > 1 then Failed(Refused)
    else CastleRights(t[1..], b, rooks)
  }

  function CastlingNamed(t: string, b: Board): Parse<Bitboard>
  {
    if |t| > 4 then Failed(Refused) else CastleRights(t, b, {})
  }

  // src/position.c:245-255
  function Detect960(b: Board, rooks: Bitboard, known: bool): Parse<bool>
    decreases |rooks|
  {
    if rooks == {} || known then Read(known)
    else
      var r := Lsb(rooks);
      if !b[r].Man? || |Men(b, b[r].color, KING)| != 1 then Failed(AssertFails)
      else
        OneMember(Men(b, b[r].color, KING));
        Detect960(b, rooks - {r}, 0 < FileOf(r) < 7 || FileOf(Lsb(Men(b, b[r].color, KING))) != 4)
  }

  lemma OneMember(s: Bitboard)
    requires |s| == 1
    ensures s != {}
  {}

  // ---- En-passant square and counters --------------------------------------------------------------------

  function EpNamed(t: string): Parse<OptSquare>
  {
    if |t| > 2 || SquareNamed(t) > 64 then Failed(Refused) else Read(SquareNamed(t))
  }

  function Rule50Named(t: Option<string>): Parse<nat>
  {
    if t.None? then Read(0)
    else
      var n := ScannedUint(t.value, 255);
      if n.None? || n.value >= 100 then Failed(Refused) else Read(n.value)
  }

  function FullMoveNamed(t: Option<string>): Parse<nat>
  {
    if t.None? then Read(1)
    else
      var n := ScannedUint(t.value, 65535);
      if n.None? || n.value < 1 then Failed(Refused) else Read(n.value)
  }

  // ---- Verification of the whole -------------------------------------------------------------------------

  predicate OneKing(b: Board, c: Color) { |Men(b, c, KING)| == 1 }

  // src/position.c:302-313 for the castling rooks `own` of one side, whose king is on k.
  predicate RooksFit(own: Bitboard, k: Square)
  {
    own == {} ||
    (|own| == 1 && 1 <= FileOf(k) <= 6) ||
    (|own| == 2 && k in Segment(Lsb(own), Msb(own)))
  }

  ghost predicate CastleFits(b: Board, castle: Bitboard)
  {
    (forall r: Square :: r in castle ==> r in HomeRooks(b, WHITE) || r in HomeRooks(b, BLACK)) &&
    RooksFit(castle * Army(b, WHITE), KingSquare(b, WHITE)) && RooksFit(castle * Army(b, BLACK), KingSquare(b, BLACK))
  }

  // src/position.c:318-326: a pawn of the side that is not to move has just passed over e.
  predicate EpFits(b: Board, turn: Color, e: OptSquare)
  {
    e == NO_SQUARE ||
    var c := Opposite(turn);
    RelativeRank(c, e) == 2 && b[e] == Empty && 0 <= e + PushInc(c) < 64 && b[e + PushInc(c)] == Man(c, PAWN) &&
    0 <= e - PushInc(c) < 64 && b[e - PushInc(c)] == Empty
  }

  datatype Parsed = Parsed(st: State, rule50: int, fullMove: int, chess960: bool)

  ghost predicate Verified(st: State)
  {
    CountsOk(st.board, WHITE) && CountsOk(st.board, BLACK) && OneKing(st.board, WHITE) && OneKing(st.board, BLACK) &&
    PawnRanksOk(st.board) && CastleFits(st.board, st.castle) && EpFits(st.board, st.turn, st.ep)
  }

  // The asserts of src/position.c:158-162.
  ghost predicate FinishAsserts(st: State)
  {
    !KingHit(KingSquare(st.board, st.turn), KingSquare(st.board, Opposite(st.turn))) &&
    |CheckerSet(st.board, st.turn, KingSquare(st.board, st.turn))| <= 2
  }

  function Field(ts: seq<string>, i: nat): Option<string> { if i < |ts| then Some(ts[i]) else None }

  function FieldOr(ts: seq<string>, i: nat, default: string): string { if i < |ts| then ts[i] else default }

  // The fields of a text with the tokens ts, read one after the other.
  function FenFields(ts: seq<string>, force960: bool): Parse<Parsed>
  {
    match Placement(FieldOr(ts, 0, ""), 7, 0, NoMen())
    case Failed(why) => Failed(why)
    case Read(b) =>
      match TurnNamed(FieldOr(ts, 1, ""))
      case Failed(why) => Failed(why)
      case Read(turn) =>
        match CastlingNamed(FieldOr(ts, 2, ""), b)
        case Failed(why) => Failed(why)
        case Read(castle) =>
          match Detect960(b, castle, force960)
          case Failed(why) => Failed(why)
          case Read(chess960) => LastFields(ts, b, turn, castle, chess960)
  }

  function LastFields(ts: seq<string>, b: Board, turn: Color, castle: Bitboard, chess960: bool): Parse<Parsed>
  {
    match EpNamed(FieldOr(ts, 3, "-"))
    case Failed(why) => Failed(why)
    case Read(ep) =>
      match Rule50Named(Field(ts, 4))
      case Failed(why) => Failed(why)
      case Read(rule50) =>
        match FullMoveNamed(Field(ts, 5))
        case Failed(why) => Failed(why)
        case Read(fullMove) => Read(Parsed(State(b, turn, castle, ep), rule50, fullMove, chess960))
  }

  // What src/position.c:173-331 makes of a text with the tokens ts.
  ghost function FenMeaning(ts: seq<string>, force960: bool): Parse<Parsed>
  {
    var q := FenFields(ts, force960);
    if q.Failed? then q
    else if !Verified(q.value.st) then Failed(Refused)
    else if !FinishAsserts(q.value.st) then Failed(AssertFails)
    else q
  }

  // The six fields that src/position.c:334-394 writes.
  ghost function FenTokens(p: Pos): seq<string>
    requires p.rule50 >= 0 && p.fullMove >= 0
  {
    [PlacementText(BoardOf(p), 7), TurnText(p.turn), CastleText(p), SquareName(p.epSquare), Digits(p.rule50), Digits(p.fullMove)]
  }

  // Fields separated by single spaces.
  function JoinedBySpaces(ts: seq<string>): string
    requires ts != []
  {
    if |ts| == 1 then ts[0] else ts[0] + " " + JoinedBySpaces(ts[1..])
  }
}
