/** The magic look-up of slider attacks: src/bitboard.c:93-116 and 228-238. */
module Magic {
  import opened Geometry
  import opened Bitboards
  import opened Words
  import opened Subsets
  import opened BoardTables

  function Attacks(s: Square, rook: bool, occ: Bitboard): Bitboard
  {
    if rook then RookAttacks(s, occ) else BishopAttacks(s, occ)
  }

  function DirsOf(rook: bool): seq<Step> { if rook then RookDirs() else BishopDirs() }

  // ---- The mask ------------------------------------------------------------------------------------------

  // Edges of the board that are not edges for a slider moving along its own rank or file.
  function Edges(s: Square): Bitboard
  {
    (RankBb(0) + RankBb(7) - RankBb(RankOf(s))) + (FileBb(0) + FileBb(7) - FileBb(FileOf(s)))
  }

  function MaskSet(s: Square, rook: bool): Bitboard { Attacks(s, rook, {}) - Edges(s) }

  // A square strictly between two others on a line is on no edge that counts.
  lemma BetweenOffEdges(s: Square, x: Square, t: Square)
    requires Between(s, x, t)
    ensures x !in Edges(s)
  {
    CoordsRange(t);
    CoordsRange(s);
    hide RankOf, FileOf;
  }

  lemma BetweenSameDir(s: Square, x: Square, t: Square)
    requires Between(s, x, t)
    ensures Dir(s, x) == Dir(s, t) && Visible(s, x, {})
  {
    hide Dir, Dist;
  }

  // Occupancy outside the mask never matters.
  lemma EdgesIrrelevant(s: Square, rook: bool, occ: Bitboard)
    ensures Attacks(s, rook, occ) == Attacks(s, rook, occ * MaskSet(s, rook))
  {
    hide Dir, Dist, Between, RookDir, BishopDir, Edges;
    forall t: Square
      ensures t in Attacks(s, rook, occ) <==> t in Attacks(s, rook, occ * MaskSet(s, rook))
    {
      if if rook then RookDir(Dir(s, t)) else BishopDir(Dir(s, t)) {
        forall x: Square | Between(s, x, t) ensures x in occ <==> x in occ * MaskSet(s, rook) {
          BetweenSameDir(s, x, t);
          BetweenOffEdges(s, x, t);
        }
      }
    }
  }

  function MaskOf(s: Square, rook: bool): Word { WordOf(MaskSet(s, rook)) }

  // ---- The index -----------------------------------------------------------------------------------------

  // src/bitboard.c:93-95, with the 64-bit product.
  function SliderIndex(occ: Word, mask: Word, magic: Word, shift: nat): nat
  {
    Shr((And(occ, mask) * magic) % W64, shift)
  }

  // The index stays in the slice of its square.
  lemma IndexInSlice(occ: Word, mask: Word, magic: Word)
    ensures Count(mask) <= 64 && SliderIndex(occ, mask, magic, 64 - Count(mask)) < Pow2(Count(mask))
  {
    hide And, Count, Pow2;
    Pow64();
    CountIsCard(mask, 64);
    ShrBound((And(occ, mask) * magic) % W64, 64 - Count(mask), Count(mask));
  }

  function Index(s: Square, rook: bool, magic: Word, occ: Word): nat
  {
    Pow64();
    CountIsCard(MaskOf(s, rook), 64);
    SliderIndex(occ, MaskOf(s, rook), magic, 64 - Count(MaskOf(s, rook)))
  }

  function Slice(s: Square, rook: bool): (n: nat)
    ensures n > 0
  {
    Pow2(Count(MaskOf(s, rook)))
  }

  // Subsets of the mask with the same index see the same squares: no entry is overwritten with another value.
  ghost predicate NoCollision(s: Square, rook: bool, magic: Word)
  {
    forall o: Word, p: Word ::
      Sub(o, MaskOf(s, rook)) && Sub(p, MaskOf(s, rook)) && Index(s, rook, magic, o) == Index(s, rook, magic, p) ==>
      Attacks(s, rook, SetOf(o)) == Attacks(s, rook, SetOf(p))
  }

  // The table answers every occupancy with the squares that a slider sees.
  ghost predicate LookupRight(t: seq<Bitboard>, base: nat, s: Square, rook: bool, magic: Word)
    requires base + Slice(s, rook) <= |t|
  {
    forall occ: Word :: InSlice(s, rook, magic, occ) && t[base + Index(s, rook, magic, occ)] == Attacks(s, rook, SetOf(occ))
  }

  predicate InSlice(s: Square, rook: bool, magic: Word, occ: Word) { Index(s, rook, magic, occ) < Slice(s, rook) }

  lemma AlwaysInSlice(s: Square, rook: bool, magic: Word, occ: Word)
    ensures InSlice(s, rook, magic, occ)
  {
    hide SliderIndex, Count, Pow2, MaskOf;
    IndexInSlice(occ, MaskOf(s, rook), magic);
  }

  lemma {:induction false} AndTwice(a: nat, m: nat)
    ensures And(And(a, m), m) == And(a, m)
    decreases m
  {
    if m > 0 {
      AndTwice(a / 2, m / 2);
      AndUnfold(a, m);
      AndUnfold(And(a, m), m);
    }
  }

  // Index and attacks of an occupancy are those of its part within the mask.
  lemma MaskedSame(s: Square, rook: bool, magic: Word, occ: Word)
    ensures var o := And(occ, MaskOf(s, rook));
            o < W64 && Sub(o, MaskOf(s, rook)) && Index(s, rook, magic, o) == Index(s, rook, magic, occ) &&
            Attacks(s, rook, SetOf(o)) == Attacks(s, rook, SetOf(occ))
  {
    hide And, Count, Pow2, Attacks, MaskSet, SetOf, WordOf;
    AndAtMost(occ, MaskOf(s, rook));
    AndTwice(occ, MaskOf(s, rook));
    SetOperators(occ, MaskOf(s, rook));
    SetOfWordOf(MaskSet(s, rook));
    EdgesIrrelevant(s, rook, SetOf(occ));
  }

  // The entry of the subset o holds what a slider sees over o.
  ghost predicate Written(t: seq<Bitboard>, base: nat, s: Square, rook: bool, magic: Word, o: Word)
    requires base + Slice(s, rook) <= |t|
  {
    InSlice(s, rook, magic, o) && t[base + Index(s, rook, magic, o)] == Attacks(s, rook, SetOf(o))
  }

  lemma AllWritten(t: seq<Bitboard>, base: nat, s: Square, rook: bool, magic: Word)
    requires base + Slice(s, rook) <= |t|
    requires forall o: Word :: Sub(o, MaskOf(s, rook)) ==> Written(t, base, s, rook, magic, o)
    ensures LookupRight(t, base, s, rook, magic)
  {
    hide Index, Attacks, MaskOf, Sub, And, Slice;
    forall occ: Word
      ensures InSlice(s, rook, magic, occ) && t[base + Index(s, rook, magic, occ)] == Attacks(s, rook, SetOf(occ))
    {
      AlwaysInSlice(s, rook, magic, occ);
      MaskedSame(s, rook, magic, occ);
      assert Written(t, base, s, rook, magic, And(occ, MaskOf(s, rook)));
    }
  }

  // A table that answers rightly cannot have had a collision of different values.
  lemma RightMeansNoCollision(t: seq<Bitboard>, base: nat, s: Square, rook: bool, magic: Word)
    requires base + Slice(s, rook) <= |t| && LookupRight(t, base, s, rook, magic)
    ensures NoCollision(s, rook, magic)
  {
    hide Index, Attacks, MaskOf, Sub, Slice;
    forall o: Word, p: Word | Sub(o, MaskOf(s, rook)) && Sub(p, MaskOf(s, rook)) && Index(s, rook, magic, o) == Index(s, rook, magic, p)
      ensures Attacks(s, rook, SetOf(o)) == Attacks(s, rook, SetOf(p))
    {
      AlwaysInSlice(s, rook, magic, o);
      AlwaysInSlice(s, rook, magic, p);
      assert InSlice(s, rook, magic, o) && InSlice(s, rook, magic, p);
    }
  }

  // Writing one entry keeps the others that are written, unless two subsets collide.
  lemma FillKeeps(t: seq<Bitboard>, t2: seq<Bitboard>, base: nat, s: Square, rook: bool, magic: Word, o: Word, p: Word)
    requires base + Slice(s, rook) <= |t| && InSlice(s, rook, magic, o) && NoCollision(s, rook, magic)
    requires t2 == t[base + Index(s, rook, magic, o) := Attacks(s, rook, SetOf(o))]
    requires Sub(o, MaskOf(s, rook)) && Sub(p, MaskOf(s, rook)) && (p == o || Written(t, base, s, rook, magic, p))
    ensures Written(t2, base, s, rook, magic, p)
  {
    hide Index, Attacks, MaskOf, Sub, Slice;
  }

  // src/bitboard.c:98-103
  method InitMask(s: Square, rook: bool) returns (mask: Word, shift: nat)
    ensures mask == MaskOf(s, rook) && Count(mask) <= 64 && shift == 64 - Count(mask)
    ensures 0 < shift < 64
  {
    MaskSizes(s, rook);
    WalksAre(s, rook, {});
    hide Attacks, Lines, DirsOf, Count, Pow2, WordOf;
    var seen := SliderAttacks(s, {}, DirsOf(rook));
    mask := WordOf(seen - Edges(s));
    shift := 64 - Count(mask);
  }

  // src/bitboard.c:97-116: fill the slice of one square.  The look-up is right for all 2^64 occupancies
  // exactly when the magic number has no destructive collision.
  method InitSliderAttacks(s: Square, rook: bool, magic: Word, table: array<Bitboard>, base: nat) returns (mask: Word, shift: nat)
    requires base + Slice(s, rook) <= table.Length
    modifies table
    ensures mask == MaskOf(s, rook) && Count(mask) <= 64 && shift == 64 - Count(mask)
    ensures forall i: int :: 0 <= i < table.Length && !(base <= i < base + Slice(s, rook)) ==> table[i] == old(table[i])
    ensures LookupRight(table[..], base, s, rook, magic) <==> NoCollision(s, rook, magic)
  {
    hide Index, Attacks, MaskOf, Sub, Slice, NoCollision, LookupRight, Written, Next, Lines, DirsOf, Count;
    mask, shift := InitMask(s, rook);
    var occ: Word := 0;
    var again := true;
    FullAndEmpty(mask);
    while again
      invariant Sub(occ, mask)
      invariant forall i: int :: 0 <= i < table.Length && !(base <= i < base + Slice(s, rook)) ==> table[i] == old(table[i])
      invariant NoCollision(s, rook, magic) ==>
                  forall p: Word :: Sub(p, mask) && (p < occ || !again) ==> Written(table[..], base, s, rook, magic, p)
      decreases again, mask - occ
    {
      AlwaysInSlice(s, rook, magic, occ);
      SliceIndex(s, rook, magic, occ);
      SubHalves(occ, mask);
      ghost var t := table[..];
      WalksAre(s, rook, SetOf(occ));
      var seen := SliderAttacks(s, SetOf(occ), DirsOf(rook));
      IndexIs(s, rook, magic, occ);
      table[base + SliderIndex(occ, mask, magic, shift)] := seen;
      if NoCollision(s, rook, magic) {
        forall p: Word | Sub(p, mask) && (p < occ || p == occ) ensures Written(table[..], base, s, rook, magic, p) {
          FillKeeps(t, table[..], base, s, rook, magic, occ, p);
        }
      }
      NextSubset(occ, mask);
      occ := Next(occ, mask);
      again := occ != 0;
    }
    if NoCollision(s, rook, magic) { AllWritten(table[..], base, s, rook, magic); }
    if LookupRight(table[..], base, s, rook, magic) { RightMeansNoCollision(table[..], base, s, rook, magic); }
  }

  lemma IndexIs(s: Square, rook: bool, magic: Word, occ: Word)
    ensures Count(MaskOf(s, rook)) <= 64
    ensures Index(s, rook, magic, occ) == SliderIndex(occ, MaskOf(s, rook), magic, 64 - Count(MaskOf(s, rook)))
  {
    hide SliderIndex, Count, MaskOf;
    Pow64();
    CountIsCard(MaskOf(s, rook), 64);
  }

  lemma SliceIndex(s: Square, rook: bool, magic: Word, occ: Word)
    requires InSlice(s, rook, magic, occ)
    ensures Index(s, rook, magic, occ) < Slice(s, rook)
  {}

  lemma WalksAre(s: Square, rook: bool, occ: Bitboard)
    ensures DirsOk(DirsOf(rook)) && |DirsOf(rook)| == 4 && Lines(s, occ, DirsOf(rook), 4) == Attacks(s, rook, occ)
  {
    hide Lines, DirsOk;
    WalksAreAttacks(s, occ);
  }

  lemma NextSubset(o: Word, m: Word)
    requires Sub(o, m)
    ensures 0 <= Next(o, m) < W64 && Sub(Next(o, m), m)
    ensures Next(o, m) == 0 ==> forall p: Word :: Sub(p, m) ==> p <= o
    ensures Next(o, m) != 0 ==> o < Next(o, m) <= m && forall p: Word :: Sub(p, m) && p < Next(o, m) ==> p <= o
  {
    hide And, Next, Pext, Count, Pow2;
    CarryRippler(o, m);
    SubHalves(Next(o, m), m);
    forall p: Word | Sub(p, m) ensures p <= m { SubHalves(p, m); }
  }

  // ---- The slices fill the data bases exactly ------------------------------------------------------------

  function Room(x: int, d: int): int { if d == 0 then 7 else if d > 0 then 7 - x else x }

  // Steps to the edge of the board.
  function Len(rank: int, file: int, d: Step): int
  {
    if Room(rank, d.dr) < Room(file, d.df) then Room(rank, d.dr) else Room(file, d.df)
  }

  function LenAt(s: Square, d: Step): int { Len(RankOf(s), FileOf(s), d) }

  predicate OnEdge(x: int) { x == 0 || x == 7 }

  // One coordinate: moving by d, an edge is reached after exactly Room steps.
  lemma EdgeOnlyAtRoom(x: int, d: int, n: int)
    requires 0 <= x < 8 && -1 <= d <= 1 && 1 <= n <= 7 && 0 <= Along(x, d, n) < 8
    ensures n <= Room(x, d)
    ensures OnEdge(Along(x, d, n)) && Along(x, d, n) != x <==> d != 0 && n == Room(x, d)
  {}

  lemma InEdges(s: Square, t: Square)
    ensures t in Edges(s) <==> (OnEdge(RankOf(t)) && RankOf(t) != RankOf(s)) || (OnEdge(FileOf(t)) && FileOf(t) != FileOf(s))
  {
    hide RankOf, FileOf;
  }

  // On a direction, only the last square is on an edge that counts.
  lemma OnlyLastOnEdge(s: Square, d: Step, t: Square)
    requires Unit(d) && Dir(s, t) == Code(d)
    ensures t in Edges(s) <==> Dist(s, t) >= LenAt(s, d)
  {
    PolarSquare(s, d, t);
    CoordsRange(s);
    CoordsRange(t);
    DistanceBound(s, t);
    hide RankOf, FileOf, Dir, Dist, Edges, Along;
    InEdges(s, t);
    EdgeOnlyAtRoom(RankOf(s), d.dr, Dist(s, t));
    EdgeOnlyAtRoom(FileOf(s), d.df, Dist(s, t));
  }

  lemma LenReached(s: Square, d: Step, n: int)
    requires Unit(d) && 1 <= n <= LenAt(s, d)
    ensures OnBoard(Along(RankOf(s), d.dr, n), Along(FileOf(s), d.df, n))
  {
    CoordsRange(s);
    hide RankOf, FileOf;
  }

  lemma {:induction false} NearCard(s: Square, d: Step, n: nat)
    requires Unit(d) && 1 <= n <= LenAt(s, d) + 1
    ensures |Near(s, Code(d), n)| == n - 1
  {
    hide RankOf, FileOf, Dir, Dist, Near, Code, Len;
    if n == 1 {
      NothingNear(s, d);
    } else {
      NearCard(s, d, n - 1);
      LenReached(s, d, n - 1);
      StepSquare(s, d, n - 1);
      NearNext(s, d, n - 1, SquareFrom(Along(RankOf(s), d.dr, n - 1), Along(FileOf(s), d.df, n - 1)));
    }
  }

  // Mask bits in one direction.
  function DirBits(rank: int, file: int, d: Step): nat { if Len(rank, file, d) > 0 then Len(rank, file, d) - 1 else 0 }

  function DirMask(s: Square, d: Step): Bitboard { Near(s, Code(d), LenAt(s, d)) }

  lemma DirMaskCard(s: Square, d: Step)
    requires Unit(d)
    ensures |DirMask(s, d)| == DirBits(RankOf(s), FileOf(s), d)
  {
    CoordsRange(s);
    hide RankOf, FileOf, Code;
    if LenAt(s, d) >= 1 {
      NearCard(s, d, LenAt(s, d));
    } else {
      hide Dir, Dist;
      forall t: Square ensures t !in DirMask(s, d) { DirReverse(s, t); }
      assert DirMask(s, d) == {};
    }
  }

  function MaskBits(rank: int, file: int, rook: bool): nat
  {
    var d := DirsOf(rook);
    DirBits(rank, file, d[0]) + DirBits(rank, file, d[1]) + DirBits(rank, file, d[2]) + DirBits(rank, file, d[3])
  }

  lemma MaskByDir(s: Square, rook: bool)
    ensures var d := DirsOf(rook);
            DirsOk(d) && |d| == 4 &&
            MaskSet(s, rook) == DirMask(s, d[0]) + DirMask(s, d[1]) + DirMask(s, d[2]) + DirMask(s, d[3])
  {
    hide Dir, Dist, Edges, LenAt, Lines, Code, Unit;
    var d := DirsOf(rook);
    WalksAre(s, rook, {});
    forall t: Square
      ensures t in MaskSet(s, rook) <==> t in DirMask(s, d[0]) || t in DirMask(s, d[1]) || t in DirMask(s, d[2]) || t in DirMask(s, d[3])
    {
      InFourLines(s, d, t);
      forall j: nat | j < 4 && Dir(s, t) == Code(d[j]) ensures t in Edges(s) <==> Dist(s, t) >= LenAt(s, d[j]) {
        OnlyLastOnEdge(s, d[j], t);
      }
    }
  }

  lemma InFourLines(s: Square, d: seq<Step>, t: Square)
    requires |d| == 4
    ensures t in Lines(s, {}, d, 4) <==>
            Dir(s, t) == Code(d[0]) || Dir(s, t) == Code(d[1]) || Dir(s, t) == Code(d[2]) || Dir(s, t) == Code(d[3])
  {
    hide Dir, Code, Between;
    assert Visible(s, t, {});
    forall j: nat | j < 4 && Code(d[j]) == Dir(s, t) ensures InDirs(Dir(s, t), d, 4) {}
  }

  lemma DirMasksApart(s: Square, d: Step, e: Step)
    requires Unit(d) && Unit(e) && d != e
    ensures DirMask(s, d) !! DirMask(s, e)
  {
    hide Dir, Dist;
    if Code(d) == Code(e) { CodeUnique(d, e); }
  }

  lemma MaskCard(s: Square, rook: bool)
    ensures |MaskSet(s, rook)| == MaskBits(RankOf(s), FileOf(s), rook)
  {
    hide RankOf, FileOf, DirMask, MaskSet, DirBits;
    var d := DirsOf(rook);
    MaskByDir(s, rook);
    forall i: nat | i < 4 ensures |DirMask(s, d[i])| == DirBits(RankOf(s), FileOf(s), d[i]) { DirMaskCard(s, d[i]); }
    forall i: nat, j: nat | i < j < 4 ensures DirMask(s, d[i]) !! DirMask(s, d[j]) { DirMasksApart(s, d[i], d[j]); }
    Card4(DirMask(s, d[0]), DirMask(s, d[1]), DirMask(s, d[2]), DirMask(s, d[3]));
  }

  lemma Card4(a: Bitboard, b: Bitboard, c: Bitboard, d: Bitboard)
    requires a !! b && a !! c && a !! d && b !! c && b !! d && c !! d
    ensures |a + b + c + d| == |a| + |b| + |c| + |d|
  {
    assert (a + b) !! c && (a + b + c) !! d;
  }

  lemma CountIsBits(s: Square, rook: bool)
    ensures Count(MaskOf(s, rook)) == MaskBits(RankOf(s), FileOf(s), rook)
  {
    hide MaskSet, MaskBits, Count, Pow2, WordOf;
    Pow64();
    CountIsCard(MaskOf(s, rook), 64);
    SetOfWordOf(MaskSet(s, rook));
    assert Ones(MaskOf(s, rook), 64) == SetOf(MaskOf(s, rook));
    MaskCard(s, rook);
  }

  // A mask has between 5 and 12 squares, so the shift of 64 minus that number is defined on 64-bit words.
  lemma MaskSizes(s: Square, rook: bool)
    ensures 5 <= Count(MaskOf(s, rook)) <= 12
  {
    hide MaskBits, Count, MaskOf, RankOf, FileOf;
    CountIsBits(s, rook);
    CoordsRange(s);
    if rook { RookBits(RankOf(s), FileOf(s)); } else { BishopBits(RankOf(s), FileOf(s)); }
  }

  lemma SliceSize(s: Square, rook: bool)
    ensures Slice(s, rook) == Pow2(MaskBits(RankOf(s), FileOf(s), rook))
  {
    hide MaskBits, Count, Pow2, MaskOf;
    CountIsBits(s, rook);
  }

  // Where the slice of square s starts: the slices of the squares before it lie below.
  function Base(s: nat, rook: bool): nat
    requires s <= 64
  {
    if s == 0 then 0 else Base(s - 1, rook) + Slice(s - 1, rook)
  }

  // Sizes of the slices of one rank.
  function RankSize(rank: int, rook: bool): nat
  {
    Pow2(MaskBits(rank, 0, rook)) + Pow2(MaskBits(rank, 1, rook)) + Pow2(MaskBits(rank, 2, rook)) + Pow2(MaskBits(rank, 3, rook)) +
    Pow2(MaskBits(rank, 4, rook)) + Pow2(MaskBits(rank, 5, rook)) + Pow2(MaskBits(rank, 6, rook)) + Pow2(MaskBits(rank, 7, rook))
  }

  lemma RankSlices(rank: nat, rook: bool)
    requires rank < 8
    ensures Base(8 * rank + 8, rook) == Base(8 * rank, rook) + RankSize(rank, rook)
  {
    hide Slice, MaskBits, Pow2, Base, RankOf, FileOf;
    SliceAt(rank, 0, rook);
    SliceAt(rank, 1, rook);
    SliceAt(rank, 2, rook);
    SliceAt(rank, 3, rook);
    SliceAt(rank, 4, rook);
    SliceAt(rank, 5, rook);
    SliceAt(rank, 6, rook);
    SliceAt(rank, 7, rook);
  }

  lemma SliceAt(rank: nat, file: nat, rook: bool)
    requires rank < 8 && file < 8
    ensures Base(8 * rank + file + 1, rook) == Base(8 * rank + file, rook) + Pow2(MaskBits(rank, file, rook))
  {
    hide Slice, MaskBits, Pow2, Base, RankOf, FileOf;
    var s := SquareFrom(rank, file);
    SquareFromCoords(rank, file);
    SliceSize(s, rook);
    NextBase(s, rook);
  }

  lemma Powers()
    ensures Pow2(5) == 32 && Pow2(6) == 64 && Pow2(7) == 128 && Pow2(9) == 512
    ensures Pow2(10) == 1024 && Pow2(11) == 2048 && Pow2(12) == 4096
  {
    assert Pow2(4) == 16;
    assert Pow2(8) == 256;
  }

  lemma RookBits(rank: int, file: int)
    requires OnBoard(rank, file)
    ensures MaskBits(rank, file, true) == (if rank == 0 || rank == 7 then 6 else 5) + (if file == 0 || file == 7 then 6 else 5)
  {}

  lemma BishopBits(rank: int, file: int)
    requires OnBoard(rank, file)
    ensures MaskBits(rank, file, false) ==
            if 3 <= rank <= 4 && 3 <= file <= 4 then 9
            else if 2 <= rank <= 5 && 2 <= file <= 5 then 7
            else if (rank == 0 || rank == 7) && (file == 0 || file == 7) then 6
            else 5
  {}

  lemma RankSizes(rank: int)
    requires 0 <= rank < 8
    ensures RankSize(rank, true) == if rank == 0 || rank == 7 then 20480 else 10240
    ensures RankSize(rank, false) ==
            if rank == 0 || rank == 7 then 320 else if rank == 1 || rank == 6 then 256 else if rank == 2 || rank == 5 then 640 else 1408
  {
    hide MaskBits, Pow2;
    Powers();
    forall file: int | 0 <= file < 8
      ensures MaskBits(rank, file, true) == (if rank == 0 || rank == 7 then 6 else 5) + (if file == 0 || file == 7 then 6 else 5)
    {
      RookBits(rank, file);
    }
    forall file: int | 0 <= file < 8
      ensures MaskBits(rank, file, false) ==
            if 3 <= rank <= 4 && 3 <= file <= 4 then 9
            else if 2 <= rank <= 5 && 2 <= file <= 5 then 7
            else if (rank == 0 || rank == 7) && (file == 0 || file == 7) then 6
            else 5
    {
      BishopBits(rank, file);
    }
  }

  // The 64 slices fill RookDB[0x19000] and BishopDB[0x1480] exactly.
  lemma DatabaseSizes()
    ensures Base(64, true) == 0x19000 && Base(64, false) == 0x1480
  {
    hide Base, RankSize;
    NoSlices();
    forall rank: nat, rook: bool | rank < 8 ensures Base(8 * rank + 8, rook) == Base(8 * rank, rook) + RankSize(rank, rook) {
      RankSlices(rank, rook);
    }
    forall rank: int | 0 <= rank < 8
      ensures RankSize(rank, true) == if rank == 0 || rank == 7 then 20480 else 10240
      ensures RankSize(rank, false) ==
              if rank == 0 || rank == 7 then 320 else if rank == 1 || rank == 6 then 256 else if rank == 2 || rank == 5 then 640 else 1408
    {
      RankSizes(rank);
    }
    forall rook: bool
      ensures Base(64, rook) == RankSize(0, rook) + RankSize(1, rook) + RankSize(2, rook) + RankSize(3, rook) +
                                RankSize(4, rook) + RankSize(5, rook) + RankSize(6, rook) + RankSize(7, rook)
    {
      assert Base(8, rook) == Base(8 * 0 + 8, rook) && Base(16, rook) == Base(8 * 1 + 8, rook) && Base(24, rook) == Base(8 * 2 + 8, rook);
      assert Base(32, rook) == Base(8 * 3 + 8, rook) && Base(40, rook) == Base(8 * 4 + 8, rook) && Base(48, rook) == Base(8 * 5 + 8, rook);
      assert Base(56, rook) == Base(8 * 6 + 8, rook) && Base(64, rook) == Base(8 * 7 + 8, rook);
    }
  }

  lemma NoSlices()
    ensures Base(0, true) == 0 && Base(0, false) == 0
  {}

  lemma {:induction false} BaseMono(a: nat, b: nat, rook: bool)
    requires a <= b <= 64
    ensures Base(a, rook) <= Base(b, rook)
    decreases b - a
  {
    hide Slice;
    if a < b { BaseMono(a, b - 1, rook); }
  }

  // ---- All squares ---------------------------------------------------------------------------------------

  lemma SameSlice(t: seq<Bitboard>, t2: seq<Bitboard>, s: Square, rook: bool, magic: Word)
    requires |t| == |t2| == Base(64, rook)
    requires forall i: int :: Base(s, rook) <= i < Base(s + 1, rook) && i < |t| ==> t[i] == t2[i]
    ensures Base(s, rook) + Slice(s, rook) <= |t|
    ensures LookupRight(t, Base(s, rook), s, rook, magic) <==> LookupRight(t2, Base(s, rook), s, rook, magic)
  {
    BaseMono(s + 1, 64, rook);
    assert Base(s + 1, rook) == Base(s, rook) + Slice(s, rook);
    hide Base, Index, Slice, Attacks;
    forall occ: Word | InSlice(s, rook, magic, occ)
      ensures t[Base(s, rook) + Index(s, rook, magic, occ)] == t2[Base(s, rook) + Index(s, rook, magic, occ)]
    {
      SliceIndex(s, rook, magic, occ);
    }
  }

  // src/bitboard.c:168-176 for one kind of slider: after it, bb_rook_attacks and bb_bishop_attacks agree with
  // ray walking for all occupancies of every square whose magic number has no destructive collision.
  method InitSliders(rook: bool, magics: seq<Word>, table: array<Bitboard>)
    requires |magics| == 64 && table.Length == if rook then 0x19000 else 0x1480
    modifies table
    ensures Base(64, rook) == table.Length
    ensures forall s: Square :: Base(s, rook) + Slice(s, rook) <= table.Length &&
              (LookupRight(table[..], Base(s, rook), s, rook, magics[s]) <==> NoCollision(s, rook, magics[s]))
  {
    hide LookupRight, NoCollision, Slice, Base, Count, Pow2, MaskOf;
    DatabaseSizes();
    NoSlices();
    var square, base := 0, 0;
    while square < 64
      invariant 0 <= square <= 64 && base == Base(square, rook)
      invariant forall s: Square :: s < square ==>
                  (Base(s, rook) + Slice(s, rook) <= table.Length &&
                   (LookupRight(table[..], Base(s, rook), s, rook, magics[s]) <==> NoCollision(s, rook, magics[s])))
    {
      NextBase(square, rook);
      BaseMono(square + 1, 64, rook);
      ghost var t := table[..];
      var mask, shift := InitSliderAttacks(square, rook, magics[square], table, base);
      forall s: Square | s < square
        ensures Base(s, rook) + Slice(s, rook) <= table.Length
        ensures LookupRight(table[..], Base(s, rook), s, rook, magics[s]) <==> NoCollision(s, rook, magics[s])
      {
        BaseMono(s + 1, square, rook);
        SameSlice(t, table[..], s, rook, magics[s]);
      }
      SliceIsCount(square, rook);
      base := base + Pow2(Count(mask));
      square := square + 1;
    }
  }

  lemma SliceIsCount(s: Square, rook: bool)
    ensures Slice(s, rook) == Pow2(Count(MaskOf(s, rook)))
  {}

  lemma NextBase(s: Square, rook: bool)
    ensures Base(s + 1, rook) == Base(s, rook) + Slice(s, rook)
  {}
}
