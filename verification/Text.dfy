/** The text layer of src/str.c used by the round trips: tokens separated by spaces and decimal numbers. */
module Text {
  datatype Option<+T> = None | Some(value: T)

  // ---- Tokens --------------------------------------------------------------------------------------------

  // A token: not empty and without spaces.
  predicate Word(t: string) { t != "" && ' ' !in t }

  // Number of leading spaces (strspn) and of leading characters that are not spaces (strcspn).
  function Spaces(s: string): (n: nat)
    ensures n <= |s| && (n < |s| ==> s[n] != ' ') && forall i: int :: 0 <= i < n ==> s[i] == ' '
  {
    if s != "" && s[0] == ' ' then 1 + Spaces(s[1..]) else 0
  }

  function NonSpaces(s: string): (n: nat)
    ensures n <= |s| && (n < |s| ==> s[n] == ' ') && forall i: int :: 0 <= i < n ==> s[i] != ' '
  {
    if s != "" && s[0] != ' ' then 1 + NonSpaces(s[1..]) else 0
  }

  function TokenOf(s: string): string { s[Spaces(s)..][..NonSpaces(s[Spaces(s)..])] }

  function TailOf(s: string): string { s[Spaces(s)..][NonSpaces(s[Spaces(s)..])..] }

  // All tokens of s.
  function Tokens(s: string): seq<string>
    decreases |s|
  {
    if TokenOf(s) == "" then [] else [TokenOf(s)] + Tokens(TailOf(s))
  }

  // The tokens still to come; None is the tail of a text that has run out.
  function Rest(s: Option<string>): seq<string> { if s.None? then [] else Tokens(s.value) }

  // src/str.c:223-243: the next token, and the rest of the text, or None when there is no token.
  method StrTok(s: Option<string>, token: string) returns (token': string, tail: Option<string>)
    ensures tail.Some? <==> Rest(s) != []
    ensures Rest(tail) == if Rest(s) == [] then [] else Rest(s)[1..]
    ensures token' == if Rest(s) != [] then Rest(s)[0] else if s.Some? then "" else token
  {
    if s.None? {
      return token, None;
    }
    var text := s.value;
    var i := Strspn(text);
    var n := Strcspn(text[i..]);
    token' := text[i..][..n];
    tail := if token' != "" then Some(text[i..][n..]) else None;
  }

  method Strspn(s: string) returns (i: nat)
    ensures i == Spaces(s)
  {
    i := 0;
    while i < |s| && s[i] == ' '
      invariant i <= |s| && forall k: int :: 0 <= k < i ==> s[k] == ' '
    {
      i := i + 1;
    }
    SpacesUnique(s, i);
  }

  method Strcspn(s: string) returns (i: nat)
    ensures i == NonSpaces(s)
  {
    i := 0;
    while i < |s| && s[i] != ' '
      invariant i <= |s| && forall k: int :: 0 <= k < i ==> s[k] != ' '
    {
      i := i + 1;
    }
    NonSpacesUnique(s, i);
  }

  lemma SpacesUnique(s: string, n: nat)
    requires n <= |s| && (n < |s| ==> s[n] != ' ') && forall i: int :: 0 <= i < n ==> s[i] == ' '
    ensures Spaces(s) == n
  {}

  lemma NonSpacesUnique(s: string, n: nat)
    requires n <= |s| && (n < |s| ==> s[n] == ' ') && forall i: int :: 0 <= i < n ==> s[i] != ' '
    ensures NonSpaces(s) == n
  {}

  lemma TokensLast(t: string)
    requires Word(t)
    ensures Tokens(t) == [t]
  {
    SpacesUnique(t, 0);
    NonSpacesUnique(t, |t|);
    assert t[0..] == t && t[..|t|] == t && t[|t|..] == "";
    assert TokenOf(t) == t && TailOf(t) == "";
    assert Tokens("") == [];
  }

  lemma TokensCons(t: string, s: string)
    requires Word(t)
    ensures Tokens(t + " " + s) == [t] + Tokens(s)
  {
    var x := t + " " + s;
    SpacesUnique(x, 0);
    assert x[0..] == x;
    NonSpacesUnique(x, |t|);
    assert x[..|t|] == t && x[|t|..] == " " + s;
    TokensSpace(s);
  }

  lemma TokensSpace(s: string)
    ensures Tokens(" " + s) == Tokens(s)
  {
    var x := " " + s;
    assert x[1..] == s;
    assert Spaces(x) == 1 + Spaces(s);
    assert x[Spaces(x)..] == s[Spaces(s)..];
    assert TokenOf(x) == TokenOf(s) && TailOf(x) == TailOf(s);
  }

  // Words, each followed by a space.
  function Spaced(ws: seq<string>): string { if ws == [] then "" else ws[0] + " " + Spaced(ws[1..]) }

  lemma {:induction false} TokensSpaced(ws: seq<string>)
    requires forall i: int :: 0 <= i < |ws| ==> Word(ws[i])
    ensures Tokens(Spaced(ws)) == ws
  {
    if ws != [] {
      TokensSpaced(ws[1..]);
      TokensCons(ws[0], Spaced(ws[1..]));
    } else {
      assert TokenOf("") == "";
    }
  }

  // ---- Decimal numbers -----------------------------------------------------------------------------------

  function DigitChar(d: nat): char
    requires d < 10
  {
    '0' + d as char
  }

  function Digits(n: nat): string
  {
    if n < 10 then [DigitChar(n)] else Digits(n / 10) + [DigitChar(n % 10)]
  }

  // Decimal digits, the last one last.
  lemma DigitsAre(n: nat)
    ensures n < 10 ==> Digits(n) == ["0123456789"[n]]
    ensures n >= 10 ==> Digits(n) == Digits(n / 10) + ["0123456789"[n % 10]]
  {
    DigitNames(n % 10);
  }

  lemma DigitNames(d: nat)
    requires d < 10
    ensures DigitChar(d) == "0123456789"[d]
  {}

  predicate IsDigit(c: char) { '0' <= c <= '9' }

  function DigitValue(c: char): nat
    requires IsDigit(c)
  {
    c as int - '0' as int
  }

  lemma DigitRoundTrip(d: nat)
    requires d < 10
    ensures IsDigit(DigitChar(d)) && DigitValue(DigitChar(d)) == d
  {}

  // src/str.c:134-142: digits are written from the last one backwards.
  method FmtU(n: nat) returns (s: string)
    ensures s == Digits(n)
  {
    s := [DigitChar(n % 10)];
    var rest: nat := n / 10;
    while rest != 0
      invariant Digits(n) == if rest == 0 then s else Digits(rest) + s
    {
      s := [DigitChar(rest % 10)] + s;
      rest := rest / 10;
    }
  }

  const TWO64: nat := 0x1_0000_0000_0000_0000

  // The number that a string of digits denotes.
  function Value(s: string): nat
    requires forall i: int :: 0 <= i < |s| ==> IsDigit(s[i])
  {
    if s == "" then 0 else 10 * Value(s[..|s| - 1]) + DigitValue(s[|s| - 1])
  }

  lemma {:induction false} DigitsAreDigits(n: nat)
    ensures Digits(n) != "" && forall i: int :: 0 <= i < |Digits(n)| ==> IsDigit(Digits(n)[i])
  {
    if n < 10 { DigitRoundTrip(n); } else { DigitsAreDigits(n / 10); DigitRoundTrip(n % 10); }
  }

  lemma {:induction false} ValueOfDigits(n: nat)
    ensures (forall i: int :: 0 <= i < |Digits(n)| ==> IsDigit(Digits(n)[i])) && Value(Digits(n)) == n
  {
    DigitsAreDigits(n);
    if n < 10 {
      DigitRoundTrip(n);
      assert Digits(n)[..0] == "";
    } else {
      ValueOfDigits(n / 10);
      DigitRoundTrip(n % 10);
      assert Digits(n)[..|Digits(n)| - 1] == Digits(n / 10);
    }
  }

  lemma {:induction false} ValuePrefix(s: string, i: nat)
    requires i <= |s| && forall k: int :: 0 <= k < |s| ==> IsDigit(s[k])
    ensures Value(s[..i]) <= Value(s)
    decreases |s|
  {
    if i == |s| {
      assert s[..i] == s;
    } else {
      ValuePrefix(s[..|s| - 1], i);
      assert s[..|s| - 1][..i] == s[..i];
    }
  }

  function Wrap(n: nat): (r: nat)
    ensures r < TWO64 && (n < TWO64 ==> r == n)
  {
    n % TWO64
  }

  // Reading on from acc: 64-bit arithmetic wraps around, and a sum that got smaller counts as an overflow.
  function ScanUint(s: string, acc: nat): Option<nat>
  {
    if s == "" then Some(acc)
    else if !IsDigit(s[0]) then None
    else
      var next := Wrap(10 * acc + DigitValue(s[0]));
      if next < acc then None else ScanUint(s[1..], next)
  }

  // src/str.c:328-346
  method StrToUintmax(s: string) returns (ok: bool, result: nat)
    ensures result < TWO64
    ensures ScanUint(s, 0) == if ok then Some(result) else None
  {
    hide Wrap;
    result := 0;
    var previous := 0;
    var i := 0;
    while i < |s|
      invariant 0 <= i <= |s| && result < TWO64 && previous == result
      invariant ScanUint(s, 0) == ScanUint(s[i..], result)
    {
      var c := s[i];
      assert s[i..][0] == c && s[i..][1..] == s[i + 1..];
      if IsDigit(c) {
        result := Wrap(10 * result + DigitValue(c));
        if result < previous { return false, result; }
      } else {
        return false, result;
      }
      previous := result;
      i := i + 1;
    }
    ok := true;
  }

  function ScannedUint(s: string, max: nat): Option<nat>
  {
    match ScanUint(s, 0)
    case Some(n) => if n <= max then Some(n) else None
    case None => None
  }

  // The numbers that the program prints are read back.
  lemma ScannedDigits(n: nat, max: nat)
    requires n <= max < TWO64
    ensures ScannedUint(Digits(n), max) == Some(n)
  {
    ValueOfDigits(n);
    ScanIsValue(Digits(n), 0);
    assert Digits(n)[..0] == "" && Digits(n)[0..] == Digits(n);
  }

  lemma {:induction false} ScanIsValue(s: string, i: nat)
    requires i <= |s| && (forall k: int :: 0 <= k < |s| ==> IsDigit(s[k])) && Value(s) < TWO64
    ensures Value(s[..i]) < TWO64 && ScanUint(s[i..], Value(s[..i])) == Some(Value(s))
    decreases |s| - i
  {
    hide Wrap;
    ValuePrefix(s, i);
    if i < |s| {
      ValuePrefix(s, i + 1);
      assert s[..i + 1][..i] == s[..i];
      assert s[i..][1..] == s[i + 1..];
      ScanIsValue(s, i + 1);
    } else {
      assert s[..i] == s;
    }
  }

  // The overflow test is not exact: an accepted string of digits is read rightly exactly when its value is
  // below 2^64, and OverflowMissed shows one that is accepted above it.
  lemma AcceptedIsRightIff(s: string)
    requires forall k: int :: 0 <= k < |s| ==> IsDigit(s[k])
    ensures ScanUint(s, 0).Some? ==> (ScanUint(s, 0).value == Value(s) <==> Value(s) < TWO64)
    ensures Value(s) < TWO64 ==> ScanUint(s, 0).Some?
  {
    hide Wrap;
    ScanBelow(s, 0);
    if Value(s) < TWO64 {
      ScanIsValue(s, 0);
      assert s[..0] == "" && s[0..] == s;
    }
  }

  lemma {:induction false} ScanBelow(s: string, acc: nat)
    requires acc < TWO64
    ensures ScanUint(s, acc).Some? ==> ScanUint(s, acc).value < TWO64
  {
    hide Wrap;
    if s != "" && IsDigit(s[0]) {
      ScanBelow(s[1..], Wrap(10 * acc + DigitValue(s[0])));
    }
  }

  lemma {:induction false} ScanPush(s: string, acc: nat, c: char)
    ensures ScanUint(s + [c], acc) == match ScanUint(s, acc) case Some(a) => ScanUint([c], a) case None => None
  {
    hide Wrap;
    if s == "" {
      assert s + [c] == [c];
    } else {
      assert (s + [c])[1..] == s[1..] + [c];
      if IsDigit(s[0]) { ScanPush(s[1..], Wrap(10 * acc + DigitValue(s[0])), c); }
    }
  }

  lemma DigitsTenfold(n: nat)
    requires n > 0
    ensures Digits(10 * n) == Digits(n) + "0"
  {}

  lemma ScanZero(n: nat)
    ensures ScanUint("0", n) == if Wrap(10 * n) < n then None else Some(Wrap(10 * n))
  {
    hide Wrap;
    assert "0"[1..] == "";
  }

  // Reading ten times n: the overflow goes unseen unless the wrapped number is below n.
  lemma ScanTenfold(n: nat)
    requires 0 < n < TWO64
    ensures ScanUint(Digits(10 * n), 0) == if Wrap(10 * n) < n then None else Some(Wrap(10 * n))
  {
    DigitsTenfold(n);
    ScanZero(n);
    hide Wrap, Digits, ScanUint, Value;
    ValueOfDigits(n);
    NoDigitsYet();
    ScanIsValue(Digits(n), 0);
    assert Digits(n)[..0] == "" && Digits(n)[0..] == Digits(n);
    ScanPush(Digits(n), 0, '0');
  }

  lemma NoDigitsYet()
    ensures Value("") == 0
  {}

  // 3 followed by 19 zeros is above 2^64, is accepted, and is read as another number.
  lemma OverflowMissed() returns (s: string)
    ensures (forall i: int :: 0 <= i < |s| ==> IsDigit(s[i])) && Value(s) == 30000000000000000000 > TWO64
    ensures ScanUint(s, 0) == Some(11553255926290448384)
  {
    hide Digits, ScanUint;
    var n := 3000000000000000000;
    s := Digits(10 * n);
    ValueOfDigits(10 * n);
    ScanTenfold(n);
  }

  // A number that has wrapped around unseen is no smaller than the one before it, and what follows only
  // makes it grow.
  lemma {:induction false} ScanGrows(s: string, acc: nat)
    ensures ScanUint(s, acc).Some? ==> ScanUint(s, acc).value >= acc
  {
    hide Wrap;
    if s != "" && IsDigit(s[0]) {
      ScanGrows(s[1..], Wrap(10 * acc + DigitValue(s[0])));
    }
  }

  lemma {:induction false} ScanLarge(s: string, i: nat)
    requires i <= |s| && (forall k: int :: 0 <= k < |s| ==> IsDigit(s[k])) && Value(s[..i]) < TWO64 <= Value(s)
    ensures ScanUint(s[i..], Value(s[..i])).Some? ==> ScanUint(s[i..], Value(s[..i])).value > 65535
    decreases |s| - i
  {
    hide Wrap;
    assert s[..|s|] == s;
    if i < |s| {
      assert s[..i + 1][..i] == s[..i] && s[i..][1..] == s[i + 1..];
      if Value(s[..i + 1]) < TWO64 {
        ScanLarge(s, i + 1);
      } else {
        ScanGrows(s[i + 1..], Wrap(Value(s[..i + 1])));
      }
    }
  }

  // The callers with small limits are right about every string of digits: the inexact overflow test does them
  // no harm.
  lemma SmallNumbersAreExact(s: string, max: nat)
    requires (forall k: int :: 0 <= k < |s| ==> IsDigit(s[k])) && max <= 65535
    ensures ScannedUint(s, max) == if Value(s) <= max then Some(Value(s)) else None
  {
    assert s[..0] == "" && s[0..] == s;
    if Value(s) < TWO64 { ScanIsValue(s, 0); } else { ScanLarge(s, 0); }
  }

  // src/str.c:348-366
  method StrToUint(s: string, max: nat) returns (ok: bool, result: nat)
    requires max < TWO64
    ensures ScannedUint(s, max) == if ok then Some(result) else None
  {
    ok, result := StrToUintmax(s);
    ok := ok && result <= max;
  }
}
