/** Decimal printing and scanning of integers, as fmt's %d does both. */
module Numbers {
  import opened Options

  predicate IsDigit(c: char) {
    '0' <= c <= '9'
  }

  function DigitOf(n: nat): (c: char)
    requires n < 10
    ensures IsDigit(c) && ValueOf(c) == n
  {
    '0' + n as char
  }

  function ValueOf(c: char): (n: nat)
    requires IsDigit(c)
    ensures n < 10
  {
    (c - '0') as nat
  }

  predicate AllDigits(s: string) {
    forall i | 0 <= i < |s| :: IsDigit(s[i])
  }

  function NatToString(n: nat): (s: string)
    ensures s != "" && AllDigits(s)
  {
    if n < 10 then [DigitOf(n)] else NatToString(n / 10) + [DigitOf(n % 10)]
  }

  function IntToString(n: int): string {
    if n < 0 then "-" + NatToString(-n) else NatToString(n)
  }

  function StringToNat(s: string): nat
    requires AllDigits(s)
  {
    if s == "" then 0 else StringToNat(s[..|s| - 1]) * 10 + ValueOf(s[|s| - 1])
  }

  lemma {:induction false} NatRoundTrip(n: nat)
    ensures StringToNat(NatToString(n)) == n
    decreases n
  {
    if n >= 10 {
      var s := NatToString(n);
      assert s[..|s| - 1] == NatToString(n / 10);
      NatRoundTrip(n / 10);
    }
  }

  function Pow10(k: nat): (p: nat)
    ensures p > 0
  {
    if k == 0 then 1 else 10 * Pow10(k - 1)
  }

  lemma DivideTwice(n: nat, m: nat)
    requires m > 0
    ensures n / 10 / m == n / (10 * m)
  {
    var q, a := n / 10, n % 10;
    var r, b := q / m, q % m;
    var low := 10 * b + a;
    assert n == r * (10 * m) + low && low < 10 * m;
    Quotient(n, 10 * m, r, low);
  }

  lemma AtLeast(x: int, d: int)
    requires x >= 1 && d >= 0
    ensures x * d >= d
  {
    assert (x - 1) * d >= 0;
  }

  lemma OnlyMultiple(x: int, d: int)
    requires -d < x * d < d
    ensures x == 0
  {
    if x > 0 {
      AtLeast(x, d);
    } else if x < 0 {
      AtLeast(-x, d);
    }
  }

  lemma Quotient(n: nat, d: nat, r: nat, low: nat)
    requires low < d && n == r * d + low
    ensures n / d == r
  {
    assert n == n / d * d + n % d;
    assert (n / d - r) * d == low - n % d;
    OnlyMultiple(n / d - r, d);
  }

  /** There are as many places as the number needs. */
  lemma {:induction false} PlacesNeeded(n: nat, k: nat)
    ensures k < |NatToString(n)| <==> k == 0 || Pow10(k) <= n
    decreases k
  {
    if k > 0 && n >= 10 {
      PlacesNeeded(n / 10, k - 1);
    } else if k > 0 {
      assert Pow10(k) >= 10;
    }
  }

  lemma {:induction false} PlaceDigit(n: nat, k: nat)
    requires k < |NatToString(n)|
    ensures NatToString(n)[|NatToString(n)| - 1 - k] == DigitOf(n / Pow10(k) % 10)
    decreases k
  {
    if k == 0 {
      assert Pow10(0) == 1 && n / 1 == n;
    } else if n >= 10 {
      PlaceDigit(n / 10, k - 1);
      DivideTwice(n, Pow10(k - 1));
    }
  }

  lemma DigitName(d: nat)
    requires d < 10
    ensures DigitOf(d) == "0123456789"[d]
  {
  }

  /** The character in the place of 10^k, counted from the right, is the digit of that place. */
  lemma DecimalPlaces(n: nat, k: nat)
    requires k < |NatToString(n)|
    ensures NatToString(n)[|NatToString(n)| - 1 - k] == "0123456789"[n / Pow10(k) % 10]
  {
    PlaceDigit(n, k);
    DigitName(n / Pow10(k) % 10);
  }

  /** Go's int on a 64-bit platform. */
  const MAX_INT := 0x7fff_ffff_ffff_ffff
  const MIN_INT := -0x8000_0000_0000_0000

  type Int64 = n: int | MIN_INT <= n <= MAX_INT

  /** The length of the digits at the front of `s`. */
  function DigitRun(s: string): (k: nat)
    ensures k <= |s| && AllDigits(s[..k]) && (k < |s| ==> !IsDigit(s[k]))
  {
    if s == "" || !IsDigit(s[0]) then 0
    else
      var k := DigitRun(s[1..]);
      assert s[..k + 1] == [s[0]] + s[1..][..k];
      k + 1
  }

  lemma {:induction false} DigitRunOf(digits: string, rest: string)
    requires AllDigits(digits) && (rest == "" || !IsDigit(rest[0]))
    ensures DigitRun(digits + rest) == |digits|
    decreases |digits|
  {
    var s := digits + rest;
    if digits == "" {
      assert s == rest;
    } else {
      assert s[1..] == digits[1..] + rest;
      DigitRunOf(digits[1..], rest);
    }
  }

  function SkipBlanks(s: string): string {
    if s != "" && (s[0] == ' ' || s[0] == '\t') then SkipBlanks(s[1..]) else s
  }

  function Signed(negative: bool, magnitude: int): int {
    if negative then -magnitude else magnitude
  }

  /** The digits at the front, with their sign; the value must fit an int. Yields the rest of the input. */
  function ScanDigits(negative: bool, s: string): Option<(Int64, string)> {
    var k := DigitRun(s);
    if k == 0 then None
    else
      var n := Signed(negative, StringToNat(s[..k]));
      if MIN_INT <= n <= MAX_INT then Some((n, s[k..])) else None
  }

  /** One %d: blanks, an optional sign, digits. */
  function ScanInt(input: string): Option<(Int64, string)> {
    var s := SkipBlanks(input);
    if s != "" && (s[0] == '-' || s[0] == '+') then ScanDigits(s[0] == '-', s[1..]) else ScanDigits(false, s)
  }

  predicate AllBlank(s: string) {
    forall i | 0 <= i < |s| :: s[i] == ' ' || s[i] == '\t'
  }

  /** How the input reads: blanks, a sign or none, at least one digit and as many as there are, the rest. */
  predicate Reads(input: string, blanks: string, sign: string, digits: string, rest: string) {
    && AllBlank(blanks) && sign in ["", "+", "-"]
    && digits != "" && AllDigits(digits) && (rest == "" || !IsDigit(rest[0]))
    && input == blanks + (sign + (digits + rest))
  }

  lemma {:induction false} BlanksSkipped(blanks: string, rest: string)
    requires AllBlank(blanks) && (rest == "" || !(rest[0] == ' ' || rest[0] == '\t'))
    ensures SkipBlanks(blanks + rest) == rest
    decreases |blanks|
  {
    var s := blanks + rest;
    if blanks == "" {
      assert s == rest;
    } else {
      assert s[0] == blanks[0] && s[1..] == blanks[1..] + rest;
      BlanksSkipped(blanks[1..], rest);
    }
  }

  lemma {:induction false} BlanksBefore(s: string) returns (blanks: string)
    ensures AllBlank(blanks) && s == blanks + SkipBlanks(s)
    decreases |s|
  {
    blanks := "";
    if s != "" && (s[0] == ' ' || s[0] == '\t') {
      var more := BlanksBefore(s[1..]);
      blanks := [s[0]] + more;
      assert s == [s[0]] + s[1..];
    }
  }

  /** A reading is what is scanned, if the number fits an int. */
  lemma ReadsScan(input: string, blanks: string, sign: string, digits: string, rest: string)
    requires Reads(input, blanks, sign, digits, rest)
    ensures var n := Signed(sign == "-", StringToNat(digits));
      ScanInt(input) == if MIN_INT <= n <= MAX_INT then Some((n, rest)) else None
  {
    var tail := digits + rest;
    assert IsDigit(tail[0]) by { assert tail[0] == digits[0]; }
    var s := sign + tail;
    assert sign == "" ==> s == tail;
    assert sign != "" ==> s[0] == sign[0] && s[1..] == tail;
    BlanksSkipped(blanks, s);
    DigitRunOf(digits, rest);
    assert tail[..|digits|] == digits && tail[|digits|..] == rest;
  }

  lemma SignBefore(s: string) returns (sign: string, tail: string)
    ensures sign in ["", "+", "-"] && s == sign + tail
    ensures sign == "" <==> s == "" || (s[0] != '-' && s[0] != '+')
  {
    if s != "" && (s[0] == '-' || s[0] == '+') {
      sign, tail := [s[0]], s[1..];
      assert sign == if s[0] == '-' then "-" else "+";
    } else {
      sign, tail := "", s;
    }
  }

  lemma DigitsBefore(tail: string) returns (digits: string, rest: string)
    ensures AllDigits(digits) && (rest == "" || !IsDigit(rest[0])) && tail == digits + rest
    ensures digits == "" <==> DigitRun(tail) == 0
  {
    var k := DigitRun(tail);
    digits, rest := tail[..k], tail[k..];
  }

  /** Scanning succeeds only on inputs that read so. */
  lemma ScanReads(input: string) returns (blanks: string, sign: string, digits: string, rest: string)
    requires ScanInt(input).Some?
    ensures Reads(input, blanks, sign, digits, rest)
  {
    blanks := BlanksBefore(input);
    var tail;
    sign, tail := SignBefore(SkipBlanks(input));
    digits, rest := DigitsBefore(tail);
    assert sign != "" ==> SkipBlanks(input)[1..] == tail;
    assert sign == "" ==> SkipBlanks(input) == tail;
  }

  /** One %d reads a number exactly when the input is blanks, perhaps a sign, digits and a rest, and the
      number fits an int; that is the number it gives, and the rest is left. */
  lemma ScanIff(input: string, n: Int64, rest: string)
    ensures ScanInt(input) == Some((n, rest)) <==>
      exists blanks, sign, digits | Reads(input, blanks, sign, digits, rest) :: n == Signed(sign == "-", StringToNat(digits))
  {
    if ScanInt(input) == Some((n, rest)) {
      var blanks, sign, digits, left := ScanReads(input);
      ReadsScan(input, blanks, sign, digits, left);
    }
    if blanks, sign, digits :| Reads(input, blanks, sign, digits, rest) && n == Signed(sign == "-", StringToNat(digits)) {
      ReadsScan(input, blanks, sign, digits, rest);
    }
  }

  lemma ScanPrintedDigits(negative: bool, magnitude: nat, rest: string)
    requires rest == "" || !IsDigit(rest[0])
    requires MIN_INT <= Signed(negative, magnitude) <= MAX_INT
    ensures ScanDigits(negative, NatToString(magnitude) + rest) == Some((Signed(negative, magnitude), rest))
  {
    var digits := NatToString(magnitude);
    NatRoundTrip(magnitude);
    DigitRunOf(digits, rest);
    assert (digits + rest)[..|digits|] == digits && (digits + rest)[|digits|..] == rest;
  }

  lemma ScanPrintedNat(magnitude: nat, rest: string)
    requires magnitude <= MAX_INT && (rest == "" || !IsDigit(rest[0]))
    ensures ScanInt(NatToString(magnitude) + rest) == Some((magnitude, rest))
  {
    var digits := NatToString(magnitude);
    var input := digits + rest;
    NatRoundTrip(magnitude);
    ScanPrintedDigits(false, magnitude, rest);
    assert IsDigit(digits[0]) && input[0] == digits[0];
    assert SkipBlanks(input) == input;
  }

  lemma SignFirst(digits: string, rest: string)
    ensures "-" + digits + rest == "-" + (digits + rest)
  {
  }

  lemma ScanSigned(tail: string)
    ensures ScanInt("-" + tail) == ScanDigits(true, tail)
  {
    var input := "-" + tail;
    assert SkipBlanks(input) == input;
    assert input[1..] == tail;
  }

  /** Scanning what was printed gives the number back, whatever non-digit follows. */
  lemma ScanPrinted(n: Int64, rest: string)
    requires rest == "" || !IsDigit(rest[0])
    ensures ScanInt(IntToString(n) + rest) == Some((n, rest))
  {
    var value: int := n;
    if value < 0 {
      var digits := NatToString(-value);
      assert ScanInt("-" + (digits + rest)) == Some((n, rest)) by {
        ScanSigned(digits + rest);
        ScanPrintedDigits(true, -value, rest);
      }
      SignFirst(digits, rest);
    } else {
      ScanPrintedNat(value, rest);
    }
  }
}
