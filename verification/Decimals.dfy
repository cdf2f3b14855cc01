/** Decimal numbers as text: what `printFloat` prints and what `read_float` reads. */
module Decimals {
  import opened NutsBolts

  const MAX_INT_DIGITS := 8

  predicate IsDigit(c: char) {
    '0' <= c <= '9'
  }

  function DigitOf(c: char): nat
    requires IsDigit(c)
  {
    c as int - '0' as int
  }

  function CharOf(k: nat): (c: char)
    requires k < 10
    ensures IsDigit(c) && DigitOf(c) == k
  {
    ('0' as int + k) as char
  }

  predicate AllDigits(s: string) {
    forall i :: 0 <= i < |s| ==> IsDigit(s[i])
  }

  /** The number a row of digits stands for. */
  function ValueOf(s: string): nat
    requires AllDigits(s)
  {
    if s == [] then 0 else 10 * ValueOf(s[..|s| - 1]) + DigitOf(s[|s| - 1])
  }

  function Pow10(k: nat): (p: nat)
    ensures p > 0
  {
    if k == 0 then 1 else 10 * Pow10(k - 1)
  }

  /** The last `w` digits of a number. */
  function DigitsOf(a: nat, w: nat): (s: string)
    ensures |s| == w && AllDigits(s)
  {
    if w == 0 then [] else DigitsOf(a / 10, w - 1) + [CharOf(a % 10)]
  }

  /** How many digits a number has; none for zero. */
  function Width(a: nat): nat {
    if a == 0 then 0 else 1 + Width(a / 10)
  }

  lemma {:induction false} ValueOfDigits(a: nat, w: nat)
    requires a < Pow10(w)
    ensures ValueOf(DigitsOf(a, w)) == a
  {
    hide AllDigits;
    if w > 0 {
      assert Pow10(w) == 10 * Pow10(w - 1);
      ValueOfDigits(a / 10, w - 1);
      DigitAppended(DigitsOf(a / 10, w - 1), a % 10);
    }
  }

  lemma DigitAppended(s: string, d: nat)
    requires AllDigits(s) && d < 10
    ensures AllDigits(s + [CharOf(d)]) && ValueOf(s + [CharOf(d)]) == 10 * ValueOf(s) + d
  {
    assert (s + [CharOf(d)])[..|s|] == s;
  }

  lemma {:induction false} WidthBounds(a: nat)
    ensures a < Pow10(Width(a))
    ensures a > 0 ==> Pow10(Width(a) - 1) <= a
  {
    if a > 0 {
      WidthBounds(a / 10);
    }
  }

  lemma {:induction false} Pow10Monotonic(i: nat, j: nat)
    requires i <= j
    ensures Pow10(i) <= Pow10(j)
    decreases j
  {
    if i < j {
      Pow10Monotonic(i, j - 1);
    }
  }

  /** A number below 10^k has at most k digits. */
  lemma {:induction false} WidthAtMost(a: nat, k: nat)
    ensures a < Pow10(k) <==> Width(a) <= k
    decreases k
  {
    if k == 0 {
    } else if a > 0 {
      WidthAtMost(a / 10, k - 1);
    }
  }

  lemma {:induction false} Pow10Sum(i: nat, j: nat)
    ensures Pow10(i + j) == Pow10(i) * Pow10(j)
  {
    if i == 0 {
      assert Pow10(0) * Pow10(j) == Pow10(j);
    } else {
      Pow10Sum(i - 1, j);
      TenfoldProduct(Pow10(i - 1), Pow10(j));
      assert Pow10(i + j) == 10 * Pow10(i - 1 + j) && Pow10(i) == 10 * Pow10(i - 1);
    }
  }

  lemma TenfoldProduct(x: nat, y: nat)
    ensures 10 * (x * y) == (10 * x) * y
  {
  }

  // ---------------------------------------------------------------------------
  // What is printed
  // ---------------------------------------------------------------------------

  /** A number without its sign, in units of the last decimal place. */
  function Units(n: real, decimals: nat): nat
    requires n >= 0.0
  {
    UnitsNonnegative(n, decimals);
    (n * Pow10(decimals) as real + 0.5).Floor
  }

  lemma UnitsNonnegative(n: real, decimals: nat)
    requires n >= 0.0
    ensures n * Pow10(decimals) as real >= 0.0
  {
  }

  function DigitCount(a: nat, decimals: nat): nat {
    if Width(a) > decimals then Width(a) else decimals + 1
  }

  /** Digits, with the point where it belongs and at least one digit before it. */
  function Text(a: nat, decimals: nat): string {
    var w := DigitCount(a, decimals);
    var s := DigitsOf(a, w);
    if decimals == 0 then s else s[..w - decimals] + "." + s[w - decimals..]
  }

  function Printed(n: real, decimals: nat): string {
    if n < 0.0 then "-" + Text(Units(-n, decimals), decimals) else Text(Units(n, decimals), decimals)
  }

  /** The number that is printed: rounded to the decimal places there are, halves away from zero. */
  function Rounded(n: real, decimals: nat): real {
    if n < 0.0 then -(Units(-n, decimals) as real / Pow10(decimals) as real)
    else Units(n, decimals) as real / Pow10(decimals) as real
  }

  lemma UnitsExact(n: real, decimals: nat, k: nat)
    requires n >= 0.0 && n * Pow10(decimals) as real == k as real
    ensures Units(n, decimals) == k
  {
  }

  lemma DividedBack(n: real, p: real, k: real)
    requires p > 0.0 && n * p == k
    ensures k / p == n
  {
  }

  /** A number that has no more decimal places than are printed is printed exactly. */
  lemma RoundedExact(n: real, decimals: nat, k: int)
    requires n * Pow10(decimals) as real == k as real
    ensures Rounded(n, decimals) == n
  {
    var p := Pow10(decimals) as real;
    ProductSign(n, p);
    hide Pow10;
    if n < 0.0 {
      assert (-n) * p == -(n * p);
      UnitsExact(-n, decimals, -k);
      DividedBack(-n, p, (-k) as real);
    } else {
      UnitsExact(n, decimals, k);
      DividedBack(n, p, k as real);
    }
    hide Units;
  }

  lemma ProductSign(n: real, p: real)
    requires p > 0.0
    ensures n >= 0.0 ==> n * p >= 0.0
    ensures n < 0.0 ==> n * p < 0.0
  {
  }

  // ---------------------------------------------------------------------------
  // What is read
  // ---------------------------------------------------------------------------

  /** The variables of `read_float` while it goes through the digits. */
  datatype Scan = Scan(intval: nat, exp: int, ndigit: nat, isdecimal: bool, position: nat)

  /** C strings end in a zero character. */
  function CharAt(line: string, i: nat): char {
    if i < |line| then line[i] else '\0'
  }

  predicate Continues(c: char, isdecimal: bool) {
    IsDigit(c) || (c == '.' && !isdecimal)
  }

  function ScanChar(s: Scan, c: char): Scan
    requires Continues(c, s.isdecimal)
  {
    if IsDigit(c) then
      if s.ndigit + 1 <= MAX_INT_DIGITS then
        Scan(10 * s.intval + DigitOf(c), if s.isdecimal then s.exp - 1 else s.exp, s.ndigit + 1, s.isdecimal,
             s.position + 1)
      else
        Scan(s.intval, if s.isdecimal then s.exp else s.exp + 1, s.ndigit + 1, s.isdecimal, s.position + 1)
    else s.(isdecimal := true, position := s.position + 1)
  }

  function ScanNumber(line: string, s: Scan): Scan
    decreases if s.position < |line| then |line| - s.position else 0
  {
    var c := CharAt(line, s.position);
    if Continues(c, s.isdecimal) then ScanNumber(line, ScanChar(s, c)) else s
  }

  /** Intval times ten to the power of exp. */
  function Scaled(intval: nat, exp: int): real {
    if exp <= 0 then intval as real / Pow10(-exp) as real else intval as real * Pow10(exp) as real
  }

  datatype Number = NoNumber | Number(value: real, next: nat)

  /** `read_float`: the number at a position of a line, and where it ends. */
  function ReadNumber(line: string, position: nat): Number {
    var sign := CharAt(line, position);
    var s := ScanNumber(line, Scan(0, 0, 0, false, if sign == '-' || sign == '+' then position + 1 else position));
    if s.ndigit == 0 then NoNumber
    else Number(if sign == '-' then -Scaled(s.intval, s.exp) else Scaled(s.intval, s.exp), s.position)
  }

  // ---------------------------------------------------------------------------
  // What is read in variables of 8 and 32 bits
  // ---------------------------------------------------------------------------

  const LINE_BUFFER_SIZE := 256

  /** As an `int8_t`. */
  function Narrow(n: int): int {
    (n + 128) % 256 - 128
  }

  function NarrowChar(s: Scan, c: char): Scan
    requires Continues(c, s.isdecimal)
  {
    if IsDigit(c) then
      var n := (s.ndigit + 1) % 256;
      if n <= MAX_INT_DIGITS then
        Scan((10 * s.intval + DigitOf(c)) % 0x1_0000_0000, if s.isdecimal then Narrow(s.exp - 1) else s.exp, n,
             s.isdecimal, s.position + 1)
      else
        Scan(s.intval, if s.isdecimal then s.exp else Narrow(s.exp + 1), n, s.isdecimal, s.position + 1)
    else s.(isdecimal := true, position := s.position + 1)
  }

  function NarrowScan(line: string, s: Scan): Scan
    decreases if s.position < |line| then |line| - s.position else 0
  {
    var c := CharAt(line, s.position);
    if Continues(c, s.isdecimal) then NarrowScan(line, NarrowChar(s, c)) else s
  }

  /** `read_float` as it is. */
  function ReadNarrow(line: string, position: nat): Number {
    var sign := CharAt(line, position);
    var s := NarrowScan(line, Scan(0, 0, 0, false, if sign == '-' || sign == '+' then position + 1 else position));
    if s.ndigit == 0 then NoNumber
    else Number(if sign == '-' then -Scaled(s.intval, s.exp) else Scaled(s.intval, s.exp), s.position)
  }

  /** The variables have counted the digits so far, and kept the first eight. */
  ghost predicate Counted(line: string, s: Scan) {
    && (s.ndigit > 0 ==> s.ndigit <= s.position <= |line|)
    && s.intval < Pow10(if s.ndigit < MAX_INT_DIGITS then s.ndigit else MAX_INT_DIGITS)
    && -MAX_INT_DIGITS <= s.exp <= s.ndigit && -(s.ndigit as int) <= s.exp
  }

  lemma CountedOn(line: string, s: Scan, c: char)
    requires Counted(line, s) && Continues(c, s.isdecimal) && s.position < |line| < LINE_BUFFER_SIZE
    ensures Counted(line, ScanChar(s, c))
    ensures NarrowChar(s.(exp := Narrow(s.exp)), c) == ScanChar(s, c).(exp := Narrow(ScanChar(s, c).exp))
  {
    hide Pow10, Narrow;
    NarrowNext(s.exp);
    if s.ndigit < MAX_INT_DIGITS && IsDigit(c) {
      DigitFits(s.intval, s.ndigit, DigitOf(c));
    }
  }

  lemma NarrowNext(n: int)
    ensures Narrow(Narrow(n) + 1) == Narrow(n + 1) && Narrow(Narrow(n) - 1) == Narrow(n - 1)
  {
  }

  lemma DigitFits(intval: nat, ndigit: nat, d: nat)
    requires ndigit < MAX_INT_DIGITS && intval < Pow10(ndigit) && d < 10
    ensures 10 * intval + d < Pow10(ndigit + 1) && 10 * intval + d < 0x1_0000_0000
  {
    EightDigits();
    assert Pow10(ndigit + 1) == 10 * Pow10(ndigit);
    Pow10Monotonic(ndigit + 1, MAX_INT_DIGITS);
    hide Pow10;
  }

  lemma EightDigits()
    ensures Pow10(MAX_INT_DIGITS) == 100000000
  {
    assert Pow10(2) == 100 && Pow10(4) == 10000 && Pow10(6) == 1000000;
  }

  /** In a line that fits the buffer only the exponent can wrap. */
  lemma {:induction false} NarrowExponent(line: string, s: Scan)
    requires |line| < LINE_BUFFER_SIZE && Counted(line, s)
    ensures NarrowScan(line, s.(exp := Narrow(s.exp))) ==
            ScanNumber(line, s).(exp := Narrow(ScanNumber(line, s).exp))
    ensures Counted(line, ScanNumber(line, s))
    decreases if s.position < |line| then |line| - s.position else 0
  {
    hide Counted, Narrow, NarrowChar, ScanChar, Pow10;
    var c := CharAt(line, s.position);
    if Continues(c, s.isdecimal) {
      NotAtEnd(line, s);
      CountedOn(line, s, c);
      NarrowExponent(line, ScanChar(s, c));
    }
  }

  lemma NotAtEnd(line: string, s: Scan)
    requires Continues(CharAt(line, s.position), s.isdecimal)
    ensures s.position < |line| && ScanChar(s, CharAt(line, s.position)).position == s.position + 1
  {
  }

  /** The variables at the end of a number. */
  function Scanned(line: string, position: nat): Scan {
    var sign := CharAt(line, position);
    ScanNumber(line, Scan(0, 0, 0, false, if sign == '-' || sign == '+' then position + 1 else position))
  }

  /** A NUMBER IS READ EXACTLY, from a line that fits the buffer, unless it is not zero and more
      than 127 of its digits are dropped before the decimal point. */
  lemma ReadExactlyIff(line: string, position: nat)
    requires |line| < LINE_BUFFER_SIZE
    ensures ReadNarrow(line, position) == ReadNumber(line, position) <==>
            var s := Scanned(line, position); s.intval == 0 || s.exp <= 127
  {
    hide ScanNumber, NarrowScan, Pow10;
    var sign := CharAt(line, position);
    var s0 := Scan(0, 0, 0, false, if sign == '-' || sign == '+' then position + 1 else position);
    NothingCounted(line, s0);
    NarrowExponent(line, s0);
    assert s0.(exp := Narrow(s0.exp)) == s0;
    var s := ScanNumber(line, s0);
    NarrowRange(line, s);
    ScaledNothing(s.intval, s.exp);
    ScaledNothing(s.intval, Narrow(s.exp));
    if s.exp > 127 && s.intval > 0 {
      ScaledFar(s.intval, s.exp);
      hide Scaled;
      assert s.ndigit > 0;
    }
  }

  /** A row of ones. */
  function Ones(n: nat): string {
    seq(n, i => '1')
  }

  /** The variables after `k` ones. */
  function AfterOnes(k: nat): Scan {
    Scan(if k < MAX_INT_DIGITS then ValueOf(Ones(k)) else ValueOf(Ones(MAX_INT_DIGITS)),
         if k < MAX_INT_DIGITS then 0 else k - MAX_INT_DIGITS, k, false, k)
  }

  lemma OneMore(k: nat)
    ensures ScanChar(AfterOnes(k), '1') == AfterOnes(k + 1)
  {
    assert Ones(k + 1)[..k] == Ones(k);
    hide Ones;
  }

  lemma {:induction false} OnesScanned(n: nat, k: nat)
    requires k <= n
    ensures ScanNumber(Ones(n), AfterOnes(k)) == AfterOnes(n)
    decreases n - k
  {
    hide AfterOnes, ScanChar;
    AfterOnesAt(k);
    if k < n {
      OneMore(k);
      OnesScanned(n, k + 1);
    }
  }

  lemma AfterOnesAt(k: nat)
    ensures AfterOnes(k).position == k && !AfterOnes(k).isdecimal
  {
  }

  /** Such a number: a row of more than 135 ones. */
  lemma OnesMisread(n: nat)
    requires 135 < n < LINE_BUFFER_SIZE
    ensures ReadNarrow(Ones(n), 0) != ReadNumber(Ones(n), 0)
  {
    OnesScanned(n, 0);
    assert AfterOnes(0) == Scan(0, 0, 0, false, 0);
    LastDigit(Ones(MAX_INT_DIGITS));
    ReadExactlyIff(Ones(n), 0);
    hide ScanNumber, ReadNarrow, ReadNumber;
    assert Scanned(Ones(n), 0) == AfterOnes(n);
  }

  lemma NothingCounted(line: string, s: Scan)
    requires s == Scan(0, 0, 0, false, s.position)
    ensures Counted(line, s)
  {
  }

  lemma NarrowRange(line: string, s: Scan)
    requires Counted(line, s) && |line| < LINE_BUFFER_SIZE
    ensures Narrow(s.exp) == (if s.exp <= 127 then s.exp else s.exp - 256) && s.exp <= s.ndigit < LINE_BUFFER_SIZE
  {
  }

  lemma ScaledNothing(intval: nat, exp: int)
    ensures intval == 0 ==> Scaled(intval, exp) == 0.0
    ensures intval > 0 ==> Scaled(intval, exp) > 0.0
  {
    hide Pow10;
  }

  lemma ScaledFar(intval: nat, exp: int)
    requires intval > 0 && 127 < exp < 256
    ensures Scaled(intval, exp - 256) < Scaled(intval, exp)
  {
    var x, p, q := intval as real, Pow10(exp) as real, Pow10(256 - exp) as real;
    Pow10Monotonic(1, exp);
    assert Pow10(1) == 10;
    Quotients(x, p, q);
    assert Scaled(intval, exp) == x * p && Scaled(intval, exp - 256) == x / q;
  }

  lemma Quotients(x: real, p: real, q: real)
    requires x > 0.0 && p >= 10.0 && q >= 1.0
    ensures x / q < x * p
  {
    var y := x / q;
    assert y * q == x;
    ProductSign(y, q);
    NonnegativeProduct(y, q - 1.0);
    NonnegativeProduct(x, p - 10.0);
    assert y * (q - 1.0) == x - y && x * (p - 10.0) == x * p - 10.0 * x;
  }

  // ---------------------------------------------------------------------------
  // The round trip
  // ---------------------------------------------------------------------------

  /** The text `s` stands at position `i` of the line. */
  ghost predicate Stands(line: string, i: nat, s: string) {
    i + |s| <= |line| && line[i..i + |s|] == s
  }

  /** The variables after a row of digits. */
  function AfterDigits(s: Scan, t: string): Scan
    requires AllDigits(t)
  {
    Scan(s.intval * Pow10(|t|) + ValueOf(t), if s.isdecimal then s.exp - |t| else s.exp,
         s.ndigit + |t|, s.isdecimal, s.position + |t|)
  }

  /** A row of at most eight digits in all is read as the number it stands for. */
  lemma {:induction false} ScanDigits(line: string, s: Scan, t: string)
    requires Stands(line, s.position, t) && AllDigits(t) && s.ndigit + |t| <= MAX_INT_DIGITS
    ensures ScanNumber(line, s) == ScanNumber(line, AfterDigits(s, t))
    decreases |t|
  {
    if t == [] {
      assert AfterDigits(s, []) == s;
    } else {
      hide ScanNumber, Stands;
      var n := |t| - 1;
      StandsPart(line, s.position, t, n);
      ScanDigits(line, s, t[..n]);
      ScanOne(line, AfterDigits(s, t[..n]));
      OneDigitMore(s, t);
    }
  }

  lemma OneDigitMore(s: Scan, t: string)
    requires t != [] && AllDigits(t) && s.ndigit + |t| <= MAX_INT_DIGITS
    ensures var n := |t| - 1;
            && AfterDigits(s, t[..n]).position == s.position + n
            && ScanChar(AfterDigits(s, t[..n]), t[n]) == AfterDigits(s, t)
  {
    var n := |t| - 1;
    assert s.intval * Pow10(|t|) == 10 * (s.intval * Pow10(n));
  }

  lemma ScanOne(line: string, s: Scan)
    requires IsDigit(CharAt(line, s.position))
    ensures ScanNumber(line, s) == ScanNumber(line, ScanChar(s, CharAt(line, s.position)))
  {
  }

  lemma StandsPart(line: string, i: nat, t: string, n: nat)
    requires Stands(line, i, t) && n <= |t|
    ensures Stands(line, i, t[..n]) && Stands(line, i + n, t[n..])
    ensures n < |t| ==> CharAt(line, i + n) == t[n]
  {
    assert line[i..i + n] == line[i..i + |t|][..n];
    assert line[i + n..i + |t|] == line[i..i + |t|][n..];
    if n < |t| {
      assert line[i..i + |t|][n] == line[i + n];
    }
  }

  lemma {:induction false} ValueConcat(s: string, t: string)
    requires AllDigits(s) && AllDigits(t)
    ensures AllDigits(s + t) && ValueOf(s + t) == ValueOf(s) * Pow10(|t|) + ValueOf(t)
    decreases |t|
  {
    if t == [] {
      assert s + t == s;
    } else {
      var n := |t| - 1;
      assert (s + t)[..|s + t| - 1] == s + t[..n] && (s + t)[|s + t| - 1] == t[n];
      ValueConcat(s, t[..n]);
      LastDigit(s + t);
      LastDigit(t);
      hide Pow10, ValueOf;
      TenTimes(ValueOf(s), n);
    }
  }

  lemma LastDigit(t: string)
    requires t != [] && AllDigits(t[..|t| - 1]) && IsDigit(t[|t| - 1])
    ensures AllDigits(t) && ValueOf(t) == 10 * ValueOf(t[..|t| - 1]) + DigitOf(t[|t| - 1])
  {
    hide IsDigit, DigitOf;
  }

  lemma TenTimes(a: nat, n: nat)
    ensures a * Pow10(n + 1) == 10 * (a * Pow10(n))
  {
  }

  /** The digits that are printed are all of the number's digits, and no more than eight. */
  lemma PrintedDigits(a: nat, decimals: nat)
    requires decimals < MAX_INT_DIGITS && a < Pow10(MAX_INT_DIGITS)
    ensures var w := DigitCount(a, decimals);
            decimals < w <= MAX_INT_DIGITS && ValueOf(DigitsOf(a, w)) == a
  {
    hide Pow10, Width;
    WidthAtMost(a, MAX_INT_DIGITS);
    WidthBounds(a);
    Pow10Monotonic(Width(a), DigitCount(a, decimals));
    ValueOfDigits(a, DigitCount(a, decimals));
  }

  lemma ScanPoint(line: string, s: Scan)
    requires CharAt(line, s.position) == '.' && !s.isdecimal
    ensures ScanNumber(line, s) == ScanNumber(line, s.(isdecimal := true, position := s.position + 1))
  {
  }

  lemma ScanStops(line: string, s: Scan)
    requires !Continues(CharAt(line, s.position), s.isdecimal)
    ensures ScanNumber(line, s) == s
  {
  }

  /** What stands behind a number must not look like part of it. */
  predicate Ends(c: char, decimals: nat) {
    !IsDigit(c) && (decimals == 0 ==> c != '.')
  }

  lemma ScanText(line: string, i: nat, a: nat, decimals: nat)
    requires decimals < MAX_INT_DIGITS && a < Pow10(MAX_INT_DIGITS)
    requires Stands(line, i, Text(a, decimals)) && Ends(CharAt(line, i + |Text(a, decimals)|), decimals)
    ensures ScanNumber(line, Scan(0, 0, 0, false, i)) ==
            Scan(a, -(decimals as int), DigitCount(a, decimals), decimals > 0, i + |Text(a, decimals)|)
  {
    hide ScanNumber, Pow10, ValueOf, Width, DigitsOf, Stands;
    PrintedDigits(a, decimals);
    var w := DigitCount(a, decimals);
    var s, s0 := DigitsOf(a, w), Scan(0, 0, 0, false, i);
    if decimals == 0 {
      ScanDigits(line, s0, s);
      ScanStops(line, AfterDigits(s0, s));
    } else {
      ScanParts(line, s0, s[..w - decimals], s[w - decimals..]);
      assert s[..w - decimals] + s[w - decimals..] == s;
    }
  }

  lemma AfterWhole(s: Scan, whole: string)
    requires s == Scan(0, 0, 0, false, s.position) && AllDigits(whole)
    ensures AfterDigits(s, whole) == Scan(ValueOf(whole), 0, |whole|, false, s.position + |whole|)
  {
    hide Pow10, ValueOf, AllDigits;
    assert 0 * Pow10(|whole|) == 0;
  }

  lemma AfterPart(s: Scan, whole: string, part: string)
    requires AllDigits(whole) && AllDigits(part) && s == Scan(ValueOf(whole), 0, |whole|, true, s.position)
    ensures AllDigits(whole + part)
    ensures AfterDigits(s, part) ==
            Scan(ValueOf(whole + part), -(|part| as int), |whole| + |part|, true, s.position + |part|)
  {
    hide Pow10, ValueOf, AllDigits;
    ValueConcat(whole, part);
  }

  /** Digits, a point and digits again. */
  lemma ScanParts(line: string, s: Scan, whole: string, part: string)
    requires s == Scan(0, 0, 0, false, s.position) && AllDigits(whole) && AllDigits(part)
             && |whole| + |part| <= MAX_INT_DIGITS
    requires Stands(line, s.position, whole + "." + part)
    requires !IsDigit(CharAt(line, s.position + |whole| + 1 + |part|))
    ensures AllDigits(whole + part)
    ensures ScanNumber(line, s) ==
            Scan(ValueOf(whole + part), -(|part| as int), |whole| + |part|, true, s.position + |whole| + 1 + |part|)
  {
    hide ScanNumber, ValueOf, Stands, AfterDigits, AllDigits;
    ScanToPoint(line, s, whole, part);
    ScanFromPoint(line, Scan(ValueOf(whole), 0, |whole|, true, s.position + |whole| + 1), whole, part);
  }

  lemma ScanToPoint(line: string, s: Scan, whole: string, part: string)
    requires s == Scan(0, 0, 0, false, s.position) && AllDigits(whole) && |whole| <= MAX_INT_DIGITS
    requires Stands(line, s.position, whole + "." + part)
    ensures var m := Scan(ValueOf(whole), 0, |whole|, true, s.position + |whole| + 1);
            Stands(line, m.position, part) && ScanNumber(line, s) == ScanNumber(line, m)
  {
    hide ScanNumber, ValueOf, Stands, AfterDigits, AllDigits;
    var t, k := whole + "." + part, |whole|;
    assert t[..k] == whole && t[k] == '.' && t[k + 1..] == part;
    StandsPart(line, s.position, t, k);
    StandsPart(line, s.position, t, k + 1);
    AfterWhole(s, whole);
    ScanDigits(line, s, whole);
    ScanPoint(line, Scan(ValueOf(whole), 0, k, false, s.position + k));
  }

  lemma ScanFromPoint(line: string, m: Scan, whole: string, part: string)
    requires AllDigits(whole) && AllDigits(part) && |whole| + |part| <= MAX_INT_DIGITS
    requires m == Scan(ValueOf(whole), 0, |whole|, true, m.position) && Stands(line, m.position, part)
    requires !IsDigit(CharAt(line, m.position + |part|))
    ensures AllDigits(whole + part)
    ensures ScanNumber(line, m) ==
            Scan(ValueOf(whole + part), -(|part| as int), |whole| + |part|, true, m.position + |part|)
  {
    hide ScanNumber, ValueOf, Stands, AfterDigits, AllDigits;
    AfterPart(m, whole, part);
    ScanDigits(line, m, part);
    ScanStops(line, AfterDigits(m, part));
  }

  lemma ReadUnsigned(line: string, i: nat, a: nat, decimals: nat)
    requires decimals < MAX_INT_DIGITS && a < Pow10(MAX_INT_DIGITS)
    requires Stands(line, i, Text(a, decimals)) && Ends(CharAt(line, i + |Text(a, decimals)|), decimals)
    ensures ReadNumber(line, i) == Number(a as real / Pow10(decimals) as real, i + |Text(a, decimals)|)
    ensures Scanned(line, i).exp == -(decimals as int)
  {
    hide ScanNumber, Pow10, Stands, Text, DigitCount, Ends;
    PrintedDigits(a, decimals);
    TextStarts(a, decimals);
    StandsPart(line, i, Text(a, decimals), 0);
    ScanText(line, i, a, decimals);
  }

  lemma ReadNegative(line: string, i: nat, a: nat, decimals: nat)
    requires decimals < MAX_INT_DIGITS && a < Pow10(MAX_INT_DIGITS) && CharAt(line, i) == '-'
    requires Stands(line, i + 1, Text(a, decimals)) && Ends(CharAt(line, i + 1 + |Text(a, decimals)|), decimals)
    ensures ReadNumber(line, i) == Number(-(a as real / Pow10(decimals) as real), i + 1 + |Text(a, decimals)|)
    ensures Scanned(line, i).exp == -(decimals as int)
  {
    hide ScanNumber, Pow10, Stands, Text, DigitCount, Ends;
    PrintedDigits(a, decimals);
    ScanText(line, i + 1, a, decimals);
  }

  /** THE ROUND TRIP: a number printed with up to seven decimal places, in no more than eight
      digits, is read back as the same number rounded to those places, and reading stops at
      the first character behind it. */
  lemma RoundTrip(line: string, i: nat, n: real, decimals: nat)
    requires decimals < MAX_INT_DIGITS && Units(if n < 0.0 then -n else n, decimals) < Pow10(MAX_INT_DIGITS)
    requires Stands(line, i, Printed(n, decimals)) && Ends(CharAt(line, i + |Printed(n, decimals)|), decimals)
    ensures ReadNumber(line, i) == Number(Rounded(n, decimals), i + |Printed(n, decimals)|)
    ensures |line| < LINE_BUFFER_SIZE ==> ReadNarrow(line, i) == ReadNumber(line, i)
  {
    hide ReadNumber, ReadNarrow, Scanned, Pow10, Units, Stands, Text, Ends;
    if |line| < LINE_BUFFER_SIZE {
      ReadExactlyIff(line, i);
    }
    var a := Units(if n < 0.0 then -n else n, decimals);
    if n < 0.0 {
      var t := "-" + Text(a, decimals);
      StandsPart(line, i, t, 0);
      StandsPart(line, i, t, 1);
      assert t[1..] == Text(a, decimals);
      ReadNegative(line, i, a, decimals);
    } else {
      ReadUnsigned(line, i, a, decimals);
    }
  }

  lemma TextStarts(a: nat, decimals: nat)
    requires decimals < DigitCount(a, decimals)
    ensures Text(a, decimals) != [] && IsDigit(Text(a, decimals)[0])
  {
    hide Width, DigitsOf;
  }
}
