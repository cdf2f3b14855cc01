/** The loops that print and read numbers (print.c, nuts_bolts.c). */
module NumberText {
  import opened NutsBolts
  import opened Decimals

  /** The last `i` digits of a number, last digit first. */
  function Backwards(a: nat, i: nat): (s: string)
    ensures |s| == i
  {
    if i == 0 then [] else [CharOf(a % 10)] + Backwards(a / 10, i - 1)
  }

  /** The number `a` with its last `i` digits cut off. */
  function Shifted(a: nat, i: nat): nat {
    if i == 0 then a else Shifted(a / 10, i - 1)
  }

  lemma {:induction false} BackwardsOneMore(a: nat, i: nat)
    ensures Backwards(a, i + 1) == Backwards(a, i) + [CharOf(Shifted(a, i) % 10)]
    ensures Shifted(a, i + 1) == Shifted(a, i) / 10
  {
    if i > 0 {
      BackwardsOneMore(a / 10, i - 1);
    }
  }

  lemma {:induction false} ShiftedZero(a: nat, i: nat)
    ensures Shifted(a, i) == 0 <==> Width(a) <= i
  {
    if i > 0 && a > 0 {
      ShiftedZero(a / 10, i - 1);
    } else if i > 0 {
      ZeroShifted(i);
    }
  }

  lemma {:induction false} ZeroShifted(i: nat)
    ensures Shifted(0, i) == 0
  {
    if i > 0 {
      ZeroShifted(i - 1);
    }
  }

  lemma {:induction false} BackwardsDigits(a: nat, i: nat, k: nat)
    requires k < i
    ensures Backwards(a, i)[k] == DigitsOf(a, i)[i - 1 - k]
  {
    if k > 0 {
      BackwardsDigits(a / 10, i - 1, k - 1);
    }
  }

  /** The digits of a number, generated backwards into a buffer. */
  method GenerateDigits(buf: array<char>, a0: nat) returns (i: nat)
    requires Width(a0) <= buf.Length
    modifies buf
    ensures i == Width(a0) && buf[..i] == Backwards(a0, i)
  {
    hide Width, Backwards, Shifted;
    var a := a0;
    i := 0;
    StartBackwards(a0);
    while a > 0
      invariant a == Shifted(a0, i) && i <= Width(a0) <= buf.Length && buf[..i] == Backwards(a0, i)
      decreases a
    {
      ShiftedZero(a0, i);
      BackwardsOneMore(a0, i);
      buf[i] := CharOf(a % 10);
      assert buf[..i + 1] == buf[..i] + [CharOf(a % 10)];
      i := i + 1;
      a := a / 10;
    }
    ShiftedZero(a0, i);
  }

  lemma StartBackwards(a: nat)
    ensures Shifted(a, 0) == a && Backwards(a, 0) == []
  {
  }

  // ---------------------------------------------------------------------------
  // printFloat
  // ---------------------------------------------------------------------------

  /** The number times a power of ten, two decimal places at a time. */
  method ScaleUp(n0: real, decimalPlaces: nat) returns (n: real)
    ensures n == Times(n0, Pow10(decimalPlaces) as real)
  {
    hide Pow10;
    n := n0;
    var decimals: nat := decimalPlaces;
    OneTimes(n0);
    while decimals >= 2
      invariant decimals <= decimalPlaces && n == Times(n0, Pow10(decimalPlaces - decimals) as real)
    {
      Hundredfold(n0, decimalPlaces - decimals);
      n := n * 100.0;
      decimals := decimals - 2;
    }
    if decimals != 0 {
      Tenfold(n0, decimalPlaces - decimals);
      n := n * 10.0;
    }
  }

  lemma OneTimes(n: real)
    ensures Times(n, Pow10(0) as real) == n
  {
  }

  lemma Tenfold(n: real, k: nat)
    ensures Times(n, Pow10(k) as real) * 10.0 == Times(n, Pow10(k + 1) as real)
  {
    assert Pow10(k + 1) as real == 10.0 * Pow10(k) as real;
  }

  lemma Hundredfold(n: real, k: nat)
    ensures Times(n, Pow10(k) as real) * 100.0 == Times(n, Pow10(k + 2) as real)
  {
    Tenfold(n, k);
    Tenfold(n, k + 1);
    hide Times;
  }

  /** The buffer is filled up with zeros to at least one digit before the point. */
  method FillDigits(buf: array<char>, a: nat, i0: nat, decimalPlaces: nat) returns (i: nat)
    requires i0 == Width(a) && i0 < buf.Length && decimalPlaces < buf.Length && buf[..i0] == Backwards(a, i0)
    modifies buf
    ensures i == DigitCount(a, decimalPlaces) <= buf.Length && buf[..i] == Backwards(a, i)
  {
    hide Width, Backwards, Shifted;
    i := i0;
    while i < decimalPlaces
      invariant i0 <= i && (i <= decimalPlaces || i == i0) && i < buf.Length && buf[..i] == Backwards(a, i)
    {
      ShiftedZero(a, i);
      BackwardsOneMore(a, i);
      buf[i] := '0';
      assert buf[..i + 1] == buf[..i] + ['0'];
      i := i + 1;
    }
    if i == decimalPlaces {
      ShiftedZero(a, i);
      BackwardsOneMore(a, i);
      buf[i] := '0';
      assert buf[..i + 1] == buf[..i] + ['0'];
      i := i + 1;
    }
  }

  /** The first `k` of the digits `s`, with the point if it belongs before the next. */
  function Begun(s: string, k: nat, decimals: nat): string
    requires k <= |s| && decimals < |s|
  {
    if decimals == 0 || k <= |s| - decimals then s[..k] else s[..|s| - decimals] + "." + s[|s| - decimals..k]
  }

  /** The buffer is printed from its end, with the point where it belongs. */
  method EmitDigits(buf: array<char>, a: nat, i0: nat, decimalPlaces: nat, before: string) returns (out: string)
    requires decimalPlaces < i0 <= buf.Length && buf[..i0] == Backwards(a, i0)
    ensures var s := DigitsOf(a, i0);
            out == before + if decimalPlaces == 0 then s else s[..i0 - decimalPlaces] + "." + s[i0 - decimalPlaces..]
  {
    hide Backwards, DigitsOf;
    ghost var s := DigitsOf(a, i0);
    var i := i0;
    out := before;
    while i > 0
      invariant 0 <= i <= i0 && out == before + Begun(s, i0 - i, decimalPlaces)
    {
      BackwardsDigits(a, i0, i - 1);
      assert buf[i - 1] == buf[..i0][i - 1] == s[i0 - i];
      BegunOneMore(s, i0 - i, decimalPlaces);
      if i == decimalPlaces {
        out := out + ".";
      }
      out := out + [buf[i - 1]];
      i := i - 1;
    }
  }

  lemma BegunOneMore(s: string, k: nat, decimals: nat)
    requires k < |s| && decimals < |s|
    ensures Begun(s, k + 1, decimals) == Begun(s, k, decimals) + (if |s| - k == decimals then "." else "") + [s[k]]
  {
    if decimals != 0 && k > |s| - decimals {
      assert s[|s| - decimals..k + 1] == s[|s| - decimals..k] + [s[k]];
    } else if decimals != 0 && k == |s| - decimals {
      assert s[|s| - decimals..k + 1] == [s[k]];
    } else {
      assert s[..k + 1] == s[..k] + [s[k]];
    }
  }

  /** `printFloat`, within the range of the long integer it computes with. */
  method PrintFloat(n0: real, decimalPlaces: nat) returns (out: string)
    requires decimalPlaces <= 12 && Units(if n0 < 0.0 then -n0 else n0, decimalPlaces) < 0x8000_0000
    ensures out == Printed(n0, decimalPlaces)
  {
    hide Width, Backwards, DigitsOf, Pow10;
    var n := n0;
    out := "";
    if n < 0.0 {
      out := out + "-";
      n := -n;
    }
    ghost var units := Units(n, decimalPlaces);
    n := ScaleUp(n, decimalPlaces);
    n := n + 0.5;
    var buf := new char[13];
    var a := n.Floor;
    assert a == units;
    LongWidth(a);
    var i := GenerateDigits(buf, a);
    i := FillDigits(buf, a, i, decimalPlaces);
    out := EmitDigits(buf, a, i, decimalPlaces, out);
  }

  lemma LongWidth(a: nat)
    requires a < 0x1_0000_0000
    ensures Width(a) <= 10
  {
    assert Pow10(5) == 100000 by {
      assert Pow10(3) == 1000;
    }
    Pow10Sum(5, 5);
    WidthAtMost(a, 10);
  }

  /** `print_uint32_base10`. */
  method PrintUint32(n: nat) returns (out: string)
    requires n < 0x1_0000_0000
    ensures out == Text(n, 0)
  {
    hide Width, Backwards, DigitsOf;
    WidthOfZero(n);
    if n == 0 {
      return "0";
    }
    var buf := new char[10];
    LongWidth(n);
    var i := GenerateDigits(buf, n);
    out := EmitDigits(buf, n, i, 0, "");
  }

  lemma WidthOfZero(n: nat)
    ensures Width(n) == 0 <==> n == 0
    ensures Text(0, 0) == "0"
  {
  }

  /** `print_uint8_base10`. */
  method PrintUint8(n0: nat) returns (out: string)
    requires n0 < 256
    ensures out == Text(n0, 0)
  {
    ThreeDigits(n0);
    var n := n0;
    var digitA, digitB := '\0', '\0';
    if n >= 100 {
      digitA := CharOf(n % 10);
      n := n / 10;
    }
    if n >= 10 {
      digitB := CharOf(n % 10);
      n := n / 10;
    }
    out := [CharOf(n)];
    if digitB != '\0' {
      out := out + [digitB];
    }
    if digitA != '\0' {
      out := out + [digitA];
    }
  }

  lemma ThreeDigits(n: nat)
    requires n < 256
    ensures Text(n, 0) == if n >= 100 then [CharOf(n / 100), CharOf(n / 10 % 10), CharOf(n % 10)]
                          else if n >= 10 then [CharOf(n / 10), CharOf(n % 10)] else [CharOf(n)]
  {
    if n >= 100 {
      OneDigit(n / 100);
      MoreDigits(n / 10, 1);
      MoreDigits(n, 2);
      assert n / 10 / 10 == n / 100;
    } else if n >= 10 {
      OneDigit(n / 10);
      MoreDigits(n, 1);
    } else {
      OneDigit(n);
    }
    hide Width, DigitsOf;
  }

  lemma OneDigit(n: nat)
    requires n < 10
    ensures DigitsOf(n, 1) == [CharOf(n)] && Width(n) == if n == 0 then 0 else 1
  {
    assert DigitsOf(n / 10, 0) == [];
  }

  lemma MoreDigits(n: nat, w: nat)
    requires n > 0
    ensures DigitsOf(n, w + 1) == DigitsOf(n / 10, w) + [CharOf(n % 10)] && Width(n) == 1 + Width(n / 10)
  {
  }

  // ---------------------------------------------------------------------------
  // read_float
  // ---------------------------------------------------------------------------

  /** The digits and the point of a number. */
  method ReadDigits(line: string, position: nat) returns (s: Scan)
    ensures s == NarrowScan(line, Scan(0, 0, 0, false, position))
  {
    var intval: nat, exp: int, ndigit: nat := 0, 0, 0;
    var isdecimal, ptr: nat := false, position;
    var c := CharAt(line, ptr);
    while Continues(c, isdecimal)
      invariant c == CharAt(line, ptr)
      invariant NarrowScan(line, Scan(0, 0, 0, false, position)) ==
                NarrowScan(line, Scan(intval, exp, ndigit, isdecimal, ptr))
      decreases if ptr < |line| then |line| - ptr else 0
    {
      if IsDigit(c) {
        ndigit := (ndigit + 1) % 256;
        if ndigit <= MAX_INT_DIGITS {
          if isdecimal {
            exp := Narrow(exp - 1);
          }
          intval := (10 * intval + DigitOf(c)) % 0x1_0000_0000;
        } else {
          if !isdecimal {
            exp := Narrow(exp + 1);
          }
        }
      } else {
        isdecimal := true;
      }
      ptr := ptr + 1;
      c := CharAt(line, ptr);
    }
    s := Scan(intval, exp, ndigit, isdecimal, ptr);
  }

  /** The decimal point is applied, two places at a time. */
  method ApplyExponent(intval: nat, exp0: int) returns (fval: real)
    ensures fval == Scaled(intval, exp0)
  {
    hide Pow10;
    fval := intval as real;
    var exp := exp0;
    ScaledZero(intval, exp0);
    if fval != 0.0 {
      while exp <= -2
        invariant exp0 <= 0 ==> exp0 <= exp <= 0 && Times(fval, Pow10(exp - exp0) as real) == intval as real
        invariant exp0 > 0 ==> exp == exp0 && fval == intval as real
      {
        Hundredth(fval, exp - exp0);
        fval := fval * 0.01;
        exp := exp + 2;
      }
      if exp < 0 {
        Tenth(fval, exp - exp0);
        fval := fval * 0.1;
        TimesBack(fval, -exp0, intval as real);
      } else if exp > 0 {
        while exp > 0
          invariant 0 <= exp <= exp0 && fval == Times(intval as real, Pow10(exp0 - exp) as real)
        {
          Tenfold(intval as real, exp0 - exp);
          fval := fval * 10.0;
          exp := exp - 1;
        }
      } else {
        TimesBack(fval, -exp0, intval as real);
      }
    }
  }

  lemma ScaledZero(intval: nat, exp: int)
    ensures intval == 0 ==> Scaled(intval, exp) == 0.0
    ensures Times(intval as real, Pow10(0) as real) == intval as real
  {
  }

  lemma Tenth(f: real, k: nat)
    ensures Times(f * 0.1, Pow10(k + 1) as real) == Times(f, Pow10(k) as real)
  {
    assert Pow10(k + 1) as real == 10.0 * Pow10(k) as real;
  }

  lemma Hundredth(f: real, k: nat)
    ensures Times(f * 0.01, Pow10(k + 2) as real) == Times(f, Pow10(k) as real)
  {
    Tenth(f, k);
    Tenth(f * 0.1, k + 1);
    assert f * 0.1 * 0.1 == f * 0.01;
    hide Times;
  }

  lemma TimesBack(f: real, k: nat, x: real)
    requires Times(f, Pow10(k) as real) == x
    ensures f == x / Pow10(k) as real
  {
  }

  /** `read_float`. */
  method ReadFloat(line: string, position: nat) returns (number: Number)
    ensures number == ReadNarrow(line, position)
  {
    hide NarrowScan, Scaled;
    var ptr, isNegative := position, false;
    var c := CharAt(line, ptr);
    if c == '-' {
      isNegative := true;
      ptr := ptr + 1;
    } else if c == '+' {
      ptr := ptr + 1;
    }
    var s := ReadDigits(line, ptr);
    if s.ndigit == 0 {
      return NoNumber;
    }
    var fval := ApplyExponent(s.intval, s.exp);
    number := Number(if isNegative then -fval else fval, s.position);
  }
}
