/**
 * The parts of Go's `strconv` package the core calls:
 * `ParseUint(s, 16, 64)` as a left-to-right digit scan with its two error kinds, and
 * `Atoi` as a signed decimal parser over the 64-bit `int` range.
 * Each parser is paired with a reference value function and a formatter, and the lemmas
 * connect them.
 */
module Strconv {
  import opened Wrappers

  /** `strconv.ErrSyntax` and `strconv.ErrRange`. */
  datatype NumError = ErrSyntax | ErrRange

  const MaxUint64: nat := 0xFFFF_FFFF_FFFF_FFFF
  const MaxInt64: int := 0x7FFF_FFFF_FFFF_FFFF
  const MinInt64: int := -0x8000_0000_0000_0000

  /** First accumulator value at which one more base-16 digit overflows 64 bits (`maxUint64/16 + 1`). */
  const Cutoff16: nat := MaxUint64 / 16 + 1

  // ---------------------------------------------------------------- base 16

  predicate IsHexDigit(c: char)
  {
    '0' <= c <= '9' || 'a' <= c <= 'f' || 'A' <= c <= 'F'
  }

  function HexDigitValue(c: char): (d: nat)
    requires IsHexDigit(c)
    ensures d < 16
  {
    if '0' <= c <= '9' then c as int - '0' as int
    else if 'a' <= c <= 'f' then c as int - 'a' as int + 10
    else c as int - 'A' as int + 10
  }

  predicate AllHex(s: string)
  {
    forall i :: 0 <= i < |s| ==> IsHexDigit(s[i])
  }

  function Pow16(k: nat): (p: nat)
    ensures p >= 1
  {
    if k == 0 then 1 else 16 * Pow16(k - 1)
  }

  /** The number a string of hex digits denotes, most significant digit first (reference definition). */
  function HexValue(s: string): nat
    requires AllHex(s)
  {
    if s == [] then 0 else HexDigitValue(s[0]) * Pow16(|s| - 1) + HexValue(s[1..])
  }

  /** A string `ParseUint(s, 16, 64)` accepts: non-empty, hex digits only, value within 64 bits. */
  predicate HexLiteral(s: string)
  {
    |s| > 0 && AllHex(s) && HexValue(s) <= MaxUint64
  }

  /**
   * The digit loop of `ParseUint` for base 16: a non-digit is a syntax error; an accumulator
   * at or above the cutoff, or a new value above 2^64-1, is a range error, checked digit by
   * digit from the left, so an overflow is reported before a later bad character.
   */
  function HexScan(s: string, n: nat): Result<nat, NumError>
    decreases |s|
  {
    if s == [] then Ok(n)
    else if !IsHexDigit(s[0]) then Err(ErrSyntax)
    else if n >= Cutoff16 then Err(ErrRange)
    else
      var n1 := n * 16 + HexDigitValue(s[0]);
      if n1 > MaxUint64 then Err(ErrRange) else HexScan(s[1..], n1)
  }

  lemma Pow16Add(a: nat, b: nat)
    ensures Pow16(a + b) == Pow16(a) * Pow16(b)
    decreases a
  {
    if a > 0 {
      Pow16Add(a - 1, b);
      MulAssoc(16, Pow16(a - 1), Pow16(b));
    }
  }

  lemma MulAssoc(a: int, b: int, c: int)
    ensures a * (b * c) == (a * b) * c
  {
  }

  lemma MulLeft(a: int, b: int, c: nat)
    requires a <= b
    ensures a * c <= b * c
  {
  }

  lemma MulDistrib(a: int, b: int, c: int)
    ensures (a + b) * c == a * c + b * c
  {
  }

  /** A hex string denotes less than 16 to the power of its length. */
  lemma {:induction false} HexValueBound(s: string)
    requires AllHex(s)
    ensures HexValue(s) < Pow16(|s|)
    decreases |s|
  {
    if s != [] {
      HexValueBound(s[1..]);
      var d, p := HexDigitValue(s[0]), Pow16(|s| - 1);
      MulLeft(d, 15, p);
      assert HexValue(s) == d * p + HexValue(s[1..]);
      assert Pow16(|s|) == 16 * p;
    }
  }

  lemma AllHexSuffix(s: string)
    requires s != [] && IsHexDigit(s[0])
    ensures AllHex(s) <==> AllHex(s[1..])
  {
    if AllHex(s[1..]) {
      forall i | 0 <= i < |s| ensures IsHexDigit(s[i]) {
        if i > 0 { assert s[i] == s[1..][i - 1]; }
      }
    }
  }

  lemma AllHexAppend(p: string, q: string)
    requires AllHex(p) && AllHex(q)
    ensures AllHex(p + q)
  {
    forall i | 0 <= i < |p + q| ensures IsHexDigit((p + q)[i]) {
      if i < |p| { assert (p + q)[i] == p[i]; } else { assert (p + q)[i] == q[i - |p|]; }
    }
  }

  /** Value of a concatenation: the left part is shifted by four bits per digit of the right part. */
  lemma {:induction false} HexValueAppend(p: string, q: string)
    requires AllHex(p) && AllHex(q)
    ensures AllHex(p + q)
    ensures HexValue(p + q) == HexValue(p) * Pow16(|q|) + HexValue(q)
    decreases |p|
  {
    AllHexAppend(p, q);
    if p == [] {
      assert p + q == q;
    } else {
      assert (p + q)[1..] == p[1..] + q;
      assert (p + q)[0] == p[0];
      HexValueAppend(p[1..], q);
      var d, a, b := HexDigitValue(p[0]), Pow16(|p| - 1), Pow16(|q|);
      Pow16Add(|p| - 1, |q|);
      assert |p + q| - 1 == |p| - 1 + |q|;
      assert HexValue(p + q) == d * (a * b) + (HexValue(p[1..]) * b + HexValue(q));
      MulAssoc(d, a, b);
      MulDistrib(d * a, HexValue(p[1..]), b);
      assert HexValue(p) == d * a + HexValue(p[1..]);
    }
  }

  /** An accumulator at the cutoff followed by one or more digits no longer fits in 64 bits. */
  lemma OverflowPastCutoff(n: nat, p: nat, h: nat)
    requires n >= Cutoff16 && p >= 1
    ensures n * (16 * p) + h > MaxUint64
  {
    MulLeft(Cutoff16, n, 16 * p);
    MulLeft(1, p, 16);
  }

  /** Shifting in one digit `d` in front of a tail worth `h` with place value `p`. */
  lemma ShiftDigit(n: nat, d: nat, p: nat, h: nat)
    ensures (n * 16 + d) * p + h == n * (16 * p) + (d * p + h)
  {
    MulDistrib(n * 16, d, p);
    MulAssoc(n, 16, p);
  }

  /**
   * The scan started with accumulator `n` succeeds exactly when every character is a hex digit
   * and `n` followed by those digits fits in 64 bits, and it then returns that number; on
   * all-digit input the only possible failure is a range error.
   */
  lemma {:induction false} HexScanValue(s: string, n: nat)
    requires n <= MaxUint64
    ensures HexScan(s, n).Ok? <==> AllHex(s) && n * Pow16(|s|) + HexValue(s) <= MaxUint64
    ensures HexScan(s, n).Ok? ==> AllHex(s) && HexScan(s, n).value == n * Pow16(|s|) + HexValue(s)
    ensures AllHex(s) && HexScan(s, n).Err? ==> HexScan(s, n).error == ErrRange
    decreases |s|
  {
    if s == [] {
      assert n * Pow16(0) == n;
    } else if IsHexDigit(s[0]) {
      var d, p := HexDigitValue(s[0]), Pow16(|s| - 1);
      assert Pow16(|s|) == 16 * p;
      AllHexSuffix(s);
      if n >= Cutoff16 {
        if AllHex(s) {
          OverflowPastCutoff(n, p, HexValue(s));
        }
      } else {
        var n1 := n * 16 + d;
        assert HexScan(s, n) == HexScan(s[1..], n1);
        HexScanValue(s[1..], n1);
        if AllHex(s) {
          ShiftDigit(n, d, p, HexValue(s[1..]));
          assert HexValue(s) == d * p + HexValue(s[1..]);
        }
      }
    }
  }

  /**
   * `strconv.ParseUint(s, 16, 64)`: the empty string is a syntax error; otherwise the digit scan
   * from a zero accumulator.
   */
  function ParseUint16(s: string): (r: Result<nat, NumError>)
    ensures r.Ok? <==> HexLiteral(s)
    ensures r.Ok? ==> AllHex(s) && r.value == HexValue(s)
    ensures s == [] ==> r == Err(ErrSyntax)
    ensures r.Err? && AllHex(s) && s != [] ==> r.error == ErrRange
  {
    if s == [] then Err(ErrSyntax)
    else
      HexScanValue(s, 0);
      HexScan(s, 0)
  }

  lemma Pow16Eight()
    ensures Pow16(8) == 0x1_0000_0000
  {
    assert Pow16(2) == 256;
    Pow16Add(2, 2);
    Pow16Add(4, 4);
  }

  lemma Pow16Sixteen()
    ensures Pow16(16) == MaxUint64 + 1
  {
    Pow16Eight();
    Pow16Add(8, 8);
  }

  /** Every string of at most sixteen hex digits is accepted. */
  lemma SixteenDigitsFit(s: string)
    requires 0 < |s| <= 16 && AllHex(s)
    ensures HexLiteral(s)
  {
    HexValueBound(s);
    Pow16Monotone(|s|, 16);
    Pow16Sixteen();
  }

  lemma {:induction false} Pow16Monotone(k: nat, m: nat)
    requires k <= m
    ensures Pow16(k) <= Pow16(m)
    decreases m
  {
    if k < m {
      Pow16Monotone(k, m - 1);
    }
  }

  /** Lower-case hex digit for a value below 16. */
  function HexDigitChar(d: nat): (c: char)
    requires d < 16
    ensures IsHexDigit(c) && HexDigitValue(c) == d
  {
    if d < 10 then ('0' as int + d) as char else ('a' as int + d - 10) as char
  }

  /** Two lower-case hex digits for a byte, as `%02x` prints it. */
  function Hex2(b: nat): (s: string)
    requires b < 256
    ensures |s| == 2 && AllHex(s) && HexValue(s) == b
  {
    var s := [HexDigitChar(b / 16), HexDigitChar(b % 16)];
    assert s[1..] == [HexDigitChar(b % 16)];
    assert HexValue(s[1..]) == b % 16 by {
      assert HexValue(s[1..][1..]) == 0;
    }
    assert Pow16(1) == 16;
    s
  }

  // ---------------------------------------------------------------- base 10

  predicate IsDecDigit(c: char)
  {
    '0' <= c <= '9'
  }

  predicate AllDec(s: string)
  {
    forall i :: 0 <= i < |s| ==> IsDecDigit(s[i])
  }

  /** The number a string of decimal digits denotes (reference definition, last digit least significant). */
  function DecValue(s: string): nat
    requires AllDec(s)
  {
    if s == [] then 0 else DecValue(s[..|s| - 1]) * 10 + (s[|s| - 1] as int - '0' as int)
  }

  /** The characters after an optional leading `+` or `-`. */
  function Unsigned(s: string): string
  {
    if |s| > 0 && (s[0] == '+' || s[0] == '-') then s[1..] else s
  }

  /**
   * `strconv.Atoi` on a 64-bit platform: an optional sign, then at least one decimal digit and
   * nothing else, denoting a value in the `int64` range; anything else is an error (`None`).
   */
  function Atoi(s: string): (r: Option<int>)
    ensures r.Some? ==> MinInt64 <= r.value <= MaxInt64
    ensures r.Some? ==> |Unsigned(s)| > 0 && AllDec(Unsigned(s))
  {
    var digits := Unsigned(s);
    if |digits| == 0 || !AllDec(digits) then None
    else
      var m: int := DecValue(digits);
      var v := if s[0] == '-' then -m else m;
      if MinInt64 <= v <= MaxInt64 then Some(v) else None
  }

  /** Decimal digits of a natural number, without leading zeros (`strconv.Itoa` for n >= 0). */
  function FormatNat(n: nat): (s: string)
    ensures |s| > 0 && AllDec(s)
  {
    if n < 10 then [('0' as int + n) as char]
    else FormatNat(n / 10) + [('0' as int + n % 10) as char]
  }

  /** `strconv.Itoa`, over all integers. */
  function FormatInt(n: int): string
  {
    if n < 0 then "-" + FormatNat(-n) else FormatNat(n)
  }

  lemma {:induction false} DecValueFormatNat(n: nat)
    ensures DecValue(FormatNat(n)) == n
  {
    if n >= 10 {
      DecValueFormatNat(n / 10);
      var s := FormatNat(n);
      assert s[..|s| - 1] == FormatNat(n / 10);
    }
  }

  /** Formatting then parsing gives back every `int64`, negative ones included. */
  lemma AtoiFormatInt(n: int)
    requires MinInt64 <= n <= MaxInt64
    ensures Atoi(FormatInt(n)) == Some(n)
  {
    if n < 0 {
      DecValueFormatNat(-n);
      assert Unsigned(FormatInt(n)) == FormatNat(-n);
    } else {
      DecValueFormatNat(n);
      assert '0' <= FormatNat(n)[0] <= '9';
    }
  }

  predicate AllZero(z: string)
  {
    forall i :: 0 <= i < |z| ==> z[i] == '0'
  }

  lemma {:induction false} DecValueZeros(z: string)
    requires AllZero(z)
    ensures AllDec(z) && DecValue(z) == 0
    decreases |z|
  {
    if z != [] {
      DecValueZeros(z[..|z| - 1]);
    }
  }

  /** Leading zeros do not change the value of a digit string. */
  lemma {:induction false} DecValueLeadingZeros(z: string, d: string)
    requires AllZero(z) && AllDec(d)
    ensures AllDec(z + d) && DecValue(z + d) == DecValue(d)
    decreases |d|
  {
    DecValueZeros(z);
    if d == [] {
      assert z + d == z;
    } else {
      var s := z + d;
      assert s[..|s| - 1] == z + d[..|d| - 1];
      DecValueLeadingZeros(z, d[..|d| - 1]);
    }
  }

  /** A leading `+` on an unsigned string is accepted and changes nothing. */
  lemma AtoiPlusSign(d: string)
    requires Unsigned(d) == d
    ensures Atoi("+" + d) == Atoi(d)
  {
    assert ("+" + d)[1..] == d;
    assert Unsigned("+" + d) == d;
  }

  /** Atoi depends only on whether the sign is `-` and on the value of the digits. */
  lemma AtoiSameValue(s: string, t: string)
    requires |s| > 0 && |t| > 0 && (s[0] == '-' <==> t[0] == '-')
    requires |Unsigned(s)| > 0 && AllDec(Unsigned(s)) && |Unsigned(t)| > 0 && AllDec(Unsigned(t))
    requires DecValue(Unsigned(s)) == DecValue(Unsigned(t))
    ensures Atoi(s) == Atoi(t)
  {
  }

  /** The digits after an optional sign followed by zeros, and where the sign ends up. */
  lemma UnsignedAfterZeros(sign: string, z: string, d: string)
    requires sign == "" || sign == "+" || sign == "-"
    requires AllZero(z) && |d| > 0 && AllDec(d)
    ensures |sign + z + d| > 0 && |sign + d| > 0
    ensures Unsigned(sign + z + d) == z + d && Unsigned(sign + d) == d
    ensures (sign + z + d)[0] == '-' <==> (sign + d)[0] == '-'
  {
    var s, t := sign + z + d, sign + d;
    if sign == "" {
      assert s == z + d && t == d;
      assert IsDecDigit(t[0]);
      assert IsDecDigit(s[0]) by {
        if |z| > 0 { assert s[0] == z[0]; } else { assert s[0] == d[0]; }
      }
    } else {
      assert s[1..] == z + d && t[1..] == d;
      assert s[0] == sign[0] && t[0] == sign[0];
    }
  }

  /** Zeros between the optional sign and the digits change nothing. */
  lemma AtoiLeadingZeros(sign: string, z: string, d: string)
    requires sign == "" || sign == "+" || sign == "-"
    requires AllZero(z) && |d| > 0 && AllDec(d)
    ensures Atoi(sign + z + d) == Atoi(sign + d)
  {
    DecValueLeadingZeros(z, d);
    UnsignedAfterZeros(sign, z, d);
    AtoiSameValue(sign + z + d, sign + d);
  }

  /** `-0`, `-00`, ...: a minus sign on zeros reads as 0. */
  lemma AtoiNegativeZero(z: string)
    requires |z| > 0 && AllZero(z)
    ensures Atoi("-" + z) == Some(0)
  {
    DecValueZeros(z);
    assert ("-" + z)[1..] == z;
    assert Unsigned("-" + z) == z;
  }

  /** `+7`, `007` and `-007` read as the numbers they spell. */
  lemma AtoiSpellings()
    ensures Atoi("+7") == Some(7)
    ensures Atoi("007") == Some(7)
    ensures Atoi("-007") == Some(-7)
  {
    assert DecValue("7") == 7 by {
      assert "7"[..0] == [];
    }
    assert DecValue("007") == 7 by {
      assert "007"[..2] == "00" && "00"[..1] == "0" && "0"[..0] == [];
    }
    assert Atoi("+7") == Some(7) by {
      assert "+7"[1..] == "7";
      assert Unsigned("+7") == "7" && AllDec("7");
    }
    assert Atoi("007") == Some(7) by {
      assert Unsigned("007") == "007" && AllDec("007");
    }
    assert Atoi("-007") == Some(-7) by {
      assert "-007"[1..] == "007";
      assert Unsigned("-007") == "007" && AllDec("007");
    }
  }

  /** A well-formed decimal outside the `int64` range is rejected. */
  lemma AtoiOutOfRange(n: int)
    requires n < MinInt64 || n > MaxInt64
    ensures Atoi(FormatInt(n)) == None
  {
    if n < 0 {
      DecValueFormatNat(-n);
      assert Unsigned(FormatInt(n)) == FormatNat(-n);
    } else {
      DecValueFormatNat(n);
      assert '0' <= FormatNat(n)[0] <= '9';
    }
  }
}
