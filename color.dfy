/**
 * The colour resolver of internal/util/color.go: the `"transparent"` literal, a lookup of the
 * lower-cased name in the named-colour table, and otherwise a base-16 number whose low 32 bits
 * are unpacked into R, G, B, A from the most to the least significant byte.
 */
module Color {
  import opened Wrappers
  import opened Strings
  import opened Strconv

  type Byte = x: int | 0 <= x < 256

  /** `color.RGBA`: four 8-bit channels. */
  datatype RGBA = RGBA(r: Byte, g: Byte, b: Byte, a: Byte)

  /** `color.RGBA{0, 0, 0, 0}`, also Go's zero value for the type. */
  const Transparent := RGBA(0, 0, 0, 0)

  /** The named-colour table (`colornames.Map`), kept abstract: lower-case names to colours. */
  type NameTable = map<string, RGBA>

  /** The table holds plain names: none begins with `#` (true of the SVG colour names). */
  ghost predicate PlainNames(names: NameTable)
  {
    forall k :: k in names ==> k == [] || k[0] != '#'
  }

  /** `uint8(c >> 24)`, `uint8(c >> 16)`, `uint8(c >> 8)`, `uint8(c)`. */
  function Unpack(c: nat): RGBA
  {
    RGBA((c / 0x100_0000) % 256, (c / 0x1_0000) % 256, (c / 0x100) % 256, c % 256)
  }

  /** The 32-bit value `0xRRGGBBAA` of a colour. */
  function Pack(x: RGBA): (c: nat)
    ensures c < 0x1_0000_0000
  {
    x.r * 0x100_0000 + x.g * 0x1_0000 + x.b * 0x100 + x.a
  }

  /** Unpacking is the inverse of packing. */
  lemma UnpackPack(x: RGBA)
    ensures Unpack(Pack(x)) == x
  {
    var c := Pack(x);
    assert c / 0x100_0000 == x.r;
    assert c / 0x1_0000 == x.r * 256 + x.g;
    assert c / 0x100 == x.r * 0x1_0000 + x.g * 256 + x.b;
  }

  /** Dividing `q * 2^32 + m` by `2^k` (k = 8, 16, 24) keeps the channel byte of `m`. */
  lemma DivShift(q: nat, m: nat, d: nat, e: nat)
    requires d > 0 && e > 0 && d * e == 0x1_0000_0000 && e % 256 == 0
    ensures (q * 0x1_0000_0000 + m) / d % 256 == m / d % 256
  {
    var t := m / d;
    assert m == t * d + m % d;
    var c := q * 0x1_0000_0000 + m;
    assert c == (q * e + t) * d + m % d by {
      assert q * 0x1_0000_0000 == q * (d * e) == (q * e) * d;
    }
    DivUnique(c, d, q * e + t, m % d);
    ModPlus(q * (e / 256), t);
    assert q * e == q * (e / 256) * 256;
  }

  /** Euclidean division is unique: a quotient and remainder in range are the ones. */
  lemma DivUnique(x: int, d: int, k: int, r: int)
    requires d > 0 && 0 <= r < d && x == k * d + r
    ensures x / d == k && x % d == r
  {
    var q, s := x / d, x % d;
    assert x == q * d + s;
    MulSub(q, k, d);
    if q > k {
      MulLeft(1, q - k, d);
    } else if q < k {
      MulSub(k, q, d);
      MulLeft(1, k - q, d);
    }
  }

  lemma MulSub(a: int, b: int, c: int)
    ensures (a - b) * c == a * c - b * c
  {
  }

  lemma ModPlus(k: int, t: int)
    ensures (k * 256 + t) % 256 == t % 256
  {
  }

  /** Only the low 32 bits of the parsed value reach the colour. */
  lemma UnpackLow32(c: nat)
    ensures Unpack(c) == Unpack(c % 0x1_0000_0000)
  {
    var q, m := c / 0x1_0000_0000, c % 0x1_0000_0000;
    assert c == q * 0x1_0000_0000 + m;
    DivShift(q, m, 0x100_0000, 0x100);
    DivShift(q, m, 0x1_0000, 0x1_0000);
    DivShift(q, m, 0x100, 0x100_0000);
    assert c % 256 == m % 256 by {
      assert q * 0x1_0000_0000 == (q * 0x100_0000) * 256;
      ModPlus(q * 0x100_0000, m);
    }
  }

  /** Removes exactly one leading `#`. */
  function StripHash(s: string): string
    requires |s| > 0
  {
    if s[0] == '#' then s[1..] else s
  }

  /**
   * `ParseColor`. The empty string is outside its domain (Go indexes `colorStr[0]`); every
   * caller tests for `""` first. On failure Go also returns `RGBA{}`, see `ColorValue`.
   */
  function ParseColor(names: NameTable, s: string): (r: Result<RGBA, NumError>)
    requires |s| > 0
    ensures s == "transparent" ==> r == Ok(Transparent)
    ensures s != "transparent" && ToLower(s) in names ==> r == Ok(names[ToLower(s)])
    ensures s != "transparent" && ToLower(s) !in names ==>
              && (r.Ok? <==> HexLiteral(StripHash(s)))
              && (r.Ok? ==> AllHex(StripHash(s)) && r.value == Unpack(HexValue(StripHash(s))))
  {
    if s == "transparent" then Ok(Transparent)
    else if ToLower(s) in names then Ok(names[ToLower(s)])
    else
      match ParseUint16(StripHash(s))
      case Err(e) => Err(e)
      case Ok(c) => Ok(Unpack(c))
  }

  /** The colour value Go's `ParseColor` returns next to its error: `RGBA{}` when parsing fails. */
  function ColorValue(r: Result<RGBA, NumError>): RGBA
  {
    match r
    case Ok(c) => c
    case Err(_) => Transparent
  }

  /** A colour spec that is set (non-empty) and fails to parse. */
  predicate ColorFails(names: NameTable, s: string)
  {
    s != "" && ParseColor(names, s).Err?
  }

  // ---------------------------------------------------------------- properties

  /** Only the exact lower-case literal is special: other casings go through the table and the hex parser. */
  lemma TransparentIsCaseSensitive(names: NameTable)
    requires "transparent" !in names
    ensures ParseColor(names, "transparent") == Ok(Transparent)
    ensures ParseColor(names, "Transparent") == Err(ErrSyntax)
    ensures ParseColor(names, "TRANSPARENT") == Err(ErrSyntax)
  {
    assert ToLower("Transparent") == "transparent";
    assert ToLower("TRANSPARENT") == "transparent";
    assert !IsHexDigit('T');
    assert HexScan("Transparent", 0) == Err(ErrSyntax);
    assert HexScan("TRANSPARENT", 0) == Err(ErrSyntax);
  }

  lemma LowerCharHex(c: char, d: char)
    requires LowerChar(c) == LowerChar(d)
    ensures IsHexDigit(c) <==> IsHexDigit(d)
    ensures IsHexDigit(c) ==> HexDigitValue(c) == HexDigitValue(d)
  {
  }

  /** The hex scan does not see letter case. */
  lemma {:induction false} HexScanIgnoresCase(s: string, t: string, n: nat)
    requires ToLower(s) == ToLower(t)
    ensures HexScan(s, n) == HexScan(t, n)
    decreases |s|
  {
    assert |s| == |t|;
    if s != [] {
      assert LowerChar(s[0]) == ToLower(s)[0] == ToLower(t)[0] == LowerChar(t[0]);
      LowerCharHex(s[0], t[0]);
      if IsHexDigit(s[0]) && n < Cutoff16 {
        assert ToLower(s[1..]) == ToLower(s)[1..] == ToLower(t)[1..] == ToLower(t[1..]);
        HexScanIgnoresCase(s[1..], t[1..], n * 16 + HexDigitValue(s[0]));
      }
    }
  }

  /**
   * Apart from the exact `"transparent"` literal, the resolver is case-insensitive: two specs
   * that lower-case alike resolve alike, whether they name a table entry or a hex value.
   */
  lemma CaseInsensitive(names: NameTable, s: string, t: string)
    requires |s| > 0 && ToLower(s) == ToLower(t)
    requires s != "transparent" && t != "transparent"
    ensures ParseColor(names, s) == ParseColor(names, t)
  {
    if ToLower(s) !in names {
      assert LowerChar(s[0]) == LowerChar(t[0]);
      assert s[0] == '#' <==> t[0] == '#';
      var a, b := StripHash(s), StripHash(t);
      assert ToLower(a) == ToLower(b) by {
        if s[0] == '#' {
          assert ToLower(a) == ToLower(s)[1..];
          assert ToLower(b) == ToLower(t)[1..];
        }
      }
      if a != [] {
        HexScanIgnoresCase(a, b, 0);
      }
    }
  }

  /** A spec starting with `#` is never a key of a table without `#` keys, and loses exactly that one `#`. */
  lemma HashSpecNotNamed(names: NameTable, t: string)
    requires PlainNames(names)
    ensures ToLower("#" + t) !in names
    ensures StripHash("#" + t) == t
  {
    assert ToLower("#" + t)[0] == '#';
    assert ("#" + t)[1..] == t;
  }

  /** A lone `#` reaches the hex parser as the empty string and fails; only one `#` is stripped. */
  lemma HashOnlyOnce(names: NameTable, t: string)
    requires PlainNames(names)
    ensures ParseColor(names, "#") == Err(ErrSyntax)
    ensures ParseColor(names, "##" + t) == Err(ErrSyntax)
  {
    HashSpecNotNamed(names, "");
    assert "#" + "" == "#";
    HashSpecNotNamed(names, "#" + t);
    assert "#" + ("#" + t) == "##" + t;
  }

  /** The value of a hex string split at `k`. */
  lemma HexValueSplit(t: string, k: nat)
    requires AllHex(t) && k <= |t|
    ensures AllHex(t[..k]) && AllHex(t[k..])
    ensures HexValue(t) == HexValue(t[..k]) * Pow16(|t| - k) + HexValue(t[k..])
  {
    assert AllHex(t[..k]) by {
      forall i | 0 <= i < k ensures IsHexDigit(t[..k][i]) { assert t[..k][i] == t[i]; }
    }
    assert AllHex(t[k..]) by {
      forall i | 0 <= i < |t| - k ensures IsHexDigit(t[k..][i]) { assert t[k..][i] == t[k + i]; }
    }
    assert t == t[..k] + t[k..];
    HexValueAppend(t[..k], t[k..]);
  }

  lemma Pow16Values()
    ensures Pow16(2) == 0x100 && Pow16(4) == 0x1_0000 && Pow16(6) == 0x100_0000
  {
    assert Pow16(2) == 256;
    Pow16Add(2, 2);
    Pow16Add(4, 2);
  }

  /** The two leading digits of a hex string form a byte worth that byte times the place value of the rest. */
  lemma LeadingByte(t: string)
    requires |t| >= 2 && AllHex(t)
    ensures AllHex(t[..2]) && AllHex(t[2..]) && HexValue(t[..2]) < 256
    ensures HexValue(t) == HexValue(t[..2]) * Pow16(|t| - 2) + HexValue(t[2..])
  {
    HexValueSplit(t, 2);
    HexValueBound(t[..2]);
    Pow16Values();
  }

  /** The four channels of an eight-digit value, two digits each, most significant first. */
  lemma HexValueBytes(t: string)
    requires |t| == 8 && AllHex(t)
    ensures AllHex(t[..2]) && AllHex(t[2..4]) && AllHex(t[4..6]) && AllHex(t[6..])
    ensures HexValue(t[..2]) < 256 && HexValue(t[2..4]) < 256
    ensures HexValue(t[4..6]) < 256 && HexValue(t[6..]) < 256
    ensures HexValue(t) == HexValue(t[..2]) * 0x100_0000 + HexValue(t[2..4]) * 0x1_0000
                           + HexValue(t[4..6]) * 0x100 + HexValue(t[6..])
  {
    Pow16Values();
    var u := t[2..];
    var v := u[2..];
    assert u[..2] == t[2..4] && v[..2] == t[4..6] && v[2..] == t[6..];
    LeadingByte(t);
    LeadingByte(u);
    LeadingByte(v);
    HexValueBound(t[6..]);
  }

  /** An eight-digit `#RRGGBBAA` literal yields its four bytes exactly. */
  lemma EightDigitChannels(names: NameTable, t: string)
    requires PlainNames(names) && |t| == 8 && AllHex(t)
    ensures AllHex(t[..2]) && AllHex(t[2..4]) && AllHex(t[4..6]) && AllHex(t[6..])
    ensures var r := ParseColor(names, "#" + t);
            && r.Ok?
            && r.value.r == HexValue(t[..2]) && r.value.g == HexValue(t[2..4])
            && r.value.b == HexValue(t[4..6]) && r.value.a == HexValue(t[6..])
  {
    HashSpecNotNamed(names, t);
    SixteenDigitsFit(t);
    HexValueBytes(t);
    var x := RGBA(HexValue(t[..2]), HexValue(t[2..4]), HexValue(t[4..6]), HexValue(t[6..]));
    assert Pack(x) == HexValue(t);
    UnpackPack(x);
  }

  /** `#` followed by the eight lower-case hex digits of a colour. */
  function FormatHex(x: RGBA): string
  {
    "#" + Hex2(x.r) + Hex2(x.g) + Hex2(x.b) + Hex2(x.a)
  }

  /** Every colour round-trips through its `#rrggbbaa` spelling. */
  lemma FormatHexRoundTrip(names: NameTable, x: RGBA)
    requires PlainNames(names)
    ensures ParseColor(names, FormatHex(x)) == Ok(x)
  {
    var t := Hex2(x.r) + Hex2(x.g) + Hex2(x.b) + Hex2(x.a);
    assert FormatHex(x) == "#" + t;
    assert AllHex(t);
    assert t[..2] == Hex2(x.r) && t[2..4] == Hex2(x.g) && t[4..6] == Hex2(x.b) && t[6..] == Hex2(x.a);
    EightDigitChannels(names, t);
  }

  /** A six-digit `#RRGGBB` literal is read as `0x00RRGGBB`: red is 0 and the digits shift one channel down. */
  lemma SixDigitShift(names: NameTable, t: string)
    requires PlainNames(names) && |t| == 6 && AllHex(t)
    ensures AllHex(t[..2]) && AllHex(t[2..4]) && AllHex(t[4..])
    ensures var r := ParseColor(names, "#" + t);
            && r.Ok?
            && r.value.r == 0 && r.value.g == HexValue(t[..2])
            && r.value.b == HexValue(t[2..4]) && r.value.a == HexValue(t[4..])
  {
    HashSpecNotNamed(names, t);
    SixteenDigitsFit(t);
    var t8 := "00" + t;
    assert AllHex(t8);
    HexValueSplit(t8, 2);
    assert t8[..2] == "00" && t8[2..] == t;
    assert HexValue("00") == 0;
    assert HexValue(t8) == HexValue(t);
    HexValueBytes(t8);
    assert t8[2..4] == t[..2] && t8[4..6] == t[2..4] && t8[6..] == t[4..];
    var x := RGBA(0, HexValue(t[..2]), HexValue(t[2..4]), HexValue(t[4..]));
    assert Pack(x) == HexValue(t);
    UnpackPack(x);
  }

  /** Leading digits beyond the last eight (within 64 bits) are discarded. */
  lemma HighDigitsDiscarded(names: NameTable, p: string, q: string)
    requires PlainNames(names) && AllHex(p) && AllHex(q)
    requires |q| == 8 && |p| + |q| <= 16
    ensures ParseColor(names, "#" + p + q) == ParseColor(names, "#" + q)
  {
    assert "#" + p + q == "#" + (p + q);
    HashSpecNotNamed(names, p + q);
    HashSpecNotNamed(names, q);
    HexValueAppend(p, q);
    SixteenDigitsFit(p + q);
    SixteenDigitsFit(q);
    Pow16Eight();
    var c := HexValue(p + q);
    HexValueBound(q);
    DivUnique(c, 0x1_0000_0000, HexValue(p), HexValue(q));
    UnpackLow32(c);
  }

  /** Anything that is neither a table name nor a 64-bit hex value fails, carrying the zero colour. */
  lemma InvalidSpecFails(names: NameTable, s: string)
    requires |s| > 0 && s != "transparent" && ToLower(s) !in names
    requires !HexLiteral(StripHash(s))
    ensures ParseColor(names, s).Err?
    ensures ColorValue(ParseColor(names, s)) == Transparent
  {
  }
}
