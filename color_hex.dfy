/**
 * `Color(hex:)`: trim the string, scan a hexadecimal integer, and take its
 * low three bytes as the red, green and blue channels (before the division
 * by 255 into the colour's components).
 */
module ColorHex {
  import opened Wrappers

  /** The letters and digits kept by the trim (ASCII only). */
  predicate IsAlphanumeric(c: char) {
    ('a' <= c <= 'z') || ('A' <= c <= 'Z') || ('0' <= c <= '9')
  }

  /** The first alphanumeric position at or after `i`, or `|s|`. */
  function FirstKept(s: string, i: nat): (k: nat)
    requires i <= |s|
    ensures i <= k <= |s|
    ensures forall t :: i <= t < k ==> !IsAlphanumeric(s[t])
    ensures k < |s| ==> IsAlphanumeric(s[k])
    decreases |s| - i
  {
    if i == |s| || IsAlphanumeric(s[i]) then i else FirstKept(s, i + 1)
  }

  /** One past the last alphanumeric position before `j`, or 0. */
  function EndKept(s: string, j: nat): (k: nat)
    requires j <= |s|
    ensures k <= j
    ensures forall t :: k <= t < j ==> !IsAlphanumeric(s[t])
    ensures k > 0 ==> IsAlphanumeric(s[k - 1])
  {
    if j == 0 || IsAlphanumeric(s[j - 1]) then j else EndKept(s, j - 1)
  }

  /**
   * `trimmingCharacters(in: .alphanumerics.inverted)`: the slice between
   * the first and the last alphanumeric character.
   */
  function Trimmed(s: string): (r: string)
    ensures exists a, b ::
      && 0 <= a <= b <= |s| && r == s[a..b]
      && (forall t :: 0 <= t < |s| && (t < a || b <= t) ==> !IsAlphanumeric(s[t]))
    ensures r != [] ==> IsAlphanumeric(r[0]) && IsAlphanumeric(r[|r| - 1])
    ensures r == [] <==> forall t :: 0 <= t < |s| ==> !IsAlphanumeric(s[t])
  {
    var a := FirstKept(s, 0);
    var b := EndKept(s, |s|);
    if a < b then s[a..b]
    else
      assert forall t :: 0 <= t < |s| ==> !IsAlphanumeric(s[t]);
      assert s[0..0] == [];
      []
  }

  /** `UInt64.max`, where the scan saturates. */
  const U64Max: nat := 0xFFFF_FFFF_FFFF_FFFF

  function HexDigit(c: char): (d: Option<nat>)
    ensures d.Some? ==> d.value < 16
    ensures d.Some? <==> IsAlphanumeric(c) && (('0' <= c <= '9') || ('a' <= c <= 'f') || ('A' <= c <= 'F'))
  {
    if '0' <= c <= '9' then Some(c as int - '0' as int)
    else if 'a' <= c <= 'f' then Some(c as int - 'a' as int + 10)
    else if 'A' <= c <= 'F' then Some(c as int - 'A' as int + 10)
    else None
  }

  function Saturated(x: nat): (r: nat)
    ensures r <= U64Max && (x <= U64Max ==> r == x)
  {
    if x > U64Max then U64Max else x
  }

  /** Accumulates the leading hexadecimal digits of `s` onto `acc`, saturating. */
  function ScanDigits(s: string, acc: nat): (n: nat)
    requires acc <= U64Max
    ensures acc <= n <= U64Max
  {
    if s == [] || HexDigit(s[0]).None? then acc
    else ScanDigits(s[1..], Saturated(acc * 16 + HexDigit(s[0]).value))
  }

  /** Where the digits start: after a "0x"/"0X" that a digit follows. */
  function DigitsStart(s: string): (k: nat)
    ensures k == 0 || k == 2
    ensures k == 2 ==> |s| > 2 && HexDigit(s[2]).Some?
  {
    if |s| > 2 && s[0] == '0' && (s[1] == 'x' || s[1] == 'X') && HexDigit(s[2]).Some? then 2 else 0
  }

  /** `scanHexInt64`: the value scanned, or None when no digit is there. */
  function ScanHex(s: string): (r: Option<nat>)
    ensures r.Some? <==> DigitsStart(s) < |s| && HexDigit(s[DigitsStart(s)]).Some?
    ensures r.Some? ==> r.value <= U64Max
  {
    var k := DigitsStart(s);
    if k < |s| && HexDigit(s[k]).Some? then Some(ScanDigits(s[k..], 0)) else None
  }

  /** Bits 16-23, 8-15 and 0-7 of `n`. */
  function Channels(n: nat): (rgb: (nat, nat, nat))
    ensures rgb.0 < 256 && rgb.1 < 256 && rgb.2 < 256
    ensures rgb.0 * 65536 + rgb.1 * 256 + rgb.2 == n % 0x100_0000
  {
    ChannelsSplit(n);
    (n / 65536 % 256, n / 256 % 256, n % 256)
  }

  lemma DivBy65536(n: int, a: int, rem: int)
    requires 0 <= rem < 65536 && n == a * 65536 + rem
    ensures n / 65536 == a && n % 65536 == rem
  {
  }

  lemma DivBy256(n: int, a: int, rem: int)
    requires 0 <= rem < 256 && n == a * 256 + rem
    ensures n / 256 == a && n % 256 == rem
  {
  }

  /** The three bytes above, read back, give `n` modulo 2^24. */
  lemma ChannelsSplit(n: nat)
    ensures n / 65536 % 256 * 65536 + n / 256 % 256 * 256 + n % 256 == n % 0x100_0000
  {
    var q, lo := n / 0x100_0000, n % 0x100_0000;
    var r, w := lo / 65536, lo % 65536;
    var g, b := w / 256, w % 256;
    assert n == q * 0x100_0000 + lo;
    assert lo == r * 65536 + w && r < 256;
    assert w == g * 256 + b && g < 256;
    DivBy65536(n, q * 256 + r, w);
    DivBy256(q * 256 + r, q, r);
    DivBy256(n, q * 65536 + r * 256 + g, b);
    DivBy256(q * 65536 + r * 256 + g, q * 256 + r, g);
  }

  /** The channels `Color(hex:)` computes; nothing scanned reads as 0. */
  function HexColor(hex: string): (rgb: (nat, nat, nat))
    ensures ScanHex(Trimmed(hex)).None? ==> rgb == (0, 0, 0)
    ensures ScanHex(Trimmed(hex)).Some? ==> rgb == Channels(ScanHex(Trimmed(hex)).value)
  {
    match ScanHex(Trimmed(hex))
    case Some(n) => Channels(n)
    case None => Channels(0)
  }

  /** A string with no letter or digit reads as black. */
  lemma NoDigitsIsBlack(hex: string)
    requires forall t :: 0 <= t < |hex| ==> !IsAlphanumeric(hex[t])
    ensures HexColor(hex) == (0, 0, 0)
  {
    assert Trimmed(hex) == [];
  }

  /** The upper-case hexadecimal digit for `v`. */
  function HexChar(v: nat): (c: char)
    requires v < 16
    ensures HexDigit(c) == Some(v) && IsAlphanumeric(c) && c != 'x' && c != 'X'
  {
    if v < 10 then ('0' as int + v) as char else ('A' as int + v - 10) as char
  }

  /** The "#RRGGBB" code of three bytes. */
  function HexCode(r: nat, g: nat, b: nat): (s: string)
    requires r < 256 && g < 256 && b < 256
    ensures |s| == 7 && s[0] == '#'
    ensures forall i :: 1 <= i < 7 ==> IsAlphanumeric(s[i])
  {
    ['#', HexChar(r / 16), HexChar(r % 16), HexChar(g / 16), HexChar(g % 16), HexChar(b / 16), HexChar(b % 16)]
  }

  /** The trim keeps the six digits of a "#RRGGBB" code. */
  lemma TrimHexCode(r: nat, g: nat, b: nat)
    requires r < 256 && g < 256 && b < 256
    ensures Trimmed(HexCode(r, g, b)) == HexCode(r, g, b)[1..]
  {
    var s := HexCode(r, g, b);
    assert FirstKept(s, 0) == FirstKept(s, 1) == 1;
    assert EndKept(s, |s|) == 7;
  }

  /** One digit step of the scan, below saturation. */
  lemma ScanStep(s: string, acc: nat, d: nat)
    requires s != [] && HexDigit(s[0]) == Some(d) && acc * 16 + d <= U64Max && acc <= U64Max
    ensures ScanDigits(s, acc) == ScanDigits(s[1..], acc * 16 + d)
  {
  }

  /** The base-16 value of the digits `d` appended to `acc`. */
  function HexFold(acc: nat, d: seq<nat>): (r: nat)
    ensures acc <= r
    decreases |d|
  {
    if d == [] then acc else HexFold(acc * 16 + d[0], d[1..])
  }

  /** Below saturation, the scan computes the digits' base-16 value. */
  lemma {:induction false} ScanFold(s: string, d: seq<nat>, acc: nat)
    requires |s| == |d| && forall i :: 0 <= i < |s| ==> HexDigit(s[i]) == Some(d[i])
    requires acc <= U64Max && HexFold(acc, d) <= U64Max
    ensures ScanDigits(s, acc) == HexFold(acc, d)
    decreases |s|
  {
    if s != [] {
      ScanStep(s, acc, d[0]);
      ScanFold(s[1..], d[1..], acc * 16 + d[0]);
    }
  }

  /** Six digits fold to their base-16 value. */
  lemma FoldSix(d: seq<nat>)
    requires |d| == 6
    ensures HexFold(0, d) == ((((d[0] * 16 + d[1]) * 16 + d[2]) * 16 + d[3]) * 16 + d[4]) * 16 + d[5]
  {
    var v1 := d[0];
    var v2 := v1 * 16 + d[1];
    var v3 := v2 * 16 + d[2];
    var v4 := v3 * 16 + d[3];
    var v5 := v4 * 16 + d[4];
    assert HexFold(0, d) == HexFold(v1, d[1..]);
    assert d[1..][1..] == d[2..];
    assert HexFold(v1, d[1..]) == HexFold(v2, d[2..]);
    assert d[2..][1..] == d[3..];
    assert HexFold(v2, d[2..]) == HexFold(v3, d[3..]);
    assert d[3..][1..] == d[4..];
    assert HexFold(v3, d[3..]) == HexFold(v4, d[4..]);
    assert d[4..][1..] == d[5..];
    assert HexFold(v4, d[4..]) == HexFold(v5, d[5..]);
    assert d[5..][1..] == [];
    assert HexFold(v5, d[5..]) == HexFold(v5 * 16 + d[5], []);
  }

  /** The digits of a "#RRGGBB" code, and their value. */
  lemma HexCodeDigits(r: nat, g: nat, b: nat) returns (d: seq<nat>)
    requires r < 256 && g < 256 && b < 256
    ensures |d| == 6 && forall i :: 0 <= i < 6 ==> HexDigit(HexCode(r, g, b)[1..][i]) == Some(d[i])
    ensures HexFold(0, d) == r * 65536 + g * 256 + b
  {
    d := [r / 16, r % 16, g / 16, g % 16, b / 16, b % 16];
    FoldSix(d);
    assert d[0] * 16 + d[1] == r && d[2] * 16 + d[3] == g && d[4] * 16 + d[5] == b;
  }

  /** Three bytes packed as `r * 65536 + g * 256 + b` unpack to themselves. */
  lemma ChannelsOfBytes(r: nat, g: nat, b: nat)
    requires r < 256 && g < 256 && b < 256
    ensures Channels(r * 65536 + g * 256 + b) == (r, g, b)
  {
    var v := r * 65536 + g * 256 + b;
    DivBy65536(v, r, g * 256 + b);
    DivBy256(v, r * 256 + g, b);
    DivBy256(r * 256 + g, r, g);
    DivBy256(r, 0, r);
  }

  /** Decoding a "#RRGGBB" code gives back its three bytes. */
  lemma HexCodeRoundTrip(r: nat, g: nat, b: nat)
    requires r < 256 && g < 256 && b < 256
    ensures HexColor(HexCode(r, g, b)) == (r, g, b)
  {
    var h := HexCode(r, g, b)[1..];
    TrimHexCode(r, g, b);
    var d := HexCodeDigits(r, g, b);
    ScanFold(h, d, 0);
    assert DigitsStart(h) == 0;
    assert ScanHex(h) == Some(r * 65536 + g * 256 + b);
    ChannelsOfBytes(r, g, b);
  }

  /** The app's palette: background, accent and secondary text. */
  lemma Palette()
    ensures HexColor("#1A1A1A") == (26, 26, 26)
    ensures HexColor("#C2E078") == (194, 224, 120)
    ensures HexColor("#8E8E93") == (142, 142, 147)
  {
    assert HexCode(26, 26, 26) == "#1A1A1A";
    HexCodeRoundTrip(26, 26, 26);
    assert HexCode(194, 224, 120) == "#C2E078";
    HexCodeRoundTrip(194, 224, 120);
    assert HexCode(142, 142, 147) == "#8E8E93";
    HexCodeRoundTrip(142, 142, 147);
  }
}
