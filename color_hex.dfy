/**
 * `Color.init(hex:)`, up to the integer ARGB components: the string is trimmed of
 * non-alphanumeric characters at both ends, scanned as a hexadecimal number, and split
 * into components according to its length (3, 6 or 8 characters).
 */
module ColorHex {

  /** Letters and digits; only ASCII characters are modelled. */
  predicate IsAlphanumeric(c: char) {
    ('a' <= c <= 'z') || ('A' <= c <= 'Z') || ('0' <= c <= '9')
  }

  predicate IsHexDigit(c: char) {
    ('0' <= c <= '9') || ('a' <= c <= 'f') || ('A' <= c <= 'F')
  }

  function HexDigitValue(c: char): (d: nat)
    requires IsHexDigit(c)
    ensures d < 16
  {
    if '0' <= c <= '9' then (c as int) - ('0' as int)
    else if 'a' <= c <= 'f' then (c as int) - ('a' as int) + 10
    else (c as int) - ('A' as int) + 10
  }

  predicate AllHex(s: string) {
    forall i :: 0 <= i < |s| ==> IsHexDigit(s[i])
  }

  function Pow16(n: nat): (p: nat)
    ensures p >= 1
  {
    if n == 0 then 1 else 16 * Pow16(n - 1)
  }

  /** The number a string of hexadecimal digits denotes, most significant first. */
  function HexValue(s: string): nat
    requires AllHex(s)
  {
    if |s| == 0 then 0 else HexValue(s[..|s| - 1]) * 16 + HexDigitValue(s[|s| - 1])
  }

  /** The length of the longest prefix of hexadecimal digits. */
  function HexRunLength(s: string): (n: nat)
    ensures n <= |s| && AllHex(s[..n])
    ensures n < |s| ==> !IsHexDigit(s[n])
  {
    if |s| == 0 || !IsHexDigit(s[0]) then 0
    else
      var rest := HexRunLength(s[1..]);
      assert s[..rest + 1] == [s[0]] + s[1..][..rest];
      rest + 1
  }

  const UInt64Max: nat := 0xFFFF_FFFF_FFFF_FFFF

  /**
   * `Scanner.scanHexInt64`: an optional "0x" or "0X" prefix, then as many hexadecimal digits
   * as there are; the value saturates at the largest `UInt64`, and is 0 without any digit.
   */
  function ScanHexInt64(s: string): (v: nat)
    ensures v <= UInt64Max
  {
    var digits := if |s| >= 2 && s[0] == '0' && (s[1] == 'x' || s[1] == 'X') then s[2..] else s;
    var run := digits[..HexRunLength(digits)];
    if HexValue(run) > UInt64Max then UInt64Max else HexValue(run)
  }

  /** `trimmingCharacters(in:)` at the start. */
  function TrimStart(s: string): (t: string)
    ensures |t| <= |s| && t == s[|s| - |t|..]
    ensures t == [] || IsAlphanumeric(t[0])
  {
    if |s| == 0 || IsAlphanumeric(s[0]) then s
    else TrimStart(s[1..])
  }

  /** `trimmingCharacters(in:)` at the end. */
  function TrimEnd(s: string): (t: string)
    ensures |t| <= |s| && t == s[..|t|]
    ensures t == [] || IsAlphanumeric(t[|t| - 1])
  {
    if |s| == 0 || IsAlphanumeric(s[|s| - 1]) then s
    else TrimEnd(s[..|s| - 1])
  }

  /** `TrimStart` drops only non-alphanumerics: every character before the result is one. */
  lemma {:induction false} TrimStartDropsNonAlphanumerics(s: string)
    ensures forall i :: 0 <= i < |s| - |TrimStart(s)| ==> !IsAlphanumeric(s[i])
    decreases |s|
  {
    if |s| > 0 && !IsAlphanumeric(s[0]) {
      TrimStartDropsNonAlphanumerics(s[1..]);
      forall i | 1 <= i < |s| - |TrimStart(s)| ensures !IsAlphanumeric(s[i]) {
        assert s[i] == s[1..][i - 1];
      }
    }
  }

  /** `TrimEnd` drops only non-alphanumerics: every character after the result is one. */
  lemma {:induction false} TrimEndDropsNonAlphanumerics(s: string)
    ensures forall i :: |TrimEnd(s)| <= i < |s| ==> !IsAlphanumeric(s[i])
    decreases |s|
  {
    if |s| > 0 && !IsAlphanumeric(s[|s| - 1]) {
      TrimEndDropsNonAlphanumerics(s[..|s| - 1]);
      forall i | |TrimEnd(s)| <= i < |s| - 1 ensures !IsAlphanumeric(s[i]) {
        assert s[i] == s[..|s| - 1][i];
      }
    }
  }

  /** `trimmingCharacters(in: CharacterSet.alphanumerics.inverted)`. */
  function Trim(s: string): string {
    TrimEnd(TrimStart(s))
  }

  /** Integer colour components, each meant to lie in 0..255. */
  datatype Argb = Argb(a: int, r: int, g: int, b: int)

  /**
   * The `switch` on the trimmed length: `v` split into components. `>>` and `&` on a
   * `UInt64` are division and remainder.
   */
  function ComponentsOf(length: nat, v: nat): Argb {
    if length == 3 then Argb(255, (v / 256) * 17, ((v / 16) % 16) * 17, (v % 16) * 17)
    else if length == 6 then Argb(255, v / 65536, (v / 256) % 256, v % 256)
    else if length == 8 then Argb(v / 16777216, (v / 65536) % 256, (v / 256) % 256, v % 256)
    else Argb(255, 0, 0, 0)
  }

  /** The components `Color(hex:)` computes: all four always lie in 0..255. */
  function ArgbOfHex(hex: string): (c: Argb)
    ensures InByteRange(c)
  {
    var h := Trim(hex);
    ScanBound(h);
    ComponentsOfInRange(|h|, ScanHexInt64(h));
    ComponentsOf(|h|, ScanHexInt64(h))
  }

  predicate InByteRange(c: Argb) {
    0 <= c.a <= 255 && 0 <= c.r <= 255 && 0 <= c.g <= 255 && 0 <= c.b <= 255
  }

  lemma {:induction false} HexValueBound(s: string)
    requires AllHex(s)
    ensures HexValue(s) < Pow16(|s|)
  {
    if |s| > 0 {
      HexValueBound(s[..|s| - 1]);
    }
  }

  lemma {:induction false} Pow16Monotone(m: nat, n: nat)
    requires m <= n
    ensures Pow16(m) <= Pow16(n)
    decreases n
  {
    if m < n {
      Pow16Monotone(m, n - 1);
    }
  }

  /** The scanned value has no more hexadecimal digits than the string has characters. */
  lemma ScanBound(s: string)
    ensures ScanHexInt64(s) < Pow16(|s|)
  {
    var digits := if |s| >= 2 && s[0] == '0' && (s[1] == 'x' || s[1] == 'X') then s[2..] else s;
    var run := digits[..HexRunLength(digits)];
    HexValueBound(run);
    Pow16Monotone(|run|, |s|);
  }

  /** The powers of 16 that the recognised lengths need. */
  lemma Pow16Values()
    ensures Pow16(3) == 4096 && Pow16(6) == 0x100_0000 && Pow16(8) == 0x1_0000_0000
  {
  }

  /** A value with no more digits than the length splits into bytes. */
  lemma ComponentsOfInRange(length: nat, v: nat)
    requires v < Pow16(length)
    ensures InByteRange(ComponentsOf(length, v))
  {
    Pow16Values();
    if length == 3 {
      assert v / 256 <= 15;
    } else if length == 6 {
      assert v / 65536 <= 255;
    } else if length == 8 {
      assert v / 16777216 <= 255;
    }
  }

  /** Any other length gives opaque black. */
  lemma OtherLengthsOpaqueBlack(hex: string)
    requires |Trim(hex)| != 3 && |Trim(hex)| != 6 && |Trim(hex)| != 8
    ensures ArgbOfHex(hex) == Argb(255, 0, 0, 0)
  {
  }

  /** A string of hexadecimal digits is scanned whole when it has no "0x" prefix. */
  lemma ScanAllHex(s: string)
    requires AllHex(s) && |s| <= 8
    ensures ScanHexInt64(s) == HexValue(s)
  {
    assert !(|s| >= 2 && s[0] == '0' && (s[1] == 'x' || s[1] == 'X'));
    assert HexRunLength(s) == |s|;
    assert s[..|s|] == s;
    HexValueBound(s);
    Pow16Monotone(|s|, 8);
    Pow16Values();
  }

  /** A string that starts and ends with an alphanumeric is not trimmed; a leading "#" is. */
  lemma TrimHash(s: string)
    requires |s| > 0 && IsAlphanumeric(s[0]) && IsAlphanumeric(s[|s| - 1])
    ensures Trim("#" + s) == s
  {
    var h := "#" + s;
    assert !IsAlphanumeric(h[0]) && h[1..] == s;
    assert TrimStart(h) == TrimStart(s) == s;
    assert TrimEnd(s) == s;
  }

  /** Dividing `q * 256 + d` by 256, for a byte `d`. */
  lemma DivByte(q: nat, d: nat)
    requires d < 256
    ensures (q * 256 + d) / 256 == q && (q * 256 + d) % 256 == d
  {
  }

  /** Dividing `q * 16 + d` by 16, for a digit `d`. */
  lemma DivDigit(q: nat, d: nat)
    requires d < 16
    ensures (q * 16 + d) / 16 == q && (q * 16 + d) % 16 == d
  {
  }

  /** Six digits denoting `r * 65536 + g * 256 + b` split into `(255, r, g, b)`. */
  lemma RgbComponents(v: nat, r: nat, g: nat, b: nat)
    requires r < 256 && g < 256 && b < 256 && v == r * 65536 + g * 256 + b
    ensures ComponentsOf(6, v) == Argb(255, r, g, b)
  {
    var rg := r * 256 + g;
    assert v == rg * 256 + b;
    DivByte(rg, b);
    DivByte(r, g);
    assert v / 65536 == v / 256 / 256;
  }

  /** Eight digits split into four bytes, alpha first. */
  lemma ArgbComponents(v: nat, a: nat, r: nat, g: nat, b: nat)
    requires a < 256 && r < 256 && g < 256 && b < 256 && v == a * 16777216 + r * 65536 + g * 256 + b
    ensures ComponentsOf(8, v) == Argb(a, r, g, b)
  {
    var ar := a * 256 + r;
    var arg := ar * 256 + g;
    assert v == arg * 256 + b;
    DivByte(arg, b);
    DivByte(ar, g);
    DivByte(a, r);
    assert v / 65536 == v / 256 / 256;
    assert v / 16777216 == v / 65536 / 256;
  }

  /** Three digits: each stands for itself repeated, 17 times its value. */
  lemma ShortComponents(v: nat, r: nat, g: nat, b: nat)
    requires r < 16 && g < 16 && b < 16 && v == r * 256 + g * 16 + b
    ensures ComponentsOf(3, v) == Argb(255, 17 * r, 17 * g, 17 * b)
  {
    var rg := r * 16 + g;
    assert v == rg * 16 + b;
    DivDigit(rg, b);
    DivDigit(r, g);
    assert v / 256 == v / 16 / 16;
  }

  /** `#` and up to eight hexadecimal digits: the "#" is trimmed and the digits are scanned whole. */
  lemma HashDigits(digits: string)
    requires 0 < |digits| <= 8 && AllHex(digits)
    ensures ArgbOfHex("#" + digits) == ComponentsOf(|digits|, HexValue(digits))
  {
    assert IsHexDigit(digits[0]) && IsHexDigit(digits[|digits| - 1]);
    TrimHash(digits);
    ScanAllHex(digits);
  }

  /**
   * Round trip: `#` and any six hexadecimal digits (either case) that denote
   * `r * 65536 + g * 256 + b` give back the three bytes, fully opaque.
   */
  lemma RgbRoundTrip(digits: string, r: nat, g: nat, b: nat)
    requires r < 256 && g < 256 && b < 256
    requires |digits| == 6 && AllHex(digits) && HexValue(digits) == r * 65536 + g * 256 + b
    ensures ArgbOfHex("#" + digits) == Argb(255, r, g, b)
  {
    HashDigits(digits);
    RgbComponents(HexValue(digits), r, g, b);
  }

  /** Round trip: `#` and eight digits `AARRGGBB` give back the four bytes, alpha from the top byte. */
  lemma ArgbRoundTrip(digits: string, a: nat, r: nat, g: nat, b: nat)
    requires a < 256 && r < 256 && g < 256 && b < 256
    requires |digits| == 8 && AllHex(digits) && HexValue(digits) == a * 16777216 + r * 65536 + g * 256 + b
    ensures ArgbOfHex("#" + digits) == Argb(a, r, g, b)
  {
    HashDigits(digits);
    ArgbComponents(HexValue(digits), a, r, g, b);
  }

  /** Round trip: `#RGB` repeats each digit, so each component is 17 times its digit. */
  lemma ShortRoundTrip(digits: string, r: nat, g: nat, b: nat)
    requires r < 16 && g < 16 && b < 16
    requires |digits| == 3 && AllHex(digits) && HexValue(digits) == r * 256 + g * 16 + b
    ensures ArgbOfHex("#" + digits) == Argb(255, 17 * r, 17 * g, 17 * b)
  {
    HashDigits(digits);
    ShortComponents(HexValue(digits), r, g, b);
  }

  /** A run of "F" digits denotes the largest value of its length. */
  lemma {:induction false} AllFValue(s: string)
    requires forall i :: 0 <= i < |s| ==> s[i] == 'F'
    ensures AllHex(s) && HexValue(s) == Pow16(|s|) - 1
    decreases |s|
  {
    if |s| > 0 {
      var init := s[..|s| - 1];
      assert forall i :: 0 <= i < |init| ==> init[i] == s[i];
      AllFValue(init);
    }
  }

  /** The source's example: a leading "#" is trimmed, and white is all ones. */
  lemma WhiteExample()
    ensures ArgbOfHex("#FFFFFF") == Argb(255, 255, 255, 255)
  {
    var six := "FFFFFF";
    assert "#" + six == "#FFFFFF";
    AllFValue(six);
    assert Pow16(6) == 16777216;
    RgbRoundTrip(six, 255, 255, 255);
  }

  /** Three digits: each one is repeated, so "FFF" is white too; nothing is trimmed. */
  lemma ShortWhiteExample()
    ensures ArgbOfHex("FFF") == Argb(255, 255, 255, 255)
  {
    var fff := "FFF";
    AllFValue(fff);
    assert Pow16(3) == 4096;
    assert TrimStart(fff) == fff && TrimEnd(fff) == fff;
    ScanAllHex(fff);
    ShortComponents(4095, 15, 15, 15);
  }

  /** Five digits is not a recognised length. */
  lemma FiveDigitExample()
    ensures ArgbOfHex("#12345") == Argb(255, 0, 0, 0)
  {
    var five := "12345";
    TrimHash(five);
    assert "#" + five == "#12345";
    OtherLengthsOpaqueBlack("#12345");
  }
}
