/**
 * `Color(hex:)`: a colour written as "RRGGBB" or "AARRGGBB" (with any
 * surrounding punctuation such as a leading '#') becomes four 8-bit channels.
 * The string is trimmed of non-alphanumeric characters at both ends, its
 * leading hexadecimal digits are read as a number, and the trimmed length
 * decides how that number splits into channels; any other length gives
 * opaque black.
 */
module HexColor {
  import opened Sequences
  import opened Text

  predicate IsAlphanumeric(c: char)
  {
    IsAsciiLetter(c) || IsAsciiDigit(c)
  }

  /** One past the last alphanumeric character of `s` (0 when there is none). */
  function AlphanumericEnd(s: string): (e: nat)
    ensures e <= |s|
    ensures e > 0 ==> IsAlphanumeric(s[e - 1])
    ensures forall k :: e <= k < |s| ==> !IsAlphanumeric(s[k])
  {
    if |s| == 0 || IsAlphanumeric(s[|s| - 1]) then |s| else AlphanumericEnd(s[..|s| - 1])
  }

  /**
   * `trimmingCharacters(in: CharacterSet.alphanumerics.inverted)`: the
   * stretch of `s` from its first to its last alphanumeric character, or
   * the empty string when there is none.
   */
  function Trim(s: string): (t: string)
    ensures |t| <= |s|
    ensures |t| > 0 ==> IsAlphanumeric(t[0]) && IsAlphanumeric(t[|t| - 1])
  {
    var start := FirstIndex(s, IsAlphanumeric);
    var end := AlphanumericEnd(s);
    if start == |s| then "" else s[start..end]
  }

  /**
   * Trimming removes only non-alphanumeric characters, and only at the
   * ends: the result is the stretch of `s` after its leading separators.
   */
  lemma TrimRemovesOnlySeparators(s: string)
    ensures var i, t := FirstIndex(s, IsAlphanumeric), Trim(s);
      && i + |t| <= |s|
      && t == s[i..i + |t|]
      && (forall k :: 0 <= k < i ==> !IsAlphanumeric(s[k]))
      && (forall k :: i + |t| <= k < |s| ==> !IsAlphanumeric(s[k]))
  {
  }

  /** Trimming a trimmed string changes nothing. */
  lemma TrimIdempotent(s: string)
    ensures Trim(Trim(s)) == Trim(s)
  {
    var t := Trim(s);
    if |t| > 0 {
      assert FirstIndex(t, IsAlphanumeric) == 0;
      assert AlphanumericEnd(t) == |t|;
    }
  }

  /** A leading separator moves the last alphanumeric character one place on. */
  lemma {:induction false} AlphanumericEndAfterSeparator(h: string)
    requires |h| > 0 && !IsAlphanumeric(h[0])
    ensures AlphanumericEnd(h) == if AlphanumericEnd(h[1..]) == 0 then 0 else AlphanumericEnd(h[1..]) + 1
  {
    if |h| > 1 && !IsAlphanumeric(h[|h| - 1]) {
      var init := h[..|h| - 1];
      assert init[1..] == h[1..][..|h| - 2];
      AlphanumericEndAfterSeparator(init);
    }
  }

  /** A non-alphanumeric character in front, such as the usual '#', is trimmed away. */
  lemma TrimDropsLeadingSeparator(h: string)
    requires |h| > 0 && !IsAlphanumeric(h[0])
    ensures Trim(h) == Trim(h[1..])
  {
    var s := h[1..];
    AlphanumericEndAfterSeparator(h);
    var start, end := FirstIndex(s, IsAlphanumeric), AlphanumericEnd(s);
    assert FirstIndex(h, IsAlphanumeric) == start + 1;
    if start < |s| {
      assert start < end by {
        assert IsAlphanumeric(s[start]);
      }
      TrimIsStretch(h, start + 1, end + 1);
      TrimIsStretch(s, start, end);
      SliceOfTail(h, start, end);
    }
  }

  /** Hence a leading '#' makes no difference to the colour. */
  lemma HashPrefixIgnored(s: string)
    ensures ColorFromHex(['#'] + s) == ColorFromHex(s)
  {
    assert (['#'] + s)[1..] == s;
    TrimDropsLeadingSeparator(['#'] + s);
  }

  /** Trim, read off its two ends. */
  lemma TrimIsStretch(s: string, start: nat, end: nat)
    requires start == FirstIndex(s, IsAlphanumeric) < |s| && end == AlphanumericEnd(s)
    ensures start <= end && Trim(s) == s[start..end]
  {
    assert IsAlphanumeric(s[start]);
  }

  predicate IsHexDigit(c: char)
  {
    '0' <= c <= '9' || 'a' <= c <= 'f' || 'A' <= c <= 'F'
  }

  predicate AllHexDigits(s: string)
  {
    forall i :: 0 <= i < |s| ==> IsHexDigit(s[i])
  }

  function HexDigitValue(c: char): (v: nat)
    requires IsHexDigit(c)
    ensures v < 16
  {
    if '0' <= c <= '9' then c as int - '0' as int
    else if 'a' <= c <= 'f' then c as int - 'a' as int + 10
    else c as int - 'A' as int + 10
  }

  function Pow16(n: nat): (p: nat)
    ensures p >= 1
  {
    if n == 0 then 1 else Pow16(n - 1) * 16
  }

  lemma {:induction false} Pow16Monotone(m: nat, n: nat)
    requires m <= n
    ensures Pow16(m) <= Pow16(n)
  {
    if m < n {
      Pow16Monotone(m, n - 1);
    }
  }

  /** The number a string of hexadecimal digits denotes, most significant digit first. */
  function HexValue(s: string): (v: nat)
    requires AllHexDigits(s)
    ensures v < Pow16(|s|)
  {
    if |s| == 0 then 0
    else HexValue(s[..|s| - 1]) * 16 + HexDigitValue(s[|s| - 1])
  }

  /** Reading digits in two parts: the first part is shifted left by the second's width. */
  lemma {:induction false} HexValueAppend(a: string, b: string)
    requires AllHexDigits(a) && AllHexDigits(b)
    ensures AllHexDigits(a + b)
    ensures HexValue(a + b) == HexValue(a) * Pow16(|b|) + HexValue(b)
  {
    AllHexDigitsAppend(a, b);
    if |b| > 0 {
      var b' := b[..|b| - 1];
      var d := HexDigitValue(b[|b| - 1]);
      DropLastOfAppend(a, b);
      assert AllHexDigits(b');
      HexValueAppend(a, b');
      assert HexValue(a + b) == HexValue(a + b') * 16 + d;
      assert HexValue(b) == HexValue(b') * 16 + d;
      Regroup(HexValue(a), Pow16(|b'|), HexValue(b'), d);
    } else {
      assert a + b == a;
    }
  }

  lemma AllHexDigitsAppend(a: string, b: string)
    requires AllHexDigits(a) && AllHexDigits(b)
    ensures AllHexDigits(a + b)
  {
    assert forall i :: 0 <= i < |a + b| ==> (a + b)[i] == if i < |a| then a[i] else b[i - |a|];
  }

  lemma Regroup(x: int, p: int, y: int, d: int)
    ensures (x * p + y) * 16 + d == x * (p * 16) + (y * 16 + d)
  {
  }

  predicate IsNotHexDigit(c: char)
  {
    !IsHexDigit(c)
  }

  /** The value of the leading run of hexadecimal digits of `s` (0 when there is none). */
  function LeadingHexValue(s: string): (v: nat)
    ensures v < Pow16(|s|)
    ensures AllHexDigits(s) ==> v == HexValue(s)
  {
    var n := FirstIndex(s, IsNotHexDigit);
    Pow16Monotone(n, |s|);
    assert s[..n] == s[..n];
    assert AllHexDigits(s) ==> n == |s| && s[..n] == s;
    HexValue(s[..n])
  }

  /** A "0x" or "0X" marker followed by a hexadecimal digit. */
  predicate HasHexPrefix(s: string)
  {
    |s| >= 3 && s[0] == '0' && (s[1] == 'x' || s[1] == 'X') && IsHexDigit(s[2])
  }

  /**
   * `Scanner(string:).scanHexInt64(&int)`: the value of the leading run of
   * hexadecimal digits, after an optional "0x" or "0X" marker.
   */
  function ScanHex(s: string): (v: nat)
    ensures v < Pow16(|s|)
    ensures AllHexDigits(s) ==> v == HexValue(s)
    ensures HasHexPrefix(s) ==> v == LeadingHexValue(s[2..])
  {
    if HasHexPrefix(s) then
      Pow16Monotone(|s| - 2, |s|);
      LeadingHexValue(s[2..])
    else
      LeadingHexValue(s)
  }

  /** Four 8-bit channels. */
  datatype Rgba = Rgba(alpha: nat, red: nat, green: nat, blue: nat)

  /**
   * The `switch hex.count`: six digits are RRGGBB under full opacity, eight
   * are AARRGGBB, anything else is opaque black. `x >> k` is `x / 2^k` and
   * `& 0xFF` is `% 256`.
   */
  function Channels(count: int, value: nat): (c: Rgba)
    ensures count != 6 && count != 8 ==> c == Rgba(255, 0, 0, 0)
    ensures count == 6 ==> c.alpha == 255 && c.green <= 255 && c.blue <= 255
    ensures count == 8 ==> c.red <= 255 && c.green <= 255 && c.blue <= 255
  {
    match count
    case 6 => Rgba(255, value / 0x1_0000, (value / 0x100) % 0x100, value % 0x100)
    case 8 => Rgba(value / 0x100_0000, (value / 0x1_0000) % 0x100, (value / 0x100) % 0x100, value % 0x100)
    case _ => Rgba(255, 0, 0, 0)
  }

  predicate IsByte(x: nat)
  {
    x <= 255
  }

  /** `Color(hex:)`, up to the channels: every channel is a byte, whatever the input. */
  function ColorFromHex(hex: string): (c: Rgba)
    ensures IsByte(c.alpha) && IsByte(c.red) && IsByte(c.green) && IsByte(c.blue)
  {
    var t := Trim(hex);
    var value := ScanHex(t);
    assert |t| == 6 ==> value / 0x1_0000 <= 255 by {
      if |t| == 6 {
        assert Pow16(6) == 0x100_0000;
      }
    }
    assert |t| == 8 ==> value / 0x100_0000 <= 255 by {
      if |t| == 8 {
        assert Pow16(8) == 0x1_0000_0000;
      }
    }
    Channels(|t|, value)
  }

  lemma DivideBy256(v: int, q: int, r: int)
    requires 0 <= r < 0x100 && v == q * 0x100 + r
    ensures v / 0x100 == q && v % 0x100 == r
  {
  }

  lemma DivideBy65536(v: int, q: int, r: int)
    requires 0 <= r < 0x1_0000 && v == q * 0x1_0000 + r
    ensures v / 0x1_0000 == q && v % 0x1_0000 == r
  {
  }

  lemma DivideBy16777216(v: int, q: int, r: int)
    requires 0 <= r < 0x100_0000 && v == q * 0x100_0000 + r
    ensures v / 0x100_0000 == q && v % 0x100_0000 == r
  {
  }

  /** Three bytes written one after the other are read back by the six-digit split. */
  lemma SixDigitSplit(r: nat, g: nat, b: nat)
    requires IsByte(r) && IsByte(g) && IsByte(b)
    ensures Channels(6, r * 0x1_0000 + g * 0x100 + b) == Rgba(255, r, g, b)
  {
    var v := r * 0x1_0000 + g * 0x100 + b;
    DivideBy65536(v, r, g * 0x100 + b);
    DivideBy256(v, r * 0x100 + g, b);
    DivideBy256(r * 0x100 + g, r, g);
  }

  /** Four bytes written one after the other are read back by the eight-digit split. */
  lemma EightDigitSplit(a: nat, r: nat, g: nat, b: nat)
    requires IsByte(a) && IsByte(r) && IsByte(g) && IsByte(b)
    ensures Channels(8, a * 0x100_0000 + r * 0x1_0000 + g * 0x100 + b) == Rgba(a, r, g, b)
  {
    var v := a * 0x100_0000 + r * 0x1_0000 + g * 0x100 + b;
    DivideBy16777216(v, a, r * 0x1_0000 + g * 0x100 + b);
    DivideBy65536(v, a * 0x100 + r, g * 0x100 + b);
    DivideBy256(a * 0x100 + r, a, r);
    DivideBy256(v, a * 0x1_0000 + r * 0x100 + g, b);
    DivideBy256(a * 0x1_0000 + r * 0x100 + g, a * 0x100 + r, g);
  }

  /** Two hexadecimal digits make a byte. */
  lemma PairIsByte(s: string)
    requires |s| == 2 && AllHexDigits(s)
    ensures IsByte(HexValue(s))
  {
    assert Pow16(2) == 256;
  }

  /** Six digits read as one number: the pairs are its three bytes, most significant first. */
  lemma {:induction false} SixDigitValue(t: string)
    requires |t| == 6 && AllHexDigits(t)
    ensures AllHexDigits(t[0..2]) && AllHexDigits(t[2..4]) && AllHexDigits(t[4..6])
    ensures HexValue(t) == HexValue(t[0..2]) * 0x1_0000 + HexValue(t[2..4]) * 0x100 + HexValue(t[4..6])
  {
    var rr, gg, bb, rrgg := t[0..2], t[2..4], t[4..6], t[0..4];
    SplitSlice(t, 0, 2, 4);
    SplitSlice(t, 0, 4, 6);
    assert t[0..6] == t;
    assert Pow16(2) == 0x100;
    HexValueAppend(rr, gg);
    HexValueAppend(rrgg, bb);
    var x, y, z := HexValue(rr), HexValue(gg), HexValue(bb);
    assert HexValue(rrgg) == x * 0x100 + y;
    assert HexValue(t) == HexValue(rrgg) * 0x100 + z;
  }

  /** Eight digits read as one number: the pairs are its four bytes, most significant first. */
  lemma {:induction false} EightDigitValue(t: string)
    requires |t| == 8 && AllHexDigits(t)
    ensures AllHexDigits(t[0..2]) && AllHexDigits(t[2..4]) && AllHexDigits(t[4..6]) && AllHexDigits(t[6..8])
    ensures HexValue(t) == HexValue(t[0..2]) * 0x100_0000 + HexValue(t[2..4]) * 0x1_0000 + HexValue(t[4..6]) * 0x100 + HexValue(t[6..8])
  {
    var aa, rest := t[0..2], t[2..8];
    SplitSlice(t, 0, 2, 8);
    assert t[0..8] == t;
    assert Pow16(6) == 0x100_0000;
    HexValueAppend(aa, rest);
    SixDigitValue(rest);
    SliceOfSlice(t, 2, 8, 0, 2);
    SliceOfSlice(t, 2, 8, 2, 4);
    SliceOfSlice(t, 2, 8, 4, 6);
    var a, r, g, b := HexValue(aa), HexValue(t[2..4]), HexValue(t[4..6]), HexValue(t[6..8]);
    assert HexValue(rest) == r * 0x1_0000 + g * 0x100 + b;
    assert HexValue(t) == a * 0x100_0000 + HexValue(rest);
  }

  /** "RRGGBB": each channel is the value of its own pair of digits, fully opaque. */
  lemma SixDigitColor(hex: string)
    requires |Trim(hex)| == 6 && AllHexDigits(Trim(hex))
    ensures var t := Trim(hex);
      ColorFromHex(hex) == Rgba(255, HexValue(t[0..2]), HexValue(t[2..4]), HexValue(t[4..6]))
  {
    var t := Trim(hex);
    SixDigitValue(t);
    PairIsByte(t[0..2]);
    PairIsByte(t[2..4]);
    PairIsByte(t[4..6]);
    var r, g, b := HexValue(t[0..2]), HexValue(t[2..4]), HexValue(t[4..6]);
    SixDigitSplit(r, g, b);
    assert ScanHex(t) == r * 0x1_0000 + g * 0x100 + b;
    assert ColorFromHex(hex) == Channels(6, ScanHex(t)) == Rgba(255, r, g, b);
  }

  /** "AARRGGBB": each channel, opacity included, is the value of its own pair of digits. */
  lemma EightDigitColor(hex: string)
    requires |Trim(hex)| == 8 && AllHexDigits(Trim(hex))
    ensures var t := Trim(hex);
      ColorFromHex(hex) == Rgba(HexValue(t[0..2]), HexValue(t[2..4]), HexValue(t[4..6]), HexValue(t[6..8]))
  {
    var t := Trim(hex);
    EightDigitValue(t);
    PairIsByte(t[0..2]);
    PairIsByte(t[2..4]);
    PairIsByte(t[4..6]);
    PairIsByte(t[6..8]);
    var a, r, g, b := HexValue(t[0..2]), HexValue(t[2..4]), HexValue(t[4..6]), HexValue(t[6..8]);
    EightDigitSplit(a, r, g, b);
    assert ScanHex(t) == a * 0x100_0000 + r * 0x1_0000 + g * 0x100 + b;
    assert ColorFromHex(hex) == Channels(8, ScanHex(t)) == Rgba(a, r, g, b);
  }

  /** A trimmed length other than six or eight gives opaque black. */
  lemma OtherLengthIsBlack(hex: string)
    requires |Trim(hex)| != 6 && |Trim(hex)| != 8
    ensures ColorFromHex(hex) == Rgba(255, 0, 0, 0)
  {
  }
}
