/**
 * `Renderer.adjustColor` (src/game/Renderer.ts:246-252): read a `#rrggbb`
 * colour with `parseInt(color.slice(1), 16)`, split it into three channels with
 * shifts and masks, add `amount` to each channel clamped to [0, 255], and
 * write the result back as `#` and six hex digits.
 *
 * The JavaScript steps are written out: `parseInt` with radix 16 (leading
 * white space, a sign, an optional `0x` prefix, the longest run of hex digits,
 * NaN when there is none), `ToInt32` before `>>` and `&` (NaN becomes 0),
 * arithmetic `>>` as floor division, `& 0xFF` as the remainder modulo 256,
 * `Number.prototype.toString(16)` and `padStart(6, '0')`.
 */
module ColorAdjust {

  // ---------------------------------------------------------------------------
  // Hex digits
  // ---------------------------------------------------------------------------

  predicate IsHexDigit(c: char)
  {
    '0' <= c <= '9' || 'a' <= c <= 'f' || 'A' <= c <= 'F'
  }

  predicate IsLowerHexDigit(c: char)
  {
    '0' <= c <= '9' || 'a' <= c <= 'f'
  }

  predicate AllHexDigits(s: string)
  {
    forall i :: 0 <= i < |s| ==> IsHexDigit(s[i])
  }

  predicate AllLowerHexDigits(s: string)
  {
    forall i :: 0 <= i < |s| ==> IsLowerHexDigit(s[i])
  }

  /** A colour as the car table writes it: `#` followed by six hex digits of either case. */
  predicate IsHexColor(c: string)
  {
    |c| == 7 && c[0] == '#' && AllHexDigits(c[1..])
  }

  /** A colour as `adjustColor` writes it: `#` followed by six lower-case hex digits. */
  predicate IsCanonicalColor(c: string)
  {
    |c| == 7 && c[0] == '#' && AllLowerHexDigits(c[1..])
  }

  function DigitValue(c: char): (v: nat)
    requires IsHexDigit(c)
    ensures v < 16
  {
    if '0' <= c <= '9' then (c as int - '0' as int)
    else if 'a' <= c <= 'f' then (c as int - 'a' as int) + 10
    else (c as int - 'A' as int) + 10
  }

  /** The lower-case digit that `toString(16)` writes for `d`. */
  function HexChar(d: nat): (c: char)
    requires d < 16
    ensures IsLowerHexDigit(c) && IsHexDigit(c) && DigitValue(c) == d
  {
    "0123456789abcdef"[d]
  }

  /** `toLowerCase` on one hex digit. */
  function LowerDigit(c: char): (l: char)
    requires IsHexDigit(c)
    ensures IsLowerHexDigit(l) && DigitValue(l) == DigitValue(c)
  {
    if 'A' <= c <= 'F' then (c as int - 'A' as int + 'a' as int) as char else c
  }

  function LowerHex(s: string): (r: string)
    requires AllHexDigits(s)
    ensures |r| == |s| && AllLowerHexDigits(r)
    ensures forall i :: 0 <= i < |s| ==> r[i] == LowerDigit(s[i])
  {
    if s == [] then [] else LowerHex(s[..|s| - 1]) + [LowerDigit(s[|s| - 1])]
  }

  function Pow16(k: nat): (p: nat)
    ensures p >= 1
  {
    if k == 0 then 1 else 16 * Pow16(k - 1)
  }

  /** The number a string of hex digits denotes, most significant digit first. */
  function HexValue(s: string): nat
    requires AllHexDigits(s)
  {
    if s == [] then 0 else HexValue(s[..|s| - 1]) * 16 + DigitValue(s[|s| - 1])
  }

  /** The low `w` hex digits of `n`, lower case, most significant first. */
  function FixedHex(n: nat, w: nat): (s: string)
    ensures |s| == w && AllLowerHexDigits(s) && AllHexDigits(s)
  {
    if w == 0 then [] else FixedHex(n / 16, w - 1) + [HexChar(n % 16)]
  }

  // ---------------------------------------------------------------------------
  // The JavaScript operations adjustColor uses
  // ---------------------------------------------------------------------------

  /** A JavaScript number as `parseInt` can return it: NaN or an integer. */
  datatype JsNumber = NaN | Integer(value: int)

  /** The characters `parseInt` skips at the start (StrWhiteSpaceChar of ECMA-262). */
  predicate IsJsWhiteSpace(c: char)
  {
    c == '\t' || c == '\n' || c == '\U{000B}' || c == '\U{000C}' || c == '\r' || c == ' '
    || c == '\U{00A0}' || c == '\U{1680}' || ('\U{2000}' <= c <= '\U{200A}')
    || c == '\U{2028}' || c == '\U{2029}' || c == '\U{202F}' || c == '\U{205F}'
    || c == '\U{3000}' || c == '\U{FEFF}'
  }

  function TrimStart(s: string): (t: string)
    ensures |t| <= |s|
    ensures t == [] || !IsJsWhiteSpace(t[0])
  {
    if s != [] && IsJsWhiteSpace(s[0]) then TrimStart(s[1..]) else s
  }

  /** The longest prefix of `s` made of hex digits. */
  function HexPrefix(s: string): (z: string)
    ensures |z| <= |s| && z == s[..|z|] && AllHexDigits(z)
    ensures |z| < |s| ==> !IsHexDigit(s[|z|])
  {
    if s != [] && IsHexDigit(s[0]) then [s[0]] + HexPrefix(s[1..]) else []
  }

  /** `parseInt(s, 16)`, with the integer kept exact (no rounding above 2^53). */
  function ParseInt16(s: string): JsNumber
  {
    var t := TrimStart(s);
    var negative := t != [] && t[0] == '-';
    var u := if t != [] && (t[0] == '-' || t[0] == '+') then t[1..] else t;
    var w := if |u| >= 2 && u[0] == '0' && (u[1] == 'x' || u[1] == 'X') then u[2..] else u;
    var z := HexPrefix(w);
    if z == [] then NaN
    else
      var magnitude: int := HexValue(z);
      Integer(if negative then -magnitude else magnitude)
  }

  /** `ToInt32`, applied by `>>` and `&` to their left operand. */
  function ToInt32(n: JsNumber): (i: int)
    ensures -0x8000_0000 <= i < 0x8000_0000
  {
    match n
    case NaN => 0
    case Integer(v) =>
      var m := v % 0x1_0000_0000;
      if m >= 0x8000_0000 then m - 0x1_0000_0000 else m
  }

  /** `x >> 8` and `x >> 16` on a 32-bit value: arithmetic shift, i.e. floor division. */
  function ShiftRight8(x: int): int { x / 0x100 }
  function ShiftRight16(x: int): int { x / 0x1_0000 }

  /** `x & 0xFF` on a 32-bit two's-complement value. */
  function LowByte(x: int): (b: int)
    ensures 0 <= b < 256
  {
    x % 0x100
  }

  /** `Math.max(0, Math.min(255, v))`. */
  function Clamp(v: int): (c: int)
    ensures 0 <= c <= 255
    ensures 0 <= v <= 255 ==> c == v
    ensures v < 0 ==> c == 0
    ensures v > 255 ==> c == 255
  {
    if v < 0 then 0 else if v > 255 then 255 else v
  }

  /** `n.toString(16)` for a non-negative integer: no leading zeros, lower case. */
  function RadixString16(n: nat): (s: string)
    ensures |s| >= 1 && AllLowerHexDigits(s)
  {
    if n < 16 then [HexChar(n)] else RadixString16(n / 16) + [HexChar(n % 16)]
  }

  function Repeat(c: char, k: nat): (s: string)
    ensures |s| == k && forall i :: 0 <= i < k ==> s[i] == c
  {
    if k == 0 then [] else [c] + Repeat(c, k - 1)
  }

  /** `s.padStart(len, fill)` for a one-character `fill`. */
  function PadStart(s: string, len: nat, fill: char): string
  {
    if |s| >= len then s else Repeat(fill, len - |s|) + s
  }

  datatype Channels = Channels(red: int, green: int, blue: int)

  /**
   * `parseInt(color.slice(1), 16)`. A Dafny string is a sequence of code
   * points, while `slice(1)` drops one UTF-16 code unit: when the first
   * character lies outside the basic plane (above U+FFFF), the sliced string
   * begins with that character's lone low surrogate, which is neither white
   * space, a sign nor a hex digit, so `parseInt` gives NaN.
   */
  function ParseAfterFirstUnit(color: string): JsNumber
  {
    if color == [] then ParseInt16([])
    else if color[0] as int > 0xFFFF then NaN
    else ParseInt16(color[1..])
  }

  /** `num >> 16`, `(num >> 8) & 0x00FF` and `num & 0x0000FF` for `num = parseInt(color.slice(1), 16)`. */
  function SourceChannels(color: string): Channels
  {
    ChannelsOf(ToInt32(ParseAfterFirstUnit(color)))
  }

  function ChannelsOf(num: int): Channels
  {
    Channels(ShiftRight16(num), LowByte(ShiftRight8(num)), LowByte(num))
  }

  /** The three two-digit fields of a `#rrggbb` colour. */
  function PairChannels(color: string): Channels
    requires IsHexColor(color)
  {
    assert AllHexDigits(color[1..3]) && AllHexDigits(color[3..5]) && AllHexDigits(color[5..7]) by {
      assert forall i :: 0 <= i < 6 ==> IsHexDigit(color[1..][i]);
    }
    Channels(HexValue(color[1..3]), HexValue(color[3..5]), HexValue(color[5..7]))
  }

  predicate IsBytes(ch: Channels)
  {
    0 <= ch.red < 256 && 0 <= ch.green < 256 && 0 <= ch.blue < 256
  }

  /** Each channel plus `amount`, clamped: the three `Math.max(0, Math.min(255, …))` lines. */
  function Adjusted(ch: Channels, amount: int): (r: Channels)
    ensures IsBytes(r)
  {
    Channels(Clamp(ch.red + amount), Clamp(ch.green + amount), Clamp(ch.blue + amount))
  }

  /**
   * `(r << 16) | (g << 8) | b`. The channels are bytes, so the three shifted
   * fields occupy disjoint bits and the bitwise or is their sum.
   */
  function Pack(ch: Channels): (n: int)
    requires IsBytes(ch)
    ensures 0 <= n < 0x100_0000
  {
    ch.red * 0x1_0000 + ch.green * 0x100 + ch.blue
  }

  /** `` `#${packed.toString(16).padStart(6, '0')}` `` */
  function FormatColor(ch: Channels): (r: string)
    requires IsBytes(ch)
    ensures IsCanonicalColor(r) && IsHexColor(r)
  {
    PackedIsSixDigits(Pack(ch));
    "#" + PadStart(RadixString16(Pack(ch)), 6, '0')
  }

  /** `adjustColor(color, amount)`. */
  function AdjustColor(color: string, amount: int): (r: string)
    ensures IsCanonicalColor(r) && IsHexColor(r)
  {
    FormatColor(Adjusted(SourceChannels(color), amount))
  }

  // ---------------------------------------------------------------------------
  // Arithmetic on digits
  // ---------------------------------------------------------------------------

  lemma {:induction false} HexValueBound(s: string)
    requires AllHexDigits(s)
    ensures HexValue(s) < Pow16(|s|)
  {
    if s != [] {
      HexValueBound(s[..|s| - 1]);
    }
  }

  /** Reading back the `w` digits of a number below 16^w gives that number. */
  lemma {:induction false} HexValueOfFixedHex(n: nat, w: nat)
    requires n < Pow16(w)
    ensures HexValue(FixedHex(n, w)) == n
  {
    if w > 0 {
      var s := FixedHex(n, w);
      assert s[..w - 1] == FixedHex(n / 16, w - 1);
      HexValueOfFixedHex(n / 16, w - 1);
    }
  }

  lemma {:induction false} FixedHexOfZero(w: nat)
    ensures FixedHex(0, w) == Repeat('0', w)
  {
    if w > 0 {
      FixedHexOfZero(w - 1);
      assert Repeat('0', w) == Repeat('0', w - 1) + ['0'];
    }
  }

  /** `toString(16)` padded to `w` places is the fixed-width encoding. */
  lemma {:induction false} PaddedRadixIsFixedHex(n: nat, w: nat)
    requires w >= 1 && n < Pow16(w)
    ensures |RadixString16(n)| <= w
    ensures PadStart(RadixString16(n), w, '0') == FixedHex(n, w)
  {
    if n < 16 {
      FixedHexOfZero(w - 1);
      assert n / 16 == 0 && n % 16 == n;
      assert Repeat('0', w - 1) + [HexChar(n)] == PadStart([HexChar(n)], w, '0');
    } else {
      assert Pow16(1) == 16;
      assert w >= 2;
      assert n / 16 < Pow16(w - 1);
      PaddedRadixIsFixedHex(n / 16, w - 1);
      var hi := RadixString16(n / 16);
      assert RadixString16(n) == hi + [HexChar(n % 16)];
      if |hi| == w - 1 {
        assert PadStart(hi, w - 1, '0') == hi;
      } else {
        assert PadStart(hi, w - 1, '0') == Repeat('0', w - 1 - |hi|) + hi;
        assert Repeat('0', w - 1 - |hi|) + hi + [HexChar(n % 16)]
            == Repeat('0', w - 1 - |hi|) + (hi + [HexChar(n % 16)]);
      }
    }
  }

  lemma PackedIsSixDigits(packed: int)
    requires 0 <= packed < 0x100_0000
    ensures IsCanonicalColor("#" + PadStart(RadixString16(packed), 6, '0'))
    ensures IsHexColor("#" + PadStart(RadixString16(packed), 6, '0'))
  {
    assert Pow16(6) == 0x100_0000;
    PaddedRadixIsFixedHex(packed, 6);
    var s := "#" + FixedHex(packed, 6);
    assert s[1..] == FixedHex(packed, 6);
  }

  /** Writing the digits of a hex string back at its own width lower-cases it. */
  lemma {:induction false} FixedHexOfHexValue(s: string)
    requires AllHexDigits(s)
    ensures FixedHex(HexValue(s), |s|) == LowerHex(s)
  {
    if s != [] {
      var init := s[..|s| - 1];
      var d := DigitValue(s[|s| - 1]);
      assert HexValue(s) / 16 == HexValue(init) && HexValue(s) % 16 == d;
      FixedHexOfHexValue(init);
      assert HexChar(d) == LowerDigit(s[|s| - 1]);
    }
  }

  // ---------------------------------------------------------------------------
  // Properties of adjustColor
  // ---------------------------------------------------------------------------

  /** `parseInt` reads a run of hex digits as their value. */
  lemma ParseHexDigits(s: string)
    requires s != [] && AllHexDigits(s)
    ensures ParseInt16(s) == Integer(HexValue(s))
  {
    assert TrimStart(s) == s;
    if |s| >= 2 {
      assert !(s[1] == 'x' || s[1] == 'X') by { assert IsHexDigit(s[1]); }
    }
    HexPrefixOfHexDigits(s);
  }

  lemma {:induction false} HexPrefixOfHexDigits(s: string)
    requires AllHexDigits(s)
    ensures HexPrefix(s) == s
  {
    if s != [] {
      HexPrefixOfHexDigits(s[1..]);
    }
  }

  /** Splitting a packed value into its three bytes. */
  lemma UnpackBytes(ch: Channels)
    requires IsBytes(ch)
    ensures ChannelsOf(Pack(ch)) == ch
  {
    var n := Pack(ch);
    assert n / 0x100 == ch.red * 0x100 + ch.green;
  }

  /** A six-digit hex string is its three pairs, most significant first. */
  lemma SixDigitsAsPairs(s: string)
    requires |s| == 6 && AllHexDigits(s)
    ensures AllHexDigits(s[0..2]) && AllHexDigits(s[2..4]) && AllHexDigits(s[4..6])
    ensures HexValue(s) == HexValue(s[0..2]) * 0x1_0000 + HexValue(s[2..4]) * 0x100 + HexValue(s[4..6])
  {
    var d := seq(6, i requires 0 <= i < 6 => DigitValue(s[i]));
    assert HexValue(s[..1]) == d[0] by { assert s[..1][..0] == []; }
    assert HexValue(s[..2]) == d[0] * 16 + d[1] by { assert s[..2][..1] == s[..1]; }
    assert HexValue(s[..3]) == (d[0] * 16 + d[1]) * 16 + d[2] by { assert s[..3][..2] == s[..2]; }
    assert HexValue(s[..4]) == ((d[0] * 16 + d[1]) * 16 + d[2]) * 16 + d[3] by { assert s[..4][..3] == s[..3]; }
    assert HexValue(s[..5]) == (((d[0] * 16 + d[1]) * 16 + d[2]) * 16 + d[3]) * 16 + d[4] by { assert s[..5][..4] == s[..4]; }
    assert HexValue(s) == ((((d[0] * 16 + d[1]) * 16 + d[2]) * 16 + d[3]) * 16 + d[4]) * 16 + d[5] by { assert s[..5] == s[..|s| - 1]; }
    assert HexValue(s[0..2]) == d[0] * 16 + d[1] by { assert s[0..2] == s[..2]; }
    assert HexValue(s[2..4]) == d[2] * 16 + d[3] by { assert s[2..4][..1] == [s[2]]; assert [s[2]][..0] == []; }
    assert HexValue(s[4..6]) == d[4] * 16 + d[5] by { assert s[4..6][..1] == [s[4]]; assert [s[4]][..0] == []; }
  }

  /** The pairs of a `#rrggbb` colour are bytes. */
  lemma PairChannelsAreBytes(c: string)
    requires IsHexColor(c)
    ensures 0 <= PairChannels(c).red < 256 && 0 <= PairChannels(c).green < 256
    ensures 0 <= PairChannels(c).blue < 256
  {
    assert Pow16(2) == 256;
    HexValueBound(c[1..3]);
    HexValueBound(c[3..5]);
    HexValueBound(c[5..7]);
  }

  /** The packed pairs of a `#rrggbb` colour are the value of its six digits. */
  lemma PackPairs(c: string)
    requires IsHexColor(c)
    ensures IsBytes(PairChannels(c)) && Pack(PairChannels(c)) == HexValue(c[1..])
  {
    var s := c[1..];
    SixDigitsAsPairs(s);
    assert s[0..2] == c[1..3] && s[2..4] == c[3..5] && s[4..6] == c[5..7];
    PairChannelsAreBytes(c);
  }

  /** `parseInt(c.slice(1), 16)` of a `#rrggbb` colour is its packed pairs, and fits 32 bits. */
  lemma HexColorNumber(c: string)
    requires IsHexColor(c)
    ensures IsBytes(PairChannels(c))
    ensures ToInt32(ParseInt16(c[1..])) == Pack(PairChannels(c))
  {
    PackPairs(c);
    ParseHexDigits(c[1..]);
    SmallToInt32(HexValue(c[1..]));
  }

  lemma SmallToInt32(n: int)
    requires 0 <= n < 0x8000_0000
    ensures ToInt32(Integer(n)) == n
  {
  }

  /** For a `#rrggbb` colour, the source's shifts and masks read exactly its three pairs. */
  lemma SourceChannelsOfHexColor(c: string)
    requires IsHexColor(c)
    ensures IsBytes(PairChannels(c))
    ensures SourceChannels(c) == PairChannels(c)
  {
    HexColorNumber(c);
    UnpackBytes(PairChannels(c));
  }

  /**
   * A first character outside the basic plane reads as NaN, i.e. as black:
   * `adjustColor("\U{1F600}ff", amount)` is the colour of channels (0, 0, 0)
   * adjusted, not of `ff`.
   */
  lemma AstralFirstCharacterReadsBlack(color: string, amount: int)
    requires color != [] && color[0] as int > 0xFFFF
    ensures SourceChannels(color) == Channels(0, 0, 0)
    ensures AdjustColor(color, amount) == FormatColor(Adjusted(Channels(0, 0, 0), amount))
  {
    assert ParseAfterFirstUnit(color) == NaN;
    assert ChannelsOf(0) == Channels(0, 0, 0);
  }

  /** On a `#rrggbb` input, `adjustColor` formats the adjusted pairs. */
  lemma AdjustHexColor(c: string, amount: int)
    requires IsHexColor(c)
    ensures IsBytes(PairChannels(c))
    ensures AdjustColor(c, amount) == FormatColor(Adjusted(PairChannels(c), amount))
  {
    SourceChannelsOfHexColor(c);
  }

  /** The written colour is the fixed-width encoding of the packed channels. */
  lemma FormatColorDigits(ch: Channels)
    requires IsBytes(ch)
    ensures FormatColor(ch) == "#" + FixedHex(Pack(ch), 6)
  {
    assert Pow16(6) == 0x100_0000;
    PaddedRadixIsFixedHex(Pack(ch), 6);
  }

  /** Parse/format round trip: reading a written colour back gives its channels. */
  lemma FormatColorReadsBack(ch: Channels)
    requires IsBytes(ch)
    ensures SourceChannels(FormatColor(ch)) == ch
  {
    var n := Pack(ch);
    var s := FixedHex(n, 6);
    FormatColorDigits(ch);
    assert FormatColor(ch)[1..] == s;
    ParseHexDigits(s);
    assert Pow16(6) == 0x100_0000;
    HexValueOfFixedHex(n, 6);
    SmallToInt32(n);
    UnpackBytes(ch);
  }

  /**
   * Reading the output back with the source's own parsing gives each channel
   * as `clamp(channel + amount, 0, 255)` of the input's channel, for every input string.
   */
  lemma AdjustColorChannels(color: string, amount: int)
    ensures SourceChannels(AdjustColor(color, amount)) == Adjusted(SourceChannels(color), amount)
  {
    FormatColorReadsBack(Adjusted(SourceChannels(color), amount));
  }

  /** The same, stated on the two-digit fields of a `#rrggbb` input and of the output. */
  lemma AdjustColorPairs(color: string, amount: int)
    requires IsHexColor(color)
    ensures PairChannels(AdjustColor(color, amount)) == Adjusted(PairChannels(color), amount)
  {
    SourceChannelsOfHexColor(color);
    SourceChannelsOfHexColor(AdjustColor(color, amount));
    AdjustColorChannels(color, amount);
  }

  /** With `amount == 0` the colour comes back with its digits lower-cased. */
  lemma AdjustColorZero(color: string)
    requires IsHexColor(color)
    ensures AdjustColor(color, 0) == "#" + LowerHex(color[1..])
  {
    var p := PairChannels(color);
    AdjustHexColor(color, 0);
    assert Adjusted(p, 0) == p;
    FormatColorDigits(p);
    PackPairs(color);
    FixedHexOfHexValue(color[1..]);
  }

  /** A negative amount never raises a channel and a positive one never lowers it. */
  lemma AdjustColorMonotone(color: string, amount: int)
    requires IsHexColor(color)
    ensures var before := PairChannels(color);
      var after := PairChannels(AdjustColor(color, amount));
      (amount <= 0 ==> after.red <= before.red && after.green <= before.green && after.blue <= before.blue)
      && (amount >= 0 ==> after.red >= before.red && after.green >= before.green && after.blue >= before.blue)
  {
    SourceChannelsOfHexColor(color);
    AdjustColorPairs(color, amount);
  }

  /** The digits of black and of white. */
  lemma ExtremeDigits()
    ensures "#" + FixedHex(0, 6) == "#000000"
    ensures "#" + FixedHex(0xFF_FFFF, 6) == "#ffffff"
  {
    assert HexChar(0) == '0' && HexChar(15) == 'f';
    assert FixedHex(0, 1) == "0";
    assert FixedHex(0, 2) == "00";
    assert FixedHex(0, 3) == "000";
    assert FixedHex(0, 4) == "0000";
    assert FixedHex(0, 5) == "00000";
    assert FixedHex(0xF, 1) == "f";
    assert FixedHex(0xFF, 2) == "ff";
    assert FixedHex(0xFFF, 3) == "fff";
    assert FixedHex(0xFFFF, 4) == "ffff";
    assert FixedHex(0xF_FFFF, 5) == "fffff";
    assert FixedHex(0, 6) == "000000";
    assert FixedHex(0xFF_FFFF, 6) == "ffffff";
  }

  /** On a `#rrggbb` input, the output's digits encode the packed adjusted pairs. */
  lemma AdjustHexColorDigits(color: string, amount: int)
    requires IsHexColor(color)
    ensures IsBytes(PairChannels(color))
    ensures AdjustColor(color, amount) == "#" + FixedHex(Pack(Adjusted(PairChannels(color), amount)), 6)
  {
    AdjustHexColor(color, amount);
    FormatColorDigits(Adjusted(PairChannels(color), amount));
  }

  /** An amount of 255 or more in size saturates every channel. */
  lemma AdjustColorSaturates(color: string, amount: int)
    requires IsHexColor(color)
    ensures amount <= -255 ==> AdjustColor(color, amount) == "#000000"
    ensures amount >= 255 ==> AdjustColor(color, amount) == "#ffffff"
  {
    AdjustHexColorDigits(color, amount);
    var n := Pack(Adjusted(PairChannels(color), amount));
    assert amount <= -255 ==> n == 0;
    assert amount >= 255 ==> n == 0xFF_FFFF;
    ExtremeDigits();
  }
}
