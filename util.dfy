/** Colour helpers (src/util.rs): the two channel palettes, hex colour
    parsing, and the contrasting text colour. */
module Util {
  import W = Wrappers

  type byte = x: int | 0 <= x < 256

  /** A Rust `&str` as its UTF-8 bytes; slicing a `str` works on these. */
  type Utf8 = seq<byte>

  datatype Rgb = Rgb(r: byte, g: byte, b: byte)

  /** Slicing the colour string panicked: an index past the end or inside a character. */
  datatype ColorError = BadColorSlice(hex: Utf8)

  predicate IsAscii(s: string) {
    forall i :: 0 <= i < |s| ==> s[i] as int < 128
  }

  /** The bytes of an ASCII string. */
  function Ascii(s: string): (bs: Utf8)
    requires IsAscii(s)
    ensures |bs| == |s| && forall i :: 0 <= i < |s| ==> bs[i] == s[i] as int
  {
    seq(|s|, i requires 0 <= i < |s| => s[i] as int)
  }

  const OUTPUT_CHANNEL_COLORS: seq<string> := [
    "#4285F4", "#EA4335", "#FBBC04", "#34A853", "#FF6D00", "#AB47BC", "#00ACC1", "#7CB342",
    "#9C27B0", "#3F51B5", "#009688", "#8BC34A", "#FFEB3B", "#FF9800", "#795548", "#607D8B",
    "#E91E63", "#673AB7", "#2196F3", "#00BCD4", "#4CAF50", "#CDDC39", "#FFC107", "#FF5722",
    "#9E9E9E", "#03A9F4", "#8D6E63", "#78909C", "#880E4F", "#4A148C", "#0D47A1", "#004D40"
  ]

  const INPUT_CHANNEL_COLORS: seq<string> := [
    "#B39DDB", "#FFAB91", "#FFF59D", "#A5D6A7", "#FFCC80", "#CE93D8", "#80DEEA", "#C5E1A5",
    "#BA68C8", "#9FA8DA", "#80CBC4", "#DCE775", "#FFF176", "#FFB74D", "#BCAAA4", "#B0BEC5",
    "#F48FB1", "#B39DDB", "#90CAF9", "#80DEEA", "#A5D6A7", "#E6EE9C", "#FFD54F", "#FF8A65",
    "#BDBDBD", "#81D4FA", "#A1887F", "#90A4AE", "#C2185B", "#7B1FA2", "#1976D2", "#00796B"
  ]

  const HASH: byte := 35
  const PLUS: byte := 43

  predicate IsHexDigit(c: byte) {
    48 <= c <= 57 || 65 <= c <= 70 || 97 <= c <= 102
  }

  function HexValue(c: byte): (v: nat)
    requires IsHexDigit(c)
    ensures v < 16
  {
    if c <= 57 then c - 48 else if c <= 70 then c - 55 else c - 87
  }

  /** Base-16 value of a digit string; `None` when some byte is not a hex digit. */
  function HexDigits(ds: Utf8): (r: W.Option<nat>)
  {
    if ds == [] then W.Some(0)
    else if !IsHexDigit(ds[|ds| - 1]) then W.None
    else match HexDigits(ds[..|ds| - 1])
      case None => W.None
      case Some(v) => W.Some(16 * v + HexValue(ds[|ds| - 1]))
  }

  /** `u8::from_str_radix(s, 16).ok()`: one optional leading `+`, then at
      least one hex digit, and a value that fits in a byte. */
  function FromStrRadix16(s: Utf8): (r: W.Option<byte>)
  {
    if s == [] then W.None
    else
      var digits := if s[0] == PLUS then s[1..] else s;
      if digits == [] then W.None
      else match HexDigits(digits)
        case None => W.None
        case Some(v) => if v < 256 then W.Some(v) else W.None
  }

  /** `hex.trim_start_matches('#')`. */
  function TrimHashes(s: Utf8): (t: Utf8)
    ensures |t| <= |s| && t == s[|s| - |t|..]
    ensures t == [] || t[0] != HASH
    ensures forall i :: 0 <= i < |s| - |t| ==> s[i] == HASH
  {
    if s != [] && s[0] == HASH then TrimHashes(s[1..]) else s
  }

  /** `str::is_char_boundary`: not inside a multi-byte UTF-8 sequence. */
  predicate IsCharBoundary(s: Utf8, k: nat) {
    k == 0 || k == |s| || (k < |s| && (s[k] < 0x80 || s[k] >= 0xC0))
  }

  /** `&s[a..b]` does not panic. */
  predicate CanSlice(s: Utf8, a: nat, b: nat) {
    a <= b <= |s| && IsCharBoundary(s, a) && IsCharBoundary(s, b)
  }

  /** `parse_hex_color`: the first three byte pairs after the leading `#`s,
      each read as base 16, with 0 for a pair that does not parse. Slicing
      past the end or inside a character panics. */
  function ParseHexColor(hex: Utf8): (r: W.Result<Rgb, ColorError>)
    ensures var t := TrimHashes(hex);
      r.Ok? <==> 6 <= |t| && IsCharBoundary(t, 2) && IsCharBoundary(t, 4) && IsCharBoundary(t, 6)
  {
    var t := TrimHashes(hex);
    if !(CanSlice(t, 0, 2) && CanSlice(t, 2, 4) && CanSlice(t, 4, 6)) then W.Err(BadColorSlice(hex))
    else W.Ok(Rgb(
      FromStrRadix16(t[0..2]).GetOr(0),
      FromStrRadix16(t[2..4]).GetOr(0),
      FromStrRadix16(t[4..6]).GetOr(0)))
  }

  /** Fewer than six bytes after the `#`s always panic. */
  lemma ShortColorPanics(hex: Utf8)
    requires |TrimHashes(hex)| < 6
    ensures ParseHexColor(hex).Err?
  {
  }

  /** A pair that does not parse turns into 0 for that component alone. */
  lemma BadPairIsZero(hex: Utf8)
    requires ParseHexColor(hex).Ok?
    ensures var t := TrimHashes(hex); var c := ParseHexColor(hex).value;
      && (FromStrRadix16(t[0..2]).None? ==> c.r == 0)
      && (FromStrRadix16(t[2..4]).None? ==> c.g == 0)
      && (FromStrRadix16(t[4..6]).None? ==> c.b == 0)
      && (FromStrRadix16(t[0..2]).Some? ==> c.r == FromStrRadix16(t[0..2]).value)
      && (FromStrRadix16(t[2..4]).Some? ==> c.g == FromStrRadix16(t[2..4]).value)
      && (FromStrRadix16(t[4..6]).Some? ==> c.b == FromStrRadix16(t[4..6]).value)
  {
  }

  /** Two hex digits read as one byte value. */
  lemma HexDigitsPair(a: byte, b: byte)
    requires IsHexDigit(a) && IsHexDigit(b)
    ensures HexDigits([a, b]) == W.Some(16 * HexValue(a) + HexValue(b))
  {
    var one: Utf8 := [a];
    assert one[..0] == [];
    assert HexDigits(one) == W.Some(HexValue(a));
    var two: Utf8 := [a, b];
    assert two[..1] == one;
  }

  /** `from_str_radix` accepts a leading `+`: "+F" is 15, and "#+F+F+F" is (15, 15, 15). */
  lemma PlusSignAccepted()
    ensures FromStrRadix16([PLUS, 70]) == W.Some(15)
    ensures ParseHexColor([HASH, PLUS, 70, PLUS, 70, PLUS, 70]) == W.Ok(Rgb(15, 15, 15))
  {
    var one: Utf8 := [70];
    assert one[..0] == [];
    assert HexDigits(one) == W.Some(15);
    var pf: Utf8 := [PLUS, 70];
    assert pf[1..] == one;
    assert FromStrRadix16(pf) == W.Some(15);
    var s: Utf8 := [HASH, PLUS, 70, PLUS, 70, PLUS, 70];
    var t: Utf8 := [PLUS, 70, PLUS, 70, PLUS, 70];
    assert s[1..] == t;
    assert TrimHashes(t) == t;
    assert TrimHashes(s) == t;
    assert t[0..2] == pf && t[2..4] == pf && t[4..6] == pf;
  }

  /** Upper-case hex digit of a nibble. */
  function HexDigitChar(v: nat): (c: byte)
    requires v < 16
    ensures IsHexDigit(c) && HexValue(c) == v
  {
    if v < 10 then 48 + v else 55 + v
  }

  /** `#` followed by `r`, `g` and `b` as two upper-case hex digits each, as `format!` writes them. */
  function FormatHexColor(c: Rgb): (s: Utf8)
    ensures |s| == 7 && s[0] == HASH
  {
    [HASH, HexDigitChar(c.r / 16), HexDigitChar(c.r % 16),
           HexDigitChar(c.g / 16), HexDigitChar(c.g % 16),
           HexDigitChar(c.b / 16), HexDigitChar(c.b % 16)]
  }

  lemma PairParses(v: byte)
    ensures FromStrRadix16([HexDigitChar(v / 16), HexDigitChar(v % 16)]) == W.Some(v)
  {
    HexDigitsPair(HexDigitChar(v / 16), HexDigitChar(v % 16));
  }

  /** Writing a colour as `#RRGGBB` and parsing it back gives the colour. */
  lemma HexColorRoundTrip(c: Rgb)
    ensures ParseHexColor(FormatHexColor(c)) == W.Ok(c)
  {
    var s := FormatHexColor(c);
    var t := s[1..];
    TrimOneHash(s);
    PairParses(c.r);
    PairParses(c.g);
    PairParses(c.b);
    assert t[0..2] == [HexDigitChar(c.r / 16), HexDigitChar(c.r % 16)];
    assert t[2..4] == [HexDigitChar(c.g / 16), HexDigitChar(c.g % 16)];
    assert t[4..6] == [HexDigitChar(c.b / 16), HexDigitChar(c.b % 16)];
  }

  /** A string whose bytes are the formatting of `c` parses to `c`. */
  lemma ParsesTo(s: string, c: Rgb)
    requires IsAscii(s) && Ascii(s) == FormatHexColor(c)
    ensures ParseHexColor(Ascii(s)) == W.Ok(c)
  {
    HexColorRoundTrip(c);
  }

  predicate IsHexChar(c: char) {
    '0' <= c <= '9' || 'A' <= c <= 'F' || 'a' <= c <= 'f'
  }

  /** `#` followed by six hex digits, as every palette entry is. */
  predicate IsHexColor(s: string) {
    |s| == 7 && s[0] == '#' && IsHexChar(s[1]) && IsHexChar(s[2]) && IsHexChar(s[3])
    && IsHexChar(s[4]) && IsHexChar(s[5]) && IsHexChar(s[6])
  }

  lemma OutputPaletteWellFormed()
    ensures |OUTPUT_CHANNEL_COLORS| == 32
    ensures forall i :: 0 <= i < 32 ==> IsHexColor(OUTPUT_CHANNEL_COLORS[i])
  {
  }

  lemma InputPaletteWellFormed()
    ensures |INPUT_CHANNEL_COLORS| == 32
    ensures forall i :: 0 <= i < 32 ==> IsHexColor(INPUT_CHANNEL_COLORS[i])
  {
  }

  /** A pair of hex characters parses to a byte. */
  lemma HexPairParses(a: byte, b: byte)
    requires IsHexDigit(a) && IsHexDigit(b)
    ensures FromStrRadix16([a, b]).Some?
  {
    HexDigitsPair(a, b);
  }

  /** `#` and six hex digit bytes parse with no component falling back to 0. */
  lemma HexBytesParse(bs: Utf8)
    requires |bs| == 7 && bs[0] == HASH
    requires forall k :: 1 <= k < 7 ==> IsHexDigit(bs[k])
    ensures var t := TrimHashes(bs);
      && ParseHexColor(bs).Ok?
      && FromStrRadix16(t[0..2]).Some? && FromStrRadix16(t[2..4]).Some? && FromStrRadix16(t[4..6]).Some?
  {
    var t := bs[1..];
    TrimOneHash(bs);
    assert && CanSlice(t, 0, 2) && CanSlice(t, 2, 4) && CanSlice(t, 4, 6)
           && FromStrRadix16(t[0..2]).Some? && FromStrRadix16(t[2..4]).Some? && FromStrRadix16(t[4..6]).Some? by {
      forall k | 0 <= k < 6 ensures IsHexDigit(t[k]) {
        assert t[k] == bs[k + 1];
      }
      SixHexDigitsParse(t);
    }
    ParseOkWhenSliceable(bs);
  }

  /** One leading `#` before a byte that is not one is all that is trimmed. */
  lemma TrimOneHash(s: Utf8)
    requires |s| > 1 && s[0] == HASH && s[1] != HASH
    ensures TrimHashes(s) == s[1..]
  {
    assert TrimHashes(s[1..]) == s[1..];
  }

  lemma ParseOkWhenSliceable(hex: Utf8)
    requires var t := TrimHashes(hex); CanSlice(t, 0, 2) && CanSlice(t, 2, 4) && CanSlice(t, 4, 6)
    ensures ParseHexColor(hex).Ok?
  {
  }

  /** Six hex digit bytes split into three pairs that each parse. */
  lemma SixHexDigitsParse(t: Utf8)
    requires |t| == 6 && forall k :: 0 <= k < 6 ==> IsHexDigit(t[k])
    ensures CanSlice(t, 0, 2) && CanSlice(t, 2, 4) && CanSlice(t, 4, 6)
    ensures FromStrRadix16(t[0..2]).Some? && FromStrRadix16(t[2..4]).Some? && FromStrRadix16(t[4..6]).Some?
  {
    assert IsHexDigit(t[2]) && IsHexDigit(t[4]);
    assert t[0..2] == [t[0], t[1]] && t[2..4] == [t[2], t[3]] && t[4..6] == [t[4], t[5]];
    HexPairParses(t[0], t[1]);
    HexPairParses(t[2], t[3]);
    HexPairParses(t[4], t[5]);
  }

  /** A well-formed entry is ASCII and parses with no component falling back to 0. */
  lemma HexColorParses(s: string)
    requires IsHexColor(s)
    ensures IsAscii(s) && ParseHexColor(Ascii(s)).Ok?
  {
    assert IsAscii(s) by {
      forall i | 0 <= i < |s| ensures s[i] as int < 128 {
        assert i == 0 || IsHexChar(s[i]);
      }
    }
    var bs := Ascii(s);
    forall k | 1 <= k < 7 ensures IsHexDigit(bs[k]) {
      assert IsHexChar(s[k]);
    }
    HexBytesParse(bs);
  }

  /** Every colour of a palette of well-formed entries parses without falling back to 0. */
  lemma PaletteColorsParse(palette: seq<string>, i: nat)
    requires forall j :: 0 <= j < |palette| ==> IsHexColor(palette[j])
    requires i < |palette|
    ensures IsAscii(palette[i]) && ParseHexColor(Ascii(palette[i])).Ok?
  {
    HexColorParses(palette[i]);
  }

  /** The first entry of each palette is ASCII and parses. */
  lemma PaletteHeadsParse()
    ensures IsAscii(OUTPUT_CHANNEL_COLORS[0]) && ParseHexColor(Ascii(OUTPUT_CHANNEL_COLORS[0])).Ok?
    ensures IsAscii(INPUT_CHANNEL_COLORS[0]) && ParseHexColor(Ascii(INPUT_CHANNEL_COLORS[0])).Ok?
  {
    assert IsHexColor(OUTPUT_CHANNEL_COLORS[0]);
    assert IsHexColor(INPUT_CHANNEL_COLORS[0]);
    HexColorParses(OUTPUT_CHANNEL_COLORS[0]);
    HexColorParses(INPUT_CHANNEL_COLORS[0]);
  }

  /** Every palette entry is ASCII and parses. */
  lemma PalettesParse()
    ensures |OUTPUT_CHANNEL_COLORS| == 32 && |INPUT_CHANNEL_COLORS| == 32
    ensures forall i :: 0 <= i < 32 ==>
      && IsAscii(OUTPUT_CHANNEL_COLORS[i]) && ParseHexColor(Ascii(OUTPUT_CHANNEL_COLORS[i])).Ok?
      && IsAscii(INPUT_CHANNEL_COLORS[i]) && ParseHexColor(Ascii(INPUT_CHANNEL_COLORS[i])).Ok?
  {
    OutputPaletteWellFormed();
    InputPaletteWellFormed();
    forall i | 0 <= i < 32
      ensures IsAscii(OUTPUT_CHANNEL_COLORS[i]) && ParseHexColor(Ascii(OUTPUT_CHANNEL_COLORS[i])).Ok?
      ensures IsAscii(INPUT_CHANNEL_COLORS[i]) && ParseHexColor(Ascii(INPUT_CHANNEL_COLORS[i])).Ok?
    {
      PaletteColorsParse(OUTPUT_CHANNEL_COLORS, i);
      PaletteColorsParse(INPUT_CHANNEL_COLORS, i);
    }
  }

  const WHITE: Rgb := Rgb(255, 255, 255)
  const DARK_GRAY: Rgb := Rgb(32, 32, 32)

  /** The WCAG linearisation of one channel; `pow24(x)` stands for `x.powf(2.4)`. */
  function Linear(c: byte, pow24: real -> real): real {
    var x := c as real / 255.0;
    if x <= 0.03928 then x / 12.92 else pow24((x + 0.055) / 1.055)
  }

  function Luminance(bg: Rgb, pow24: real -> real): real {
    0.2126 * Linear(bg.r, pow24) + 0.7152 * Linear(bg.g, pow24) + 0.0722 * Linear(bg.b, pow24)
  }

  /** `get_contrasting_color`: white text on a dark background, dark gray on a light one. */
  function ContrastingColor(bg: Rgb, pow24: real -> real): (c: Rgb)
    ensures c == WHITE || c == DARK_GRAY
    ensures c == WHITE <==> Luminance(bg, pow24) < 0.5
  {
    if Luminance(bg, pow24) < 0.5 then WHITE else DARK_GRAY
  }

  /** Black gets white text; white, dark gray (whatever `powf` does off 1.0). */
  lemma ContrastExtremes(pow24: real -> real)
    ensures ContrastingColor(Rgb(0, 0, 0), pow24) == WHITE
    ensures pow24(1.0) == 1.0 ==> ContrastingColor(WHITE, pow24) == DARK_GRAY
  {
    assert Linear(0, pow24) == 0.0;
    assert (255 as real / 255.0 + 0.055) / 1.055 == 1.0;
  }
}
