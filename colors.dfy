/**
 * `System.Windows.Media.Color` and the two-digit hexadecimal byte reading
 * (`Convert.ToByte(pair, 16)`) that every colour parser of the application
 * is built from.
 */
module Colors {
  import opened Wrappers

  type Byte = x: int | 0 <= x < 256

  /** A colour as alpha, red, green and blue channels. */
  datatype Color = Color(a: Byte, r: Byte, g: Byte, b: Byte)

  /** `Colors.White` and `Colors.Black`: opaque. */
  const White: Color := Color(255, 255, 255, 255)
  const Black: Color := Color(255, 0, 0, 0)

  /** `default(Color)`: every channel zero. */
  const DefaultColor: Color := Color(0, 0, 0, 0)

  /** `Color.FromRgb`: an opaque colour. */
  function FromRgb(r: Byte, g: Byte, b: Byte): (c: Color)
    ensures c.a == 255 && c.r == r && c.g == g && c.b == b
  {
    Color(255, r, g, b)
  }

  /** The value of one hexadecimal digit, either case. */
  function HexDigitValue(c: char): (v: Option<nat>)
    ensures v.Some? ==> v.value < 16
  {
    if '0' <= c <= '9' then Some(c as int - '0' as int)
    else if 'a' <= c <= 'f' then Some(c as int - 'a' as int + 10)
    else if 'A' <= c <= 'F' then Some(c as int - 'A' as int + 10)
    else None
  }

  /** The upper-case hexadecimal digit for `d`. */
  function HexDigitChar(d: nat): (c: char)
    requires d < 16
    ensures HexDigitValue(c) == Some(d)
  {
    if d < 10 then ('0' as int + d) as char else ('A' as int + d - 10) as char
  }

  /**
   * `Convert.ToByte(pair, 16)` on a two-character string: the byte when both
   * characters are hexadecimal digits, otherwise the conversion fails.
   */
  function ParseHexByte(pair: string): (r: Option<Byte>)
    requires |pair| == 2
    ensures r.Some? <==> HexDigitValue(pair[0]).Some? && HexDigitValue(pair[1]).Some?
    ensures r.Some? ==> r.value == HexDigitValue(pair[0]).value * 16 + HexDigitValue(pair[1]).value
  {
    match (HexDigitValue(pair[0]), HexDigitValue(pair[1]))
    case (Some(hi), Some(lo)) => Some(hi * 16 + lo)
    case _ => None
  }

  /** Two upper-case hexadecimal digits, most significant first. */
  function FormatHexByte(x: Byte): (s: string)
    ensures |s| == 2
  {
    [HexDigitChar(x / 16), HexDigitChar(x % 16)]
  }

  lemma ParseFormatHexByte(x: Byte)
    ensures ParseHexByte(FormatHexByte(x)) == Some(x)
  {
  }

  /** `#RRGGBB`. */
  function FormatRgb(c: Color): (s: string)
    ensures |s| == 7 && s[0] == '#'
  {
    "#" + FormatHexByte(c.r) + FormatHexByte(c.g) + FormatHexByte(c.b)
  }

  /** `#AARRGGBB`. */
  function FormatArgb(c: Color): (s: string)
    ensures |s| == 9 && s[0] == '#'
  {
    "#" + FormatHexByte(c.a) + FormatHexByte(c.r) + FormatHexByte(c.g) + FormatHexByte(c.b)
  }

  /** The `k`-th two-digit pair of a colour body. */
  function PairAt(body: string, k: nat): (r: Option<Byte>)
    requires 2 * k + 2 <= |body|
  {
    ParseHexByte(body[2 * k..2 * k + 2])
  }

  /**
   * The text after `#` that every colour parser accepts: six or eight
   * characters, each pair of them hexadecimal.
   */
  predicate IsHexColorBody(body: string) {
    (|body| == 6 || |body| == 8)
    && forall k: nat | k < |body| / 2 :: PairAt(body, k).Some?
  }

  /** The colour a valid body denotes: opaque RGB for six digits, ARGB for eight. */
  function HexColorOf(body: string): Color
    requires IsHexColorBody(body)
  {
    assert PairAt(body, 0).Some? && PairAt(body, 1).Some? && PairAt(body, 2).Some?;
    if |body| == 6 then
      Color(255, PairAt(body, 0).value, PairAt(body, 1).value, PairAt(body, 2).value)
    else
      assert PairAt(body, 3).Some?;
      Color(PairAt(body, 0).value, PairAt(body, 1).value, PairAt(body, 2).value, PairAt(body, 3).value)
  }
}
