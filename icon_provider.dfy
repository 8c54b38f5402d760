/** Glyphs and colours for the network icon states. */
module IconProvider {
  import opened Colors
  import opened NetworkIconStates
  import opened Settings
  import Text

  // Hard-coded colours for the theme that does not use the custom settings
  const DarkThemeConnected: string := "#FFFFFF"
  const DarkThemeNoInternet: string := "#FFB900"
  const DarkThemeDisconnected: string := "#808080"
  const LightThemeConnected: string := "#000000"
  const LightThemeNoInternet: string := "#996600"
  const LightThemeDisconnected: string := "#666666"

  const GlyphEthernet: string := "\U{E839}"
  const GlyphWifi0: string := "\U{E871}"
  const GlyphWifi1: string := "\U{E872}"
  const GlyphWifi2: string := "\U{E873}"
  const GlyphWifi3: string := "\U{E874}"
  const GlyphWifi4: string := "\U{E701}"
  const GlyphNoNetwork: string := "\U{F384}"

  const Glyphs: set<string> :=
    {GlyphEthernet, GlyphWifi0, GlyphWifi1, GlyphWifi2, GlyphWifi3, GlyphWifi4, GlyphNoNetwork}

  /** The glyph drawn for a state. */
  function GetGlyph(state: NetworkIconState): (g: string)
    ensures g in Glyphs
  {
    match state
    case NoNetwork => GlyphNoNetwork
    case EthernetConnected => GlyphEthernet
    case EthernetNoInternet => GlyphEthernet
    case EthernetDisconnected => GlyphEthernet
    case WifiDisconnected => GlyphWifi0
    case WifiConnecting => GlyphWifi1
    case Wifi0Bars | Wifi0BarsNoInternet => GlyphWifi0
    case Wifi1Bar | Wifi1BarNoInternet => GlyphWifi1
    case Wifi2Bars | Wifi2BarsNoInternet => GlyphWifi2
    case Wifi3Bars | Wifi3BarsNoInternet => GlyphWifi3
    case Wifi4Bars | Wifi4BarsNoInternet => GlyphWifi4
  }

  /** The number of filled bars of a Wi-Fi signal state, with or without internet. */
  function BarsOf(state: NetworkIconState): nat {
    match state
    case Wifi1Bar | Wifi1BarNoInternet => 1
    case Wifi2Bars | Wifi2BarsNoInternet => 2
    case Wifi3Bars | Wifi3BarsNoInternet => 3
    case Wifi4Bars | Wifi4BarsNoInternet => 4
    case _ => 0
  }

  /** The bar glyphs, indexed by the number of filled bars. */
  const WifiBarGlyphs: seq<string> := [GlyphWifi0, GlyphWifi1, GlyphWifi2, GlyphWifi3, GlyphWifi4]

  /** The glyph mapping: Ethernet, no network, and Wi-Fi by bar count; with and without internet share a glyph. */
  lemma GlyphAssignment(state: NetworkIconState)
    ensures state.EthernetConnected? || state.EthernetNoInternet? || state.EthernetDisconnected?
            ==> GetGlyph(state) == GlyphEthernet
    ensures state.NoNetwork? ==> GetGlyph(state) == GlyphNoNetwork
    ensures state.WifiDisconnected? ==> GetGlyph(state) == GlyphWifi0
    ensures state.WifiConnecting? ==> GetGlyph(state) == GlyphWifi1
    ensures IsWifi(state) && !state.WifiDisconnected? && !state.WifiConnecting?
            ==> GetGlyph(state) == WifiBarGlyphs[BarsOf(state)]
  {
  }

  /** The three colour roles a state is drawn in. */
  datatype ColorCategory = Connected | NoInternet | Disconnected

  /** The colour role of each state. */
  function CategoryOf(state: NetworkIconState): ColorCategory {
    if state.NoNetwork? || state.EthernetDisconnected? || state.WifiDisconnected? then Disconnected
    else if state.EthernetConnected? || state in {Wifi0Bars, Wifi1Bar, Wifi2Bars, Wifi3Bars, Wifi4Bars} then Connected
    else NoInternet
  }

  /** Whether the custom colours apply: exactly when the setting names the current theme. */
  function UseCustomColors(icon: IconSettings, isLightTheme: bool): (r: bool)
    ensures r <==> icon.applyColorsToLightTheme == isLightTheme
  {
    if icon.applyColorsToLightTheme then isLightTheme else !isLightTheme
  }

  /** The hard-coded colour text of a role for a theme. */
  function ThemeColorText(isLightTheme: bool, category: ColorCategory): string {
    match category
    case Connected => if isLightTheme then LightThemeConnected else DarkThemeConnected
    case NoInternet => if isLightTheme then LightThemeNoInternet else DarkThemeNoInternet
    case Disconnected => if isLightTheme then LightThemeDisconnected else DarkThemeDisconnected
  }

  /** The custom colour text of a role. */
  function CustomColorText(icon: IconSettings, category: ColorCategory): string {
    match category
    case Connected => icon.connectedColor
    case NoInternet => icon.noInternetColor
    case Disconnected => icon.disconnectedColor
  }

  /** The colour text a role is drawn in: custom when the custom colours apply, hard-coded otherwise. */
  function SelectedColorText(icon: IconSettings, isLightTheme: bool, category: ColorCategory): string {
    if UseCustomColors(icon, isLightTheme) then CustomColorText(icon, category)
    else ThemeColorText(isLightTheme, category)
  }

  /** The colour text `GetColor` picks: the three texts are chosen first, then the switch selects the state's one. */
  function StateColorText(icon: IconSettings, isLightTheme: bool, state: NetworkIconState): string {
    var useCustomColors := UseCustomColors(icon, isLightTheme);
    var connectedColor := if useCustomColors then icon.connectedColor
      else (if isLightTheme then LightThemeConnected else DarkThemeConnected);
    var noInternetColor := if useCustomColors then icon.noInternetColor
      else (if isLightTheme then LightThemeNoInternet else DarkThemeNoInternet);
    var disconnectedColor := if useCustomColors then icon.disconnectedColor
      else (if isLightTheme then LightThemeDisconnected else DarkThemeDisconnected);
    match state
    case NoNetwork => disconnectedColor
    case EthernetConnected => connectedColor
    case EthernetNoInternet => noInternetColor
    case EthernetDisconnected => disconnectedColor
    case WifiDisconnected => disconnectedColor
    case WifiConnecting => noInternetColor
    case Wifi0Bars | Wifi1Bar | Wifi2Bars | Wifi3Bars | Wifi4Bars => connectedColor
    case Wifi0BarsNoInternet | Wifi1BarNoInternet | Wifi2BarsNoInternet | Wifi3BarsNoInternet
      | Wifi4BarsNoInternet => noInternetColor
  }

  /** `GetColor`: the state's colour text, parsed. */
  function GetColor(icon: IconSettings, isLightTheme: bool, state: NetworkIconState): Color {
    ParseColor(StateColorText(icon, isLightTheme, state))
  }

  /** The switch gives every state the text of its role, custom or hard-coded as the theme setting says. */
  lemma StateColorTextByCategory(icon: IconSettings, isLightTheme: bool, state: NetworkIconState)
    ensures StateColorText(icon, isLightTheme, state) == SelectedColorText(icon, isLightTheme, CategoryOf(state))
  {
  }

  /** Every state is drawn in the parsed colour of its role, custom or hard-coded as the theme setting says. */
  lemma GetColorByCategory(icon: IconSettings, isLightTheme: bool, state: NetworkIconState)
    ensures GetColor(icon, isLightTheme, state)
            == ParseColor(SelectedColorText(icon, isLightTheme, CategoryOf(state)))
    ensures !UseCustomColors(icon, isLightTheme)
            ==> GetColor(icon, isLightTheme, state) == ParseColor(ThemeColorText(isLightTheme, CategoryOf(state)))
  {
    StateColorTextByCategory(icon, isLightTheme, state);
  }

  /**
   * `ParseColor`: one leading `#` is dropped; six digits are RGB with alpha
   * 255, eight are ARGB; any other length or a pair that is not hexadecimal
   * gives white.
   */
  function ParseColor(hexColor: string): (c: Color)
  {
    var hex := Text.StripPrefixChar(hexColor, '#');
    if |hex| == 6 then
      match (ParseHexByte(hex[0..2]), ParseHexByte(hex[2..4]), ParseHexByte(hex[4..6]))
      case (Some(r), Some(g), Some(b)) => Color(255, r, g, b)
      case _ => White
    else if |hex| == 8 then
      match (ParseHexByte(hex[0..2]), ParseHexByte(hex[2..4]), ParseHexByte(hex[4..6]), ParseHexByte(hex[6..8]))
      case (Some(a), Some(r), Some(g), Some(b)) => Color(a, r, g, b)
      case _ => White
    else
      White
  }

  /**
   * `ParseColor` is the reference reading of the text after one `#`, and
   * white whenever that text is not a valid colour body.
   */
  lemma ParseColorSpec(hexColor: string)
    ensures var body := Text.StripPrefixChar(hexColor, '#');
            ParseColor(hexColor) == if IsHexColorBody(body) then HexColorOf(body) else White
  {
    var body := Text.StripPrefixChar(hexColor, '#');
    if |body| == 6 || |body| == 8 {
      if IsHexColorBody(body) {
        assert PairAt(body, 0).Some? && PairAt(body, 1).Some? && PairAt(body, 2).Some?;
        if |body| == 8 {
          assert PairAt(body, 3).Some?;
        }
      } else {
        var k: nat :| k < |body| / 2 && PairAt(body, k).None?;
        assert k <= 3;
      }
    }
  }

  /** Formatting a colour as `#RRGGBB` (opaque) or `#AARRGGBB` and parsing the text gives the colour back. */
  lemma ParseColorRoundTrip(c: Color)
    ensures c.a == 255 ==> ParseColor(FormatRgb(c)) == c
    ensures ParseColor(FormatArgb(c)) == c
  {
    ParseFormatHexByte(c.a);
    ParseFormatHexByte(c.r);
    ParseFormatHexByte(c.g);
    ParseFormatHexByte(c.b);
    var rgb := FormatRgb(c)[1..];
    assert rgb[0..2] == FormatHexByte(c.r) && rgb[2..4] == FormatHexByte(c.g) && rgb[4..6] == FormatHexByte(c.b);
    var argb := FormatArgb(c)[1..];
    assert argb[0..2] == FormatHexByte(c.a) && argb[2..4] == FormatHexByte(c.r);
    assert argb[4..6] == FormatHexByte(c.g) && argb[6..8] == FormatHexByte(c.b);
  }

  /** The colour each hard-coded text stands for. */
  function ThemeColor(isLightTheme: bool, category: ColorCategory): Color {
    match category
    case Connected => if isLightTheme then FromRgb(0x00, 0x00, 0x00) else FromRgb(0xFF, 0xFF, 0xFF)
    case NoInternet => if isLightTheme then FromRgb(0x99, 0x66, 0x00) else FromRgb(0xFF, 0xB9, 0x00)
    case Disconnected => if isLightTheme then FromRgb(0x66, 0x66, 0x66) else FromRgb(0x80, 0x80, 0x80)
  }

  /**
   * The hard-coded colours parse to black, dark amber and grey on a light
   * theme and to white, amber and grey on a dark one, all opaque.
   */
  lemma ThemeColorsParse(isLightTheme: bool, category: ColorCategory)
    ensures ParseColor(ThemeColorText(isLightTheme, category)) == ThemeColor(isLightTheme, category)
  {
    if isLightTheme {
      LightThemeColorsParse(category);
    } else {
      DarkThemeColorsParse(category);
    }
  }

  lemma LightThemeColorsParse(category: ColorCategory)
    ensures ParseColor(ThemeColorText(true, category)) == ThemeColor(true, category)
  {
    match category {
      case Connected => assert ParseColor(LightThemeConnected) == FromRgb(0x00, 0x00, 0x00);
      case NoInternet => assert ParseColor(LightThemeNoInternet) == FromRgb(0x99, 0x66, 0x00);
      case Disconnected => assert ParseColor(LightThemeDisconnected) == FromRgb(0x66, 0x66, 0x66);
    }
  }

  lemma DarkThemeColorsParse(category: ColorCategory)
    ensures ParseColor(ThemeColorText(false, category)) == ThemeColor(false, category)
  {
    match category {
      case Connected => assert ParseColor(DarkThemeConnected) == FromRgb(0xFF, 0xFF, 0xFF);
      case NoInternet => assert ParseColor(DarkThemeNoInternet) == FromRgb(0xFF, 0xB9, 0x00);
      case Disconnected => assert ParseColor(DarkThemeDisconnected) == FromRgb(0x80, 0x80, 0x80);
    }
  }

  /** Every hard-coded colour text is a valid colour body after its `#`. */
  lemma ThemeColorTextsValid(isLightTheme: bool, category: ColorCategory)
    ensures IsHexColorBody(Text.StripPrefixChar(ThemeColorText(isLightTheme, category), '#'))
  {
    var body := Text.StripPrefixChar(ThemeColorText(isLightTheme, category), '#');
    assert |body| == 6;
    SixHexDigitsValid(body);
  }

  /** Six hexadecimal digits make a valid colour body. */
  lemma SixHexDigitsValid(body: string)
    requires |body| == 6 && forall i | 0 <= i < 6 :: HexDigitValue(body[i]).Some?
    ensures IsHexColorBody(body)
  {
    assert PairAt(body, 0).Some? && PairAt(body, 1).Some? && PairAt(body, 2).Some?;
  }

  /** When the custom colours do not apply, every state is drawn in its role's hard-coded colour. */
  lemma HardCodedColorsWhenNotCustom(icon: IconSettings, isLightTheme: bool, state: NetworkIconState)
    requires !UseCustomColors(icon, isLightTheme)
    ensures GetColor(icon, isLightTheme, state) == ThemeColor(isLightTheme, CategoryOf(state))
  {
    GetColorByCategory(icon, isLightTheme, state);
    ThemeColorsParse(isLightTheme, CategoryOf(state));
  }

  /**
   * Settings created for a theme, shown on that theme, use the custom
   * colours, and these are the hard-coded colours of that theme.
   */
  lemma CreateForThemeMatchesHardCoded(isLightTheme: bool, category: ColorCategory)
    ensures UseCustomColors(CreateForTheme(isLightTheme), isLightTheme)
    ensures SelectedColorText(CreateForTheme(isLightTheme), isLightTheme, category)
            == ThemeColorText(isLightTheme, category)
  {
  }
}
