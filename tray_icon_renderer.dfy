/**
 * The tray icon renderer: which glyphs are layered for a state, the colour
 * they are drawn in, and the replacement of the current icon.
 */
module TrayIconRenderer {
  import opened Wrappers
  import opened Colors
  import opened NetworkIconStates
  import opened Settings
  import Text
  import IconProvider

  /**
   * `GetGlyphsForState`: an optional backdrop glyph drawn at reduced opacity
   * and the foreground glyph. Partial Wi-Fi signals are drawn over the full
   * signal glyph so that the unfilled bars show.
   */
  function GetGlyphsForState(state: NetworkIconState): (r: (Option<string>, string))
    ensures r.0.Some? ==> r.0.value == IconProvider.GlyphWifi4
  {
    match state
    case Wifi0Bars | Wifi0BarsNoInternet => (Some(IconProvider.GlyphWifi4), IconProvider.GlyphWifi0)
    case Wifi1Bar | Wifi1BarNoInternet => (Some(IconProvider.GlyphWifi4), IconProvider.GlyphWifi1)
    case Wifi2Bars | Wifi2BarsNoInternet => (Some(IconProvider.GlyphWifi4), IconProvider.GlyphWifi2)
    case Wifi3Bars | Wifi3BarsNoInternet => (Some(IconProvider.GlyphWifi4), IconProvider.GlyphWifi3)
    case Wifi4Bars | Wifi4BarsNoInternet => (None, IconProvider.GlyphWifi4)
    case WifiDisconnected => (Some(IconProvider.GlyphWifi4), IconProvider.GlyphWifi0)
    case WifiConnecting => (Some(IconProvider.GlyphWifi4), IconProvider.GlyphWifi1)
    case EthernetConnected | EthernetNoInternet | EthernetDisconnected => (None, IconProvider.GlyphEthernet)
    case NoNetwork => (None, IconProvider.GlyphNoNetwork)
  }

  /**
   * The renderer and the icon provider agree on the glyph of every state,
   * and a backdrop is drawn exactly for the Wi-Fi states whose glyph is not
   * already the full signal.
   */
  lemma GlyphsAgreeWithIconProvider(state: NetworkIconState)
    ensures GetGlyphsForState(state).1 == IconProvider.GetGlyph(state)
    ensures GetGlyphsForState(state).0.Some?
            <==> IsWifi(state) && IconProvider.GetGlyph(state) != IconProvider.GlyphWifi4
  {
  }

  /**
   * `ParseColor` of the renderer: the same reading as the icon provider's,
   * falling back to black on a light taskbar and white on a dark one.
   */
  function ParseColor(hexColor: string, isLightTheme: bool): Color {
    var hex := Text.StripPrefixChar(hexColor, '#');
    var fallback := if isLightTheme then Black else White;
    if |hex| == 6 then
      match (ParseHexByte(hex[0..2]), ParseHexByte(hex[2..4]), ParseHexByte(hex[4..6]))
      case (Some(r), Some(g), Some(b)) => Color(255, r, g, b)
      case _ => fallback
    else if |hex| == 8 then
      match (ParseHexByte(hex[0..2]), ParseHexByte(hex[2..4]), ParseHexByte(hex[4..6]), ParseHexByte(hex[6..8]))
      case (Some(a), Some(r), Some(g), Some(b)) => Color(a, r, g, b)
      case _ => fallback
    else
      fallback
  }

  /** A valid colour text reads as in the icon provider; anything else gives the theme's fallback. */
  lemma ParseColorSpec(hexColor: string, isLightTheme: bool)
    ensures var body := Text.StripPrefixChar(hexColor, '#');
            ParseColor(hexColor, isLightTheme)
            == if IsHexColorBody(body) then IconProvider.ParseColor(hexColor)
               else if isLightTheme then Black else White
  {
    IconProvider.ParseColorSpec(hexColor);
    var body := Text.StripPrefixChar(hexColor, '#');
    if |body| == 6 || |body| == 8 {
      if IsHexColorBody(body) {
        assert PairAt(body, 0).Some? && PairAt(body, 1).Some? && PairAt(body, 2).Some?;
        if |body| == 8 {
          assert PairAt(body, 3).Some?;
        }
      } else {
        var k: nat :| k < |body| / 2 && PairAt(body, k).None?;
        assert k <= 3;
      }
    }
  }

  /** The colour text the renderer's `GetColor` picks, chosen as in the icon provider. */
  function StateColorText(icon: IconSettings, isLightTheme: bool, state: NetworkIconState): string {
    var useCustomColors := if icon.applyColorsToLightTheme then isLightTheme else !isLightTheme;
    var connectedColor := if useCustomColors then icon.connectedColor
      else (if isLightTheme then IconProvider.LightThemeConnected else IconProvider.DarkThemeConnected);
    var noInternetColor := if useCustomColors then icon.noInternetColor
      else (if isLightTheme then IconProvider.LightThemeNoInternet else IconProvider.DarkThemeNoInternet);
    var disconnectedColor := if useCustomColors then icon.disconnectedColor
      else (if isLightTheme then IconProvider.LightThemeDisconnected else IconProvider.DarkThemeDisconnected);
    match state
    case NoNetwork => disconnectedColor
    case EthernetConnected => connectedColor
    case EthernetNoInternet => noInternetColor
    case EthernetDisconnected => disconnectedColor
    case WifiDisconnected => disconnectedColor
    case WifiConnecting => noInternetColor
    case Wifi0Bars | Wifi1Bar | Wifi2Bars | Wifi3Bars | Wifi4Bars => connectedColor
    case Wifi0BarsNoInternet | Wifi1BarNoInternet | Wifi2BarsNoInternet | Wifi3BarsNoInternet
      | Wifi4BarsNoInternet => noInternetColor
  }

  /** `GetColor` of the renderer: the state's colour text, parsed with the theme fallback. */
  function GetColor(icon: IconSettings, isLightTheme: bool, state: NetworkIconState): Color {
    ParseColor(StateColorText(icon, isLightTheme, state), isLightTheme)
  }

  /** The renderer's copy of the colour choice picks the icon provider's text for every state. */
  lemma StateColorTextAgrees(icon: IconSettings, isLightTheme: bool, state: NetworkIconState)
    ensures StateColorText(icon, isLightTheme, state) == IconProvider.StateColorText(icon, isLightTheme, state)
  {
  }

  /**
   * The renderer picks the same colour text as the icon provider for every
   * state; when that text is valid both draw the same colour, otherwise the
   * renderer draws the theme's fallback where the provider draws white.
   */
  lemma GetColorAgreesWithIconProvider(icon: IconSettings, isLightTheme: bool, state: NetworkIconState)
    ensures var text := IconProvider.SelectedColorText(icon, isLightTheme, IconProvider.CategoryOf(state));
            GetColor(icon, isLightTheme, state)
            == if IsHexColorBody(Text.StripPrefixChar(text, '#')) then IconProvider.GetColor(icon, isLightTheme, state)
               else if isLightTheme then Black else White
  {
    var text := IconProvider.SelectedColorText(icon, isLightTheme, IconProvider.CategoryOf(state));
    StateColorTextAgrees(icon, isLightTheme, state);
    IconProvider.StateColorTextByCategory(icon, isLightTheme, state);
    IconProvider.GetColorByCategory(icon, isLightTheme, state);
    ParseColorSpec(text, isLightTheme);
  }

  /** Without custom colours the renderer and the icon provider draw every state in the same colour. */
  lemma SameColorWhenNotCustom(icon: IconSettings, isLightTheme: bool, state: NetworkIconState)
    requires !IconProvider.UseCustomColors(icon, isLightTheme)
    ensures GetColor(icon, isLightTheme, state) == IconProvider.GetColor(icon, isLightTheme, state)
  {
    GetColorAgreesWithIconProvider(icon, isLightTheme, state);
    IconProvider.ThemeColorTextsValid(isLightTheme, IconProvider.CategoryOf(state));
  }

  /** A rendered tray icon: the layers and colour it was drawn with. */
  class Icon {
    const backdropGlyph: Option<string>
    const foregroundGlyph: string
    const foregroundColor: Color
    var isDisposed: bool

    constructor(backdropGlyph: Option<string>, foregroundGlyph: string, foregroundColor: Color)
      ensures this.backdropGlyph == backdropGlyph && this.foregroundGlyph == foregroundGlyph
      ensures this.foregroundColor == foregroundColor && !isDisposed
    {
      this.backdropGlyph := backdropGlyph;
      this.foregroundGlyph := foregroundGlyph;
      this.foregroundColor := foregroundColor;
      isDisposed := false;
    }

    method Dispose()
      modifies this
      ensures isDisposed
    {
      isDisposed := true;
    }
  }

  /** The renderer owns the icon it created last and disposes it when replaced. */
  class Renderer {
    const settings: AppSettings
    var isLightTheme: bool
    var currentIcon: Icon?
    var disposed: bool

    constructor(settings: AppSettings)
      ensures this.settings == settings && !isLightTheme
      ensures currentIcon == null && !disposed
    {
      this.settings := settings;
      isLightTheme := false;
      currentIcon := null;
      disposed := false;
    }

    /**
     * `CreateIcon`: renders the state's glyphs in its colour, installs the
     * new icon as the current one and disposes only the previous one.
     */
    method CreateIcon(state: NetworkIconState) returns (icon: Icon)
      modifies this, currentIcon
      ensures fresh(icon) && !icon.isDisposed
      ensures (icon.backdropGlyph, icon.foregroundGlyph) == GetGlyphsForState(state)
      ensures icon.foregroundColor == GetColor(settings.icon, isLightTheme, state)
      ensures currentIcon == icon
      ensures old(currentIcon) != null ==> old(currentIcon).isDisposed
      ensures isLightTheme == old(isLightTheme) && disposed == old(disposed)
    {
      var foregroundColor := GetColor(settings.icon, isLightTheme, state);
      var (backdropGlyph, foregroundGlyph) := GetGlyphsForState(state);
      icon := new Icon(backdropGlyph, foregroundGlyph, foregroundColor);
      var oldIcon := currentIcon;
      currentIcon := icon;
      if oldIcon != null {
        oldIcon.Dispose();
      }
    }

    /** `Dispose`: the first call disposes the current icon and forgets it; later calls do nothing. */
    method Dispose()
      modifies this, currentIcon
      ensures disposed
      ensures !old(disposed) ==> currentIcon == null
      ensures !old(disposed) && old(currentIcon) != null ==> old(currentIcon).isDisposed
      ensures old(disposed) ==> currentIcon == old(currentIcon)
      ensures old(disposed) && old(currentIcon) != null ==> unchanged(old(currentIcon))
      ensures isLightTheme == old(isLightTheme)
    {
      if disposed {
        return;
      }
      disposed := true;
      if currentIcon != null {
        currentIcon.Dispose();
      }
      currentIcon := null;
    }
  }
}
