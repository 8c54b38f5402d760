/**
 * The flyout-style settings window: colour text validation and the change
 * handlers, which do nothing until the window has loaded the current
 * settings, and the close-on-deactivate behaviour.
 */
module SettingsFlyout {
  import opened Wrappers
  import opened Colors
  import opened NetworkIconStates
  import opened Settings
  import Text
  import IconProvider

  /**
   * `TryParseColor`: null or blank text fails; one `#` is dropped; six
   * digits are opaque RGB and eight are ARGB; anything else fails with the
   * default colour.
   */
  function TryParseColor(hexColor: Option<string>): (r: (bool, Color)) {
    if Text.IsNullOrWhiteSpace(hexColor) then (false, DefaultColor)
    else
      var hex := Text.StripPrefixChar(hexColor.value, '#');
      if |hex| == 6 then
        match (ParseHexByte(hex[0..2]), ParseHexByte(hex[2..4]), ParseHexByte(hex[4..6]))
        case (Some(r), Some(g), Some(b)) => (true, Color(255, r, g, b))
        case _ => (false, DefaultColor)
      else if |hex| == 8 then
        match (ParseHexByte(hex[0..2]), ParseHexByte(hex[2..4]), ParseHexByte(hex[4..6]), ParseHexByte(hex[6..8]))
        case (Some(a), Some(r), Some(g), Some(b)) => (true, Color(a, r, g, b))
        case _ => (false, DefaultColor)
      else
        (false, DefaultColor)
  }

  /** A valid colour body is never blank: its first character is a hexadecimal digit. */
  lemma HexColorTextNotBlank(text: string)
    requires IsHexColorBody(Text.StripPrefixChar(text, '#'))
    ensures !Text.IsNullOrWhiteSpace(Some(text))
  {
    var body := Text.StripPrefixChar(text, '#');
    assert PairAt(body, 0).Some?;
    var i := if |text| > 0 && text[0] == '#' then 1 else 0;
    assert text[i] == body[0];
    assert !Text.IsWhiteSpace(text[i]);
  }

  /**
   * `TryParseColor` succeeds exactly on non-null text whose body after one
   * `#` is valid; its colour is then the icon provider's reading of the same
   * text, and otherwise the default colour.
   */
  lemma TryParseColorSpec(hexColor: Option<string>)
    ensures TryParseColor(hexColor).0
            <==> hexColor.Some? && IsHexColorBody(Text.StripPrefixChar(hexColor.value, '#'))
    ensures TryParseColor(hexColor).0 ==> TryParseColor(hexColor).1 == IconProvider.ParseColor(hexColor.value)
    ensures !TryParseColor(hexColor).0 ==> TryParseColor(hexColor).1 == DefaultColor
  {
    if hexColor.Some? {
      var body := Text.StripPrefixChar(hexColor.value, '#');
      IconProvider.ParseColorSpec(hexColor.value);
      if IsHexColorBody(body) {
        HexColorTextNotBlank(hexColor.value);
        assert PairAt(body, 0).Some? && PairAt(body, 1).Some? && PairAt(body, 2).Some?;
        if |body| == 8 {
          assert PairAt(body, 3).Some?;
        }
      } else if |body| == 6 || |body| == 8 {
        var k: nat :| k < |body| / 2 && PairAt(body, k).None?;
        assert k <= 3;
      }
    }
  }

  /** The flyout window, its copy of the settings and the flags its handlers test. */
  class Flyout {
    var settings: AppSettings
    /** Every `Save`, in order: the settings written. */
    var saved: seq<AppSettings>
    var isInitializing: bool
    var isClosing: bool
    /** Whether `OnLoaded` is still subscribed to `Loaded`. */
    var loadedSubscribed: bool
    /** `Close` and `DisableAcrylic` calls. */
    var closeCalls: nat
    var acrylicDisabledCalls: nat
    /** The colours shown in the three preview swatches. */
    var previews: map<ColorSlot, Color>
    /** What the controls show after loading. */
    var selectedFlyoutStyle: Option<FlyoutStyle>
    var selectedAdapterSettingsStyle: Option<AdapterSettingsStyle>
    var isChecked: Option<bool>

    /** The flyout closes at most once, and only after marking itself closing. */
    predicate Valid()
      reads this
    {
      closeCalls <= 1 && acrylicDisabledCalls == closeCalls
      && (closeCalls == 1 ==> isClosing)
      && (!isInitializing ==> !loadedSubscribed)
    }

    constructor(settings: AppSettings)
      ensures Valid()
      ensures this.settings == settings && saved == []
      ensures isInitializing && !isClosing && loadedSubscribed && closeCalls == 0
      ensures previews == map[] && selectedFlyoutStyle.None? && selectedAdapterSettingsStyle.None? && isChecked.None?
    {
      this.settings := settings;
      saved := [];
      isInitializing := true;
      isClosing := false;
      loadedSubscribed := true;
      closeCalls := 0;
      acrylicDisabledCalls := 0;
      previews := map[];
      selectedFlyoutStyle := None;
      selectedAdapterSettingsStyle := None;
      isChecked := None;
    }

    /** The controls keep what loading showed: a handler reacts to them and never sets them. */
    twostate predicate ControlsKept()
      reads this
    {
      selectedFlyoutStyle == old(selectedFlyoutStyle) && selectedAdapterSettingsStyle == old(selectedAdapterSettingsStyle)
      && isChecked == old(isChecked)
    }

    /** `UpdateColorPreview`: the swatch changes only when the text parses. */
    method UpdateColorPreview(slot: ColorSlot, hexColor: string)
      modifies this
      ensures var (ok, color) := TryParseColor(Some(hexColor));
              previews == if ok then old(previews)[slot := color] else old(previews)
      ensures settings == old(settings) && saved == old(saved) && isInitializing == old(isInitializing)
      ensures isClosing == old(isClosing) && loadedSubscribed == old(loadedSubscribed)
      ensures closeCalls == old(closeCalls) && acrylicDisabledCalls == old(acrylicDisabledCalls)
      ensures ControlsKept()
    {
      var (ok, color) := TryParseColor(Some(hexColor));
      if ok {
        previews := previews[slot := color];
      }
    }

    /**
     * `OnLoaded`: unsubscribes itself, shows the current settings in the
     * controls (their change events find the window still initialising),
     * and only then ends initialisation.
     */
    method OnLoaded()
      requires Valid() && loadedSubscribed
      modifies this
      ensures Valid()
      ensures !loadedSubscribed && !isInitializing
      ensures settings == old(settings) && saved == old(saved)
      ensures isClosing == old(isClosing) && closeCalls == old(closeCalls)
      ensures selectedFlyoutStyle == Some(settings.tray.flyoutStyle)
      ensures selectedAdapterSettingsStyle == Some(settings.tray.adapterSettingsStyle)
      ensures isChecked == Some(settings.icon.applyColorsToLightTheme)
      ensures forall slot :: TryParseColor(Some(ColorText(settings.icon, slot))).0
                ==> slot in previews && previews[slot] == TryParseColor(Some(ColorText(settings.icon, slot))).1
    {
      loadedSubscribed := false;
      selectedFlyoutStyle := Some(settings.tray.flyoutStyle);
      selectedAdapterSettingsStyle := Some(settings.tray.adapterSettingsStyle);
      var icon := settings.icon;
      UpdateColorPreview(ConnectedSlot, icon.connectedColor);
      UpdateColorPreview(NoInternetSlot, icon.noInternetColor);
      UpdateColorPreview(DisconnectedSlot, icon.disconnectedColor);
      isChecked := Some(icon.applyColorsToLightTheme);
      isInitializing := false;
      forall slot | TryParseColor(Some(ColorText(icon, slot))).0
        ensures slot in previews && previews[slot] == TryParseColor(Some(ColorText(icon, slot))).1
      {
        match slot
        case ConnectedSlot =>
        case NoInternetSlot =>
        case DisconnectedSlot =>
      }
    }

    /** `Window_Deactivated`: the first deactivation disables the blur and closes; later ones do nothing. */
    method WindowDeactivated()
      requires Valid()
      modifies this
      ensures Valid()
      ensures isClosing
      ensures closeCalls == if old(isClosing) then old(closeCalls) else old(closeCalls) + 1
      ensures settings == old(settings) && saved == old(saved) && isInitializing == old(isInitializing)
      ensures loadedSubscribed == old(loadedSubscribed) && previews == old(previews)
      ensures ControlsKept()
    {
      if !isClosing {
        isClosing := true;
        acrylicDisabledCalls := acrylicDisabledCalls + 1;
        closeCalls := closeCalls + 1;
      }
    }

    /**
     * `FlyoutStyleComboBox_SelectionChanged`: after loading, a selected item
     * whose tag names a style stores and saves that style.
     */
    method FlyoutStyleSelectionChanged(tag: Option<string>)
      requires Valid()
      modifies this
      ensures Valid()
      ensures var style := if tag.Some? then ParseFlyoutStyle(tag.value) else None;
              if old(isInitializing) || style.None? then settings == old(settings) && saved == old(saved)
              else settings == old(settings).(tray := old(settings).tray.(flyoutStyle := style.value))
                   && saved == old(saved) + [settings]
      ensures isInitializing == old(isInitializing) && isClosing == old(isClosing)
      ensures closeCalls == old(closeCalls) && loadedSubscribed == old(loadedSubscribed) && previews == old(previews)
      ensures ControlsKept()
    {
      if isInitializing {
        return;
      }
      if tag.Some? {
        var style := ParseFlyoutStyle(tag.value);
        if style.Some? {
          settings := settings.(tray := settings.tray.(flyoutStyle := style.value));
          saved := saved + [settings];
        }
      }
    }

    /** `AdapterSettingsStyleComboBox_SelectionChanged`, the same for the adapter-settings style. */
    method AdapterSettingsStyleSelectionChanged(tag: Option<string>)
      requires Valid()
      modifies this
      ensures Valid()
      ensures var style := if tag.Some? then ParseAdapterSettingsStyle(tag.value) else None;
              if old(isInitializing) || style.None? then settings == old(settings) && saved == old(saved)
              else settings == old(settings).(tray := old(settings).tray.(adapterSettingsStyle := style.value))
                   && saved == old(saved) + [settings]
      ensures isInitializing == old(isInitializing) && isClosing == old(isClosing)
      ensures closeCalls == old(closeCalls) && loadedSubscribed == old(loadedSubscribed) && previews == old(previews)
      ensures ControlsKept()
    {
      if isInitializing {
        return;
      }
      if tag.Some? {
        var style := ParseAdapterSettingsStyle(tag.value);
        if style.Some? {
          settings := settings.(tray := settings.tray.(adapterSettingsStyle := style.value));
          saved := saved + [settings];
        }
      }
    }

    /**
     * The three `*ColorTextBox_TextChanged` handlers: after loading, text
     * that parses becomes the slot's colour, is saved and previewed; other
     * text leaves the settings as they were.
     */
    method ColorTextChanged(slot: ColorSlot, text: string)
      requires Valid()
      modifies this
      ensures Valid()
      ensures var ok := TryParseColor(Some(text)).0;
              if old(isInitializing) || !ok then settings == old(settings) && saved == old(saved) && previews == old(previews)
              else settings == old(settings).(icon := WithColorText(old(settings).icon, slot, text))
                   && saved == old(saved) + [settings]
                   && previews == old(previews)[slot := TryParseColor(Some(text)).1]
      ensures isInitializing == old(isInitializing) && isClosing == old(isClosing)
      ensures closeCalls == old(closeCalls) && loadedSubscribed == old(loadedSubscribed)
      ensures ControlsKept()
    {
      if isInitializing {
        return;
      }
      var (ok, _) := TryParseColor(Some(text));
      if ok {
        settings := settings.(icon := WithColorText(settings.icon, slot, text));
        saved := saved + [settings];
        UpdateColorPreview(slot, text);
      }
    }

    /** `ApplyColorsToLightThemeCheckBox_Changed`: after loading, stores and saves whether the box is checked; indeterminate counts as unchecked. */
    method ApplyColorsToLightThemeChanged(checkState: Option<bool>)
      requires Valid()
      modifies this
      ensures Valid()
      ensures if old(isInitializing) then settings == old(settings) && saved == old(saved)
              else settings == old(settings).(icon := old(settings).icon.(applyColorsToLightTheme := checkState == Some(true)))
                   && saved == old(saved) + [settings]
      ensures isInitializing == old(isInitializing) && isClosing == old(isClosing)
      ensures closeCalls == old(closeCalls) && loadedSubscribed == old(loadedSubscribed) && previews == old(previews)
      ensures ControlsKept()
    {
      if isInitializing {
        return;
      }
      settings := settings.(icon := settings.icon.(applyColorsToLightTheme := checkState == Some(true)));
      saved := saved + [settings];
    }
  }
}
