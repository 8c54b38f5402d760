/**
 * The classic settings window: the same validation and guarded handlers as
 * the flyout, with a `Closing` handler that keeps deactivation from closing
 * a window that is already closing.
 */
module SettingsWindow {
  import opened Wrappers
  import opened Colors
  import opened NetworkIconStates
  import opened Settings
  import Text
  import SettingsFlyout

  /** This window's own copy of `TryParseColor`. */
  function TryParseColor(hexColor: Option<string>): (r: (bool, Color)) {
    if Text.IsNullOrWhiteSpace(hexColor) then (false, DefaultColor)
    else
      var hex := Text.StripPrefixChar(hexColor.value, '#');
      match |hex|
      case 6 =>
        (match (ParseHexByte(hex[0..2]), ParseHexByte(hex[2..4]), ParseHexByte(hex[4..6]))
         case (Some(r), Some(g), Some(b)) => (true, Color(255, r, g, b))
         case _ => (false, DefaultColor))
      case 8 =>
        (match (ParseHexByte(hex[0..2]), ParseHexByte(hex[2..4]), ParseHexByte(hex[4..6]), ParseHexByte(hex[6..8]))
         case (Some(a), Some(r), Some(g), Some(b)) => (true, Color(a, r, g, b))
         case _ => (false, DefaultColor))
      case _ => (false, DefaultColor)
  }

  /** The window's parser and the flyout's give the same answer and colour on every input. */
  lemma TryParseColorSameAsFlyout(hexColor: Option<string>)
    ensures TryParseColor(hexColor) == SettingsFlyout.TryParseColor(hexColor)
    ensures TryParseColor(hexColor).0
            <==> hexColor.Some? && IsHexColorBody(Text.StripPrefixChar(hexColor.value, '#'))
  {
    SettingsFlyout.TryParseColorSpec(hexColor);
  }

  /** The settings window, its copy of the settings and the flags its handlers test. */
  class Window {
    var settings: AppSettings
    var saved: seq<AppSettings>
    var isInitializing: bool
    var isClosing: bool
    var closeCalls: nat
    var previews: map<ColorSlot, Color>
    var selectedFlyoutStyle: Option<FlyoutStyle>
    var selectedAdapterSettingsStyle: Option<AdapterSettingsStyle>
    var isChecked: Option<bool>

    /** Deactivation has closed the window at most once, and only once it was marked closing. */
    predicate Valid()
      reads this
    {
      closeCalls <= 1 && (closeCalls == 1 ==> isClosing)
    }

    constructor(settings: AppSettings)
      ensures Valid()
      ensures this.settings == settings && saved == []
      ensures isInitializing && !isClosing && closeCalls == 0
      ensures previews == map[] && selectedFlyoutStyle.None? && selectedAdapterSettingsStyle.None? && isChecked.None?
    {
      this.settings := settings;
      saved := [];
      isInitializing := true;
      isClosing := false;
      closeCalls := 0;
      previews := map[];
      selectedFlyoutStyle := None;
      selectedAdapterSettingsStyle := None;
      isChecked := None;
    }

    /** The controls keep what loading showed: a handler reacts to them and never sets them. */
    twostate predicate ControlsKept()
      reads this
    {
      selectedFlyoutStyle == old(selectedFlyoutStyle) && selectedAdapterSettingsStyle == old(selectedAdapterSettingsStyle)
      && isChecked == old(isChecked)
    }

    /** `UpdateColorPreview`: the swatch changes only when the text parses. */
    method UpdateColorPreview(slot: ColorSlot, hexColor: string)
      modifies this
      ensures var (ok, color) := TryParseColor(Some(hexColor));
              previews == if ok then old(previews)[slot := color] else old(previews)
      ensures settings == old(settings) && saved == old(saved) && isInitializing == old(isInitializing)
      ensures isClosing == old(isClosing) && closeCalls == old(closeCalls)
      ensures ControlsKept()
    {
      var (ok, color) := TryParseColor(Some(hexColor));
      if ok {
        previews := previews[slot := color];
      }
    }

    /** `OnLoaded`: shows the current settings in the controls, then ends initialisation. */
    method OnLoaded()
      requires Valid()
      modifies this
      ensures Valid()
      ensures !isInitializing
      ensures settings == old(settings) && saved == old(saved)
      ensures isClosing == old(isClosing) && closeCalls == old(closeCalls)
      ensures selectedFlyoutStyle == Some(settings.tray.flyoutStyle)
      ensures selectedAdapterSettingsStyle == Some(settings.tray.adapterSettingsStyle)
      ensures isChecked == Some(settings.icon.applyColorsToLightTheme)
      ensures forall slot :: TryParseColor(Some(ColorText(settings.icon, slot))).0
                ==> slot in previews && previews[slot] == TryParseColor(Some(ColorText(settings.icon, slot))).1
    {
      selectedFlyoutStyle := Some(settings.tray.flyoutStyle);
      selectedAdapterSettingsStyle := Some(settings.tray.adapterSettingsStyle);
      var icon := settings.icon;
      UpdateColorPreview(ConnectedSlot, icon.connectedColor);
      UpdateColorPreview(NoInternetSlot, icon.noInternetColor);
      UpdateColorPreview(DisconnectedSlot, icon.disconnectedColor);
      isChecked := Some(icon.applyColorsToLightTheme);
      isInitializing := false;
      forall slot | TryParseColor(Some(ColorText(icon, slot))).0
        ensures slot in previews && previews[slot] == TryParseColor(Some(ColorText(icon, slot))).1
      {
        match slot
        case ConnectedSlot =>
        case NoInternetSlot =>
        case DisconnectedSlot =>
      }
    }

    /** `Window_Closing`: marks the window closing so that deactivation no longer closes it. */
    method WindowClosing()
      requires Valid()
      modifies this
      ensures Valid()
      ensures isClosing
      ensures settings == old(settings) && saved == old(saved) && isInitializing == old(isInitializing)
      ensures closeCalls == old(closeCalls) && previews == old(previews)
      ensures ControlsKept()
    {
      isClosing := true;
    }

    /** `Window_Deactivated`: closes the window unless it is already closing. */
    method WindowDeactivated()
      requires Valid()
      modifies this
      ensures Valid()
      ensures isClosing
      ensures closeCalls == if old(isClosing) then old(closeCalls) else old(closeCalls) + 1
      ensures settings == old(settings) && saved == old(saved) && isInitializing == old(isInitializing)
      ensures previews == old(previews)
      ensures ControlsKept()
    {
      if !isClosing {
        isClosing := true;
        closeCalls := closeCalls + 1;
      }
    }

    /** `FlyoutStyleComboBox_SelectionChanged`. */
    method FlyoutStyleSelectionChanged(tag: Option<string>)
      requires Valid()
      modifies this
      ensures Valid()
      ensures var style := if tag.Some? then ParseFlyoutStyle(tag.value) else None;
              if old(isInitializing) || style.None? then settings == old(settings) && saved == old(saved)
              else settings == old(settings).(tray := old(settings).tray.(flyoutStyle := style.value))
                   && saved == old(saved) + [settings]
      ensures isInitializing == old(isInitializing) && isClosing == old(isClosing)
      ensures closeCalls == old(closeCalls) && previews == old(previews)
      ensures ControlsKept()
    {
      if isInitializing {
        return;
      }
      if tag.Some? {
        var style := ParseFlyoutStyle(tag.value);
        if style.Some? {
          settings := settings.(tray := settings.tray.(flyoutStyle := style.value));
          saved := saved + [settings];
        }
      }
    }

    /** `AdapterSettingsStyleComboBox_SelectionChanged`. */
    method AdapterSettingsStyleSelectionChanged(tag: Option<string>)
      requires Valid()
      modifies this
      ensures Valid()
      ensures var style := if tag.Some? then ParseAdapterSettingsStyle(tag.value) else None;
              if old(isInitializing) || style.None? then settings == old(settings) && saved == old(saved)
              else settings == old(settings).(tray := old(settings).tray.(adapterSettingsStyle := style.value))
                   && saved == old(saved) + [settings]
      ensures isInitializing == old(isInitializing) && isClosing == old(isClosing)
      ensures closeCalls == old(closeCalls) && previews == old(previews)
      ensures ControlsKept()
    {
      if isInitializing {
        return;
      }
      if tag.Some? {
        var style := ParseAdapterSettingsStyle(tag.value);
        if style.Some? {
          settings := settings.(tray := settings.tray.(adapterSettingsStyle := style.value));
          saved := saved + [settings];
        }
      }
    }

    /** The three `*ColorTextBox_TextChanged` handlers: only text that parses is stored, saved and previewed. */
    method ColorTextChanged(slot: ColorSlot, text: string)
      requires Valid()
      modifies this
      ensures Valid()
      ensures var ok := TryParseColor(Some(text)).0;
              if old(isInitializing) || !ok then settings == old(settings) && saved == old(saved) && previews == old(previews)
              else settings == old(settings).(icon := WithColorText(old(settings).icon, slot, text))
                   && saved == old(saved) + [settings]
                   && previews == old(previews)[slot := TryParseColor(Some(text)).1]
      ensures isInitializing == old(isInitializing) && isClosing == old(isClosing) && closeCalls == old(closeCalls)
      ensures ControlsKept()
    {
      if isInitializing {
        return;
      }
      var (ok, _) := TryParseColor(Some(text));
      if ok {
        settings := settings.(icon := WithColorText(settings.icon, slot, text));
        saved := saved + [settings];
        UpdateColorPreview(slot, text);
      }
    }

    /** `ApplyColorsToLightThemeCheckBox_Changed`: indeterminate counts as unchecked. */
    method ApplyColorsToLightThemeChanged(checkState: Option<bool>)
      requires Valid()
      modifies this
      ensures Valid()
      ensures if old(isInitializing) then settings == old(settings) && saved == old(saved)
              else settings == old(settings).(icon := old(settings).icon.(applyColorsToLightTheme := checkState == Some(true)))
                   && saved == old(saved) + [settings]
      ensures isInitializing == old(isInitializing) && isClosing == old(isClosing)
      ensures closeCalls == old(closeCalls) && previews == old(previews)
      ensures ControlsKept()
    {
      if isInitializing {
        return;
      }
      settings := settings.(icon := settings.icon.(applyColorsToLightTheme := checkState == Some(true)));
      saved := saved + [settings];
    }
  }

  /** Once the window is closing, deactivation never closes it again. */
  method ClosingThenDeactivated(w: Window)
    requires w.Valid() && w.closeCalls == 0
    modifies w
    ensures w.closeCalls == 0 && w.isClosing
  {
    w.WindowClosing();
    w.WindowDeactivated();
  }
}
