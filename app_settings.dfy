/** The persisted settings and their defaults. */
module Settings {
  import opened NetworkIconStates
  import opened RegistryValues

  // Dark theme defaults
  const DarkConnected: string := "#FFFFFF"
  const DarkNoInternet: string := "#FFB900"
  const DarkDisconnected: string := "#808080"

  // Light theme defaults
  const LightConnected: string := "#000000"
  const LightNoInternet: string := "#996600"
  const LightDisconnected: string := "#666666"

  /** Icon colours as hex text, and which theme they apply to. */
  datatype IconSettings = IconSettings(
    connectedColor: string,
    noInternetColor: string,
    disconnectedColor: string,
    applyColorsToLightTheme: bool)

  datatype TraySettings = TraySettings(flyoutStyle: FlyoutStyle, adapterSettingsStyle: AdapterSettingsStyle)

  datatype AppSettings = AppSettings(icon: IconSettings, tray: TraySettings)

  /** `new IconSettings()`: the property initialisers. */
  function DefaultIconSettings(): (s: IconSettings)
    ensures s.connectedColor == DarkConnected && s.noInternetColor == DarkNoInternet
    ensures s.disconnectedColor == DarkDisconnected && !s.applyColorsToLightTheme
  {
    IconSettings(DarkConnected, DarkNoInternet, DarkDisconnected, false)
  }

  /** `new TraySettings()`. */
  function DefaultTraySettings(): (s: TraySettings)
    ensures s.flyoutStyle == Windows10 && s.adapterSettingsStyle == Explorer
  {
    TraySettings(Windows10, Explorer)
  }

  /** `new AppSettings()`. */
  function DefaultAppSettings(): AppSettings {
    AppSettings(DefaultIconSettings(), DefaultTraySettings())
  }

  /** `IconSettings.CreateForTheme`: the colour set for a theme, applying to that theme. */
  function CreateForTheme(isLightTheme: bool): (s: IconSettings)
    ensures isLightTheme ==> s.connectedColor == LightConnected && s.noInternetColor == LightNoInternet
                             && s.disconnectedColor == LightDisconnected
    ensures !isLightTheme ==> s.connectedColor == DarkConnected && s.noInternetColor == DarkNoInternet
                              && s.disconnectedColor == DarkDisconnected
    ensures s.applyColorsToLightTheme == isLightTheme
  {
    if isLightTheme then
      IconSettings(
        connectedColor := LightConnected,
        noInternetColor := LightNoInternet,
        disconnectedColor := LightDisconnected,
        applyColorsToLightTheme := true)
    else
      IconSettings(
        connectedColor := DarkConnected,
        noInternetColor := DarkNoInternet,
        disconnectedColor := DarkDisconnected,
        applyColorsToLightTheme := false)
  }

  /** A default-constructed `IconSettings` is the dark-theme set. */
  lemma DefaultIsDarkTheme()
    ensures DefaultIconSettings() == CreateForTheme(false)
  {
  }

  /** `AppSettings.IsSystemLightTheme`: `SystemUsesLightTheme` is a boxed 1. */
  predicate IsSystemLightTheme(read: RegistryRead) {
    ValueIsOne(read)
  }

  /** `CreateWithSystemThemeDefaults`: icon colours for the system theme; tray settings left at their defaults. */
  function CreateWithSystemThemeDefaults(systemUsesLightTheme: RegistryRead): (s: AppSettings)
    ensures s.tray == DefaultTraySettings()
    ensures s.icon == CreateForTheme(systemUsesLightTheme == Found(BoxedInt(1)))
  {
    AppSettings(CreateForTheme(IsSystemLightTheme(systemUsesLightTheme)), DefaultTraySettings())
  }

  /** The three colour text boxes of the settings windows, each bound to one icon colour. */
  datatype ColorSlot = ConnectedSlot | NoInternetSlot | DisconnectedSlot

  /** The colour text a slot shows. */
  function ColorText(icon: IconSettings, slot: ColorSlot): string {
    match slot
    case ConnectedSlot => icon.connectedColor
    case NoInternetSlot => icon.noInternetColor
    case DisconnectedSlot => icon.disconnectedColor
  }

  /** Assigning the slot's colour property: only that colour changes. */
  function WithColorText(icon: IconSettings, slot: ColorSlot, text: string): (r: IconSettings)
    ensures ColorText(r, slot) == text
    ensures forall other :: other != slot ==> ColorText(r, other) == ColorText(icon, other)
    ensures r.applyColorsToLightTheme == icon.applyColorsToLightTheme
  {
    match slot
    case ConnectedSlot => icon.(connectedColor := text)
    case NoInternetSlot => icon.(noInternetColor := text)
    case DisconnectedSlot => icon.(disconnectedColor := text)
  }
}
