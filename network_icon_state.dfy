/** The three enumerations the application shares between its parts. */
module NetworkIconStates {
  import opened Wrappers

  /** The icon states the tray icon can show. */
  datatype NetworkIconState =
    | NoNetwork
    | EthernetConnected
    | EthernetNoInternet
    | EthernetDisconnected
    | WifiDisconnected
    | WifiConnecting
    | Wifi0Bars
    | Wifi1Bar
    | Wifi2Bars
    | Wifi3Bars
    | Wifi4Bars
    | Wifi0BarsNoInternet
    | Wifi1BarNoInternet
    | Wifi2BarsNoInternet
    | Wifi3BarsNoInternet
    | Wifi4BarsNoInternet

  /** The Wi-Fi states, including disconnected and connecting. */
  predicate IsWifi(s: NetworkIconState) {
    !(s.NoNetwork? || s.EthernetConnected? || s.EthernetNoInternet? || s.EthernetDisconnected?)
  }

  /** The flyout shown on a left click. */
  datatype FlyoutStyle = Windows10 | Windows11 | QuickSettings | AvailableNetworks | Settings

  /** The adapter settings window to open. */
  datatype AdapterSettingsStyle = ControlPanel | Explorer

  /** `FlyoutStyle.ToString()`. */
  function FlyoutStyleName(s: FlyoutStyle): string {
    match s
    case Windows10 => "Windows10"
    case Windows11 => "Windows11"
    case QuickSettings => "QuickSettings"
    case AvailableNetworks => "AvailableNetworks"
    case Settings => "Settings"
  }

  /** `Enum.TryParse<FlyoutStyle>(tag)`, for a tag that is a member name. */
  function ParseFlyoutStyle(tag: string): (r: Option<FlyoutStyle>)
    ensures r.Some? ==> FlyoutStyleName(r.value) == tag
    ensures r.None? ==> forall s: FlyoutStyle :: FlyoutStyleName(s) != tag
  {
    if tag == "Windows10" then Some(Windows10)
    else if tag == "Windows11" then Some(Windows11)
    else if tag == "QuickSettings" then Some(QuickSettings)
    else if tag == "AvailableNetworks" then Some(AvailableNetworks)
    else if tag == "Settings" then Some(Settings)
    else None
  }

  /** `AdapterSettingsStyle.ToString()`. */
  function AdapterSettingsStyleName(s: AdapterSettingsStyle): string {
    match s
    case ControlPanel => "ControlPanel"
    case Explorer => "Explorer"
  }

  /** `Enum.TryParse<AdapterSettingsStyle>(tag)`, for a tag that is a member name. */
  function ParseAdapterSettingsStyle(tag: string): (r: Option<AdapterSettingsStyle>)
    ensures r.Some? ==> AdapterSettingsStyleName(r.value) == tag
    ensures r.None? ==> forall s: AdapterSettingsStyle :: AdapterSettingsStyleName(s) != tag
  {
    if tag == "ControlPanel" then Some(ControlPanel)
    else if tag == "Explorer" then Some(Explorer)
    else None
  }
}
