/**
 * The network monitor: classifying the internet connection profile into an
 * icon state, the list of connections shown in the tooltip, the change
 * notification and the tooltip text.
 */
module NetworkMonitor {
  import opened Wrappers
  import opened NetworkIconStates
  import Text
  import IconProvider

  /** `NetworkConnectivityLevel`. */
  datatype ConnectivityLevel = LevelNone | LocalAccess | ConstrainedInternetAccess | InternetAccess

  /** What a connection profile reports: its connectivity, its name (possibly null) and its signal bars (null when wired). */
  datatype ProfileInfo = ProfileInfo(level: ConnectivityLevel, profileName: Option<string>, signalBars: Option<nat>)

  /** One profile of the enumeration, or a read that throws. */
  datatype ProfileRead = Readable(info: ProfileInfo) | ReadThrows

  /** The result of asking for the internet connection profile and reading it. */
  datatype InternetProfile = NoProfile | Profile(info: ProfileInfo) | ProfileThrows

  /** One line of the tooltip list: `(Name, IsWifi, HasInternet)`. */
  datatype Connection = Connection(name: string, isWifi: bool, hasInternet: bool)

  /** Everything `RefreshState` hands to `UpdateState`. */
  datatype Snapshot = Snapshot(state: NetworkIconState, bars: int, name: string, connections: seq<Connection>)

  /** The connection entry of a profile that is connected at all. */
  function EntryOf(p: ProfileInfo): (c: Connection)
    requires p.level != LevelNone
    ensures c.isWifi <==> p.signalBars.Some?
    ensures c.hasInternet <==> p.level == InternetAccess
    ensures p.profileName.None? ==> c.name == "Unknown"
  {
    Connection(
      if p.profileName.Some? then Text.Trim(p.profileName.value) else "Unknown",
      p.signalBars.Some?,
      p.level == InternetAccess)
  }

  /**
   * The connections list as the `foreach` builds it: profiles with no
   * connectivity are skipped, the others are entered in order; a read that
   * throws ends the enumeration, and the flag says so.
   */
  function ConnectionsOf(profiles: seq<ProfileRead>): (seq<Connection>, bool)
  {
    if |profiles| == 0 then ([], false)
    else if profiles[0].ReadThrows? then ([], true)
    else
      var (rest, failed) := ConnectionsOf(profiles[1..]);
      if profiles[0].info.level == LevelNone then (rest, failed)
      else ([EntryOf(profiles[0].info)] + rest, failed)
  }

  /** The enumeration fails exactly when one of the profiles cannot be read. */
  lemma {:induction false} ConnectionsFailIffThrows(profiles: seq<ProfileRead>)
    ensures ConnectionsOf(profiles).1 <==> exists i :: 0 <= i < |profiles| && profiles[i].ReadThrows?
  {
    if |profiles| > 0 && profiles[0].Readable? {
      ConnectionsFailIffThrows(profiles[1..]);
      if exists i :: 0 <= i < |profiles| && profiles[i].ReadThrows? {
        var i :| 0 <= i < |profiles| && profiles[i].ReadThrows?;
        assert profiles[1..][i - 1].ReadThrows?;
      }
      if exists i :: 0 <= i < |profiles[1..]| && profiles[1..][i].ReadThrows? {
        var i :| 0 <= i < |profiles[1..]| && profiles[1..][i].ReadThrows?;
        assert profiles[i + 1].ReadThrows?;
      }
    }
  }

  /**
   * Every listed connection is the entry of a connected profile, and when
   * nothing throws every connected profile is listed.
   */
  lemma {:induction false} ConnectionsAreConnectedProfiles(profiles: seq<ProfileRead>)
    ensures forall c :: c in ConnectionsOf(profiles).0 ==>
              exists i :: 0 <= i < |profiles| && profiles[i].Readable? && profiles[i].info.level != LevelNone
                          && EntryOf(profiles[i].info) == c
    ensures !ConnectionsOf(profiles).1 ==>
              forall i :: 0 <= i < |profiles| && profiles[i].Readable? && profiles[i].info.level != LevelNone
                ==> EntryOf(profiles[i].info) in ConnectionsOf(profiles).0
  {
    if |profiles| > 0 && profiles[0].Readable? {
      var tail := profiles[1..];
      ConnectionsAreConnectedProfiles(tail);
      forall c | c in ConnectionsOf(profiles).0
        ensures exists i :: 0 <= i < |profiles| && profiles[i].Readable? && profiles[i].info.level != LevelNone
                            && EntryOf(profiles[i].info) == c
      {
        if c !in ConnectionsOf(tail).0 {
          assert c == EntryOf(profiles[0].info);
        } else {
          var j :| 0 <= j < |tail| && tail[j].Readable? && tail[j].info.level != LevelNone && EntryOf(tail[j].info) == c;
          assert profiles[j + 1] == tail[j];
        }
      }
      if !ConnectionsOf(profiles).1 {
        forall i | 0 <= i < |profiles| && profiles[i].Readable? && profiles[i].info.level != LevelNone
          ensures EntryOf(profiles[i].info) in ConnectionsOf(profiles).0
        {
          if i > 0 {
            assert tail[i - 1] == profiles[i];
          }
        }
      }
    }
  }

  /**
   * `BuildConnections`: the `foreach` over the connection profiles. The
   * list holds what was added before a read threw.
   */
  method BuildConnections(profiles: seq<ProfileRead>) returns (connections: seq<Connection>, failed: bool)
    ensures connections == ConnectionsOf(profiles).0 && failed == ConnectionsOf(profiles).1
  {
    connections := [];
    var i := 0;
    assert profiles[0..] == profiles;
    while i < |profiles|
      invariant 0 <= i <= |profiles|
      invariant forall j :: 0 <= j < i ==> profiles[j].Readable?
      invariant ConnectionsOf(profiles).0 == connections + ConnectionsOf(profiles[i..]).0
      invariant ConnectionsOf(profiles).1 == ConnectionsOf(profiles[i..]).1
    {
      assert profiles[i..][1..] == profiles[i + 1..];
      assert profiles[i..][0] == profiles[i];
      if profiles[i].ReadThrows? {
        failed := true;
        return;
      }
      var p := profiles[i].info;
      if p.level != LevelNone {
        connections := connections + [EntryOf(p)];
      }
      i := i + 1;
    }
    assert profiles[i..] == [];
    failed := false;
  }

  /** `Math.Clamp`. */
  function Clamp(value: int, min: int, max: int): (r: int)
    requires min <= max
    ensures min <= r <= max
    ensures min <= value <= max ==> r == value
  {
    if value < min then min else if value > max then max else value
  }

  /** The Wi-Fi state switch on `(hasInternet, bars)`. */
  function WifiState(hasInternet: bool, bars: int): NetworkIconState {
    match (hasInternet, bars)
    case (true, 0) => Wifi0Bars
    case (true, 1) => Wifi1Bar
    case (true, 2) => Wifi2Bars
    case (true, 3) => Wifi3Bars
    case (true, _) => Wifi4Bars
    case (false, 0) => Wifi0BarsNoInternet
    case (false, 1) => Wifi1BarNoInternet
    case (false, 2) => Wifi2BarsNoInternet
    case (false, 3) => Wifi3BarsNoInternet
    case _ => Wifi4BarsNoInternet
  }

  /**
   * For a clamped bar count the Wi-Fi state shows exactly that many bars,
   * and is drawn as connected exactly when there is internet access.
   */
  lemma WifiStateSpec(hasInternet: bool, bars: int)
    requires 1 <= bars <= 4
    ensures IsWifi(WifiState(hasInternet, bars))
    ensures IconProvider.BarsOf(WifiState(hasInternet, bars)) == bars
    ensures IconProvider.CategoryOf(WifiState(hasInternet, bars)) == if hasInternet then IconProvider.Connected else IconProvider.NoInternet
  {
  }

  /** The wired state switch on the connectivity level. */
  function WiredState(level: ConnectivityLevel): (s: NetworkIconState)
    ensures s.EthernetConnected? <==> level == InternetAccess
    ensures s.EthernetNoInternet? <==> level == LocalAccess || level == ConstrainedInternetAccess
    ensures s.EthernetDisconnected? <==> level == LevelNone
  {
    match level
    case InternetAccess => EthernetConnected
    case LocalAccess | ConstrainedInternetAccess => EthernetNoInternet
    case _ => EthernetDisconnected
  }

  /** `RefreshState`'s classification of what the system reports. */
  function Classify(internet: InternetProfile, profiles: seq<ProfileRead>): Snapshot {
    match internet
    case NoProfile => Snapshot(NoNetwork, 0, "", [])
    case ProfileThrows => Snapshot(NoNetwork, 0, "", [])
    case Profile(p) =>
      var (connections, failed) := ConnectionsOf(profiles);
      var networkName := if p.profileName.Some? then Text.Trim(p.profileName.value) else "";
      if failed then Snapshot(NoNetwork, 0, "", connections)
      else if p.signalBars.Some? then
        var bars := Clamp(p.signalBars.value, 1, 4);
        Snapshot(WifiState(p.level == InternetAccess, bars), bars, networkName, connections)
      else
        Snapshot(WiredState(p.level), 0, networkName, connections)
  }

  /**
   * A Wi-Fi profile is shown with one to four bars, never zero, and with
   * internet exactly when its connectivity is internet access.
   */
  lemma ClassifyWifi(p: ProfileInfo, profiles: seq<ProfileRead>)
    requires p.signalBars.Some? && !ConnectionsOf(profiles).1
    ensures var snap := Classify(Profile(p), profiles);
            1 <= snap.bars <= 4 && IsWifi(snap.state)
            && snap.state != Wifi0Bars && snap.state != Wifi0BarsNoInternet
            && IconProvider.BarsOf(snap.state) == snap.bars
            && (IconProvider.CategoryOf(snap.state) == IconProvider.Connected <==> p.level == InternetAccess)
  {
    var bars := Clamp(p.signalBars.value, 1, 4);
    WifiStateSpec(p.level == InternetAccess, bars);
  }

  /** A wired profile is shown with no bars, as connected, without internet or disconnected by its level. */
  lemma ClassifyWired(p: ProfileInfo, profiles: seq<ProfileRead>)
    requires p.signalBars.None? && !ConnectionsOf(profiles).1
    ensures var snap := Classify(Profile(p), profiles);
            snap.bars == 0 && snap.state == WiredState(p.level) && !IsWifi(snap.state)
  {
  }

  /** No profile, or a failure anywhere, shows no network with no bars and no name. */
  lemma ClassifyFailure(internet: InternetProfile, profiles: seq<ProfileRead>)
    requires internet.NoProfile? || internet.ProfileThrows? || ConnectionsOf(profiles).1
    ensures var snap := Classify(internet, profiles);
            snap.state == NoNetwork && snap.bars == 0 && snap.name == ""
    ensures internet.Profile? ==> Classify(internet, profiles).connections == ConnectionsOf(profiles).0
  {
  }

  /** The monitor never reports the disconnected or connecting Wi-Fi states, nor a zero-bar Wi-Fi state. */
  lemma ClassifyNeverProduces(internet: InternetProfile, profiles: seq<ProfileRead>)
    ensures var s := Classify(internet, profiles).state;
            !s.WifiDisconnected? && !s.WifiConnecting? && !s.Wifi0Bars? && !s.Wifi0BarsNoInternet?
  {
    if internet.Profile? && !ConnectionsOf(profiles).1 {
      if internet.info.signalBars.Some? {
        ClassifyWifi(internet.info, profiles);
      }
    }
  }

  /** One entry of the tooltip: the name, then whether the connection reaches the internet. */
  function EntryText(c: Connection): string {
    c.name + "\r\n" + (if c.hasInternet then "Internet access" else "No internet")
  }

  function EntryTexts(connections: seq<Connection>): (r: seq<string>)
    ensures |r| == |connections|
    ensures forall i :: 0 <= i < |r| ==> r[i] == EntryText(connections[i])
  {
    if |connections| == 0 then [] else [EntryText(connections[0])] + EntryTexts(connections[1..])
  }

  /** `GetTooltipText`: the connection entries separated by blank lines, or a fixed text for the state. */
  function TooltipText(connections: seq<Connection>, state: NetworkIconState): string {
    if |connections| > 0 then Text.Join("\r\n\r\n", EntryTexts(connections))
    else
      match state
      case WifiDisconnected => "Wi-Fi\r\nDisconnected"
      case WifiConnecting => "Wi-Fi\r\nConnecting..."
      case EthernetDisconnected => "Ethernet\r\nDisconnected"
      case _ => "No network connection"
  }

  /**
   * With connections the tooltip ignores the state and opens with the first
   * connection's entry; without, it is one of four fixed texts, never empty.
   */
  lemma TooltipTextSpec(connections: seq<Connection>, state: NetworkIconState, other: NetworkIconState)
    ensures |connections| > 0 ==> TooltipText(connections, state) == TooltipText(connections, other)
    ensures |connections| > 0 ==> EntryText(connections[0]) <= TooltipText(connections, state)
    ensures |connections| == 0 && !state.WifiDisconnected? && !state.WifiConnecting? && !state.EthernetDisconnected?
            ==> TooltipText(connections, state) == "No network connection"
    ensures |TooltipText(connections, state)| > 0
  {
    if |connections| > 0 {
      Text.JoinStartsWithFirst("\r\n\r\n", EntryTexts(connections));
    }
  }

  /** The monitor's published state and the `NetworkStateChanged` events it has raised. */
  class Monitor {
    var currentState: NetworkIconState
    var wifiSignalBars: int
    var currentNetworkName: string
    var allConnections: seq<Connection>
    /** `NetworkStateChanged` invocations, in order. */
    var raised: seq<NetworkIconState>
    var subscribed: bool
    var disposed: bool

    /**
     * Events report changes: no two consecutive events carry the same state,
     * the first differs from the initial state, and the last is the current one.
     */
    predicate Valid()
      reads this
    {
      (forall i :: 0 <= i < |raised| - 1 ==> raised[i] != raised[i + 1])
      && (|raised| > 0 ==> raised[0] != NoNetwork && raised[|raised| - 1] == currentState)
      && (|raised| == 0 ==> currentState == NoNetwork)
    }

    constructor()
      ensures Valid()
      ensures currentState == NoNetwork && wifiSignalBars == 0 && currentNetworkName == ""
      ensures allConnections == [] && raised == [] && !subscribed && !disposed
    {
      currentState := NoNetwork;
      wifiSignalBars := 0;
      currentNetworkName := "";
      allConnections := [];
      raised := [];
      subscribed := false;
      disposed := false;
    }

    /** `UpdateState`: overwrites all four properties; raises the event only when the state changed. */
    method UpdateState(snap: Snapshot)
      requires Valid()
      modifies this
      ensures Valid()
      ensures currentState == snap.state && wifiSignalBars == snap.bars
      ensures currentNetworkName == snap.name && allConnections == snap.connections
      ensures raised == if snap.state != old(currentState) then old(raised) + [snap.state] else old(raised)
      ensures subscribed == old(subscribed) && disposed == old(disposed)
    {
      var previous := currentState;
      currentState := snap.state;
      wifiSignalBars := snap.bars;
      currentNetworkName := snap.name;
      allConnections := snap.connections;
      if snap.state != previous {
        raised := raised + [snap.state];
      }
    }

    /** `RefreshState`: reads the profiles, builds the connection list and classifies. */
    method RefreshState(internet: InternetProfile, profiles: seq<ProfileRead>)
      requires Valid()
      modifies this
      ensures Valid()
      ensures var snap := Classify(internet, profiles);
              currentState == snap.state && wifiSignalBars == snap.bars
              && currentNetworkName == snap.name && allConnections == snap.connections
      ensures raised == if currentState != old(currentState) then old(raised) + [currentState] else old(raised)
      ensures subscribed == old(subscribed) && disposed == old(disposed)
    {
      if !internet.Profile? {
        UpdateState(Snapshot(NoNetwork, 0, "", []));
        return;
      }
      var p := internet.info;
      var networkName := if p.profileName.Some? then Text.Trim(p.profileName.value) else "";
      var connections, failed := BuildConnections(profiles);
      if failed {
        UpdateState(Snapshot(NoNetwork, 0, "", connections));
      } else if p.signalBars.Some? {
        var bars := Clamp(p.signalBars.value, 1, 4);
        UpdateState(Snapshot(WifiState(p.level == InternetAccess, bars), bars, networkName, connections));
      } else {
        UpdateState(Snapshot(WiredState(p.level), 0, networkName, connections));
      }
    }

    /** `Initialize`: subscribes to network status changes and refreshes once. */
    method Initialize(internet: InternetProfile, profiles: seq<ProfileRead>)
      requires Valid()
      modifies this
      ensures Valid() && subscribed
      ensures var snap := Classify(internet, profiles);
              currentState == snap.state && wifiSignalBars == snap.bars
              && currentNetworkName == snap.name && allConnections == snap.connections
      ensures raised == if currentState != old(currentState) then old(raised) + [currentState] else old(raised)
      ensures disposed == old(disposed)
    {
      subscribed := true;
      RefreshState(internet, profiles);
    }

    /** The tooltip for the published state. */
    function GetTooltipText(): string
      reads this
    {
      TooltipText(allConnections, currentState)
    }

    /** `Dispose`: unsubscribes once; later calls do nothing. */
    method Dispose()
      modifies this
      ensures disposed
      ensures subscribed == (old(disposed) && old(subscribed))
      ensures currentState == old(currentState) && raised == old(raised)
      ensures wifiSignalBars == old(wifiSignalBars) && currentNetworkName == old(currentNetworkName)
      ensures allConnections == old(allConnections)
    {
      if disposed {
        return;
      }
      disposed := true;
      subscribed := false;
    }
  }
}
