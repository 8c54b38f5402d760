/**
 * The application theme: the system light/dark setting read from the
 * registry, the colours each theme uses, and the change notification raised
 * when the system setting flips.
 */
module ThemeManager {
  import opened Colors
  import opened RegistryValues

  /** `UserPreferenceCategory`: the kinds of system preference change. */
  datatype UserPreferenceCategory =
    | Accessibility | ColorCategory | Desktop | General | Icon | Keyboard | Menu
    | Mouse | Policy | Power | Screensaver | Window | Locale | VisualStyle

  // Theme colours
  const DarkBackground: Color := FromRgb(0x20, 0x20, 0x20)
  const LightBackground: Color := FromRgb(0xF3, 0xF3, 0xF3)
  const DarkForeground: Color := White
  const LightForeground: Color := Black
  const DarkBorder: Color := FromRgb(0x45, 0x45, 0x45)
  const LightBorder: Color := FromRgb(0xE0, 0xE0, 0xE0)
  const DarkSeparator: Color := FromRgb(0x3A, 0x3A, 0x3A)
  const LightSeparator: Color := FromRgb(0xE5, 0xE5, 0xE5)
  const DarkHover: Color := FromRgb(0x33, 0x33, 0x33)
  const LightHover: Color := FromRgb(0xE9, 0xE9, 0xE9)
  const DarkPressed: Color := FromRgb(0x2A, 0x2A, 0x2A)
  const LightPressed: Color := FromRgb(0xDF, 0xDF, 0xDF)
  const DarkControlBackground: Color := FromRgb(0x33, 0x33, 0x33)
  const LightControlBackground: Color := White
  const DarkControlBorder: Color := FromRgb(0x44, 0x44, 0x44)
  const LightControlBorder: Color := FromRgb(0x80, 0x80, 0x80)
  const DarkAcrylic: Color := Color(0xD0, 0x20, 0x20, 0x20)
  const LightAcrylic: Color := Color(0xD0, 0xF3, 0xF3, 0xF3)

  /** The themed colours a window asks for. */
  datatype ColorRole =
    | Background | Foreground | Border | Separator | Hover | Pressed | Acrylic
    | ControlBackground | ControlBorder

  function LightColor(role: ColorRole): Color {
    match role
    case Background => LightBackground
    case Foreground => LightForeground
    case Border => LightBorder
    case Separator => LightSeparator
    case Hover => LightHover
    case Pressed => LightPressed
    case Acrylic => LightAcrylic
    case ControlBackground => LightControlBackground
    case ControlBorder => LightControlBorder
  }

  function DarkColor(role: ColorRole): Color {
    match role
    case Background => DarkBackground
    case Foreground => DarkForeground
    case Border => DarkBorder
    case Separator => DarkSeparator
    case Hover => DarkHover
    case Pressed => DarkPressed
    case Acrylic => DarkAcrylic
    case ControlBackground => DarkControlBackground
    case ControlBorder => DarkControlBorder
  }

  /**
   * Each acrylic colour is its theme's background made translucent: alpha
   * `0xD0`, same red, green and blue. Every other themed colour is opaque.
   */
  lemma AcrylicIsTranslucentBackground(isLight: bool, role: ColorRole)
    ensures var c := if isLight then LightColor(role) else DarkColor(role);
            var bg := if isLight then LightColor(Background) else DarkColor(Background);
            (role == Acrylic ==> c.a == 0xD0 && c.r == bg.r && c.g == bg.g && c.b == bg.b)
            && (role != Acrylic ==> c.a == 255)
  {
  }

  /** The two themes never share a background or a foreground. */
  lemma ThemesDiffer(role: ColorRole)
    requires role == Background || role == Foreground || role == Acrylic
    ensures LightColor(role) != DarkColor(role)
  {
  }

  /** `DetectSystemLightTheme`: `SystemUsesLightTheme` is a boxed `int` 1; a missing key or value, another value or a failed read is dark. */
  predicate DetectSystemLightTheme(read: RegistryRead) {
    ValueIsOne(read)
  }

  /** `DetectAppsLightTheme`: the same test on `AppsUseLightTheme`. */
  predicate DetectAppsLightTheme(read: RegistryRead) {
    ValueIsOne(read)
  }

  /** Both theme reads are light exactly for a boxed `int` 1. */
  lemma DetectSystemLightThemeSpec(read: RegistryRead)
    ensures DetectSystemLightTheme(read) <==> read == Found(BoxedInt(1))
    ensures DetectAppsLightTheme(read) <==> read == Found(BoxedInt(1))
  {
  }

  class Manager {
    var isLightTheme: bool
    var lastKnownIsLightTheme: bool
    /** The arguments of every `ThemeChanged` raised so far, in order. */
    var raised: seq<bool>
    /** Whether the handler is attached to `SystemEvents.UserPreferenceChanged`. */
    var subscribed: bool
    var disposed: bool

    /**
     * The last known value is the current one, every event reports a change
     * from the value before it, and the last one reports the current value.
     */
    predicate Valid()
      reads this
    {
      lastKnownIsLightTheme == isLightTheme
      && (|raised| > 0 ==> raised[|raised| - 1] == isLightTheme)
      && (forall i :: 0 < i < |raised| ==> raised[i] != raised[i - 1])
      && (subscribed <==> !disposed)
    }

    /** The colour a getter returns: the light value on a light theme, the dark value otherwise. */
    function ThemedColor(role: ColorRole): (c: Color)
      reads this
      ensures isLightTheme ==> c == LightColor(role)
      ensures !isLightTheme ==> c == DarkColor(role)
    {
      if isLightTheme then LightColor(role) else DarkColor(role)
    }

    constructor(systemUsesLightTheme: RegistryRead)
      ensures Valid()
      ensures isLightTheme == DetectSystemLightTheme(systemUsesLightTheme)
      ensures raised == [] && subscribed && !disposed
    {
      isLightTheme := DetectSystemLightTheme(systemUsesLightTheme);
      lastKnownIsLightTheme := DetectSystemLightTheme(systemUsesLightTheme);
      raised := [];
      subscribed := true;
      disposed := false;
    }

    /**
     * What the handler does with one preference change: only a `General`
     * change whose detected value differs from the current theme updates
     * the theme and raises `ThemeChanged` with the new value; anything else
     * changes nothing.
     */
    twostate predicate PreferenceHandled(category: UserPreferenceCategory, systemUsesLightTheme: RegistryRead)
      reads this
    {
      var detected := DetectSystemLightTheme(systemUsesLightTheme);
      if category == General && detected != old(isLightTheme) then
        isLightTheme == detected && raised == old(raised) + [detected]
      else
        isLightTheme == old(isLightTheme) && raised == old(raised)
    }

    /** `OnUserPreferenceChanged`: after a `General` change the theme is the detected one. */
    method OnUserPreferenceChanged(category: UserPreferenceCategory, systemUsesLightTheme: RegistryRead)
      requires Valid()
      modifies this
      ensures Valid()
      ensures PreferenceHandled(category, systemUsesLightTheme)
      ensures category == General ==> isLightTheme == DetectSystemLightTheme(systemUsesLightTheme)
      ensures subscribed == old(subscribed) && disposed == old(disposed)
    {
      if category == General {
        var newIsLightTheme := DetectSystemLightTheme(systemUsesLightTheme);
        if newIsLightTheme != lastKnownIsLightTheme {
          lastKnownIsLightTheme := newIsLightTheme;
          isLightTheme := newIsLightTheme;
          raised := raised + [newIsLightTheme];
        }
      }
    }

    /** A system preference change: it reaches the handler only while subscribed. */
    method UserPreferenceChanged(category: UserPreferenceCategory, systemUsesLightTheme: RegistryRead)
      requires Valid()
      modifies this
      ensures Valid()
      ensures old(subscribed) ==> PreferenceHandled(category, systemUsesLightTheme)
      ensures !old(subscribed) ==> isLightTheme == old(isLightTheme) && raised == old(raised)
      ensures disposed ==> isLightTheme == old(isLightTheme) && raised == old(raised)
      ensures subscribed == old(subscribed) && disposed == old(disposed)
    {
      if subscribed {
        OnUserPreferenceChanged(category, systemUsesLightTheme);
      }
    }

    /** `Dispose`: detaches the handler once; a second call does nothing. */
    method Dispose()
      requires Valid()
      modifies this
      ensures Valid()
      ensures disposed && !subscribed
      ensures isLightTheme == old(isLightTheme) && raised == old(raised)
    {
      if disposed {
        return;
      }
      disposed := true;
      subscribed := false;
    }
  }

  /** Delivering the same preference change twice raises at most one event: the handler is idempotent. */
  method RepeatedChangeRaisesOnce(m: Manager, category: UserPreferenceCategory, read: RegistryRead)
    requires m.Valid()
    modifies m
    ensures m.Valid()
    ensures |m.raised| <= |old(m.raised)| + 1
  {
    m.OnUserPreferenceChanged(category, read);
    var afterFirst := m.raised;
    m.OnUserPreferenceChanged(category, read);
    assert m.raised == afterFirst;
  }
}
