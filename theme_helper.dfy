/**
 * The taskbar theme watcher used by the tray icon: the same change
 * detection as the theme manager, with its own registry value test.
 */
module ThemeHelper {
  import opened RegistryValues
  import ThemeManager

  /** `DetectTaskbarLightTheme`: true only for a value that is an `int` equal to 1. */
  predicate DetectTaskbarLightTheme(read: RegistryRead) {
    match read
    case Found(value) =>
      (match value
       case BoxedInt(intValue) => intValue == 1
       case _ => false)
    case _ => false
  }

  /**
   * The two detections agree on every read: `value is int v && v == 1` is
   * `value is 1`.
   */
  lemma TaskbarDetectionAgrees(read: RegistryRead)
    ensures DetectTaskbarLightTheme(read) <==> ThemeManager.DetectSystemLightTheme(read)
    ensures DetectTaskbarLightTheme(read) <==> read == Found(BoxedInt(1))
  {
  }

  class Helper {
    var isTaskbarLightTheme: bool
    var lastKnownIsLightTheme: bool
    var raised: seq<bool>
    var subscribed: bool
    var disposed: bool

    predicate Valid()
      reads this
    {
      lastKnownIsLightTheme == isTaskbarLightTheme
      && (|raised| > 0 ==> raised[|raised| - 1] == isTaskbarLightTheme)
      && (forall i :: 0 < i < |raised| ==> raised[i] != raised[i - 1])
      && (subscribed <==> !disposed)
    }

    constructor(systemUsesLightTheme: RegistryRead)
      ensures Valid()
      ensures isTaskbarLightTheme == DetectTaskbarLightTheme(systemUsesLightTheme)
      ensures raised == [] && subscribed && !disposed
    {
      isTaskbarLightTheme := DetectTaskbarLightTheme(systemUsesLightTheme);
      lastKnownIsLightTheme := DetectTaskbarLightTheme(systemUsesLightTheme);
      raised := [];
      subscribed := true;
      disposed := false;
    }

    /** `OnUserPreferenceChanged`: raises the new value only for a `General` change that flips it. */
    method OnUserPreferenceChanged(category: ThemeManager.UserPreferenceCategory, systemUsesLightTheme: RegistryRead)
      requires Valid()
      modifies this
      ensures Valid()
      ensures var detected := DetectTaskbarLightTheme(systemUsesLightTheme);
              if category == ThemeManager.General && detected != old(isTaskbarLightTheme) then
                isTaskbarLightTheme == detected && raised == old(raised) + [detected]
              else
                isTaskbarLightTheme == old(isTaskbarLightTheme) && raised == old(raised)
      ensures subscribed == old(subscribed) && disposed == old(disposed)
    {
      if category == ThemeManager.General {
        var newIsLightTheme := DetectTaskbarLightTheme(systemUsesLightTheme);
        if newIsLightTheme != lastKnownIsLightTheme {
          lastKnownIsLightTheme := newIsLightTheme;
          isTaskbarLightTheme := newIsLightTheme;
          raised := raised + [newIsLightTheme];
        }
      }
    }

    /** `Dispose`: detaches the handler once; a second call does nothing. */
    method Dispose()
      requires Valid()
      modifies this
      ensures Valid()
      ensures disposed && !subscribed
      ensures isTaskbarLightTheme == old(isTaskbarLightTheme) && raised == old(raised)
    {
      if disposed {
        return;
      }
      disposed := true;
      subscribed := false;
    }
  }

  /** Repeating a change with the same detected value raises nothing the second time. */
  method RepeatedChangeRaisesOnce(h: Helper, category: ThemeManager.UserPreferenceCategory, read: RegistryRead)
    requires h.Valid()
    modifies h
    ensures h.Valid()
    ensures |h.raised| <= |old(h.raised)| + 1
  {
    h.OnUserPreferenceChanged(category, read);
    var afterFirst := h.raised;
    h.OnUserPreferenceChanged(category, read);
    assert h.raised == afterFirst;
  }
}
