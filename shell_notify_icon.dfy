/**
 * The tray icon registration with the shell: the add / modify / delete
 * protocol, the tooltip sent with it, the click debounce, the delayed
 * refresh after display changes and the context-menu guard. The shell's
 * answer to each `Shell_NotifyIconW` call is an input; every call made is
 * recorded in order.
 */
module ShellNotifyIcon {
  import opened Wrappers

  /** `NotifyIconMessage`, with the values the shell expects. */
  datatype NotifyIconMessage = NimAdd | NimModify | NimDelete | NimSetVersion

  function MessageCode(m: NotifyIconMessage): nat {
    match m
    case NimAdd => 0
    case NimModify => 1
    case NimDelete => 2
    case NimSetVersion => 4
  }

  /** Distinct messages go out as distinct codes, so the code sent names the message. */
  lemma MessageCodeInjective(m: NotifyIconMessage, m': NotifyIconMessage)
    ensures MessageCode(m) == MessageCode(m') <==> m == m'
  {
  }

  const NotifyIconVersion4: int := 4

  /** The longest tooltip the structure carries: `szTip` holds 128 characters with the terminator. */
  const MaxTipLength: nat := 127

  /** The fields of `NOTIFYICONDATAW` the model tracks. */
  datatype NotifyIconData = NotifyIconData(iconHandle: int, tip: string, version: int)

  /** One `Shell_NotifyIconW` call. */
  datatype ShellCall = ShellCall(message: NotifyIconMessage, data: NotifyIconData)

  /** The tooltip as sent: the first 127 characters of the text. */
  function TruncateTip(text: string): (tip: string)
    ensures |tip| <= MaxTipLength
    ensures tip <= text
    ensures |text| <= MaxTipLength ==> tip == text
    ensures |text| > MaxTipLength ==> |tip| == MaxTipLength
  {
    if |text| > MaxTipLength then text[..MaxTipLength] else text
  }

  /** Truncating an already-sent tip changes nothing. */
  lemma TruncateTipIdempotent(text: string)
    ensures TruncateTip(TruncateTip(text)) == TruncateTip(text)
  {
  }

  // Window messages
  const WmUser: int := 0x0400
  const WmCallbackMouseMsg: int := WmUser + 1024
  const WmContextMenu: int := 0x007B
  const WmLButtonUp: int := 0x0202
  const WmRButtonUp: int := 0x0205
  const WmSettingChange: int := 0x001A
  const SpiSetWorkArea: int := 0x002F
  const NinSelect: int := WmUser

  /** `(short)w`: the low 16 bits of a 32-bit word as a signed value. */
  function LowWord(w: int): (x: int)
    ensures -0x8000 <= x < 0x8000
    ensures (x - w) % 0x1_0000 == 0
  {
    var low := w % 0x1_0000;
    if low >= 0x8000 then low - 0x1_0000 else low
  }

  /** `w >> 16` on a 32-bit `int`: an arithmetic shift, so the floor of `w / 65536`. */
  function HighWord(w: int): int {
    w / 0x1_0000
  }

  /** The point a right-click notification carries in its `WParam`. */
  function ClickPoint(wParam: int): (int, int) {
    (LowWord(wParam), HighWord(wParam))
  }

  /**
   * Packing a point of 16-bit coordinates as the shell does, y in the high
   * word and x in the low word, is read back as that point.
   */
  lemma ClickPointRoundTrip(x: int, y: int)
    requires -0x8000 <= x < 0x8000 && -0x8000 <= y < 0x8000
    ensures ClickPoint(y * 0x1_0000 + x % 0x1_0000) == (x, y)
  {
    var w := y * 0x1_0000 + x % 0x1_0000;
    assert w / 0x1_0000 == y;
    assert w % 0x1_0000 == x % 0x1_0000;
  }

  /** `Win32Window` messages the icon's window handles. */
  datatype WindowMessage =
    | CallbackMouse(notification: int, wParam: int)   // WM_CALLBACKMOUSEMSG; the notification is `(short)LParam`
    | TaskbarCreated                                   // the registered `TaskbarCreated` message
    | SettingChange(wParam: int)                       // WM_SETTINGCHANGE
    | OtherMessage

  class NotifyIcon {
    var isCreated: bool
    var isVisible: bool
    var disposed: bool
    var tooltipText: string
    /** The handle of the current icon; 0 when none is set. */
    var iconHandle: int
    var isContextMenuOpen: bool
    var hasProcessedButtonUp: bool
    var remainingTicks: int
    var timerRunning: bool
    /** Whether `OnDisplaySettingsChanged` is attached. */
    var displaySubscribed: bool
    var windowDisposed: bool
    /** Every `Shell_NotifyIconW` call made, in order. */
    var calls: seq<ShellCall>
    var leftClicks: nat
    var rightClicks: seq<(int, int)>
    var menusOpened: nat

    /**
     * A registered icon is visible unless the object was disposed, the
     * timer runs only with ticks left, and disposal stops the timer and the
     * display subscription.
     */
    predicate Valid()
      reads this
    {
      (isCreated && !isVisible ==> disposed) && Settled()
    }

    /** `Valid` without the visibility clause: what holds while the setter has changed `_isVisible` and not yet updated. */
    predicate Settled()
      reads this
    {
      0 <= remainingTicks <= 10
      && (timerRunning ==> remainingTicks >= 1)
      && (disposed ==> !timerRunning && !displaySubscribed)
    }

    /** The icon's own properties stay: visibility, disposal, tooltip and icon handle. */
    twostate predicate IconKept()
      reads this
    {
      isVisible == old(isVisible) && disposed == old(disposed)
      && tooltipText == old(tooltipText) && iconHandle == old(iconHandle)
    }

    /** No `Shell_NotifyIconW` call is made and the registration stays. */
    twostate predicate ShellKept()
      reads this
    {
      calls == old(calls) && isCreated == old(isCreated)
    }

    /** The update timer stays as it was. */
    twostate predicate TimerKept()
      reads this
    {
      remainingTicks == old(remainingTicks) && timerRunning == old(timerRunning)
    }

    /** No click is raised and the debounce flag stays. */
    twostate predicate ClicksKept()
      reads this
    {
      leftClicks == old(leftClicks) && rightClicks == old(rightClicks)
      && hasProcessedButtonUp == old(hasProcessedButtonUp)
    }

    /** The context menu stays as it was. */
    twostate predicate MenuKept()
      reads this
    {
      isContextMenuOpen == old(isContextMenuOpen) && menusOpened == old(menusOpened)
    }

    /** The display subscription and the message window stay. */
    twostate predicate WindowKept()
      reads this
    {
      displaySubscribed == old(displaySubscribed) && windowDisposed == old(windowDisposed)
    }

    /** `MakeData`: the current icon and the truncated tooltip. */
    function MakeData(): (d: NotifyIconData)
      reads this
      ensures d.tip == TruncateTip(tooltipText) && d.iconHandle == iconHandle && d.version == 0
    {
      NotifyIconData(iconHandle, TruncateTip(tooltipText), 0)
    }

    constructor()
      ensures Valid()
      ensures !isCreated && !isVisible && !disposed && tooltipText == "" && iconHandle == 0
      ensures !isContextMenuOpen && !hasProcessedButtonUp && remainingTicks == 0 && !timerRunning
      ensures displaySubscribed && !windowDisposed
      ensures calls == [] && leftClicks == 0 && rightClicks == [] && menusOpened == 0
    {
      isCreated := false;
      isVisible := false;
      disposed := false;
      tooltipText := "";
      iconHandle := 0;
      isContextMenuOpen := false;
      hasProcessedButtonUp := false;
      remainingTicks := 0;
      timerRunning := false;
      displaySubscribed := true;
      windowDisposed := false;
      calls := [];
      leftClicks := 0;
      rightClicks := [];
      menusOpened := 0;
    }

    /**
     * What one `Update` does to the shell, given its answers to `NIM_MODIFY`
     * and `NIM_ADD`: nothing after disposal; for a visible icon a modify,
     * or an add followed by the version call when the shell accepts it;
     * for a hidden registered icon a delete. The data sent is the current
     * icon and tooltip.
     */
    twostate predicate Updated(modifyOk: bool, addOk: bool)
      reads this
    {
      var d := MakeData();
      var add := [ShellCall(NimAdd, d)] + (if addOk then [ShellCall(NimSetVersion, d.(version := NotifyIconVersion4))] else []);
      if old(disposed) then
        calls == old(calls) && isCreated == old(isCreated)
      else if isVisible then
        if old(isCreated) && modifyOk then
          calls == old(calls) + [ShellCall(NimModify, d)] && isCreated
        else if old(isCreated) then
          calls == old(calls) + [ShellCall(NimModify, d)] + add && isCreated == addOk
        else
          calls == old(calls) + add && isCreated == addOk
      else if old(isCreated) then
        calls == old(calls) + [ShellCall(NimDelete, d)] && !isCreated
      else
        calls == old(calls) && !isCreated
    }

    /**
     * `Update`: brings the shell in line with `IsVisible`. `modifyOk` and
     * `addOk` are the shell's answers to `NIM_MODIFY` and `NIM_ADD`. A
     * refused modify means the shell restarted: the icon is marked not
     * created and added again, one level of recursion at most.
     */
    method Update(modifyOk: bool, addOk: bool)
      requires Settled()
      modifies this
      decreases if isCreated then 1 else 0
      ensures Settled()
      ensures !disposed ==> Valid()
      ensures Updated(modifyOk, addOk)
      ensures IconKept() && TimerKept() && ClicksKept() && MenuKept() && WindowKept()
    {
      if disposed {
        return;
      }
      var data := MakeData();
      if isVisible {
        if isCreated {
          calls := calls + [ShellCall(NimModify, data)];
          if !modifyOk {
            isCreated := false;
            Update(modifyOk, addOk);
          }
        } else {
          calls := calls + [ShellCall(NimAdd, data)];
          if addOk {
            isCreated := true;
            data := data.(version := NotifyIconVersion4);
            calls := calls + [ShellCall(NimSetVersion, data)];
          }
        }
      } else if isCreated {
        calls := calls + [ShellCall(NimDelete, data)];
        isCreated := false;
      }
    }

    /** The `IsVisible` setter: updates the shell only when the value changes. */
    method SetIsVisible(value: bool, modifyOk: bool, addOk: bool)
      requires Valid()
      modifies this
      ensures Valid()
      ensures isVisible == value
      ensures value == old(isVisible) ==> calls == old(calls) && isCreated == old(isCreated)
      ensures !old(disposed) && !value && old(isVisible) && old(isCreated) ==>
                calls == old(calls) + [ShellCall(NimDelete, old(MakeData()))] && !isCreated
      ensures !old(disposed) && value && !old(isVisible) ==>
                calls == old(calls) + [ShellCall(NimAdd, old(MakeData()))]
                         + (if addOk then [ShellCall(NimSetVersion, old(MakeData()).(version := NotifyIconVersion4))] else [])
                && isCreated == addOk
      ensures old(disposed) ==> calls == old(calls) && isCreated == old(isCreated)
      ensures value != old(isVisible) ==> Updated(modifyOk, addOk)
      ensures disposed == old(disposed) && tooltipText == old(tooltipText) && iconHandle == old(iconHandle)
      ensures TimerKept() && ClicksKept() && MenuKept() && WindowKept()
    {
      if value != isVisible {
        isVisible := value;
        Update(modifyOk, addOk);
      }
    }

    /** `SetIcon`: stores the icon and updates the shell. */
    method SetIcon(handle: int, modifyOk: bool, addOk: bool)
      requires Valid()
      modifies this
      ensures Valid()
      ensures iconHandle == handle && tooltipText == old(tooltipText) && isVisible == old(isVisible)
      ensures disposed == old(disposed) && Updated(modifyOk, addOk)
      ensures !disposed && isVisible ==> |calls| > |old(calls)| && calls[|calls| - 1].data.iconHandle == handle
      ensures TimerKept() && ClicksKept() && MenuKept() && WindowKept()
    {
      iconHandle := handle;
      Update(modifyOk, addOk);
    }

    /** `SetTooltip`: a null text is stored as empty; the shell receives at most 127 characters of it. */
    method SetTooltip(text: Option<string>, modifyOk: bool, addOk: bool)
      requires Valid()
      modifies this
      ensures Valid()
      ensures tooltipText == text.GetOr("")
      ensures iconHandle == old(iconHandle) && isVisible == old(isVisible) && disposed == old(disposed)
      ensures Updated(modifyOk, addOk)
      ensures forall i :: |old(calls)| <= i < |calls| ==> calls[i].data.tip == TruncateTip(tooltipText)
      ensures TimerKept() && ClicksKept() && MenuKept() && WindowKept()
    {
      tooltipText := text.GetOr("");
      Update(modifyOk, addOk);
    }

    /**
     * The `HasProcessedButtonUp` getter: returns the flag and clears it.
     * A method, because reading it changes state.
     */
    method TakeHasProcessedButtonUp() returns (val: bool)
      requires Valid()
      modifies this
      ensures Valid()
      ensures val == old(hasProcessedButtonUp) && !hasProcessedButtonUp
      ensures leftClicks == old(leftClicks) && rightClicks == old(rightClicks)
      ensures ShellKept() && IconKept() && TimerKept() && MenuKept() && WindowKept()
    {
      val := hasProcessedButtonUp;
      hasProcessedButtonUp := false;
    }

    /**
     * What a mouse notification does: a select or left button up is a
     * click unless the previous one was, a right button up or context-menu
     * request is a right click at the `WParam` point, anything else is
     * ignored.
     */
    twostate predicate CallbackHandled(notification: int, wParam: int)
      reads this
    {
      (notification == NinSelect || notification == WmLButtonUp ==>
         hasProcessedButtonUp == !old(hasProcessedButtonUp)
         && leftClicks == old(leftClicks) + (if old(hasProcessedButtonUp) then 0 else 1)
         && rightClicks == old(rightClicks))
      && (notification == WmRButtonUp || notification == WmContextMenu ==>
            rightClicks == old(rightClicks) + [ClickPoint(wParam)]
            && leftClicks == old(leftClicks) && hasProcessedButtonUp == old(hasProcessedButtonUp))
      && (notification !in {NinSelect, WmLButtonUp, WmRButtonUp, WmContextMenu} ==>
            leftClicks == old(leftClicks) && rightClicks == old(rightClicks)
            && hasProcessedButtonUp == old(hasProcessedButtonUp))
    }

    /**
     * `CallbackMsgWndProc`: a select or left button up raises `LeftClick`
     * unless the previous one did; a right button up or context-menu
     * notification raises `RightClick` with the point from `WParam`.
     */
    method CallbackMessage(notification: int, wParam: int)
      requires Valid()
      modifies this
      ensures Valid()
      ensures CallbackHandled(notification, wParam)
      ensures ShellKept() && IconKept() && TimerKept() && MenuKept() && WindowKept()
    {
      if notification == NinSelect || notification == WmLButtonUp {
        var processed := TakeHasProcessedButtonUp();
        if !processed {
          hasProcessedButtonUp := true;
          leftClicks := leftClicks + 1;
        }
      } else if notification == WmRButtonUp || notification == WmContextMenu {
        rightClicks := rightClicks + [ClickPoint(wParam)];
      }
    }

    /** `ScheduleIconUpdate`: ten ticks from now, and an immediate update. */
    method ScheduleIconUpdate(modifyOk: bool, addOk: bool)
      requires Valid()
      requires !disposed
      modifies this
      ensures Valid()
      ensures remainingTicks == 10 && timerRunning && Updated(modifyOk, addOk)
      ensures IconKept() && ClicksKept() && MenuKept() && WindowKept()
    {
      remainingTicks := 10;
      timerRunning := true;
      Update(modifyOk, addOk);
    }

    /**
     * `OnIconUpdateTimerTick`, delivered only while the timer runs: one tick
     * fewer; the tick that reaches zero stops the timer and updates.
     */
    method TimerTick(modifyOk: bool, addOk: bool)
      requires Valid()
      requires timerRunning
      modifies this
      ensures Valid()
      ensures remainingTicks == old(remainingTicks) - 1
      ensures timerRunning <==> remainingTicks > 0
      ensures timerRunning ==> ShellKept()
      ensures !timerRunning ==> Updated(modifyOk, addOk)
      ensures IconKept() && ClicksKept() && MenuKept() && WindowKept()
    {
      remainingTicks := remainingTicks - 1;
      if remainingTicks <= 0 {
        timerRunning := false;
        Update(modifyOk, addOk);
      }
    }

    /** `WndProc`: mouse callbacks, and a refresh when the taskbar is recreated or the work area changes. */
    method WndProc(msg: WindowMessage, modifyOk: bool, addOk: bool)
      requires Valid()
      requires !disposed
      modifies this
      ensures Valid()
      ensures msg.CallbackMouse? ==>
                CallbackHandled(msg.notification, msg.wParam) && ShellKept() && TimerKept()
      ensures msg.TaskbarCreated? || (msg.SettingChange? && msg.wParam == SpiSetWorkArea) ==>
                remainingTicks == 10 && timerRunning && Updated(modifyOk, addOk) && ClicksKept()
      ensures msg.OtherMessage? || (msg.SettingChange? && msg.wParam != SpiSetWorkArea) ==>
                ShellKept() && TimerKept() && ClicksKept()
      ensures IconKept() && MenuKept() && WindowKept()
    {
      match msg
      case CallbackMouse(notification, wParam) =>
        CallbackMessage(notification, wParam);
      case TaskbarCreated =>
        ScheduleIconUpdate(modifyOk, addOk);
      case SettingChange(wParam) =>
        if wParam == SpiSetWorkArea {
          ScheduleIconUpdate(modifyOk, addOk);
        }
      case OtherMessage =>
    }

    /** `ShowContextMenu`: ignored while a menu is open. */
    method ShowContextMenu()
      requires Valid()
      modifies this
      ensures Valid()
      ensures isContextMenuOpen
      ensures menusOpened == if old(isContextMenuOpen) then old(menusOpened) else old(menusOpened) + 1
      ensures ShellKept() && IconKept() && TimerKept() && ClicksKept() && WindowKept()
    {
      if isContextMenuOpen {
        return;
      }
      isContextMenuOpen := true;
      menusOpened := menusOpened + 1;
    }

    /** `OnContextMenuClosed`. */
    method ContextMenuClosed()
      requires Valid()
      modifies this
      ensures Valid()
      ensures !isContextMenuOpen && menusOpened == old(menusOpened)
      ensures ShellKept() && IconKept() && TimerKept() && ClicksKept() && WindowKept()
    {
      isContextMenuOpen := false;
    }

    /**
     * `Dispose` as written: `_disposed` is set before `IsVisible = false`,
     * so the update that would delete the icon returns at once and a
     * registered icon stays registered with the shell.
     */
    method Dispose()
      requires Valid()
      modifies this
      ensures Valid()
      ensures disposed && !timerRunning && !displaySubscribed
      ensures ShellKept()
      ensures !old(disposed) ==> !isVisible && windowDisposed
      ensures old(disposed) ==> IconKept() && TimerKept() && WindowKept()
      ensures tooltipText == old(tooltipText) && iconHandle == old(iconHandle) && remainingTicks == old(remainingTicks)
      ensures ClicksKept() && MenuKept()
    {
      if disposed {
        return;
      }
      disposed := true;
      timerRunning := false;
      displaySubscribed := false;
      SetIsVisible(false, false, false);
      windowDisposed := true;
    }

    /**
     * Disposal as evidently intended: hide the icon first, so a registered
     * icon is deleted from the tray, then mark the object disposed.
     */
    method DisposeRemovingIcon()
      requires Valid()
      modifies this
      ensures Valid()
      ensures disposed && !timerRunning && !displaySubscribed
      ensures !old(disposed) ==> !isVisible && !isCreated && windowDisposed
      ensures !old(disposed) && old(isCreated) ==>
                calls == old(calls) + [ShellCall(NimDelete, old(MakeData()))]
      ensures old(disposed) || !old(isCreated) ==> calls == old(calls)
      ensures old(disposed) ==> IconKept() && TimerKept() && WindowKept() && isCreated == old(isCreated)
      ensures tooltipText == old(tooltipText) && iconHandle == old(iconHandle) && remainingTicks == old(remainingTicks)
      ensures ClicksKept() && MenuKept()
    {
      if disposed {
        return;
      }
      timerRunning := false;
      displaySubscribed := false;
      SetIsVisible(false, false, false);
      disposed := true;
      windowDisposed := true;
    }
  }

  /**
   * The debounce: over `n` consecutive select / button-up notifications
   * starting from a cleared flag, `LeftClick` fires on the 1st, 3rd, 5th,
   * ... one, `(n + 1) / 2` times in all.
   */
  method ClickBurst(icon: NotifyIcon, n: nat)
    requires icon.Valid() && !icon.hasProcessedButtonUp
    modifies icon
    ensures icon.Valid()
    ensures icon.leftClicks == old(icon.leftClicks) + (n + 1) / 2
    ensures icon.hasProcessedButtonUp == (n % 2 == 1)
  {
    var i := 0;
    while i < n
      invariant 0 <= i <= n
      invariant icon.Valid()
      invariant icon.leftClicks == old(icon.leftClicks) + (i + 1) / 2
      invariant icon.hasProcessedButtonUp == (i % 2 == 1)
    {
      icon.CallbackMessage(NinSelect, 0);
      i := i + 1;
    }
  }

  /** After a scheduled update the timer runs for exactly ten ticks and then stops. */
  method TenTicksThenStop(icon: NotifyIcon, modifyOk: bool, addOk: bool)
    requires icon.Valid() && !icon.disposed
    modifies icon
    ensures icon.Valid()
    ensures !icon.timerRunning && icon.remainingTicks == 0
  {
    icon.ScheduleIconUpdate(modifyOk, addOk);
    var ticks := 0;
    while ticks < 10
      invariant 0 <= ticks <= 10
      invariant icon.Valid()
      invariant icon.remainingTicks == 10 - ticks
      invariant icon.timerRunning <==> ticks < 10
    {
      icon.TimerTick(modifyOk, addOk);
      ticks := ticks + 1;
    }
  }

  /**
   * The as-written disposal leaves a visible, registered icon registered
   * and its last shell call is not a delete; the corrected one removes it.
   */
  method DisposeLeavesIconRegistered(modifyOk: bool) returns (stillRegistered: bool, removedByFix: bool)
    ensures stillRegistered && removedByFix
  {
    var icon := new NotifyIcon();
    icon.SetIsVisible(true, modifyOk, true);
    icon.Dispose();
    stillRegistered := icon.isCreated && icon.calls[|icon.calls| - 1].message != NimDelete;

    var fixedIcon := new NotifyIcon();
    fixedIcon.SetIsVisible(true, modifyOk, true);
    fixedIcon.DisposeRemovingIcon();
    removedByFix := !fixedIcon.isCreated && fixedIcon.calls[|fixedIcon.calls| - 1].message == NimDelete;
  }
}
