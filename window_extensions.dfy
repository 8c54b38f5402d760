/**
 * Window helpers: read-modify-write of the window style words, and the
 * Desktop Window Manager attributes for cloaking, dark title bars and
 * rounded corners. The windowing system is modelled as the style word of
 * every (handle, index) pair and the log of attribute writes it received.
 */
module WindowExtensions {

  // Style word indices
  const GwlStyle: int := -16
  const GwlExStyle: int := -20

  // Style bits
  const WsExToolWindow: bv64 := 0x0000_0080
  const WsExNoActivate: bv64 := 0x0800_0000
  const WsMaximizeBox: bv32 := 0x1_0000

  // Window attributes
  const DwmaCloak: int := 13
  const DwmwaUseImmersiveDarkMode: int := 20
  const DwmwaWindowCornerPreference: int := 33
  const DwmwcpRound: int := 2

  /** The first Windows 11 build. */
  const Windows11Build: nat := 22000

  /** `IntPtr.ToInt64() | int`: a 32-bit operand widened to 64 bits keeps its sign. */
  function Widen(x: bv32): bv64 {
    if x >> 31 == 1 then (x as bv64) | 0xFFFF_FFFF_0000_0000 else x as bv64
  }

  /** The mask `~WS_MAXIMIZEBOX` as it meets the 64-bit style word: every bit set except bit 16. */
  lemma MaximizeMaskWidens()
    ensures Widen(!WsMaximizeBox) == !(WsMaximizeBox as bv64)
  {
  }

  /** `WS_EX_NOACTIVATE` as the 32-bit constant the source declares. */
  const WsExNoActivate32: bv32 := 0x0800_0000

  /** The constant keeps its value when widened to the 64-bit style word. */
  lemma NoActivateWidens()
    ensures Widen(WsExNoActivate32) == WsExNoActivate
  {
  }

  /** `style | bits`. */
  function SetBits(style: bv64, bits: bv64): bv64 {
    style | bits
  }

  /** `style & ~bits`. */
  function ClearBits(style: bv64, bits: bv64): bv64 {
    style & !bits
  }

  /** Setting bits turns them on. */
  lemma SetBitsOn(style: bv64, bits: bv64)
    ensures SetBits(style, bits) & bits == bits
  {
  }

  /** Setting bits leaves every other bit as it was. */
  lemma SetBitsKeepsOthers(style: bv64, bits: bv64)
    ensures SetBits(style, bits) & !bits == style & !bits
  {
  }

  /** Setting the same bits a second time changes nothing. */
  lemma SetBitsIdempotent(style: bv64, bits: bv64)
    ensures SetBits(SetBits(style, bits), bits) == SetBits(style, bits)
  {
  }

  /** Clearing bits turns them off. */
  lemma ClearBitsOff(style: bv64, bits: bv64)
    ensures ClearBits(style, bits) & bits == 0
  {
  }

  /** Clearing bits leaves every other bit as it was. */
  lemma ClearBitsKeepsOthers(style: bv64, bits: bv64)
    ensures ClearBits(style, bits) & !bits == style & !bits
  {
  }

  /** Clearing the same bits a second time changes nothing. */
  lemma ClearBitsIdempotent(style: bv64, bits: bv64)
    ensures ClearBits(ClearBits(style, bits), bits) == ClearBits(style, bits)
  {
  }

  /** One `DwmSetWindowAttribute` call. */
  datatype AttributeWrite = AttributeWrite(handle: int, attribute: int, value: int)

  class WindowManager {
    /** The style words `GetWindowLongPtr` reads; a pair never written reads as 0. */
    var longs: map<(int, int), bv64>
    /** Every attribute write, in order. */
    var attributeWrites: seq<AttributeWrite>

    function LongAt(handle: int, index: int): bv64
      reads this
    {
      if (handle, index) in longs then longs[(handle, index)] else 0
    }

    /** `ApplyToolWindowStyle`: adds `WS_EX_TOOLWINDOW` to the extended style. */
    method ApplyToolWindowStyle(handle: int)
      modifies this
      ensures longs == old(longs)[(handle, GwlExStyle) := SetBits(old(LongAt(handle, GwlExStyle)), WsExToolWindow)]
      ensures attributeWrites == old(attributeWrites)
    {
      var currentStyle := LongAt(handle, GwlExStyle);
      longs := longs[(handle, GwlExStyle) := SetBits(currentStyle, WsExToolWindow)];
    }

    /** `ApplyNoActivateStyle`: adds `WS_EX_NOACTIVATE` to the extended style. */
    method ApplyNoActivateStyle(handle: int)
      modifies this
      ensures longs == old(longs)[(handle, GwlExStyle) := SetBits(old(LongAt(handle, GwlExStyle)), WsExNoActivate)]
      ensures attributeWrites == old(attributeWrites)
    {
      var currentStyle := LongAt(handle, GwlExStyle);
      NoActivateWidens();
      longs := longs[(handle, GwlExStyle) := SetBits(currentStyle, Widen(WsExNoActivate32))];
    }

    /** `RemoveMaximizeBox`: clears `WS_MAXIMIZEBOX` from the style. */
    method RemoveMaximizeBox(handle: int)
      modifies this
      ensures longs == old(longs)[(handle, GwlStyle) := ClearBits(old(LongAt(handle, GwlStyle)), WsMaximizeBox as bv64)]
      ensures attributeWrites == old(attributeWrites)
    {
      var currentStyle := LongAt(handle, GwlStyle);
      var mask := Widen(!WsMaximizeBox);
      MaximizeMaskWidens();
      assert currentStyle & mask == ClearBits(currentStyle, WsMaximizeBox as bv64);
      longs := longs[(handle, GwlStyle) := currentStyle & mask];
    }

    /** `Cloak`: attribute 13 set to 1 to hide and 0 to show. */
    method Cloak(handle: int, cloaked: bool)
      modifies this
      ensures attributeWrites == old(attributeWrites) + [AttributeWrite(handle, DwmaCloak, if cloaked then 1 else 0)]
      ensures longs == old(longs)
    {
      var attributeValue := if cloaked then 1 else 0;
      attributeWrites := attributeWrites + [AttributeWrite(handle, DwmaCloak, attributeValue)];
    }

    /** `EnableRoundedCorners`: before Windows 11 nothing; from it on, the round corner preference. */
    method EnableRoundedCorners(handle: int, build: nat)
      modifies this
      ensures build < Windows11Build ==> attributeWrites == old(attributeWrites)
      ensures build >= Windows11Build ==>
                attributeWrites == old(attributeWrites) + [AttributeWrite(handle, DwmwaWindowCornerPreference, DwmwcpRound)]
      ensures longs == old(longs)
    {
      var isWindows11 := build >= Windows11Build;
      if !isWindows11 {
        return;
      }
      attributeWrites := attributeWrites + [AttributeWrite(handle, DwmwaWindowCornerPreference, DwmwcpRound)];
    }

    /** `SetDarkMode`: attribute 20 set to 1 exactly when enabling. */
    method SetDarkMode(handle: int, enabled: bool)
      modifies this
      ensures attributeWrites == old(attributeWrites) + [AttributeWrite(handle, DwmwaUseImmersiveDarkMode, if enabled then 1 else 0)]
      ensures longs == old(longs)
    {
      var attributeValue := if enabled then 1 else 0;
      attributeWrites := attributeWrites + [AttributeWrite(handle, DwmwaUseImmersiveDarkMode, attributeValue)];
    }
  }

  /** Applying the tool window style twice has exactly the effect of applying it once. */
  method ToolWindowStyleIdempotent(wm: WindowManager, handle: int)
    modifies wm
    ensures wm.longs == old(wm.longs)[(handle, GwlExStyle) := SetBits(old(wm.LongAt(handle, GwlExStyle)), WsExToolWindow)]
    ensures wm.attributeWrites == old(wm.attributeWrites)
  {
    wm.ApplyToolWindowStyle(handle);
    wm.ApplyToolWindowStyle(handle);
    SetBitsIdempotent(old(wm.LongAt(handle, GwlExStyle)), WsExToolWindow);
  }

  /** Applying the no-activate style twice has exactly the effect of applying it once. */
  method NoActivateStyleIdempotent(wm: WindowManager, handle: int)
    modifies wm
    ensures wm.longs == old(wm.longs)[(handle, GwlExStyle) := SetBits(old(wm.LongAt(handle, GwlExStyle)), WsExNoActivate)]
    ensures wm.attributeWrites == old(wm.attributeWrites)
  {
    wm.ApplyNoActivateStyle(handle);
    wm.ApplyNoActivateStyle(handle);
    SetBitsIdempotent(old(wm.LongAt(handle, GwlExStyle)), WsExNoActivate);
  }

  /** Removing the maximize box twice has exactly the effect of removing it once. */
  method RemoveMaximizeBoxIdempotent(wm: WindowManager, handle: int)
    modifies wm
    ensures wm.longs == old(wm.longs)[(handle, GwlStyle) := ClearBits(old(wm.LongAt(handle, GwlStyle)), WsMaximizeBox as bv64)]
    ensures wm.attributeWrites == old(wm.attributeWrites)
  {
    wm.RemoveMaximizeBox(handle);
    wm.RemoveMaximizeBox(handle);
    ClearBitsIdempotent(old(wm.LongAt(handle, GwlStyle)), WsMaximizeBox as bv64);
  }
}
