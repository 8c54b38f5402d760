/**
 * Acrylic blur behind a window: the accent policy sent to the window
 * compositor and the packing of its tint colour into one 32-bit word.
 */
module AccentPolicyHelper {
  import opened Wrappers
  import opened Colors

  /** `AccentState`, with the numbers the compositor expects. */
  datatype AccentState =
    | AccentDisabled
    | AccentEnableGradient
    | AccentEnableTransparentGradient
    | AccentEnableBlurBehind
    | AccentEnableAcrylicBlurBehind
    | AccentInvalidState

  function AccentStateValue(s: AccentState): nat {
    match s
    case AccentDisabled => 0
    case AccentEnableGradient => 1
    case AccentEnableTransparentGradient => 2
    case AccentEnableBlurBehind => 3
    case AccentEnableAcrylicBlurBehind => 4
    case AccentInvalidState => 5
  }

  /** Distinct states have distinct values, so the value sent names the state. */
  lemma AccentStateValueInjective(s: AccentState, s': AccentState)
    ensures AccentStateValue(s) == AccentStateValue(s') <==> s == s'
  {
  }

  // `AccentFlags` bits
  const FlagsNone: bv32 := 0x0
  const DrawLeftBorder: bv32 := 0x20
  const DrawTopBorder: bv32 := 0x40
  const DrawRightBorder: bv32 := 0x80
  const DrawBottomBorder: bv32 := 0x100
  const DrawAllBorders: bv32 := DrawLeftBorder | DrawTopBorder | DrawRightBorder | DrawBottomBorder

  /** `User32.AccentPolicy`. */
  datatype AccentPolicy = AccentPolicy(state: AccentState, flags: bv32, gradientColor: nat, animationId: bv32)

  /** The first Windows build whose acrylic accent takes a tint colour (version 1803). */
  const TintColorBuild: nat := 17134

  /** `AccentPolicySupportsTintColor`. */
  predicate SupportsTintColor(build: nat) {
    build >= TintColorBuild
  }

  /**
   * The shift-and-or of `ToABGR` on four channels. Each shifted channel
   * occupies its own eight bits, so the or is their sum, and the result is
   * the value of the `uint` word.
   */
  function Pack(a: Byte, b: Byte, g: Byte, r: Byte): (w: nat)
    ensures w < 0x1_0000_0000
  {
    ((a * 0x100 + b) * 0x100 + g) * 0x100 + r
  }

  /** `ToABGR`: alpha in bits 24-31, blue in 16-23, green in 8-15, red in 0-7. */
  function ToAbgr(c: Color): nat {
    Pack(c.a, c.b, c.g, c.r)
  }

  /** Shifting a word right by eight bits and masking with `0xFF` splits off its low byte. */
  lemma SplitLowByte(high: nat, low: Byte)
    ensures (high * 0x100 + low) / 0x100 == high
    ensures (high * 0x100 + low) % 0x100 == low
  {
  }

  /** Each channel comes back out of the packed word: `(w >> k) & 0xFF` for k = 24, 16, 8 and 0. */
  lemma PackChannels(a: Byte, b: Byte, g: Byte, r: Byte)
    ensures Pack(a, b, g, r) / 0x100 / 0x100 / 0x100 == a
    ensures Pack(a, b, g, r) / 0x100 / 0x100 % 0x100 == b
    ensures Pack(a, b, g, r) / 0x100 % 0x100 == g
    ensures Pack(a, b, g, r) % 0x100 == r
  {
    SplitLowByte((a * 0x100 + b) * 0x100 + g, r);
    SplitLowByte(a * 0x100 + b, g);
    SplitLowByte(a, b);
  }

  /** The channels of a colour, read back from its packed word. */
  lemma ToAbgrChannels(c: Color)
    ensures ToAbgr(c) / 0x100 / 0x100 / 0x100 == c.a
    ensures ToAbgr(c) / 0x100 / 0x100 % 0x100 == c.b
    ensures ToAbgr(c) / 0x100 % 0x100 == c.g
    ensures ToAbgr(c) % 0x100 == c.r
  {
    PackChannels(c.a, c.b, c.g, c.r);
  }

  /** Distinct colours pack to distinct words. */
  lemma ToAbgrInjective(c1: Color, c2: Color)
    ensures ToAbgr(c1) == ToAbgr(c2) ==> c1 == c2
  {
    ToAbgrChannels(c1);
    ToAbgrChannels(c2);
  }

  /**
   * `EnableAcrylic`: nothing is sent for a window without a handle;
   * otherwise the acrylic accent on builds from 17134 on, plain blur before,
   * with the caller's flags and the tint packed as ABGR.
   */
  function EnableAcrylic(handle: int, build: nat, color: Color, flags: bv32): (r: Option<AccentPolicy>)
    ensures r.None? <==> handle == 0
    ensures r.Some? ==> r.value.flags == flags && r.value.gradientColor == ToAbgr(color) && r.value.animationId == 0
    ensures r.Some? ==> AccentStateValue(r.value.state) == if build >= 17134 then 4 else 3
  {
    if handle == 0 then None
    else
      Some(AccentPolicy(
        state := if SupportsTintColor(build) then AccentEnableAcrylicBlurBehind else AccentEnableBlurBehind,
        flags := flags,
        gradientColor := ToAbgr(color),
        animationId := 0))
  }

  /** `DisableAcrylic`: nothing for a window without a handle; otherwise the disabled accent with every other field zero. */
  function DisableAcrylic(handle: int): (r: Option<AccentPolicy>)
    ensures r.None? <==> handle == 0
    ensures r.Some? ==> AccentStateValue(r.value.state) == 0 && r.value.flags == FlagsNone
                        && r.value.gradientColor == 0 && r.value.animationId == 0
  {
    if handle == 0 then None else Some(AccentPolicy(AccentDisabled, FlagsNone, 0, 0))
  }

  /** Enabling always blurs and disabling never does, so the two policies differ for every window. */
  lemma EnableDisableDiffer(handle: int, build: nat, color: Color, flags: bv32)
    requires handle != 0
    ensures EnableAcrylic(handle, build, color, flags) != DisableAcrylic(handle)
    ensures EnableAcrylic(handle, build, color, flags).value.state != AccentDisabled
  {
  }
}
