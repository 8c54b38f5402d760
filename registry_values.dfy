/**
 * Reading one value under the user's Personalize registry key. The read is
 * an input: the key may be missing, the value may be missing, it may be a
 * boxed object of some type, or the read may throw.
 */
module RegistryValues {

  /** The boxed object `RegistryKey.GetValue` returns. */
  datatype Boxed =
    | BoxedInt(i: int)        // REG_DWORD
    | BoxedLong(l: int)       // REG_QWORD
    | BoxedString(s: string)  // REG_SZ and REG_EXPAND_SZ
    | BoxedOther              // binary and multi-string values

  datatype RegistryRead =
    | KeyMissing
    | ValueMissing
    | Found(value: Boxed)
    | Failed                  // the read threw

  /** `value is 1`: the read produced a boxed `int` equal to 1. */
  predicate ValueIsOne(read: RegistryRead) {
    match read
    case Found(BoxedInt(i)) => i == 1
    case _ => false
  }
}
