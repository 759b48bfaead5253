/** Fixed-width integers and the Option wrapper shared by the other modules. */
module Types {

  /** An unsigned 8-bit value (`uint8_t`). */
  type Byte = x: int | 0 <= x < 0x100

  /** An unsigned 16-bit value (`uint16_t`), such as a Thread RLOC16 short address. */
  type Word16 = x: int | 0 <= x < 0x1_0000

  /** An OpenThread `otError` code; `ErrorNone` is `OT_ERROR_NONE`. */
  type OtError = nat

  const ErrorNone: OtError := 0

  datatype Option<+T> = None | Some(value: T)
}
