/** Types shared by the other modules. */
module Base {
  datatype Option<+T> = None | Some(value: T)

  /** The members of the C enumeration `esif_rc` that the modelled functions return. */
  datatype Rc =
    | Ok
    | Unspecified
    | NoMemory
    | ParameterIsNull
    | ParameterIsOutOfBounds
    | NeedLargerBuffer
    | CommandDataInvalid
    | InvalidHandle
    | RequestDataOutOfBounds
    | CallbackIsNull
    | OrderedInsert
    | OtherError(code: int)

  /** A C pointer of type `void *`: an address, of which 0 is NULL. */
  type Address = nat

  const NULL: Address := 0

  /** Unsigned 32-bit counters wrap at this value. */
  const UINT32_SPAN := 0x1_0000_0000
}
