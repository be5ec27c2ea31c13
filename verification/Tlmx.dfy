/** The packets that travel over the bridge, and the fixed-width numbers they are made of. */
module Tlmx {

  newtype byte = x: int | 0 <= x < 0x100

  const TWO_TO_THE_64: int := 0x1_0000_0000_0000_0000

  type uint64 = x: int | 0 <= x < 0x1_0000_0000_0000_0000
  type uint32 = x: int | 0 <= x < 0x1_0000_0000
  type uint16 = x: int | 0 <= x < 0x1_0000

  datatype Option<+T> = None | Some(value: T)

  /** The named commands; any other code on the wire is Unknown. */
  datatype Command =
    | Ignore
    | Write
    | DebugWrite
    | Read
    | DebugRead
    | Exit
    | Unknown(code: nat)
  {
    predicate IsDebug() {
      DebugWrite? || DebugRead?
    }
  }

  datatype Status = OkResponse | AddressErrorResponse | IncompleteResponse | GenericErrorResponse

  /** What both threads hold a pointer to: the header of a packet. The data it points to is kept apart. */
  datatype Header = Header(command: Command, address: uint64, dataLen: uint16)
}
