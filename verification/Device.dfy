/** The register file behind the TLM target socket. */
module Device {
  import opened Tlmx

  const REGISTER_COUNT: nat := 8
  const BYTE_WIDTH: nat := 4        // bus width of 32 bits, and the size of one register
  const LATENCY: nat := 10          // nanoseconds for one word
  const REGISTER_BYTES: nat := 32   // REGISTER_COUNT * BYTE_WIDTH
  const BURST_LIMIT: nat := 28      // (REGISTER_COUNT - 1) * BYTE_WIDTH

  type Registers = r: seq<byte> | |r| == REGISTER_BYTES witness seq(REGISTER_BYTES, i => 0)

  datatype TlmCommand = ReadCommand | WriteCommand | IgnoreCommand

  datatype TlmStatus =
    | TlmOk
    | TlmIncomplete
    | TlmGenericError
    | TlmAddressError
    | TlmCommandError
    | TlmBurstError
    | TlmByteEnableError

  /** The attributes of a transaction that the device looks at, apart from its data. */
  datatype Access = Access(
    command: TlmCommand,
    address: uint64,
    length: uint32,
    byteEnables: bool,
    streamingWidth: uint32)

  /** The access that the adaptor builds: no byte enables, streaming width equal to the length. */
  function Plain(command: TlmCommand, address: uint64, length: uint32): Access {
    Access(command, address, length, false, length)
  }

  // ---------------------------------------------------------------------------
  // Which transactions are accepted, in closed form.
  // ---------------------------------------------------------------------------

  /** The address names the first byte of a register. */
  predicate RegisterAddress(address: uint64) {
    address < REGISTER_BYTES && address % BYTE_WIDTH == 0
  }

  /** A positive number of whole words that ends before the last register. */
  predicate GoodBurst(a: Access) {
    && 0 < a.length <= a.streamingWidth
    && a.length % BYTE_WIDTH == 0
    && a.address + a.length <= BURST_LIMIT
  }

  predicate Accepts(a: Access) {
    RegisterAddress(a.address) && !a.byteEnables && GoodBurst(a)
  }

  function BurstStatus(a: Access): TlmStatus {
    if !RegisterAddress(a.address) then TlmAddressError
    else if a.byteEnables then TlmByteEnableError
    else if !GoodBurst(a) then TlmBurstError
    else TlmOk
  }

  // ---------------------------------------------------------------------------
  // What a transaction does.
  // ---------------------------------------------------------------------------

  /** dst with the bytes from position `at` overwritten by src. */
  function Overwrite(dst: seq<byte>, at: nat, src: seq<byte>): (r: seq<byte>)
    requires at + |src| <= |dst|
    ensures |r| == |dst|
    ensures forall i :: 0 <= i < |dst| ==> r[i] == if at <= i < at + |src| then src[i - at] else dst[i]
  {
    dst[..at] + src + dst[at + |src|..]
  }

  /** The registers, the transaction's data, its accumulated delay and its status after a call. */
  datatype Effect = Effect(regs: Registers, data: seq<byte>, delay: nat, status: TlmStatus)

  function Moved(regs: Registers, a: Access, data: seq<byte>, delay: nat): (e: Effect)
    requires |data| == a.length && a.address + a.length <= REGISTER_BYTES
    ensures |e.data| == |data|
  {
    match a.command
    case ReadCommand => Effect(regs, regs[a.address..a.address + a.length], delay, TlmOk)
    case WriteCommand => Effect(Overwrite(regs, a.address, data), data, delay, TlmOk)
    case IgnoreCommand => Effect(regs, data, delay, TlmOk)
  }

  /** The blocking transport: checked burst, one latency for each word. */
  function Burst(regs: Registers, a: Access, data: seq<byte>, delay: nat): (e: Effect)
    requires |data| == a.length
    ensures |e.data| == |data|
  {
    if Accepts(a)
    then Moved(regs, a, data, delay + LATENCY * (a.length / BYTE_WIDTH))
    else Effect(regs, data, delay, BurstStatus(a))
  }

  /** The debug transport does not check its length: this is what its caller has to see to. */
  predicate DebugInRange(address: uint64, length: int) {
    RegisterAddress(address) ==> address + length <= REGISTER_BYTES
  }

  function Debug(regs: Registers, a: Access, data: seq<byte>): (e: Effect)
    requires |data| == a.length && DebugInRange(a.address, a.length)
    ensures |e.data| == |data| && e.delay == 0
  {
    if RegisterAddress(a.address) then Moved(regs, a, data, 0) else Effect(regs, data, 0, TlmAddressError)
  }

  // ---------------------------------------------------------------------------
  // The objects.
  // ---------------------------------------------------------------------------

  /** A TLM 2.0 generic payload, passed by reference and changed by the target. */
  class GenericPayload {
    var command: TlmCommand
    var address: uint64
    var data: array<byte>
    var dataLength: uint32
    var streamingWidth: uint32
    var byteEnables: bool
    var status: TlmStatus

    constructor (buffer: array<byte>)
      ensures command == IgnoreCommand && data == buffer
    {
      command, address, data := IgnoreCommand, 0, buffer;
      dataLength, streamingWidth, byteEnables, status := 0, 0, false, TlmIncomplete;
    }

    function Attributes(): Access
      reads this
    {
      Access(command, address, dataLength, byteEnables, streamingWidth)
    }
  }

  class DevModule {
    /** The register array, byte by byte. */
    const register: array<byte>

    constructor (power: Registers)
      ensures fresh(register) && register.Length == REGISTER_BYTES && register[..] == power
    {
      register := new byte[REGISTER_BYTES](i requires 0 <= i < REGISTER_BYTES => power[i]);
      new;
      assert register[..] == power;
    }

    /** memcpy between the array and the data buffer; at is a register number. */
    method CopyOut(at: nat, trans: GenericPayload)
      requires trans.dataLength <= trans.data.Length && trans.data != register
      requires at * BYTE_WIDTH + trans.dataLength <= register.Length
      modifies trans.data
      ensures trans.data[..] == Overwrite(old(trans.data[..]), 0, register[at * BYTE_WIDTH..at * BYTE_WIDTH + trans.dataLength])
    {
      var base := at * BYTE_WIDTH;
      forall i | 0 <= i < trans.dataLength {
        trans.data[i] := register[base + i];
      }
    }

    method CopyIn(at: nat, trans: GenericPayload)
      requires trans.dataLength <= trans.data.Length && trans.data != register
      requires at * BYTE_WIDTH + trans.dataLength <= register.Length
      modifies register
      ensures register[..] == Overwrite(old(register[..]), at * BYTE_WIDTH, trans.data[..trans.dataLength])
    {
      var base := at * BYTE_WIDTH;
      forall i | 0 <= i < trans.dataLength {
        register[base + i] := trans.data[i];
      }
    }

    /** The copy that the command asks for. */
    method Move(at: nat, trans: GenericPayload)
      requires register.Length == REGISTER_BYTES
      requires trans.dataLength <= trans.data.Length && trans.data != register
      requires trans.address == at * BYTE_WIDTH && trans.address + trans.dataLength <= REGISTER_BYTES
      modifies trans.data, register
      ensures var e := Moved(old(register[..]), trans.Attributes(), old(trans.data[..trans.dataLength]), 0);
              && register[..] == e.regs
              && trans.data[..] == e.data + old(trans.data[trans.dataLength..])
    {
      if trans.command == ReadCommand {
        CopyOut(at, trans);
      } else if trans.command == WriteCommand {
        CopyIn(at, trans);
      }
    }

    /** b_transport, branch by branch, with the end of the burst computed in 64 bits. */
    method BTransport(trans: GenericPayload, delayIn: nat) returns (delay: nat)
      requires register.Length == REGISTER_BYTES
      requires trans.dataLength <= trans.data.Length && trans.data != register
      modifies trans`status, trans.data, register
      ensures var e := Burst(old(register[..]), old(trans.Attributes()), old(trans.data[..trans.dataLength]), delayIn);
              && register[..] == e.regs
              && trans.data[..] == e.data + old(trans.data[trans.dataLength..])
              && trans.status == e.status
              && delay == e.delay
    {
      delay := delayIn;
      if trans.address >= REGISTER_COUNT * BYTE_WIDTH {
        trans.status := TlmAddressError;
        return;
      } else if trans.address % BYTE_WIDTH != 0 {
        trans.status := TlmAddressError;
        return;
      } else if trans.byteEnables {
        trans.status := TlmByteEnableError;
        return;
      } else if || trans.dataLength % BYTE_WIDTH != 0
                || trans.streamingWidth < trans.dataLength
                || trans.dataLength == 0
                || ((trans.address + trans.dataLength) % TWO_TO_THE_64) / BYTE_WIDTH >= REGISTER_COUNT {
        trans.status := TlmBurstError;
        return;
      }
      assert Accepts(trans.Attributes());
      Move(trans.address / BYTE_WIDTH, trans);
      delay := delay + LATENCY * trans.dataLength / BYTE_WIDTH;
      trans.status := TlmOk;
    }

    method TransportDbg(trans: GenericPayload) returns (transferred: uint32)
      requires register.Length == REGISTER_BYTES
      requires trans.dataLength <= trans.data.Length && trans.data != register
      requires DebugInRange(trans.address, trans.dataLength)
      modifies trans`status, trans.data, register
      ensures var e := Debug(old(register[..]), old(trans.Attributes()), old(trans.data[..trans.dataLength]));
              && register[..] == e.regs
              && trans.data[..] == e.data + old(trans.data[trans.dataLength..])
              && trans.status == e.status
      ensures transferred == if RegisterAddress(trans.address) && !trans.command.IgnoreCommand? then trans.dataLength else 0
    {
      transferred := 0;
      if trans.address >= REGISTER_COUNT * BYTE_WIDTH {
        trans.status := TlmAddressError;
        return;
      } else if trans.address % BYTE_WIDTH != 0 {
        trans.status := TlmAddressError;
        return;
      }
      Move(trans.address / BYTE_WIDTH, trans);
      if trans.command == ReadCommand || trans.command == WriteCommand {
        transferred := trans.dataLength;
      }
      trans.status := TlmOk;
    }
  }
}
