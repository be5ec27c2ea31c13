/**
 The plain sequential loop that the bridge is meant to be: requests are executed one after the
 other on the register file, and each has its response before the next is looked at.
 */
module Machine {
  import opened Tlmx
  import opened Device

  // ---------------------------------------------------------------------------
  // Requests and responses.
  // ---------------------------------------------------------------------------

  /** The device's debug transport leaves its range to the caller; every other access is checked. */
  predicate IsLegal(h: Header) {
    !h.command.Exit? && (h.command.IsDebug() ==> DebugInRange(h.address, h.dataLen))
  }

  type LegalHeader = h: Header | IsLegal(h) witness Header(Ignore, 0, 0)

  datatype RawRequest = RawRequest(header: LegalHeader, data: seq<byte>)

  type Request = r: RawRequest | |r.data| == r.header.dataLen witness RawRequest(Header(Ignore, 0, 0), [])

  datatype Response = Response(header: Header, status: Status, data: seq<byte>)

  // ---------------------------------------------------------------------------
  // One request.
  // ---------------------------------------------------------------------------

  /** The adaptor's command map. Write becomes a read; an unknown code keeps the payload's old command. */
  function TlmCommandOf(c: Command, previous: TlmCommand): TlmCommand {
    match c
    case Ignore => IgnoreCommand
    case Write => ReadCommand
    case DebugWrite => WriteCommand
    case Read => ReadCommand
    case DebugRead => ReadCommand
    case _ => previous
  }

  function StatusOf(s: TlmStatus): Status {
    match s
    case TlmOk => OkResponse
    case TlmAddressError => AddressErrorResponse
    case TlmIncomplete => IncompleteResponse
    case _ => GenericErrorResponse
  }

  const LONGEST_WAIT: nat := 70   // LATENCY * (REGISTER_COUNT - 1)

  /** How long a packet keeps the initiator: 10 ns for each word of an accepted burst, and never more than 70. */
  function WaitOf(h: LegalHeader): (d: nat)
    ensures d <= LONGEST_WAIT
  {
    if !h.command.IsDebug() && Accepts(Plain(IgnoreCommand, h.address, h.dataLen))
    then LATENCY * (h.dataLen / BYTE_WIDTH)
    else 0
  }

  datatype Outcome = Outcome(regs: Registers, command: TlmCommand, data: seq<byte>, status: TlmStatus, delay: nat)

  /** From the packet that was got to the status of the transaction. */
  function Transact(regs: Registers, previous: TlmCommand, h: LegalHeader, data: seq<byte>): (o: Outcome)
    requires |data| == h.dataLen
    ensures |o.data| == |data|
  {
    var command := TlmCommandOf(h.command, previous);
    var a := Plain(command, h.address, h.dataLen);
    var e := if h.command.IsDebug() then Debug(regs, a, data) else Burst(regs, a, data, 0);
    Outcome(e.regs, command, e.data, e.status, e.delay)
  }

  /** The delay of a transaction is settled by the header alone. */
  lemma DelayIsWaitOf(regs: Registers, previous: TlmCommand, h: LegalHeader, data: seq<byte>)
    requires |data| == h.dataLen
    ensures Transact(regs, previous, h, data).delay == WaitOf(h)
  {
  }

  /** The register file, the simulated time in nanoseconds, and the command left in the payload. */
  datatype Machine = Machine(regs: Registers, time: nat, command: TlmCommand)

  function OutcomeOf(m: Machine, r: Request): Outcome {
    Transact(m.regs, m.command, r.header, r.data)
  }

  function Executed(m: Machine, r: Request): Machine {
    var o := OutcomeOf(m, r);
    Machine(o.regs, m.time + o.delay, o.command)
  }

  function Reply(m: Machine, r: Request): Response {
    var o := OutcomeOf(m, r);
    Response(r.header, StatusOf(o.status), o.data)
  }

  // ---------------------------------------------------------------------------
  // All requests.
  // ---------------------------------------------------------------------------

  function After(m: Machine, rs: seq<Request>): Machine {
    if rs == [] then m else Executed(After(m, rs[..|rs| - 1]), rs[|rs| - 1])
  }

  function Replies(m: Machine, rs: seq<Request>): (out: seq<Response>)
    ensures |out| == |rs| && forall i :: 0 <= i < |rs| ==> |out[i].data| == |rs[i].data|
  {
    if rs == [] then []
    else Replies(m, rs[..|rs| - 1]) + [Reply(After(m, rs[..|rs| - 1]), rs[|rs| - 1])]
  }

  /** The i-th reply is the reply to the i-th request after the ones before it. */
  lemma {:induction false} ReplyAt(m: Machine, rs: seq<Request>, i: nat)
    requires i < |rs|
    ensures Replies(m, rs)[i] == Reply(After(m, rs[..i]), rs[i])
    decreases |rs|
  {
    var front := rs[..|rs| - 1];
    if i == |front| {
    } else {
      ReplyAt(m, front, i);
      assert front[..i] == rs[..i];
    }
  }

  // ---------------------------------------------------------------------------
  // Status and header of every reply.
  // ---------------------------------------------------------------------------

  /** No reply is incomplete; a generic error is exactly a blocking access to a register with a bad burst. */
  lemma ReplyStatus(m: Machine, r: Request)
    ensures Reply(m, r).status != IncompleteResponse
    ensures Reply(m, r).status == AddressErrorResponse <==> r.header.address !in [0, 4, 8, 12, 16, 20, 24, 28]
    ensures Reply(m, r).status == GenericErrorResponse <==>
              && r.header.address in [0, 4, 8, 12, 16, 20, 24, 28]
              && r.header.command != DebugRead && r.header.command != DebugWrite
              && (|r.data| == 0 || |r.data| % 4 != 0 || r.header.address + |r.data| > 28)
  {
  }

  /**
   The header of a reply is its request's, and it has as much data, which is as much as the header says: what
   depends on the data length alone, such as the size on the wire, is the same for both.
   */
  lemma SizesAgree(m: Machine, rs: seq<Request>)
    ensures forall i :: 0 <= i < |rs| ==>
              && Replies(m, rs)[i].header == rs[i].header
              && |Replies(m, rs)[i].data| == |rs[i].data| == Replies(m, rs)[i].header.dataLen
  {
    forall i | 0 <= i < |rs|
      ensures Replies(m, rs)[i].header == rs[i].header && |Replies(m, rs)[i].data| == |rs[i].data|
    {
      ReplyAt(m, rs, i);
    }
  }

  /** What dev_transport returns for a response: 0 when its status is OK, else -1. */
  function ClientResult(r: Response): int {
    if r.status != OkResponse then -1 else 0
  }

  // ---------------------------------------------------------------------------
  // Last-write history, stated on the request sequence alone.
  // ---------------------------------------------------------------------------

  /** The command that request i is carried out with: its own, or that of the last named one before it. */
  function Effective(initial: TlmCommand, rs: seq<Request>, i: nat): TlmCommand
    requires i < |rs|
  {
    match rs[i].header.command
    case Ignore => IgnoreCommand
    case Write => ReadCommand
    case DebugWrite => WriteCommand
    case Read => ReadCommand
    case DebugRead => ReadCommand
    case Unknown(_) => if i == 0 then initial else Effective(initial, rs, i - 1)
  }

  predicate Accepted(r: Request) {
    if r.header.command.IsDebug()
    then RegisterAddress(r.header.address)
    else Accepts(Plain(IgnoreCommand, r.header.address, |r.data|))
  }

  /** The client's call succeeds exactly when the device accepts the request. */
  lemma ClientSucceeds(m: Machine, r: Request)
    ensures ClientResult(Reply(m, r)) == 0 <==> Accepted(r)
  {
  }

  predicate Covers(r: Request, b: nat) {
    r.header.address <= b < r.header.address + |r.data|
  }

  /** Carried out with command c, request r stores into byte b. */
  predicate StoresWith(c: TlmCommand, r: Request, b: nat) {
    c == WriteCommand && Accepted(r) && Covers(r, b)
  }

  /** Request i stores into byte b. */
  predicate Stores(initial: TlmCommand, rs: seq<Request>, i: nat, b: nat)
    requires i < |rs|
  {
    StoresWith(Effective(initial, rs, i), rs[i], b)
  }

  lemma {:induction false} EffectivePrefix(initial: TlmCommand, rs: seq<Request>, n: nat, i: nat)
    requires i < n <= |rs|
    ensures Effective(initial, rs[..n], i) == Effective(initial, rs, i)
  {
    if i == 0 {
    } else {
      EffectivePrefix(initial, rs, n, i - 1);
    }
  }

  /** The command left in the payload is the effective command of the last request. */
  lemma {:induction false} CommandIsEffective(m: Machine, rs: seq<Request>)
    requires rs != []
    ensures After(m, rs).command == Effective(m.command, rs, |rs| - 1)
    decreases |rs|
  {
    var front := rs[..|rs| - 1];
    if front == [] {
    } else {
      CommandIsEffective(m, front);
      EffectivePrefix(m.command, rs, |front|, |front| - 1);
    }
  }

  /** i is the last request that stores into b. */
  predicate LastStore(initial: TlmCommand, rs: seq<Request>, i: nat, b: nat) {
    i < |rs| && Stores(initial, rs, i, b) && forall j :: i < j < |rs| ==> !Stores(initial, rs, j, b)
  }

  /** The command that the machine carries request i out with is its effective command. */
  lemma CommandBefore(m: Machine, rs: seq<Request>, i: nat)
    requires i < |rs|
    ensures TlmCommandOf(rs[i].header.command, After(m, rs[..i]).command) == Effective(m.command, rs, i)
  {
    var upTo := rs[..i + 1];
    assert upTo[..i] == rs[..i];
    CommandIsEffective(m, upTo);
    EffectivePrefix(m.command, rs, i + 1, i);
  }

  lemma NextByte(m: Machine, r: Request, b: nat)
    requires b < REGISTER_BYTES
    ensures Executed(m, r).regs[b] ==
            if StoresWith(TlmCommandOf(r.header.command, m.command), r, b) then r.data[b - r.header.address] else m.regs[b]
  {
  }

  /** The values of byte b over the run, and which requests store into it. */
  lemma ByteOverRun(m: Machine, rs: seq<Request>, b: nat, k: nat)
    requires b < REGISTER_BYTES && k < |rs|
    ensures After(m, rs[..k + 1]).regs[b] ==
            if Stores(m.command, rs, k, b) then rs[k].data[b - rs[k].header.address] else After(m, rs[..k]).regs[b]
  {
    var upTo := rs[..k + 1];
    assert upTo[..k] == rs[..k];
    NextByte(After(m, rs[..k]), rs[k], b);
    CommandBefore(m, rs, k);
  }

  lemma {:induction false} Constant(values: seq<byte>, i: nat, n: nat)
    requires i <= n < |values| && forall k :: i <= k < n ==> values[k] == values[k + 1]
    ensures values[n] == values[i]
    decreases n
  {
    if n == i {
    } else {
      Constant(values, i, n - 1);
      assert values[n - 1] == values[n - 1 + 1];
    }
  }

  function ByteAfter(m: Machine, rs: seq<Request>, b: nat, k: nat): byte
    requires b < REGISTER_BYTES && k <= |rs|
  {
    After(m, rs[..k]).regs[b]
  }

  /** Byte b is left alone by requests that do not store into it. */
  lemma HeldSince(m: Machine, rs: seq<Request>, b: nat, i: nat, n: nat)
    requires b < REGISTER_BYTES && i <= n <= |rs|
    requires forall j :: i <= j < n ==> !Stores(m.command, rs, j, b)
    ensures ByteAfter(m, rs, b, n) == ByteAfter(m, rs, b, i)
  {
    var values := seq(|rs| + 1, k requires 0 <= k <= |rs| => ByteAfter(m, rs, b, k));
    forall k | i <= k < n
      ensures values[k] == values[k + 1]
    {
      ByteOverRun(m, rs, b, k);
    }
    Constant(values, i, n);
  }

  lemma HeldSinceStore(m: Machine, rs: seq<Request>, b: nat, i: nat)
    requires b < REGISTER_BYTES && LastStore(m.command, rs, i, b)
    ensures After(m, rs[..|rs|]).regs[b] == rs[i].data[b - rs[i].header.address]
  {
    ByteOverRun(m, rs, b, i);
    HeldSince(m, rs, b, i + 1, |rs|);
  }

  /** If any request stores into b, one is the last to do so. */
  lemma {:induction false} SomeStoreIsLast(initial: TlmCommand, rs: seq<Request>, b: nat, n: nat) returns (i: nat)
    requires n < |rs| && Stores(initial, rs, n, b)
    ensures LastStore(initial, rs, i, b)
    decreases |rs| - n
  {
    if j :| n < j < |rs| && Stores(initial, rs, j, b) {
      i := SomeStoreIsLast(initial, rs, b, j);
    } else {
      i := n;
    }
  }

  /** Every register byte is the byte of the last accepted store that covers it, or its initial value. */
  lemma RegisterHistory(m: Machine, rs: seq<Request>, b: nat)
    requires b < REGISTER_BYTES
    ensures forall i: nat :: LastStore(m.command, rs, i, b) ==> After(m, rs).regs[b] == rs[i].data[b - rs[i].header.address]
    ensures (forall i :: 0 <= i < |rs| ==> !Stores(m.command, rs, i, b)) ==> After(m, rs).regs[b] == m.regs[b]
    ensures (exists i: nat :: LastStore(m.command, rs, i, b)) <==> exists i :: 0 <= i < |rs| && Stores(m.command, rs, i, b)
  {
    if n :| 0 <= n < |rs| && Stores(m.command, rs, n, b) {
      var i := SomeStoreIsLast(m.command, rs, b, n);
    }
    assert rs[..|rs|] == rs;
    forall i: nat | LastStore(m.command, rs, i, b)
      ensures After(m, rs).regs[b] == rs[i].data[b - rs[i].header.address]
    {
      HeldSinceStore(m, rs, b, i);
    }
    if forall i :: 0 <= i < |rs| ==> !Stores(m.command, rs, i, b) {
      HeldSince(m, rs, b, 0, |rs|);
    }
  }

  lemma ReadByte(m: Machine, r: Request, k: nat)
    requires k < |r.data|
    requires TlmCommandOf(r.header.command, m.command) == ReadCommand && Accepted(r)
    ensures r.header.address + k < REGISTER_BYTES
    ensures Reply(m, r).status == OkResponse && Reply(m, r).data[k] == m.regs[r.header.address + k]
  {
  }

  /** An accepted read returns, byte for byte, what the requests before it left in the registers. */
  lemma ReadReturnsHistory(m: Machine, rs: seq<Request>, i: nat, k: nat)
    requires i < |rs| && k < |rs[i].data|
    requires Effective(m.command, rs, i) == ReadCommand && Accepted(rs[i])
    ensures var before, b := rs[..i], rs[i].header.address + k;
            && b < REGISTER_BYTES
            && (forall j: nat :: LastStore(m.command, before, j, b) ==>
                  Replies(m, rs)[i].data[k] == before[j].data[b - before[j].header.address])
            && ((forall j :: 0 <= j < i ==> !Stores(m.command, before, j, b)) ==>
                  Replies(m, rs)[i].data[k] == m.regs[b])
  {
    var before := rs[..i];
    ReplyAt(m, rs, i);
    CommandBefore(m, rs, i);
    ReadByte(After(m, before), rs[i], k);
    RegisterHistory(m, before, rs[i].header.address + k);
  }

  /** Without a debug write nothing is ever stored: in particular TLMX_WRITE leaves the device as it was. */
  lemma {:induction false} OnlyDebugWritesStore(m: Machine, rs: seq<Request>)
    requires m.command != WriteCommand
    requires forall i :: 0 <= i < |rs| ==> !rs[i].header.command.DebugWrite?
    ensures After(m, rs).regs == m.regs && After(m, rs).command != WriteCommand
    decreases |rs|
  {
    if rs == [] {
    } else {
      OnlyDebugWritesStore(m, rs[..|rs| - 1]);
    }
  }
}
