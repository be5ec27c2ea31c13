/** What each command does, request by request, in plain numbers: 8 registers of 4 bytes, 10 ns for a word. */
module RequestLaws {
  import opened Tlmx
  import opened Device
  import opened DeviceLaws
  import opened Machine

  /** Every request can be made, except a debug access that starts at a register and runs past the last. */
  lemma WhatCanBeAsked(h: Header)
    ensures IsLegal(h) <==>
            match h.command
            case Exit => false
            case DebugWrite => h.address in [0, 4, 8, 12, 16, 20, 24, 28] ==> h.address + h.dataLen <= 32
            case DebugRead => h.address in [0, 4, 8, 12, 16, 20, 24, 28] ==> h.address + h.dataLen <= 32
            case _ => true
  {
  }

  /** A debug read takes no time and reads whatever register it names, the last one included. */
  lemma DebugReads(m: Machine, r: Request)
    requires r.header.command == DebugRead
    ensures var a, n := r.header.address, |r.data|;
            if a in [0, 4, 8, 12, 16, 20, 24, 28]
            then a + n <= 32 && Reply(m, r) == Response(r.header, OkResponse, m.regs[a..a + n])
            else Reply(m, r) == Response(r.header, AddressErrorResponse, r.data)
    ensures Executed(m, r) == Machine(m.regs, m.time, ReadCommand)
  {
    DebugBounds(m.regs, Plain(ReadCommand, r.header.address, r.header.dataLen), r.data);
  }

  /** A debug write takes no time, stores exactly its bytes, and has them sent back. */
  lemma DebugWrites(m: Machine, r: Request)
    requires r.header.command == DebugWrite
    ensures var a, n := r.header.address, |r.data|;
            if a in [0, 4, 8, 12, 16, 20, 24, 28]
            then
              && a + n <= 32 && Reply(m, r) == Response(r.header, OkResponse, r.data)
              && Executed(m, r) == Machine(m.regs[..a] + r.data + m.regs[a + n..], m.time, WriteCommand)
            else
              && Reply(m, r) == Response(r.header, AddressErrorResponse, r.data)
              && Executed(m, r) == Machine(m.regs, m.time, WriteCommand)
  {
    DebugBounds(m.regs, Plain(WriteCommand, r.header.address, r.header.dataLen), r.data);
  }

  /** A read, and a write just the same, is a blocking burst that reads, and takes 10 ns for each word. */
  lemma Reads(m: Machine, r: Request)
    requires r.header.command == Read || r.header.command == Write
    ensures var a, n := r.header.address, |r.data|;
            if a !in [0, 4, 8, 12, 16, 20, 24, 28] then
              && Reply(m, r) == Response(r.header, AddressErrorResponse, r.data)
              && Executed(m, r) == Machine(m.regs, m.time, ReadCommand)
            else if n == 0 || n % 4 != 0 || a + n > 28 then
              && Reply(m, r) == Response(r.header, GenericErrorResponse, r.data)
              && Executed(m, r) == Machine(m.regs, m.time, ReadCommand)
            else
              && Reply(m, r) == Response(r.header, OkResponse, m.regs[a..a + n])
              && Executed(m, r) == Machine(m.regs, m.time + 10 * (n / 4), ReadCommand)
  {
    BurstBounds(m.regs, Plain(ReadCommand, r.header.address, r.header.dataLen), r.data, 0);
  }

  /** An ignored request is a blocking burst that moves nothing, and takes as long. */
  lemma Ignores(m: Machine, r: Request)
    requires r.header.command == Ignore
    ensures var a, n := r.header.address, |r.data|;
            if a !in [0, 4, 8, 12, 16, 20, 24, 28] then
              && Reply(m, r) == Response(r.header, AddressErrorResponse, r.data)
              && Executed(m, r) == Machine(m.regs, m.time, IgnoreCommand)
            else if n == 0 || n % 4 != 0 || a + n > 28 then
              && Reply(m, r) == Response(r.header, GenericErrorResponse, r.data)
              && Executed(m, r) == Machine(m.regs, m.time, IgnoreCommand)
            else
              && Reply(m, r) == Response(r.header, OkResponse, r.data)
              && Executed(m, r) == Machine(m.regs, m.time + 10 * (n / 4), IgnoreCommand)
  {
    BurstBounds(m.regs, Plain(IgnoreCommand, r.header.address, r.header.dataLen), r.data, 0);
  }

  /** A request with an unknown code repeats what a known one left behind: a read. */
  lemma RepeatsRead(m: Machine, r: Request)
    requires r.header.command.Unknown? && m.command == ReadCommand
    ensures var a, n := r.header.address, |r.data|;
            if a !in [0, 4, 8, 12, 16, 20, 24, 28] then
              Reply(m, r) == Response(r.header, AddressErrorResponse, r.data) && Executed(m, r) == m
            else if n == 0 || n % 4 != 0 || a + n > 28 then
              Reply(m, r) == Response(r.header, GenericErrorResponse, r.data) && Executed(m, r) == m
            else
              && Reply(m, r) == Response(r.header, OkResponse, m.regs[a..a + n])
              && Executed(m, r) == m.(time := m.time + 10 * (n / 4))
  {
    BurstBounds(m.regs, Plain(ReadCommand, r.header.address, r.header.dataLen), r.data, 0);
  }

  /** A store, though by a blocking burst. */
  lemma RepeatsWrite(m: Machine, r: Request)
    requires r.header.command.Unknown? && m.command == WriteCommand
    ensures var a, n := r.header.address, |r.data|;
            if a !in [0, 4, 8, 12, 16, 20, 24, 28] then
              Reply(m, r) == Response(r.header, AddressErrorResponse, r.data) && Executed(m, r) == m
            else if n == 0 || n % 4 != 0 || a + n > 28 then
              Reply(m, r) == Response(r.header, GenericErrorResponse, r.data) && Executed(m, r) == m
            else
              && Reply(m, r) == Response(r.header, OkResponse, r.data)
              && Executed(m, r) ==
                 m.(regs := m.regs[..a] + r.data + m.regs[a + n..], time := m.time + 10 * (n / 4))
  {
    BurstBounds(m.regs, Plain(WriteCommand, r.header.address, r.header.dataLen), r.data, 0);
  }

  /** Or nothing but the time. */
  lemma RepeatsIgnore(m: Machine, r: Request)
    requires r.header.command.Unknown? && m.command == IgnoreCommand
    ensures var a, n := r.header.address, |r.data|;
            if a !in [0, 4, 8, 12, 16, 20, 24, 28] then
              Reply(m, r) == Response(r.header, AddressErrorResponse, r.data) && Executed(m, r) == m
            else if n == 0 || n % 4 != 0 || a + n > 28 then
              Reply(m, r) == Response(r.header, GenericErrorResponse, r.data) && Executed(m, r) == m
            else
              && Reply(m, r) == Response(r.header, OkResponse, r.data)
              && Executed(m, r) == m.(time := m.time + 10 * (n / 4))
  {
    BurstBounds(m.regs, Plain(IgnoreCommand, r.header.address, r.header.dataLen), r.data, 0);
  }

  /** The client sees 0 for an OK response and -1 for every other. */
  lemma ClientSees(r: Response)
    ensures ClientResult(r) == match r.status case OkResponse => 0 case _ => -1
  {
  }

  /** The status of the transaction as the packet has it; what the packet has no word for is a generic error. */
  lemma StatusMap(s: TlmStatus)
    ensures StatusOf(s) == OkResponse <==> s == TlmOk
    ensures StatusOf(s) == AddressErrorResponse <==> s == TlmAddressError
    ensures StatusOf(s) == IncompleteResponse <==> s == TlmIncomplete
  {
  }

  // ---------------------------------------------------------------------------
  // A store is read back.
  // ---------------------------------------------------------------------------

  /** No request among these stores into a byte at or after a and before a + n. */
  predicate LeaveAlone(m: Machine, rs: seq<Request>, a: nat, n: nat) {
    forall i, b :: 0 <= i < |rs| && a <= b < a + n ==> !Stores(m.command, rs, i, b)
  }

  lemma BytesStay(m: Machine, rs: seq<Request>, a: nat, n: nat)
    requires a + n <= REGISTER_BYTES && LeaveAlone(m, rs, a, n)
    ensures After(m, rs).regs[a..a + n] == m.regs[a..a + n]
  {
    forall b | a <= b < a + n
      ensures After(m, rs).regs[b] == m.regs[b]
    {
      forall i | 0 <= i < |rs|
        ensures !Stores(m.command, rs, i, b)
      {
      }
      RegisterHistory(m, rs, b);
    }
  }

  /**
   What a debug write stored is what a debug read of the same bytes returns, however many requests come in
   between, as long as none of them stores there.
   */
  lemma WriteThenRead(m: Machine, w: Request, between: seq<Request>, r: Request)
    requires w.header.command == DebugWrite && r.header.command == DebugRead
    requires w.header.address in [0, 4, 8, 12, 16, 20, 24, 28]
    requires r.header.address == w.header.address && |r.data| == |w.data|
    requires LeaveAlone(Executed(m, w), between, w.header.address, |w.data|)
    ensures Reply(After(Executed(m, w), between), r) == Response(r.header, OkResponse, w.data)
  {
    var a, n := w.header.address, |w.data|;
    var s := Executed(m, w);
    DebugWrites(m, w);
    assert s.regs[a..a + n] == w.data;
    BytesStay(s, between, a, n);
    DebugReads(After(s, between), r);
  }
}
