/** The body of the initiator's loop on objects, one request from nb_get to nb_put. */
module Adaptor {
  import opened Tlmx
  import opened Device
  import opened Machine
  import opened Channel
  import opened Bridge

  class TlmxPacket {
    var header: LegalHeader
    var status: Status
    const data: array<byte>

    constructor (h: LegalHeader, buffer: array<byte>)
      ensures header == h && data == buffer
    {
      header, status, data := h, IncompleteResponse, buffer;
    }
  }

  class AsyncAdaptor {
    const channel: TlmxChannel
    const device: DevModule
    const trans: GenericPayload
    const ownData: array<byte>
    /** Every packet made so far; a pointer in a queue is a place in this table. */
    var packets: seq<TlmxPacket>
    var keepAlive: KeepAlive

    constructor (power: Registers)
      ensures Valid() && fresh(channel) && fresh(device.register) && fresh(trans) && fresh(ownData)
      ensures packets == [] && device.register[..] == power && trans.command == IgnoreCommand
      ensures channel.View() == Constructed() && keepAlive == KeepAlive(ZeroWait, false, true, true, false, false)
    {
      channel := new TlmxChannel();
      device := new DevModule(power);
      var buffer := new byte[0];
      ownData := buffer;
      trans := new GenericPayload(buffer);
      packets := [];
      keepAlive := KeepAlive(ZeroWait, false, true, true, false, false);
      new;
    }

    /** No operation is under way on the channel, and what is queued is a packet with room for its data. */
    ghost predicate Valid()
      reads this, channel, device, packets
    {
      && device.register.Length == REGISTER_BYTES
      && ownData != device.register
      && channel.mutexToSysc == Free && channel.mutexFmSysc == Free
      && channel.mutexWaitGet == BySysc && channel.mutexWaitPut == BySysc
      && (forall p :: p in channel.queueToSysc ==> p < |packets|)
      && (forall p :: 0 <= p < |packets| ==>
            packets[p].data != device.register && packets[p].header.dataLen <= packets[p].data.Length)
    }

    /** What packet p says now: its header and the bytes it stands for. */
    function Said(p: Ptr): (r: Request)
      requires p < |packets| && packets[p].header.dataLen <= packets[p].data.Length
      reads this, packets, packets[p].data
    {
      RawRequest(packets[p].header, packets[p].data[..packets[p].header.dataLen])
    }

    /** The machine that the device and the payload's command make up, at time t. */
    function MachineNow(t: nat): Machine
      requires device.register.Length == REGISTER_BYTES
      reads this, device, device.register, trans
    {
      Machine(device.register[..], t, trans.command)
    }

    /** The switch over the packet's command. */
    method SetCommand(c: Command)
      modifies trans`command
      ensures trans.command == TlmCommandOf(c, old(trans.command))
    {
      match c {
        case Ignore => trans.command := IgnoreCommand;
        case Write => trans.command := ReadCommand;
        case DebugWrite => trans.command := WriteCommand;
        case Read => trans.command := ReadCommand;
        case DebugRead => trans.command := ReadCommand;
        case _ =>
      }
    }

    /** Fill in the payload from the packet, call the transport that fits its command, set the packet's status. */
    method Transfer(packet: TlmxPacket) returns (delay: nat)
      requires device.register.Length == REGISTER_BYTES
      requires packet.data != device.register && packet.header.dataLen <= packet.data.Length
      modifies trans, device.register, packet`status, packet.data
      ensures var h := packet.header;
              var o := Transact(old(device.register[..]), old(trans.command), h, old(packet.data[..h.dataLen]));
              && device.register[..] == o.regs
              && trans.command == o.command
              && packet.data[..] == o.data + old(packet.data[h.dataLen..])
              && packet.status == StatusOf(o.status)
              && delay == o.delay
    {
      trans.address := packet.header.address;
      trans.data := packet.data;
      trans.dataLength := packet.header.dataLen;
      trans.streamingWidth := packet.header.dataLen;
      trans.byteEnables := false;
      trans.status := TlmIncomplete;
      SetCommand(packet.header.command);
      delay := 0;
      if packet.header.command.IsDebug() {
        var transferred := device.TransportDbg(trans);
      } else {
        delay := device.BTransport(trans, 0);
      }
      match trans.status {
        case TlmOk => packet.status := OkResponse;
        case TlmAddressError => packet.status := AddressErrorResponse;
        case TlmIncomplete => packet.status := IncompleteResponse;
        case _ => packet.status := GenericErrorResponse;
      }
    }

    /** nb_get; when it fails, the empty packet that the loop made for itself. */
    method Obtain() returns (p: Ptr)
      requires Valid()
      modifies this`packets, channel
      ensures Valid() && p < |packets| && channel.View() == Got(old(channel.View()))
      ensures old(channel.queueToSysc) != [] ==> p == Last(old(channel.queueToSysc)) && packets == old(packets)
      ensures old(channel.queueToSysc) == [] ==>
              && p == |old(packets)| && packets == old(packets) + [packets[p]] && fresh(packets[p])
              && packets[p].header == Header(Ignore, 0, 0) && packets[p].data == ownData
    {
      var taken := channel.NbGet();
      if taken.Some? {
        p := taken.value;
        assert forall k :: k in channel.queueToSysc ==> k in old(channel.queueToSysc);
        assert p in old(channel.queueToSysc);
      } else {
        p := |packets|;
        var own := new TlmxPacket(Header(Ignore, 0, 0), ownData);
        packets := packets + [own];
      }
    }

    /**
     From the put event back to the wait for the next. elapsed is the time spent in wait(delay).
     The oldest packet is carried out as the sequential machine does, and goes into the other queue.
     With nothing to get, an empty packet of the initiator's own is refused and put instead.
     */
    method ServeOne() returns (elapsed: nat)
      requires Valid()
      modifies this, channel, trans, device.register, ownData, packets, set k | k in packets :: k.data
      ensures Valid()
      ensures old(channel.queueToSysc) != [] ==>
              var p := Last(old(channel.queueToSysc));
              && p < |old(packets)| && packets == old(packets)
              && MachineNow(elapsed) == Executed(old(MachineNow(0)), old(Said(p)))
              && packets[p].header == old(packets[p].header)
              && Response(packets[p].header, packets[p].status, packets[p].data[..packets[p].header.dataLen])
                 == Reply(old(MachineNow(0)), old(Said(p)))
              && channel.View() == Put(Got(old(channel.View())), p)
      ensures old(channel.queueToSysc) == [] ==>
              && |packets| == |old(packets)| + 1 && packets[..|old(packets)|] == old(packets)
              && packets[|old(packets)|].status == GenericErrorResponse
              && device.register[..] == old(device.register[..]) && elapsed == 0
              && channel.View() == Put(old(channel.View()), |old(packets)|)
      ensures keepAlive == WriteSignal(WriteSignal(old(keepAlive), false), true)
    {
      assert forall k :: k in channel.queueToSysc ==> k < |packets|;
      keepAlive := WriteSignal(keepAlive, false);
      var p := Obtain();
      elapsed := Transfer(packets[p]);
      channel.NbPut(p);
      keepAlive := WriteSignal(keepAlive, true);
    }
  }
}
