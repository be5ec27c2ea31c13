/** What holds of the register file over whole transactions and splits of transactions. */
module DeviceLaws {
  import opened Tlmx
  import opened Device

  /** The registers start at these eight addresses: anything else is an address error, to both transports. */
  lemma WhereRegistersAre(regs: Registers, a: Access, data: seq<byte>, delay: nat)
    requires |data| == a.length
    ensures Burst(regs, a, data, delay).status == TlmAddressError <==> a.address !in [0, 4, 8, 12, 16, 20, 24, 28]
    ensures DebugInRange(a.address, a.length) <==>
            (a.address in [0, 4, 8, 12, 16, 20, 24, 28] ==> a.address + a.length <= 32)
    ensures DebugInRange(a.address, a.length) ==>
            Debug(regs, a, data).status == if a.address in [0, 4, 8, 12, 16, 20, 24, 28] then TlmOk else TlmAddressError
  {
  }

  /** A debug access moves its bytes as its command says, or, refused, changes nothing; it takes no time. */
  lemma DebugBounds(regs: Registers, a: Access, data: seq<byte>)
    requires |data| == a.length && DebugInRange(a.address, a.length)
    ensures var e := Debug(regs, a, data);
            && e.delay == 0
            && (e.status != TlmOk ==> e.regs == regs && e.data == data)
            && (e.status == TlmOk ==>
                  && a.address + a.length <= 32
                  && e.regs == (if a.command == WriteCommand
                                then regs[..a.address] + data + regs[a.address + a.length..] else regs)
                  && e.data == if a.command == ReadCommand then regs[a.address..a.address + a.length] else data)
  {
  }

  /** A burst of whole words inside the memory is refused exactly when it ends with the last register. */
  lemma LastRegisterIsOutOfReach(a: Access)
    requires a.address in [0, 4, 8, 12, 16, 20, 24, 28] && !a.byteEnables
    requires 0 < a.length <= a.streamingWidth && a.length % 4 == 0
    requires a.address + a.length <= 32
    ensures BurstStatus(a) == TlmBurstError <==> a.address + a.length == 32
    ensures BurstStatus(a) == TlmOk <==> a.address + a.length <= 28
  {
    assert (a.address + a.length) % BYTE_WIDTH == 0;
  }

  /** Status, bounds and frame of one blocking call. */
  lemma BurstBounds(regs: Registers, a: Access, data: seq<byte>, delay: nat)
    requires |data| == a.length
    ensures var e := Burst(regs, a, data, delay);
            && e.status != TlmIncomplete
            && (e.status == TlmBurstError <==>
                  && a.address in [0, 4, 8, 12, 16, 20, 24, 28] && !a.byteEnables
                  && !(0 < a.length <= a.streamingWidth && a.length % 4 == 0 && a.address + a.length <= 28))
            && (e.status != TlmOk ==> e == Effect(regs, data, delay, e.status))
            && (e.status == TlmOk <==>
                  && a.address in [0, 4, 8, 12, 16, 20, 24, 28] && !a.byteEnables
                  && 0 < a.length <= a.streamingWidth && a.length % 4 == 0 && a.address + a.length <= 28)
            && (e.status == TlmByteEnableError <==> a.address in [0, 4, 8, 12, 16, 20, 24, 28] && a.byteEnables)
            && (e.status == TlmOk ==>
                  && e.delay == delay + 10 * (a.length / 4)
                  && e.regs == (if a.command == WriteCommand
                                then regs[..a.address] + data + regs[a.address + a.length..] else regs)
                  && e.data == if a.command == ReadCommand then regs[a.address..a.address + a.length] else data)
            && (forall i :: 0 <= i < REGISTER_BYTES && e.regs[i] != regs[i] ==>
                  e.status == TlmOk && a.command == WriteCommand && a.address <= i < a.address + a.length)
            && (forall k :: 0 <= k < |data| && e.data[k] != data[k] ==> e.status == TlmOk && a.command == ReadCommand)
  {
  }

  /** Two adjacent transfers are accepted exactly when the one they make up is. */
  lemma SplitVerdict(command: TlmCommand, address: uint64, first: uint32, length: uint32)
    requires 0 < first < length && first % BYTE_WIDTH == 0 && length % BYTE_WIDTH == 0
    requires address + first < TWO_TO_THE_64
    ensures Accepts(Plain(command, address, length)) <==>
            Accepts(Plain(command, address, first)) && Accepts(Plain(command, address + first, length - first))
  {
    assert address % BYTE_WIDTH == 0 ==> (address + first) % BYTE_WIDTH == 0;
    assert (length - first) % BYTE_WIDTH == 0;
  }

  lemma SplitMove(regs: Registers, command: TlmCommand, address: uint64, first: uint32, data: seq<byte>, delay: nat, d1: nat)
    requires 0 < first < |data| && address + |data| <= BURST_LIMIT
    ensures var e1 := Moved(regs, Plain(command, address, first), data[..first], d1);
            var e2 := Moved(e1.regs, Plain(command, address + first, |data| - first), data[first..], delay);
            Moved(regs, Plain(command, address, |data|), data, delay) == Effect(e2.regs, e1.data + e2.data, delay, TlmOk)
  {
    match command
    case ReadCommand =>
      assert regs[address..address + |data|] == regs[address..address + first] + regs[address + first..address + |data|];
    case WriteCommand =>
      assert data == data[..first] + data[first..];
      assert Overwrite(regs, address, data) == Overwrite(Overwrite(regs, address, data[..first]), address + first, data[first..]);
    case IgnoreCommand =>
      assert data == data[..first] + data[first..];
  }

  /** Two adjacent transfers do what one does: same verdict, registers, data and total delay. */
  lemma SplitBurst(regs: Registers, command: TlmCommand, address: uint64, first: uint32, data: seq<byte>, delay: nat)
    requires 0 < first < |data| < 0x1_0000_0000
    requires first % BYTE_WIDTH == 0 && |data| % BYTE_WIDTH == 0
    requires address + first < TWO_TO_THE_64
    ensures var whole, left, right :=
              Plain(command, address, |data|), Plain(command, address, first), Plain(command, address + first, |data| - first);
            && (Accepts(whole) <==> Accepts(left) && Accepts(right))
            && (Accepts(whole) ==>
                  var e1 := Burst(regs, left, data[..first], delay);
                  var e2 := Burst(e1.regs, right, data[first..], e1.delay);
                  Burst(regs, whole, data, delay) == Effect(e2.regs, e1.data + e2.data, e2.delay, TlmOk))
  {
    SplitVerdict(command, address, first, |data|);
    if Accepts(Plain(command, address, |data|)) {
      assert |data| / BYTE_WIDTH == first / BYTE_WIDTH + (|data| - first) / BYTE_WIDTH;
      var total := delay + LATENCY * (|data| / BYTE_WIDTH);
      SplitMove(regs, command, address, first, data, total, delay + LATENCY * (first / BYTE_WIDTH));
    }
  }

  /** One single-word transaction after another, until the data runs out or a word is refused. */
  function WordByWord(regs: Registers, command: TlmCommand, address: uint64, data: seq<byte>, delay: nat): (e: Effect)
    requires 0 < |data| && |data| % BYTE_WIDTH == 0 && address + |data| < TWO_TO_THE_64
    ensures |e.data| == |data|
    decreases |data|
  {
    var e := Burst(regs, Plain(command, address, BYTE_WIDTH), data[..BYTE_WIDTH], delay);
    if |data| == BYTE_WIDTH then e
    else if e.status != TlmOk then e.(data := e.data + data[BYTE_WIDTH..])
    else
      var rest := WordByWord(e.regs, command, address + BYTE_WIDTH, data[BYTE_WIDTH..], e.delay);
      rest.(data := e.data + rest.data)
  }

  /** A burst of any length is accepted exactly when every one of its words is, and then does the same. */
  lemma {:induction false} BurstIsWordByWord(regs: Registers, command: TlmCommand, address: uint64, data: seq<byte>, delay: nat)
    requires 0 < |data| < 0x1_0000_0000 && |data| % BYTE_WIDTH == 0 && address + |data| < TWO_TO_THE_64
    ensures var a := Plain(command, address, |data|);
            && (Accepts(a) <==> WordByWord(regs, command, address, data, delay).status == TlmOk)
            && (Accepts(a) ==> Burst(regs, a, data, delay) == WordByWord(regs, command, address, data, delay))
    decreases |data|
  {
    if |data| == BYTE_WIDTH {
      assert data[..BYTE_WIDTH] == data;
    } else {
      SplitBurst(regs, command, address, BYTE_WIDTH, data, delay);
      var e := Burst(regs, Plain(command, address, BYTE_WIDTH), data[..BYTE_WIDTH], delay);
      BurstIsWordByWord(e.regs, command, address + BYTE_WIDTH, data[BYTE_WIDTH..], e.delay);
    }
  }
}
