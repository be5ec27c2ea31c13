/**
 The whole bridge as one step function: the OS thread's loop, the initiator and keep-alive processes,
 the SystemC kernel that runs them, the channel between the two threads, the packets they share by
 pointer, and the register file.
 */
module Bridge {
  import opened Tlmx
  import opened Device
  import opened Machine
  import opened Channel
  import opened ChannelSteps

  const ONE_SECOND: nat := 1_000_000_000   // in nanoseconds

  /** The OS thread's loop; while it is inside the channel, the channel's own counter says where. */
  datatype Loop =
    | AtRead     // about to read the next request
    | Pushing    // in push, or back from it
    | Waiting    // in wait_for_put, or back from it
    | Pulling    // in nb_pull, or back from it
    | Exited     // left the loop on an exit command
    | Fatal      // "Missing response"

  datatype InitiatorPc =
    | WaitPut                // wait(sysc_put_event()), or about to return from it
    | Getting                // in nb_get, or back from it
    | Transacted             // back from transport_dbg
    | Delaying(wake: nat)    // wait(delay) with a positive delay, or about to return from it
    | ZeroDelaying           // wait(delay) with no delay
    | Putting                // in nb_put, or back from it

  datatype KeepAlivePc =
    | ZeroWait               // wait(SC_ZERO_TIME)
    | ChangeWait             // wait(m_keep_alive_signal.default_event())
    | SecondWait(wake: nat)  // wait(1,SC_SEC) after a stop request
    | Over                   // sc_stop called

  /** The phases of the scheduler. In Running the initiator has the processor. */
  datatype Kernel = Evaluate | Running | Update | DeltaNotify | Advance | Ended

  /** A packet in memory. All packets point to the one data buffer of the OS thread. */
  datatype Packet = Packet(header: LegalHeader, status: Status)

  datatype Memory = Memory(packets: seq<Packet>, buffer: seq<byte>)

  /** The OS thread, with the requests it has read and the responses it has sent. */
  datatype OsThread = OsThread(loop: Loop, requests: seq<Request>, replies: seq<Response>)

  /** The initiator process: runnable or not, the packet it has, and its reused payload. */
  datatype Initiator = Initiator(
    pc: InitiatorPc,
    runnable: bool,
    cur: Ptr,
    command: TlmCommand,
    status: TlmStatus,
    wakes: nat,       // put events that found it waiting
    lostWakes: nat)   // put events that did not

  /** The keep-alive process and m_keep_alive_signal. */
  datatype KeepAlive = KeepAlive(
    pc: KeepAlivePc,
    runnable: bool,
    signal: bool,
    next: bool,
    requested: bool,  // the signal's update is due
    changed: bool)    // its change event is pending

  datatype State = State(
    ch: Sys,
    os: OsThread,
    mem: Memory,
    regs: Registers,
    ini: Initiator,
    ka: KeepAlive,
    kernel: Kernel,
    now: nat,
    stopRequested: bool,
    stopCalled: bool)

  /** The first evaluation phase is over: the initiator is at its first wait, the signal is high. */
  function Initial(m: Machine): State {
    State(
      Start(),
      OsThread(AtRead, [], []),
      Memory([], []),
      m.regs,
      Initiator(WaitPut, false, 0, m.command, TlmIncomplete, 0, 0),
      KeepAlive(ZeroWait, false, true, true, false, false),
      Evaluate, m.time, false, false)
  }

  // ---------------------------------------------------------------------------
  // Memory.
  // ---------------------------------------------------------------------------

  function PacketAt(mem: Memory, p: Ptr): Packet {
    if p < |mem.packets| then mem.packets[p] else Packet(Header(Ignore, 0, 0), IncompleteResponse)
  }

  /** The first n bytes of the buffer; what lies beyond the bytes filled in was cleared. */
  function Window(buffer: seq<byte>, n: nat): (r: seq<byte>)
    ensures |r| == n
    ensures n == |buffer| ==> r == buffer
  {
    if n <= |buffer| then buffer[..n] else buffer + seq(n - |buffer|, i => 0)
  }

  function Beyond(buffer: seq<byte>, n: nat): seq<byte> {
    if n <= |buffer| then buffer[n..] else []
  }

  // ---------------------------------------------------------------------------
  // The OS thread.
  // ---------------------------------------------------------------------------

  /** A request arrives: clear and fill the buffer, make a packet, call push. */
  function OsRead(s: State, r: Request): Option<State> {
    if s.os.loop.AtRead?
    then Some(s.(os := s.os.(loop := Pushing, requests := s.os.requests + [r]),
                 mem := Memory(s.mem.packets + [Packet(r.header, IncompleteResponse)], r.data),
                 ch := s.ch.(os := PushLock(|s.mem.packets|))))
    else None
  }

  function OsQuit(s: State): Option<State> {
    if s.os.loop.AtRead? then Some(s.(os := s.os.(loop := Exited))) else None
  }

  /** What is packed and sent: everything is read from memory now, through the pulled pointer. */
  function Packed(mem: Memory, p: Ptr): Response {
    var k := PacketAt(mem, p);
    Response(k.header, k.status, Window(mem.buffer, k.header.dataLen))
  }

  /** The step between two channel operations, or after the last. */
  function OsBetween(s: State): Option<State> {
    match s.os.loop
    case Pushing => Some(s.(os := s.os.(loop := Waiting), ch := s.ch.(os := WaitPutLock)))
    case Waiting => Some(s.(os := s.os.(loop := Pulling), ch := s.ch.(os := PullLock)))
    case Pulling =>
      (match s.ch.osResult
       case None => Some(s.(os := s.os.(loop := Fatal)))
       case Some(p) => Some(s.(os := s.os.(loop := AtRead, replies := s.os.replies + [Packed(s.mem, p)]))))
    case _ => None
  }

  function OsInside(s: State): Option<State> {
    match OsStep(s.ch)
    case None => None
    case Some(t) => Some(s.(ch := t))
  }

  function OsGo(s: State): Option<State> {
    if s.ch.os.OsIdle? then OsBetween(s) else OsInside(s)
  }

  // ---------------------------------------------------------------------------
  // The initiator process.
  // ---------------------------------------------------------------------------

  /** sc_signal::write: an update is requested when the value differs from the current one. */
  function WriteSignal(ka: KeepAlive, value: bool): KeepAlive {
    ka.(next := value, requested := ka.requested || value != ka.signal)
  }

  /** With the packet at p: fill in the payload, call the transport, and wait for the delay. */
  function TransactAt(s: State, p: Ptr): State {
    var h := PacketAt(s.mem, p).header;
    var o := Transact(s.regs, s.ini.command, h, Window(s.mem.buffer, h.dataLen));
    var pc := if h.command.IsDebug() then Transacted else if o.delay == 0 then ZeroDelaying else Delaying(s.now + o.delay);
    s.(regs := o.regs,
       mem := s.mem.(buffer := o.data + Beyond(s.mem.buffer, h.dataLen)),
       ini := s.ini.(pc := pc, cur := p, command := o.command, status := o.status),
       kernel := if h.command.IsDebug() then Running else Evaluate)
  }

  /** nb_get failed: the loop goes on with the empty packet it made for itself. */
  function WithOwnPacket(s: State): State {
    s.(mem := s.mem.(packets := s.mem.packets + [Packet(Header(Ignore, 0, 0), IncompleteResponse)]))
  }

  function Transport(s: State): State {
    match s.ch.scResult
    case Some(p) => TransactAt(s, p)
    case None => TransactAt(WithOwnPacket(s), |s.mem.packets|)
  }

  function Marked(mem: Memory, p: Ptr, status: Status): Memory {
    if p < |mem.packets| then mem.(packets := mem.packets[p := mem.packets[p].(status := status)]) else mem
  }

  /** Set the status of the packet and call nb_put. */
  function SetStatus(s: State): State {
    s.(mem := Marked(s.mem, s.ini.cur, StatusOf(s.ini.status)),
       ini := s.ini.(pc := Putting),
       ch := s.ch.(sc := PutLock(s.ini.cur)))
  }

  function ScInside(s: State): Option<State> {
    match ScStep(s.ch)
    case None => None
    case Some(t) => Some(s.(ch := t))
  }

  function InitiatorGo(s: State): Option<State> {
    match s.ini.pc
    case WaitPut =>
      Some(s.(ka := WriteSignal(s.ka, false), ini := s.ini.(pc := Getting), ch := s.ch.(sc := GetLock)))
    case Getting => if s.ch.sc.ScIdle? then Some(Transport(s)) else ScInside(s)
    case Putting =>
      if s.ch.sc.ScIdle?
      then Some(s.(ka := WriteSignal(s.ka, true), ini := s.ini.(pc := WaitPut), kernel := Evaluate))
      else ScInside(s)
    case _ => Some(SetStatus(s))
  }

  // ---------------------------------------------------------------------------
  // The keep-alive process, from one wait to the next.
  // ---------------------------------------------------------------------------

  function KeepAliveNext(ka: KeepAlive, stopRequested: bool, now: nat): KeepAlivePc {
    match ka.pc
    case ZeroWait => if stopRequested then SecondWait(now + ONE_SECOND) else if ka.signal then ZeroWait else ChangeWait
    case ChangeWait => ZeroWait
    case SecondWait(_) => Over
    case Over => Over
  }

  function KeepAliveGo(s: State): State {
    s.(ka := s.ka.(pc := KeepAliveNext(s.ka, s.stopRequested, s.now), runnable := false),
       stopCalled := s.stopCalled || s.ka.pc.SecondWait?)
  }

  // ---------------------------------------------------------------------------
  // The kernel.
  // ---------------------------------------------------------------------------

  /** sc_signal::update, when it is due. */
  function UpdateSignal(ka: KeepAlive): KeepAlive {
    if ka.requested
    then ka.(signal := ka.next, requested := false, changed := ka.changed || ka.next != ka.signal)
    else ka
  }

  /** An asynchronous request is accepted by calling the channel's update. */
  function AcceptRequest(ch: Sys): Sys {
    if ch.f.updateRequested then ch.(f := ch.f.(updateRequested := false), sc := UpPushLock) else ch
  }

  function BeginUpdate(s: State): State {
    s.(ka := UpdateSignal(s.ka), ch := AcceptRequest(s.ch), kernel := Update)
  }

  datatype Pick = PickInitiator | PickKeepAlive | PickNone

  /** Run one of the runnable processes, or, when there is none, start the update phase. */
  function EvaluateGo(s: State, pick: Pick): Option<State> {
    match pick
    case PickInitiator => if s.ini.runnable then Some(s.(ini := s.ini.(runnable := false), kernel := Running)) else None
    case PickKeepAlive => if s.ka.runnable then Some(KeepAliveGo(s)) else None
    case PickNone => if !s.ini.runnable && !s.ka.runnable then Some(BeginUpdate(s)) else None
  }

  predicate WakesInitiator(s: State) {
    (s.ini.pc.WaitPut? && s.ch.f.putEvent) || s.ini.pc.ZeroDelaying?
  }

  predicate WakesKeepAlive(s: State) {
    (s.ka.pc.ChangeWait? && s.ka.changed) || s.ka.pc.ZeroWait?
  }

  /** Pending events make the processes that wait for them runnable; after sc_stop the delta cycle ends here. */
  function Notify(s: State): State {
    if s.stopCalled then s.(kernel := Ended)
    else
      s.(ini := s.ini.(runnable := WakesInitiator(s),
                       wakes := s.ini.wakes + (if s.ch.f.putEvent && s.ini.pc.WaitPut? then 1 else 0),
                       lostWakes := s.ini.lostWakes + (if s.ch.f.putEvent && !s.ini.pc.WaitPut? then 1 else 0)),
         ka := s.ka.(runnable := WakesKeepAlive(s), changed := false),
         ch := s.ch.(f := s.ch.f.(putEvent := false, getEvent := false)),
         kernel := if WakesInitiator(s) || WakesKeepAlive(s) then Evaluate else Advance)
  }

  /** The earliest timed wake-up. */
  function WakeTime(s: State): Option<nat> {
    match (s.ini.pc, s.ka.pc)
    case (Delaying(a), SecondWait(b)) => Some(if a <= b then a else b)
    case (Delaying(a), _) => Some(a)
    case (_, SecondWait(b)) => Some(b)
    case _ => None
  }

  /** Time moves to the earliest timed wake-up; when there is none, the simulation is over. */
  function AdvanceTime(s: State): State {
    match WakeTime(s)
    case None => s.(kernel := Ended)
    case Some(w) =>
      s.(now := w,
         ini := s.ini.(runnable := s.ini.pc == Delaying(w)),
         ka := s.ka.(runnable := s.ka.pc == SecondWait(w)),
         kernel := Evaluate)
  }

  function ScGo(s: State, pick: Pick): Option<State> {
    match s.kernel
    case Evaluate => EvaluateGo(s, pick)
    case Running => InitiatorGo(s)
    case Update => if s.ch.sc.ScIdle? then Some(s.(kernel := DeltaNotify)) else ScInside(s)
    case DeltaNotify => Some(Notify(s))
    case Advance => Some(AdvanceTime(s))
    case Ended => None
  }

  // ---------------------------------------------------------------------------
  // All steps, and runs.
  // ---------------------------------------------------------------------------

  datatype Act =
    | Arrive(r: Request)   // the client's next request reaches the OS thread
    | ArriveExit
    | OsActs
    | ScActs(pick: Pick)
    | Signal               // SIGINT

  function Next(s: State, a: Act): Option<State> {
    match a
    case Arrive(r) => OsRead(s, r)
    case ArriveExit => OsQuit(s)
    case OsActs => OsGo(s)
    case ScActs(pick) => ScGo(s, pick)
    case Signal => Some(s.(stopRequested := true))
  }

  function Play(s: State, acts: seq<Act>): Option<State>
    decreases |acts|
  {
    if acts == [] then Some(s)
    else
      match Next(s, acts[0])
      case None => None
      case Some(t) => Play(t, acts[1..])
  }

  /** Some interleaving leads from s to t. */
  ghost predicate Leads(s: State, t: State) {
    exists acts :: Play(s, acts) == Some(t)
  }

  /** t can come up in some run of the bridge in front of machine m. */
  ghost predicate Reachable(m: Machine, t: State) {
    Leads(Initial(m), t)
  }

  // ---------------------------------------------------------------------------
  // Putting runs together.
  // ---------------------------------------------------------------------------

  lemma PlayCons(s: State, a: Act, acts: seq<Act>)
    requires Next(s, a).Some?
    ensures Play(s, [a] + acts) == Play(Next(s, a).value, acts)
  {
    assert ([a] + acts)[1..] == acts;
  }

  lemma {:induction false} PlayAppend(s: State, left: seq<Act>, right: seq<Act>)
    requires Play(s, left).Some?
    ensures Play(s, left + right) == Play(Play(s, left).value, right)
    decreases |left|
  {
    if left == [] {
      assert left + right == right;
    } else {
      assert (left + right)[1..] == left[1..] + right;
      PlayAppend(Next(s, left[0]).value, left[1..], right);
    }
  }

  lemma LeadsOn(s: State, t: State, u: State)
    requires Leads(s, t) && Leads(t, u)
    ensures Leads(s, u)
  {
    var left :| Play(s, left) == Some(t);
    var right :| Play(t, right) == Some(u);
    PlayAppend(s, left, right);
  }

  lemma OneStep(s: State, a: Act)
    requires Next(s, a).Some?
    ensures Leads(s, Next(s, a).value)
  {
    assert Play(s, [a]) == Some(Next(s, a).value);
  }
}
