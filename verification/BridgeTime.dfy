/** The keep-alive process keeps the simulator going, and simulated time is the sum of the bursts' delays. */
module BridgeTime {
  import opened Tlmx
  import opened Machine
  import opened Bridge
  import opened BridgeSafety
  import opened BridgeRefinement

  // ---------------------------------------------------------------------------
  // The simulator never starves.
  // ---------------------------------------------------------------------------

  /** The signal is meant to be high exactly while the initiator waits for a packet. */
  predicate SignalMeans(s: State) {
    && s.ka.next == s.ini.pc.WaitPut?
    && (s.ka.next != s.ka.signal ==> s.ka.requested)
    && (s.ka.requested ==> s.kernel.Evaluate? || s.kernel.Running?)
    && (s.ka.changed ==> s.kernel.Update? || s.kernel.DeltaNotify? || s.kernel.Ended?)
  }

  /** Blocked on the signal, the keep-alive process has a low signal or a change event to come. */
  predicate Alive(s: State) {
    && SignalMeans(s)
    && (s.ka.runnable ==> s.kernel.Evaluate? || s.kernel.Running?)
    && (s.ka.pc.ChangeWait? && !s.ka.runnable ==> !s.ka.signal || s.ka.changed)
    && (s.kernel.Advance? ==> !s.ka.pc.ZeroWait? && !s.ini.pc.ZeroDelaying? && !s.stopCalled)
    && (s.kernel.Ended? ==> s.stopCalled)
    && (s.stopCalled <==> s.ka.pc.Over?)
    && (s.ka.pc.SecondWait? || s.ka.pc.Over? ==> s.stopRequested)
  }

  /** In the time-advance phase there is always a time to advance to. */
  lemma AlwaysAWakeTime(s: State)
    requires KernelShape(s) && Alive(s) && s.kernel.Advance?
    ensures WakeTime(s).Some?
    ensures !s.stopRequested ==> s.ini.pc.Delaying? && WakeTime(s) == Some(s.ini.pc.wake)
  {
  }

  lemma InitiatorKeepsAlive(s: State)
    requires KernelShape(s) && Alive(s) && s.kernel.Running? && InitiatorGo(s).Some?
    ensures Alive(InitiatorGo(s).value)
  {
    match s.ini.pc
    case WaitPut =>
    case Getting =>
      if s.ch.sc.ScIdle? {
        if s.ch.scResult.Some? {
          assert Transport(s) == TransactAt(s, s.ch.scResult.value);
        } else {
          assert Transport(s) == TransactAt(WithOwnPacket(s), |s.mem.packets|);
        }
      }
    case Putting =>
    case _ =>
  }

  lemma ScKeepsAlive(s: State, pick: Pick)
    requires KernelShape(s) && Alive(s) && ScGo(s, pick).Some?
    ensures Alive(ScGo(s, pick).value)
  {
    match s.kernel
    case Evaluate =>
      match pick {
        case PickInitiator =>
        case PickKeepAlive =>
        case PickNone =>
      }
    case Running => InitiatorKeepsAlive(s);
    case Update =>
    case DeltaNotify =>
    case Advance => AlwaysAWakeTime(s);
  }

  lemma NextKeepsAlive(s: State, a: Act)
    requires KernelShape(s) && Alive(s) && Bridge.Next(s, a).Some?
    ensures Alive(Bridge.Next(s, a).value)
  {
    match a
    case Arrive(r) =>
    case ArriveExit =>
    case OsActs =>
    case ScActs(pick) => ScKeepsAlive(s, pick);
    case Signal =>
  }

  // ---------------------------------------------------------------------------
  // Timed waits.
  // ---------------------------------------------------------------------------

  /** A timed wait that is not over is still to end, and the initiator's is short. */
  predicate Ahead(s: State) {
    && (s.ini.pc.Delaying? && !s.ini.runnable && !s.kernel.Running? ==>
          s.now < s.ini.pc.wake <= s.now + LONGEST_WAIT)
    && (s.ka.pc.SecondWait? ==> if s.ka.runnable then s.ka.pc.wake == s.now else s.now < s.ka.pc.wake)
  }

  lemma TransportKeepsAhead(s: State)
    requires Ahead(s)
    ensures Ahead(Transport(s))
  {
    var u, p := match s.ch.scResult case Some(p) => s case None => WithOwnPacket(s),
                match s.ch.scResult case Some(p) => p case None => |s.mem.packets|;
    var h := PacketAt(u.mem, p).header;
    DelayIsWaitOf(u.regs, u.ini.command, h, Window(u.mem.buffer, h.dataLen));
  }

  lemma ScKeepsAhead(s: State, pick: Pick)
    requires KernelShape(s) && Alive(s) && Ahead(s) && ScGo(s, pick).Some?
    ensures Ahead(ScGo(s, pick).value)
  {
    match s.kernel
    case Evaluate => match pick { case PickInitiator => case PickKeepAlive => case PickNone => }
    case Running =>
      if s.ini.pc.Getting? && s.ch.sc.ScIdle? {
        TransportKeepsAhead(s);
      }
    case Update =>
    case DeltaNotify =>
    case Advance => AlwaysAWakeTime(s);
  }

  lemma NextKeepsAhead(s: State, a: Act)
    requires KernelShape(s) && Alive(s) && Ahead(s) && Bridge.Next(s, a).Some?
    ensures Ahead(Bridge.Next(s, a).value)
  {
    match a
    case Arrive(r) =>
    case ArriveExit =>
    case OsActs =>
    case ScActs(pick) => ScKeepsAhead(s, pick);
    case Signal =>
  }

  lemma ScKeepsTime(s: State, pick: Pick)
    requires KernelShape(s) && Alive(s) && Ahead(s) && ScGo(s, pick).Some?
    ensures s.now <= ScGo(s, pick).value.now
  {
    match s.kernel
    case Evaluate => match pick { case PickInitiator => case PickKeepAlive => case PickNone => }
    case Running =>
      if s.ini.pc.Getting? && s.ch.sc.ScIdle? {
        TransportKeepsAhead(s);
      }
    case Update =>
    case DeltaNotify =>
    case Advance => AlwaysAWakeTime(s);
  }

  /** Simulated time never goes back. */
  lemma NextKeepsTime(s: State, a: Act)
    requires KernelShape(s) && Alive(s) && Ahead(s) && Bridge.Next(s, a).Some?
    ensures s.now <= Bridge.Next(s, a).value.now
  {
    match a
    case Arrive(r) =>
    case ArriveExit =>
    case OsActs =>
    case ScActs(pick) => ScKeepsTime(s, pick);
    case Signal =>
  }

  // ---------------------------------------------------------------------------
  // Simulated time.
  // ---------------------------------------------------------------------------

  /** The machine's time before, or after, the latest request. */
  function TimeThen(m: Machine, s: State): nat {
    if StageOf(s).Fresh? && s.os.requests != [] then Before(m, s.os.requests).time else After(m, s.os.requests).time
  }

  predicate Clock(m: Machine, s: State) {
    !s.stopRequested ==>
      match s.ini.pc
      case Delaying(w) =>
        && w == After(m, s.os.requests).time
        && if s.ini.runnable || s.kernel.Running? then s.now == w
           else s.os.requests != [] && s.now == Before(m, s.os.requests).time < w
      case _ => s.now == TimeThen(m, s)
  }

  lemma ReadKeepsClock(m: Machine, s: State, r: Request)
    requires Control(s) && Clock(m, s) && OsRead(s, r).Some?
    ensures Clock(m, OsRead(s, r).value)
  {
    var t := OsRead(s, r).value;
    assert StageOf(s) == Nothing && StageOf(t) == Fresh;
    assert t.os.requests[..|s.os.requests|] == s.os.requests;
  }

  lemma TransactKeepsClock(m: Machine, s: State)
    requires Control(s) && Refines(m, s) && Clock(m, s)
    requires s.kernel.Running? && s.ini.pc.Getting? && s.ch.sc.ScIdle?
    ensures Clock(m, Transport(s))
  {
    var n := |s.os.requests|;
    assert StageOf(s) == Fresh && s.ch.scResult == Some(n - 1);
    var t := TransactAt(s, n - 1);
    assert Transport(s) == t && StageOf(t) == Carried;
    assert PacketAt(s.mem, n - 1).header == s.os.requests[n - 1].header;
    var o := OutcomeOf(Before(m, s.os.requests), s.os.requests[n - 1]);
    assert o == Transact(s.regs, s.ini.command, s.os.requests[n - 1].header, s.mem.buffer);
    assert After(m, s.os.requests).time == Before(m, s.os.requests).time + o.delay;
    if s.os.requests[n - 1].header.command.IsDebug() {
      assert o.delay == 0;
    }
  }

  lemma ScKeepsClock(m: Machine, s: State, pick: Pick)
    requires Control(s) && Clock(m, s) && Alive(s) && ScGo(s, pick).Some? && !Moves(s, ScActs(pick))
    requires SameData(s, ScGo(s, pick).value)
    ensures Clock(m, ScGo(s, pick).value)
  {
    match s.kernel
    case Evaluate =>
      match pick {
        case PickInitiator =>
        case PickKeepAlive =>
        case PickNone =>
      }
    case Running =>
    case Update =>
    case DeltaNotify =>
    case Advance => AlwaysAWakeTime(s);
  }

  lemma OsKeepsClock(m: Machine, s: State)
    requires Clock(m, s) && OsGo(s).Some? && SameData(s, OsGo(s).value)
    ensures Clock(m, OsGo(s).value)
  {
    if s.ch.os.OsIdle? {
      match s.os.loop case Pushing => case Waiting => case Pulling => match s.ch.osResult case None => case Some(p) =>
    }
  }

  lemma OtherKeepsClock(m: Machine, s: State, a: Act)
    requires Control(s) && Clock(m, s) && Alive(s) && Bridge.Next(s, a).Some? && !Moves(s, a)
    ensures Clock(m, Bridge.Next(s, a).value)
  {
    NextKeepsData(s, a);
    match a
    case ArriveExit =>
    case OsActs => OsKeepsClock(m, s);
    case ScActs(pick) => ScKeepsClock(m, s, pick);
    case Signal =>
  }

  lemma SendKeepsClock(m: Machine, s: State)
    requires Control(s) && Clock(m, s) && s.os.loop.Pulling? && s.ch.os.OsIdle? && OsBetween(s).Some?
    ensures Clock(m, OsBetween(s).value)
  {
    assert StageOf(s) == Answered && StageOf(OsBetween(s).value) == Nothing;
  }

  lemma SetStatusKeepsClock(m: Machine, s: State)
    requires Control(s) && Clock(m, s) && s.kernel.Running?
    requires s.ini.pc.Transacted? || s.ini.pc.Delaying? || s.ini.pc.ZeroDelaying?
    ensures Clock(m, SetStatus(s))
  {
    assert StageOf(s) == Carried && StageOf(SetStatus(s)) == Answered;
  }

  lemma NextKeepsClock(m: Machine, s: State, a: Act)
    requires Control(s) && Refines(m, s) && Alive(s) && Clock(m, s) && Bridge.Next(s, a).Some?
    ensures Clock(m, Bridge.Next(s, a).value)
  {
    if !Moves(s, a) {
      OtherKeepsClock(m, s, a);
    } else {
      match a
      case Arrive(r) => ReadKeepsClock(m, s, r);
      case OsActs => SendKeepsClock(m, s);
      case ScActs(_) =>
        if s.ini.pc.Getting? {
          TransactKeepsClock(m, s);
        } else {
          SetStatusKeepsClock(m, s);
        }
    }
  }
}
