/** What every reachable state of the bridge satisfies: control, and the one request in flight. */
module BridgeSafety {
  import opened Tlmx
  import opened Machine
  import opened ChannelSteps
  import opened Bridge

  // ---------------------------------------------------------------------------
  // Program counters that go together.
  // ---------------------------------------------------------------------------

  predicate LoopShape(s: State) {
    var pc := s.ch.os;
    match s.os.loop
    case Pushing => pc.OsIdle? || pc.PushLock? || pc.PushQueue? || pc.PushRequest? || pc.PushUnlock?
    case Waiting => pc.OsIdle? || pc.WaitPutLock? || pc.WaitPutUnlock?
    case Pulling => pc.OsIdle? || pc.PullLock? || pc.PullTake? || pc.PullRequest? || pc.PullUnlock?
    case _ => pc.OsIdle?
  }

  /** The initiator is in one of its waits. */
  predicate Suspended(pc: InitiatorPc) {
    pc.WaitPut? || pc.Delaying? || pc.ZeroDelaying?
  }

  predicate KernelShape(s: State) {
    var sc := s.ch.sc;
    && (s.ch.f.putEvent || s.ch.f.getEvent ==> s.kernel.Update? || s.kernel.DeltaNotify? || s.kernel.Ended?)
    && match s.kernel
    case Running =>
      && !s.ini.runnable
      && (match s.ini.pc
          case Getting => sc.ScIdle? || sc.InGet()
          case Putting => sc.ScIdle? || sc.InPut()
          case _ => sc.ScIdle?)
    case Evaluate => sc.ScIdle? && Suspended(s.ini.pc)
    case Update => !s.ini.runnable && (sc.ScIdle? || sc.InUpdate()) && Suspended(s.ini.pc)
    case _ => !s.ini.runnable && sc.ScIdle? && Suspended(s.ini.pc)
  }

  // ---------------------------------------------------------------------------
  // The one request in flight, and who has it.
  // ---------------------------------------------------------------------------

  datatype Place = WithOs | ToSysc | WithSysc | FmSysc

  /** The initiator has taken a packet and not yet put it. */
  predicate SyscHas(s: State) {
    var sc := s.ch.sc;
    match s.ini.pc
    case WaitPut => false
    case Getting => sc.GetWake? || sc.GetRewait? || sc.GetUnlock? || sc.ScIdle?
    case Putting => sc.PutLock? || sc.PutQueue?
    case _ => true
  }

  function PlaceOf(s: State): Place {
    if s.ch.f.toSysc != [] then ToSysc
    else if s.ch.f.fmSysc != [] then FmSysc
    else if SyscHas(s) then WithSysc
    else WithOs
  }

  /** The initiator waits for the put event, or is on its way there. */
  predicate Returning(s: State) {
    || (s.ini.pc.WaitPut? && !s.kernel.Running? && !s.ini.runnable)
    || (s.kernel.Running? && s.ini.pc.Putting? && s.ch.sc.ScIdle?)
  }

  /** The OS thread has queued its packet and not been woken. */
  predicate OsSent(s: State) {
    || (s.os.loop.Pushing? && (s.ch.os.PushRequest? || s.ch.os.PushUnlock? || s.ch.os.OsIdle?))
    || (s.os.loop.Waiting? && s.ch.os.WaitPutLock?)
  }

  predicate Quiet(s: State) {
    !s.ch.f.didPush && !s.ch.f.putEvent
  }

  /** One more request has been read than responses sent. */
  predicate OneOut(s: State) {
    |s.os.requests| == |s.os.replies| + 1
  }

  predicate AtOs(s: State) {
    var n := |s.os.requests|;
    && Quiet(s) && Returning(s)
    && (match s.os.loop
        case AtRead => |s.os.replies| == n && s.ini.wakes == n
        case Exited => |s.os.replies| == n && s.ini.wakes == n
        case Pushing => OneOut(s) && s.ini.wakes == n - 1 && (s.ch.os == PushLock(n - 1) || s.ch.os == PushQueue(n - 1))
        case Pulling =>
          && OneOut(s) && s.ini.wakes == n
          && (s.ch.os.PullRequest? || s.ch.os.PullUnlock? || s.ch.os.OsIdle?) && s.ch.osResult == Some(n - 1)
        case _ => false)
  }

  /** Queued towards SystemC, the packet has exactly one wake-up on its way to the initiator, or used. */
  predicate AtToSysc(s: State) {
    var n := |s.os.requests|;
    && OneOut(s) && s.ch.f.toSysc == [n - 1] && s.ch.f.fmSysc == [] && OsSent(s)
    && if s.ch.f.didPush then !s.ch.f.putEvent && Returning(s) && s.ini.wakes == n - 1
       else if s.ch.f.putEvent then
         && s.ini.pc.WaitPut? && !s.ini.runnable && s.ini.wakes == n - 1
         && (s.kernel.Update? || s.kernel.DeltaNotify? || s.kernel.Ended?)
       else
         && s.ini.wakes == n
         && (|| (s.ini.pc.WaitPut? && s.kernel.Evaluate? && s.ini.runnable)
             || (s.ini.pc.WaitPut? && s.kernel.Running?)
             || (s.ini.pc.Getting? && s.kernel.Running? && (s.ch.sc.GetLock? || s.ch.sc.GetTake?)))
  }

  predicate AtSysc(s: State) {
    var n := |s.os.requests|;
    && OneOut(s) && s.ini.wakes == n && Quiet(s) && OsSent(s)
    && (s.os.loop.Pushing? ==> s.ch.os.OsIdle?)
    && (match s.ini.pc
        case Getting => s.kernel.Running? && s.ch.scResult == Some(n - 1)
        case Putting => s.kernel.Running? && s.ini.cur == n - 1 && (s.ch.sc == PutLock(n - 1) || s.ch.sc == PutQueue(n - 1))
        case Transacted => s.kernel.Running? && s.ini.cur == n - 1
        case _ => s.ini.cur == n - 1)
  }

  /** The OS thread has had the baton for the response in the queue. */
  predicate PastWait(s: State) {
    s.os.loop.Pulling? || (s.os.loop.Waiting? && !s.ch.os.WaitPutLock?)
  }

  predicate AtFmSysc(s: State) {
    var n := |s.os.requests|;
    var sc := s.ch.sc;
    && OneOut(s) && s.ini.wakes == n && Quiet(s) && s.ch.f.fmSysc == [n - 1] && s.ch.f.didPut
    && (Returning(s) ||
        (s.kernel.Running? && s.ini.pc.Putting? && (sc == PutPrint(n - 1) || sc.PutWake? || sc.PutRewait? || sc.PutUnlock?)))
    && (|| (s.os.loop.Pushing? && s.ch.os.OsIdle?)
        || s.os.loop.Waiting?
        || (s.os.loop.Pulling? && (s.ch.os.PullLock? || s.ch.os.PullTake?)))
    && (PastWait(s) ==> !sc.PutPrint? && !sc.PutWake?)
  }

  predicate Token(s: State) {
    && |s.mem.packets| == |s.os.requests|
    && s.ini.lostWakes == 0
    && (s.ch.f.didPut <==> s.ch.f.fmSysc != [])
    && match PlaceOf(s)
       case WithOs => AtOs(s)
       case ToSysc => AtToSysc(s)
       case WithSysc => AtSysc(s)
       case FmSysc => AtFmSysc(s)
  }

  predicate Control(s: State) {
    ChannelSteps.Inv(s.ch) && LoopShape(s) && KernelShape(s) && Token(s)
  }

  /** The parts of Control that are about more than the channel. */
  predicate Position(s: State) {
    LoopShape(s) && KernelShape(s) && Token(s)
  }

  // ---------------------------------------------------------------------------
  // Every step keeps Control.
  // ---------------------------------------------------------------------------

  lemma ReadKeepsControl(s: State, r: Request)
    requires Control(s) && OsRead(s, r).Some?
    ensures Control(OsRead(s, r).value)
  {
    CallKeepsInv(s.ch, CallPush(|s.mem.packets|));
  }

  lemma OsPushKeepsPosition(s: State)
    requires Control(s) && s.os.loop.Pushing? && OsInside(s).Some?
    ensures Position(OsInside(s).value)
  {
    match s.ch.os
    case PushLock(p) => case PushQueue(p) => case PushRequest => case PushUnlock =>
    case _ =>
  }

  lemma OsWaitKeepsPosition(s: State)
    requires Control(s) && s.os.loop.Waiting? && OsInside(s).Some?
    ensures Position(OsInside(s).value)
  {
    match s.ch.os
    case WaitPutLock => case WaitPutUnlock =>
    case _ =>
  }

  lemma OsPullKeepsPosition(s: State)
    requires Control(s) && s.os.loop.Pulling? && OsInside(s).Some?
    ensures Position(OsInside(s).value)
  {
    match s.ch.os
    case PullLock => case PullTake => case PullRequest => case PullUnlock =>
    case _ =>
  }

  lemma OsBetweenKeepsControl(s: State)
    requires Control(s) && s.ch.os.OsIdle? && OsBetween(s).Some?
    ensures Control(OsBetween(s).value)
  {
    match s.os.loop
    case Pushing => CallKeepsInv(s.ch, CallWaitForPut);
    case Waiting => CallKeepsInv(s.ch, CallNbPull);
    case Pulling => assert s.ch.osResult.Some?;
  }

  lemma OsKeepsControl(s: State)
    requires Control(s) && OsGo(s).Some?
    ensures Control(OsGo(s).value)
  {
    if !s.ch.os.OsIdle? {
      StepKeepsInv(s.ch, OsMoves);
      match s.os.loop
      case Pushing => OsPushKeepsPosition(s);
      case Waiting => OsWaitKeepsPosition(s);
      case Pulling => OsPullKeepsPosition(s);
    } else {
      OsBetweenKeepsControl(s);
    }
  }

  lemma GetKeepsPosition(s: State)
    requires Control(s) && s.kernel.Running? && s.ini.pc.Getting? && ScInside(s).Some?
    ensures Position(ScInside(s).value)
  {
    match s.ch.sc
    case GetLock => case GetTake => case GetWake => case GetRewait => case GetUnlock =>
    case _ =>
  }

  lemma PutKeepsPosition(s: State)
    requires Control(s) && s.kernel.Running? && s.ini.pc.Putting? && ScInside(s).Some?
    ensures Position(ScInside(s).value)
  {
    match s.ch.sc
    case PutLock(p) => case PutQueue(p) => case PutPrint(p) => case PutWake => case PutRewait => case PutUnlock =>
    case _ =>
  }

  lemma PushSectionKeepsPosition(s: State)
    requires Control(s) && s.kernel.Update? && ScInside(s).Some?
    requires s.ch.sc.UpPushLock? || s.ch.sc.UpPushTest? || s.ch.sc.UpPushUnlock?
    ensures Position(ScInside(s).value)
  {
    match s.ch.sc
    case UpPushLock => case UpPushTest => case UpPushUnlock =>
  }

  lemma PullSectionKeepsPosition(s: State)
    requires Control(s) && s.kernel.Update? && ScInside(s).Some?
    requires s.ch.sc.UpPullLock? || s.ch.sc.UpPullTest? || s.ch.sc.UpPullUnlock?
    ensures Position(ScInside(s).value)
  {
    assert Suspended(s.ini.pc) && !s.ini.runnable;
    match s.ch.sc
    case UpPullLock =>
    case UpPullTest => assert PlaceOf(ScInside(s).value) == PlaceOf(s);
    case UpPullUnlock =>
  }

  lemma InsideKeepsControl(s: State)
    requires Control(s) && ScInside(s).Some?
    requires s.kernel.Update? || (s.kernel.Running? && (s.ini.pc.Getting? || s.ini.pc.Putting?))
    ensures Control(ScInside(s).value)
  {
    StepKeepsInv(s.ch, ScMoves);
    if s.kernel.Update? {
      if s.ch.sc.UpPushLock? || s.ch.sc.UpPushTest? || s.ch.sc.UpPushUnlock? {
        PushSectionKeepsPosition(s);
      } else {
        PullSectionKeepsPosition(s);
      }
    } else if s.ini.pc.Getting? {
      GetKeepsPosition(s);
    } else {
      PutKeepsPosition(s);
    }
  }

  lemma WakeKeepsControl(s: State)
    requires Control(s) && s.kernel.Running? && s.ini.pc.WaitPut?
    ensures Control(InitiatorGo(s).value)
  {
    CallKeepsInv(s.ch, CallNbGet);
  }

  lemma TransactKeepsControl(s: State)
    requires Control(s) && s.kernel.Running? && s.ini.pc.Getting? && s.ch.sc.ScIdle?
    ensures Control(Transport(s))
  {
    assert SyscHas(s) && s.ch.scResult.Some?;
    assert Transport(s) == TransactAt(s, s.ch.scResult.value);
  }

  lemma SetStatusKeepsControl(s: State)
    requires Control(s) && s.kernel.Running? && (s.ini.pc.Transacted? || s.ini.pc.Delaying? || s.ini.pc.ZeroDelaying?)
    ensures Control(SetStatus(s))
  {
    assert SyscHas(s);
    CallKeepsInv(s.ch, CallNbPut(s.ini.cur));
  }

  lemma ReturnKeepsControl(s: State)
    requires Control(s) && s.kernel.Running? && s.ini.pc.Putting? && s.ch.sc.ScIdle?
    ensures Control(InitiatorGo(s).value)
  {
  }

  lemma InitiatorKeepsControl(s: State)
    requires Control(s) && s.kernel.Running? && InitiatorGo(s).Some?
    ensures Control(InitiatorGo(s).value)
  {
    if s.ini.pc.WaitPut? {
      WakeKeepsControl(s);
    } else if s.ini.pc.Getting? && s.ch.sc.ScIdle? {
      TransactKeepsControl(s);
    } else if s.ini.pc.Putting? && s.ch.sc.ScIdle? {
      ReturnKeepsControl(s);
    } else if s.ini.pc.Getting? || s.ini.pc.Putting? {
      InsideKeepsControl(s);
    } else {
      SetStatusKeepsControl(s);
    }
  }

  lemma BeginUpdateKeepsControl(s: State)
    requires Control(s) && s.kernel.Evaluate? && !s.ini.runnable
    ensures Control(BeginUpdate(s))
  {
    if s.ch.f.updateRequested {
      CallKeepsInv(s.ch, AcceptUpdate);
    }
  }

  /** A put event finds the initiator waiting, and its packet on its way. */
  lemma NotifyDelivers(s: State)
    requires Control(s) && s.kernel.DeltaNotify? && s.ch.f.putEvent && !s.stopCalled
    ensures s.ini.pc.WaitPut? && PlaceOf(s) == ToSysc && PlaceOf(Notify(s)) == ToSysc
    ensures Token(Notify(s))
  {
  }

  lemma NotifyLeavesPlace(s: State)
    requires Control(s) && s.kernel.DeltaNotify? && !s.ch.f.putEvent && !s.stopCalled
    ensures PlaceOf(Notify(s)) == PlaceOf(s)
  {
  }

  lemma NotifyMovesNothing(s: State)
    requires Control(s) && s.kernel.DeltaNotify? && !s.ch.f.putEvent && !s.stopCalled
    ensures Token(Notify(s))
  {
    NotifyLeavesPlace(s);
    match PlaceOf(s)
    case WithOs => assert AtOs(Notify(s));
    case ToSysc => assert AtToSysc(Notify(s));
    case WithSysc => assert AtSysc(Notify(s));
    case FmSysc => assert AtFmSysc(Notify(s));
  }

  lemma NotifyKeepsControl(s: State)
    requires Control(s) && s.kernel.DeltaNotify?
    ensures Control(Notify(s))
  {
    CallKeepsInv(s.ch, DeliverEvents);
    if !s.stopCalled {
      assert Notify(s).ch == Step(s.ch, DeliverEvents).value;
      assert LoopShape(Notify(s)) && KernelShape(Notify(s));
      if s.ch.f.putEvent {
        NotifyDelivers(s);
      } else {
        NotifyMovesNothing(s);
      }
    }
  }

  lemma AdvanceKeepsControl(s: State)
    requires Control(s) && s.kernel.Advance?
    ensures Control(AdvanceTime(s))
  {
    var t := AdvanceTime(s);
    assert t.ch == s.ch && t.os == s.os && t.mem == s.mem;
    if s.ini.pc.WaitPut? {
      assert !t.ini.runnable;
    }
  }

  lemma EvaluateKeepsControl(s: State, pick: Pick)
    requires Control(s) && s.kernel.Evaluate? && EvaluateGo(s, pick).Some?
    ensures Control(EvaluateGo(s, pick).value)
  {
    match pick
    case PickInitiator =>
    case PickKeepAlive =>
    case PickNone => BeginUpdateKeepsControl(s);
  }

  lemma ScKeepsControl(s: State, pick: Pick)
    requires Control(s) && ScGo(s, pick).Some?
    ensures Control(ScGo(s, pick).value)
  {
    match s.kernel
    case Evaluate => EvaluateKeepsControl(s, pick);
    case Running => InitiatorKeepsControl(s);
    case Update =>
      if !s.ch.sc.ScIdle? {
        InsideKeepsControl(s);
      }
    case DeltaNotify => NotifyKeepsControl(s);
    case Advance => AdvanceKeepsControl(s);
  }

  lemma NextKeepsControl(s: State, a: Act)
    requires Control(s) && Bridge.Next(s, a).Some?
    ensures Control(Bridge.Next(s, a).value)
  {
    match a
    case Arrive(r) => ReadKeepsControl(s, r);
    case ArriveExit =>
    case OsActs => OsKeepsControl(s);
    case ScActs(pick) => ScKeepsControl(s, pick);
    case Signal =>
  }
}
