/** When the OS thread waits, and when it waits for ever. */
module BridgeProgress {
  import opened Tlmx
  import opened Machine
  import opened ChannelSteps
  import opened Bridge
  import opened BridgeSafety
  import opened BridgeTime

  /** The OS thread wants a mutex that SystemC has. */
  predicate Waits(s: State) {
    OsBlocked(s.ch)
  }

  // ---------------------------------------------------------------------------
  // How a response is lost.
  // ---------------------------------------------------------------------------

  /**
   The response is in the queue, the unlock and lock of nb_put are over, and the OS thread has not been let
   through wait_for_put: the initiator will not unlock it before the next response, and there will be no
   next response before this one is pulled.
   */
  predicate Missed(s: State) {
    && s.ch.f.toSysc == [] && |s.ch.f.fmSysc| == 1 && !PastWait(s)
    && (Returning(s) || (s.kernel.Running? && s.ini.pc.Putting? && s.ch.sc.PutUnlock?))
  }

  /** And it has come to the lock of wait_for_put. */
  predicate Stuck(s: State) {
    Missed(s) && s.os.loop.Waiting? && s.ch.os.WaitPutLock?
  }

  /** sc_stop has been called, or is called in this evaluation phase. */
  predicate LastDelta(s: State) {
    s.stopCalled || (s.ka.pc.SecondWait? && s.ka.runnable)
  }

  /** A wait that is to end at this time, or, without a delay, in the next delta, outlasts the simulation. */
  predicate TooLong(s: State, until: nat) {
    if until <= s.now then LastDelta(s)
    else s.stopCalled || (s.ka.pc.SecondWait? && s.ka.pc.wake < until)
  }

  /** A push, made by now or at once, wakes the initiator before time moves on. */
  predicate InTime(s: State) {
    || s.ch.f.putEvent || s.kernel.Evaluate? || s.kernel.Running?
    || (s.kernel.Update? && (s.ch.sc.UpPushLock? || (s.ch.sc.UpPushTest? && s.ch.f.didPush)))
  }

  /** The header of the latest packet of the OS thread. */
  function LatestHeader(s: State): LegalHeader {
    if s.os.requests == [] then Header(Ignore, 0, 0) else PacketAt(s.mem, |s.os.requests| - 1).header
  }

  /** The initiator has carried out the packet and is in nb_put. */
  predicate SyscHasToPut(s: State) {
    s.ini.pc.Putting? && (s.ch.sc.PutLock? || s.ch.sc.PutQueue?)
  }

  /** After a stop request: the put event, or the end of wait(delay), does not come before the end of the simulation. */
  predicate CutOff(s: State) {
    && OneOut(s) && s.ch.f.fmSysc == [] && !s.os.loop.Pulling?
    && match s.ini.pc
       case Transacted => false
       case Delaying(w) => !s.ini.runnable && !s.kernel.Running? && TooLong(s, w)
       case ZeroDelaying => !s.ini.runnable && !s.kernel.Running? && TooLong(s, s.now)
       case _ =>
         || (Returning(s) && (LastDelta(s) || (s.ka.pc.SecondWait? && !InTime(s))))
         || (!SyscHasToPut(s) && !LatestHeader(s).command.IsDebug() && TooLong(s, s.now + WaitOf(LatestHeader(s))))
  }

  /** The request that was read will not be answered. */
  predicate Lost(s: State) {
    Missed(s) || CutOff(s)
  }

  /** And the OS thread has come to where it will stay. */
  predicate Hopeless(s: State) {
    Lost(s) && s.ch.os.WaitPutLock?
  }

  // ---------------------------------------------------------------------------
  // Lost once, lost for ever.
  // ---------------------------------------------------------------------------

  lemma StuckWaits(s: State)
    requires Control(s) && Stuck(s)
    ensures Waits(s)
  {
  }

  lemma ScLeavesOs(s: State, pick: Pick)
    requires ScGo(s, pick).Some?
    ensures var t := ScGo(s, pick).value;
            t.os == s.os && t.ch.os == s.ch.os && t.stopRequested == s.stopRequested
  {
    match s.kernel
    case Evaluate => match pick { case PickInitiator => case PickKeepAlive => case PickNone => }
    case Running =>
      match s.ini.pc {
        case Getting =>
          if s.ch.sc.ScIdle? {
            match s.ch.scResult {
              case None =>
              case Some(p) =>
            }
          }
        case _ =>
      }
    case Update =>
    case DeltaNotify =>
    case Advance =>
  }

  lemma UpdateKeepsMissed(s: State)
    requires Control(s) && Missed(s) && s.kernel.Update? && ScInside(s).Some?
    ensures Missed(ScInside(s).value)
  {
    match s.ch.sc
    case UpPushLock => case UpPushTest => case UpPushUnlock =>
    case UpPullLock => case UpPullTest => case UpPullUnlock =>
  }

  lemma ScKeepsMissed(s: State, pick: Pick)
    requires Control(s) && Missed(s) && ScGo(s, pick).Some?
    ensures Missed(ScGo(s, pick).value)
  {
    match s.kernel
    case Evaluate => match pick { case PickInitiator => case PickKeepAlive => case PickNone => }
    case Running => match s.ch.sc { case PutUnlock => case ScIdle => }
    case Update =>
      if !s.ch.sc.ScIdle? {
        UpdateKeepsMissed(s);
      }
    case DeltaNotify =>
    case Advance =>
  }

  lemma OsKeepsMissed(s: State)
    requires Control(s) && Missed(s) && OsGo(s).Some?
    ensures Missed(OsGo(s).value) && OsGo(s).value.os.replies == s.os.replies
  {
    if s.ch.os.OsIdle? {
      match s.os.loop
      case Pushing =>
    }
  }

  lemma NextKeepsMissed(s: State, a: Act)
    requires Control(s) && Missed(s) && Bridge.Next(s, a).Some?
    ensures var t := Bridge.Next(s, a).value; Missed(t) && t.os.replies == s.os.replies && (Stuck(s) ==> Stuck(t))
  {
    match a
    case Arrive(r) =>
    case ArriveExit =>
    case OsActs =>
      OsKeepsMissed(s);
      if Stuck(s) {
        StuckWaits(s);
      }
    case ScActs(pick) =>
      ScLeavesOs(s, pick);
      ScKeepsMissed(s, pick);
    case Signal =>
  }

  lemma {:induction false} PlayKeepsStuck(s: State, acts: seq<Act>)
    requires Control(s) && Stuck(s) && Play(s, acts).Some?
    ensures Control(Play(s, acts).value) && Stuck(Play(s, acts).value)
    decreases |acts|
  {
    if acts == [] {
    } else {
      NextKeepsControl(s, acts[0]);
      NextKeepsMissed(s, acts[0]);
      PlayKeepsStuck(Bridge.Next(s, acts[0]).value, acts[1..]);
    }
  }

  lemma GetKeepsCutOff(s: State)
    requires Control(s) && Alive(s) && CutOff(s) && s.kernel.Running? && s.ini.pc.Getting? && ScInside(s).Some?
    ensures CutOff(ScInside(s).value)
  {
    match s.ch.sc
    case GetLock => case GetTake => case GetWake => case GetRewait => case GetUnlock =>
  }

  lemma UpdateKeepsCutOff(s: State)
    requires Control(s) && Alive(s) && CutOff(s) && s.kernel.Update? && ScInside(s).Some?
    ensures CutOff(ScInside(s).value)
  {
    match s.ch.sc
    case UpPushLock => case UpPushTest => case UpPushUnlock =>
    case UpPullLock => case UpPullTest => case UpPullUnlock =>
  }

  lemma EvaluateKeepsCutOff(s: State, pick: Pick)
    requires Control(s) && Alive(s) && Ahead(s) && CutOff(s) && s.kernel.Evaluate? && EvaluateGo(s, pick).Some?
    ensures CutOff(EvaluateGo(s, pick).value)
  {
    match pick case PickInitiator => case PickKeepAlive => case PickNone =>
  }

  lemma TransportKeepsCutOff(s: State)
    requires Control(s) && Alive(s) && Ahead(s) && CutOff(s)
    requires s.kernel.Running? && s.ini.pc.Getting? && s.ch.sc.ScIdle?
    ensures CutOff(Transport(s))
  {
    assert SyscHas(s) && s.ch.scResult == Some(|s.os.requests| - 1);
    var h := LatestHeader(s);
    DelayIsWaitOf(s.regs, s.ini.command, h, Window(s.mem.buffer, h.dataLen));
  }

  lemma NotifyKeepsCutOff(s: State)
    requires Control(s) && Alive(s) && CutOff(s) && s.kernel.DeltaNotify?
    ensures CutOff(Notify(s))
  {
  }

  lemma AdvanceKeepsCutOff(s: State)
    requires Control(s) && Alive(s) && Ahead(s) && CutOff(s) && s.kernel.Advance?
    ensures CutOff(AdvanceTime(s))
  {
  }

  lemma ScKeepsCutOff(s: State, pick: Pick)
    requires Control(s) && Alive(s) && Ahead(s) && CutOff(s) && ScGo(s, pick).Some?
    ensures CutOff(ScGo(s, pick).value)
  {
    match s.kernel
    case Evaluate => EvaluateKeepsCutOff(s, pick);
    case Running =>
      if s.ini.pc.Getting? && s.ch.sc.ScIdle? {
        TransportKeepsCutOff(s);
      } else if s.ini.pc.Getting? {
        GetKeepsCutOff(s);
      }
    case Update =>
      if !s.ch.sc.ScIdle? {
        UpdateKeepsCutOff(s);
      }
    case DeltaNotify => NotifyKeepsCutOff(s);
    case Advance => AdvanceKeepsCutOff(s);
  }

  lemma OsInsideKeepsCutOff(s: State)
    requires Control(s) && CutOff(s) && OsInside(s).Some?
    ensures CutOff(OsInside(s).value)
  {
    match s.ch.os
    case PushLock(p) => case PushQueue(p) => case PushRequest => case PushUnlock =>
  }

  lemma OsKeepsCutOff(s: State)
    requires Control(s) && CutOff(s) && OsGo(s).Some?
    ensures CutOff(OsGo(s).value) && OsGo(s).value.os.replies == s.os.replies
  {
    if s.ch.os.OsIdle? {
      match s.os.loop
      case Pushing =>
    } else {
      OsInsideKeepsCutOff(s);
    }
  }

  /** A lost response is lost whatever anyone does, and an OS thread that waits for it waits on. */
  lemma NextKeepsLost(s: State, a: Act)
    requires Control(s) && Alive(s) && Ahead(s) && Lost(s) && Bridge.Next(s, a).Some?
    ensures var t := Bridge.Next(s, a).value;
            Lost(t) && t.os.replies == s.os.replies && (Hopeless(s) ==> Hopeless(t))
  {
    if Missed(s) {
      NextKeepsMissed(s, a);
    } else {
      match a
      case Arrive(r) =>
      case ArriveExit =>
      case OsActs => OsKeepsCutOff(s);
      case ScActs(pick) =>
        ScLeavesOs(s, pick);
        ScKeepsCutOff(s, pick);
      case Signal =>
    }
  }

  lemma HopelessWaits(s: State)
    requires Control(s) && Hopeless(s)
    ensures Waits(s)
  {
  }

  // ---------------------------------------------------------------------------
  // A measure of what SystemC still has to do before the OS thread can move.
  // ---------------------------------------------------------------------------

  /** Steps left in update. */
  function UpdateRank(sc: ScPc): nat {
    match sc
    case UpPushLock => 6
    case UpPushTest => 5
    case UpPushUnlock => 4
    case UpPullLock => 3
    case UpPullTest => 2
    case UpPullUnlock => 1
    case _ => 0
  }

  /** Steps left in the delta cycle. */
  function DeltaRank(s: State): nat {
    match s.kernel
    case Evaluate => if s.ka.runnable then 11 else 10
    case Update => 2 + UpdateRank(s.ch.sc)
    case DeltaNotify => 1
    case _ => 0
  }

  /** What the keep-alive process still does while the initiator is in a positive delay. */
  function SettleRank(s: State): nat {
    if s.ka.signal then 5
    else if s.ka.changed then 4
    else if s.ka.pc.ZeroWait? then (if s.ka.runnable then 1 else 2)
    else if s.ka.runnable then 3
    else 0
  }

  /** Steps left in nb_get. */
  function GetRank(sc: ScPc): nat {
    match sc
    case GetLock => 6
    case GetTake => 5
    case GetWake => 4
    case GetRewait => 3
    case GetUnlock => 2
    case _ => 1
  }

  /** Steps left in nb_put; only two of them are after its unlock of m_mutex_wait_put. */
  function PutRank(sc: ScPc): nat {
    match sc
    case PutLock(_) => 6
    case PutQueue(_) => 5
    case PutPrint(_) => 4
    case PutWake => 3
    case PutRewait => 2
    case PutUnlock => 1
    case _ => 0
  }

  /** From the initiator's counter, while it has or is about to have the packet. */
  function InitiatorRank(s: State): nat {
    match s.ini.pc
    case WaitPut => if s.kernel.Running? then 2020 else 3000 + DeltaRank(s)
    case Getting => 2000 + GetRank(s.ch.sc)
    case Delaying(_) =>
      if s.kernel.Running? then 10 else if s.ini.runnable then 20 + DeltaRank(s)
      else 1000 + 100 * SettleRank(s) + DeltaRank(s)
    case ZeroDelaying =>
      if s.kernel.Running? then 10 else if s.ini.runnable then 20 + DeltaRank(s) else 1000 + DeltaRank(s)
    case Transacted => 10
    case Putting => PutRank(s.ch.sc)
  }

  function Rank(s: State): nat {
    if s.ch.os.PushLock? then UpdateRank(s.ch.sc)
    else if s.ch.os.PullLock? then UpdateRank(s.ch.sc) + PutRank(s.ch.sc)
    else if s.ch.f.didPush then
      if s.kernel.Running? then 7000
      else if s.kernel.Evaluate? || s.ch.sc.UpPushLock? || s.ch.sc.UpPushTest? then 5000 + DeltaRank(s)
      else 6000 + DeltaRank(s)
    else if s.ch.f.putEvent then 4000 + DeltaRank(s)
    else InitiatorRank(s)
  }

  predicate StillWaiting(s: State) {
    Control(s) && Alive(s) && Ahead(s) && Waits(s) && !Hopeless(s)
  }

  /** The OS thread is let through, or nearer to it, and no response is lost. */
  predicate Nearer(s: State, t: State) {
    (Waits(t) ==> Rank(t) < Rank(s)) && (!Lost(s) ==> !Lost(t))
  }

  /** While the OS thread waits, and not in vain, SystemC is never blocked and never over. */
  lemma ScHasAStep(s: State) returns (pick: Pick)
    requires StillWaiting(s)
    ensures ScGo(s, pick).Some?
  {
    NoDeadlock(s.ch);
    assert !s.kernel.Ended?;
    pick := if s.ini.runnable then PickInitiator else if s.ka.runnable then PickKeepAlive else PickNone;
  }

  // One lemma for each part of SystemC's way round.

  lemma PushSectionLosesNothing(s: State)
    requires StillWaiting(s) && !Lost(s) && s.kernel.Update? && ScInside(s).Some?
    requires s.ch.sc.UpPushLock? || s.ch.sc.UpPushTest? || s.ch.sc.UpPushUnlock?
    ensures !Lost(ScInside(s).value)
  {
    match s.ch.sc
    case UpPushLock => case UpPushTest => case UpPushUnlock =>
  }

  lemma PushSectionProgress(s: State)
    requires StillWaiting(s) && s.kernel.Update? && ScInside(s).Some?
    requires s.ch.sc.UpPushLock? || s.ch.sc.UpPushTest? || s.ch.sc.UpPushUnlock?
    ensures Waits(ScInside(s).value) ==> Rank(ScInside(s).value) < Rank(s)
  {
    match s.ch.sc
    case UpPushLock => case UpPushTest => case UpPushUnlock =>
  }

  lemma PullSectionLosesNothing(s: State)
    requires StillWaiting(s) && !Lost(s) && s.kernel.Update? && ScInside(s).Some?
    requires s.ch.sc.UpPullLock? || s.ch.sc.UpPullTest? || s.ch.sc.UpPullUnlock?
    ensures !Lost(ScInside(s).value)
  {
    match s.ch.sc
    case UpPullLock => case UpPullTest => case UpPullUnlock =>
  }

  lemma PullTestProgress(s: State)
    requires StillWaiting(s) && s.kernel.Update? && s.ch.sc.UpPullTest?
    ensures ScInside(s).Some?
    ensures Waits(ScInside(s).value) ==> Rank(ScInside(s).value) < Rank(s)
  {
  }

  lemma PullSectionProgress(s: State)
    requires StillWaiting(s) && s.kernel.Update? && ScInside(s).Some?
    requires s.ch.sc.UpPullLock? || s.ch.sc.UpPullTest? || s.ch.sc.UpPullUnlock?
    ensures Waits(ScInside(s).value) ==> Rank(ScInside(s).value) < Rank(s)
  {
    match s.ch.sc
    case UpPullLock =>
    case UpPullTest => PullTestProgress(s);
    case UpPullUnlock =>
  }

  lemma UpdateProgress(s: State)
    requires StillWaiting(s) && s.kernel.Update? && ScInside(s).Some?
    ensures Nearer(s, ScInside(s).value)
  {
    if s.ch.sc.UpPushLock? || s.ch.sc.UpPushTest? || s.ch.sc.UpPushUnlock? {
      PushSectionProgress(s);
      if !Lost(s) {
        PushSectionLosesNothing(s);
      }
    } else {
      PullSectionProgress(s);
      if !Lost(s) {
        PullSectionLosesNothing(s);
      }
    }
  }

  lemma GetProgress(s: State)
    requires StillWaiting(s) && s.kernel.Running? && s.ini.pc.Getting? && ScInside(s).Some?
    ensures Nearer(s, ScInside(s).value)
  {
    match s.ch.sc
    case GetLock => case GetTake => case GetWake => case GetRewait => case GetUnlock =>
    case _ =>
  }

  lemma PutLosesNothing(s: State)
    requires StillWaiting(s) && !Lost(s) && s.kernel.Running? && s.ini.pc.Putting? && ScInside(s).Some?
    ensures !Lost(ScInside(s).value)
  {
    match s.ch.sc
    case PutLock(p) => case PutQueue(p) => case PutPrint(p) => case PutWake => case PutRewait => case PutUnlock =>
  }

  lemma PutProgress(s: State)
    requires StillWaiting(s) && s.kernel.Running? && s.ini.pc.Putting? && ScInside(s).Some?
    ensures Nearer(s, ScInside(s).value)
  {
    if !Lost(s) {
      PutLosesNothing(s);
    }
    var t := ScInside(s).value;
    assert Waits(t) ==> Rank(t) < Rank(s) by {
      match s.ch.sc
      case PutLock(p) => case PutQueue(p) => case PutPrint(p) => case PutWake => case PutRewait => case PutUnlock =>
    }
  }

  lemma TransportProgress(s: State)
    requires StillWaiting(s) && s.kernel.Running? && s.ini.pc.Getting? && s.ch.sc.ScIdle?
    ensures Nearer(s, Transport(s))
  {
    assert SyscHas(s) && s.ch.scResult.Some?;
    assert Transport(s) == TransactAt(s, s.ch.scResult.value);
  }

  lemma SetStatusProgress(s: State)
    requires StillWaiting(s) && s.kernel.Running?
    requires s.ini.pc.Transacted? || s.ini.pc.Delaying? || s.ini.pc.ZeroDelaying?
    ensures Nearer(s, SetStatus(s))
  {
  }

  lemma ReturnProgress(s: State)
    requires StillWaiting(s) && s.kernel.Running? && s.ini.pc.Putting? && s.ch.sc.ScIdle?
    ensures Nearer(s, InitiatorGo(s).value)
  {
  }

  lemma RunningProgress(s: State)
    requires StillWaiting(s) && s.kernel.Running? && InitiatorGo(s).Some?
    ensures Nearer(s, InitiatorGo(s).value)
  {
    match s.ini.pc
    case WaitPut =>
    case Getting =>
      if s.ch.sc.ScIdle? {
        TransportProgress(s);
      } else {
        GetProgress(s);
      }
    case Putting =>
      if s.ch.sc.ScIdle? {
        ReturnProgress(s);
      } else {
        PutProgress(s);
      }
    case _ => SetStatusProgress(s);
  }

  lemma EvaluateLosesNothing(s: State, pick: Pick)
    requires StillWaiting(s) && !Lost(s) && s.kernel.Evaluate? && EvaluateGo(s, pick).Some?
    ensures !Lost(EvaluateGo(s, pick).value)
  {
    match pick case PickInitiator => case PickKeepAlive => case PickNone =>
  }

  lemma EvaluateProgress(s: State, pick: Pick)
    requires StillWaiting(s) && s.kernel.Evaluate? && EvaluateGo(s, pick).Some?
    ensures Nearer(s, EvaluateGo(s, pick).value)
  {
    if !Lost(s) {
      EvaluateLosesNothing(s, pick);
    }
    var t := EvaluateGo(s, pick).value;
    assert Waits(t) ==> Rank(t) < Rank(s) by {
      match pick case PickInitiator => case PickKeepAlive => case PickNone =>
    }
  }

  lemma NotifyLosesNothing(s: State)
    requires StillWaiting(s) && !Lost(s) && s.kernel.DeltaNotify?
    ensures !Lost(Notify(s))
  {
  }

  lemma NotifyRanksLower(s: State)
    requires StillWaiting(s) && s.kernel.DeltaNotify?
    ensures Waits(Notify(s)) ==> Rank(Notify(s)) < Rank(s)
  {
  }

  /** With a packet on its way to it, the waiting initiator always gets another delta cycle. */
  lemma NotifyProgress(s: State)
    requires StillWaiting(s) && s.kernel.DeltaNotify?
    ensures Nearer(s, Notify(s))
  {
    NotifyRanksLower(s);
    if !Lost(s) {
      NotifyLosesNothing(s);
    }
  }

  lemma AdvanceProgress(s: State)
    requires StillWaiting(s) && s.kernel.Advance?
    ensures Nearer(s, AdvanceTime(s))
  {
    AlwaysAWakeTime(s);
  }

  lemma ScProgress(s: State, pick: Pick)
    requires StillWaiting(s) && ScGo(s, pick).Some?
    ensures Nearer(s, ScGo(s, pick).value)
  {
    match s.kernel
    case Evaluate => EvaluateProgress(s, pick);
    case Running => RunningProgress(s);
    case Update =>
      if !s.ch.sc.ScIdle? {
        UpdateProgress(s);
      }
    case DeltaNotify => NotifyProgress(s);
    case Advance => AdvanceProgress(s);
  }
}
