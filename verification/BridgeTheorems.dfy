/** The results, for every run of the bridge from its initial state. */
module BridgeTheorems {
  import opened Tlmx
  import opened Machine
  import opened Channel
  import opened ChannelSteps
  import opened Bridge
  import opened BridgeSafety
  import opened BridgeRefinement
  import opened BridgeTime
  import opened BridgeProgress

  predicate Good(m: Machine, s: State) {
    Control(s) && Refines(m, s) && Alive(s) && Ahead(s) && Clock(m, s)
  }

  lemma InitialIsGood(m: Machine)
    ensures Good(m, Initial(m))
  {
  }

  lemma NextIsGood(m: Machine, s: State, a: Act)
    requires Good(m, s) && Bridge.Next(s, a).Some?
    ensures Good(m, Bridge.Next(s, a).value)
  {
    NextKeepsControl(s, a);
    NextRefines(m, s, a);
    NextKeepsAlive(s, a);
    NextKeepsAhead(s, a);
    NextKeepsClock(m, s, a);
  }

  lemma {:induction false} PlayIsGood(m: Machine, s: State, acts: seq<Act>)
    requires Good(m, s) && Play(s, acts).Some?
    ensures Good(m, Play(s, acts).value)
    decreases |acts|
  {
    if acts == [] {
    } else {
      NextIsGood(m, s, acts[0]);
      PlayIsGood(m, Bridge.Next(s, acts[0]).value, acts[1..]);
    }
  }

  lemma ReachableIsGood(m: Machine, s: State)
    requires Reachable(m, s)
    ensures Good(m, s)
  {
    InitialIsGood(m);
    var acts :| Play(Initial(m), acts) == Some(s);
    PlayIsGood(m, Initial(m), acts);
  }

  // ---------------------------------------------------------------------------
  // Refinement of the sequential machine.
  // ---------------------------------------------------------------------------

  /** The requests that the client sent, in order. */
  function Arrivals(acts: seq<Act>): seq<Request> {
    if acts == [] then []
    else (if acts[0].Arrive? then [acts[0].r] else []) + Arrivals(acts[1..])
  }

  lemma NextReads(s: State, a: Act)
    requires Bridge.Next(s, a).Some?
    ensures Bridge.Next(s, a).value.os.requests == s.os.requests + (if a.Arrive? then [a.r] else [])
  {
    match a
    case Arrive(r) =>
    case ArriveExit =>
    case OsActs =>
    case ScActs(pick) => ScLeavesOs(s, pick);
    case Signal =>
  }

  lemma {:induction false} PlayReads(s: State, acts: seq<Act>)
    requires Play(s, acts).Some?
    ensures Play(s, acts).value.os.requests == s.os.requests + Arrivals(acts)
    decreases |acts|
  {
    if acts == [] {
    } else {
      var head := if acts[0].Arrive? then [acts[0].r] else [];
      var rest := Arrivals(acts[1..]);
      NextReads(s, acts[0]);
      PlayReads(Bridge.Next(s, acts[0]).value, acts[1..]);
      assert (s.os.requests + head) + rest == s.os.requests + (head + rest);
    }
  }

  lemma GoodCounts(m: Machine, s: State)
    requires Good(m, s)
    ensures |s.os.requests| - 1 <= |s.os.replies| <= |s.os.requests|
    ensures s.os.replies == Replies(m, s.os.requests[..|s.os.replies|])
  {
  }

  lemma {:induction false} RepliesPrefix(m: Machine, rs: seq<Request>, n: nat)
    requires n <= |rs|
    ensures Replies(m, rs)[..n] == Replies(m, rs[..n])
    decreases |rs|
  {
    if n == |rs| {
      assert rs[..n] == rs;
    } else {
      var front := rs[..|rs| - 1];
      RepliesPrefix(m, front, n);
      assert front[..n] == rs[..n];
    }
  }

  /**
   On every interleaving, the responses sent so far are the sequential machine's responses to the
   requests that arrived, in order, all of them or all but the last.
   */
  lemma BridgeRefinesMachine(m: Machine, acts: seq<Act>)
    requires Play(Initial(m), acts).Some?
    ensures var replies := Play(Initial(m), acts).value.os.replies;
            && |Arrivals(acts)| - 1 <= |replies| <= |Arrivals(acts)|
            && replies == Replies(m, Arrivals(acts))[..|replies|]
  {
    InitialIsGood(m);
    PlayIsGood(m, Initial(m), acts);
    PlayReads(Initial(m), acts);
    var s := Play(Initial(m), acts).value;
    assert s.os.requests == Arrivals(acts);
    GoodCounts(m, s);
    RepliesPrefix(m, Arrivals(acts), |s.os.replies|);
  }

  /**
   At the client's end: response i has the header and as much data as request i, and the client's call
   returns 0 exactly when the device accepted that request.
   */
  lemma EveryExchange(m: Machine, acts: seq<Act>)
    requires Play(Initial(m), acts).Some?
    ensures var requests, replies := Arrivals(acts), Play(Initial(m), acts).value.os.replies;
            |replies| <= |requests| &&
            forall i :: 0 <= i < |replies| ==>
              && replies[i] == Reply(After(m, requests[..i]), requests[i])
              && replies[i].header == requests[i].header
              && |replies[i].data| == |requests[i].data| == replies[i].header.dataLen
              && (ClientResult(replies[i]) == 0 <==> Accepted(requests[i]))
  {
    BridgeRefinesMachine(m, acts);
    var requests, replies := Arrivals(acts), Play(Initial(m), acts).value.os.replies;
    forall i | 0 <= i < |replies|
      ensures replies[i] == Reply(After(m, requests[..i]), requests[i])
      ensures ClientResult(replies[i]) == 0 <==> Accepted(requests[i])
    {
      ReplyAt(m, requests, i);
      ClientSucceeds(After(m, requests[..i]), requests[i]);
    }
  }

  /** Between requests, registers and simulated time are the sequential machine's. */
  lemma QuietBridgeIsMachine(m: Machine, s: State)
    requires Reachable(m, s) && s.os.loop.AtRead?
    ensures s.regs == After(m, s.os.requests).regs
    ensures !s.stopRequested ==> s.now == After(m, s.os.requests).time
  {
    ReachableIsGood(m, s);
    assert StageOf(s) == Nothing && Returning(s);
  }

  // ---------------------------------------------------------------------------
  // Safety of the hand-over.
  // ---------------------------------------------------------------------------

  /** Whoever has been let through wait_for_put finds a response: "Missing response" is never reported. */
  lemma BatonSafety(m: Machine, s: State)
    requires Reachable(m, s)
    ensures s.ch.f.mWaitPut == ByOs ==> s.ch.sc.PutRewait? && s.ch.f.fmSysc != []
    ensures s.os.loop.Pulling? && (s.ch.os.PullLock? || s.ch.os.PullTake?) ==> s.ch.f.fmSysc != []
    ensures s.os.loop.Pulling? && s.ch.os.OsIdle? ==> s.ch.osResult.Some?
    ensures !s.os.loop.Fatal?
  {
    ReachableIsGood(m, s);
  }

  lemma PushIsOneWake(s: State)
    requires Control(s)
    ensures s.ch.os.PushQueue? ==> s.ch.f.toSysc == [] && !s.ch.f.didPush && !s.ch.f.putEvent
    ensures s.kernel.DeltaNotify? && s.ch.f.putEvent ==> s.ini.pc.WaitPut?
    ensures s.ini.lostWakes == 0
    ensures |s.os.replies| <= s.ini.wakes <= |s.os.requests|
  {
  }

  lemma WakeIsOneGet(s: State)
    requires Control(s)
    ensures s.ch.sc.GetTake? ==> s.ch.f.toSysc != []
    ensures s.ini.pc.Getting? && s.ch.sc.ScIdle? ==> s.ch.scResult == Some(|s.os.requests| - 1)
  {
  }

  /** Every push finds an empty queue, makes one put event, and the event finds the initiator waiting for it. */
  lemma OneWakePerRequest(m: Machine, s: State)
    requires Reachable(m, s)
    ensures s.ch.os.PushQueue? ==> s.ch.f.toSysc == [] && !s.ch.f.didPush && !s.ch.f.putEvent
    ensures s.kernel.DeltaNotify? && s.ch.f.putEvent ==> s.ini.pc.WaitPut?
    ensures s.ini.lostWakes == 0
    ensures |s.os.replies| <= s.ini.wakes <= |s.os.requests|
    ensures s.ch.sc.GetTake? ==> s.ch.f.toSysc != []
    ensures s.ini.pc.Getting? && s.ch.sc.ScIdle? ==> s.ch.scResult == Some(|s.os.requests| - 1)
  {
    ReachableIsGood(m, s);
    PushIsOneWake(s);
    WakeIsOneGet(s);
  }

  /** Nothing is lost, duplicated or reordered in either queue, and a raised flag is always on its way to SystemC. */
  lemma ChannelIsSafe(m: Machine, s: State)
    requires Reachable(m, s)
    ensures Conserved(s.ch) && ToldOfPushes(s.ch) && ToldOfPulls(s.ch)
    ensures |s.ch.f.toSysc| + |s.ch.f.fmSysc| <= 1
    ensures s.ch.f.didPut <==> s.ch.f.fmSysc != []
    ensures s.ch.f.putEvent || s.ch.f.getEvent ==> s.kernel.Update? || s.kernel.DeltaNotify? || s.kernel.Ended?
  {
    ReachableIsGood(m, s);
  }

  lemma ScIsChannelStep(s: State, pick: Pick) returns (c: Option<Action>)
    requires Control(s) && ScGo(s, pick).Some?
    ensures match c
            case None => ScGo(s, pick).value.ch == s.ch
            case Some(ca) => Step(s.ch, ca) == Some(ScGo(s, pick).value.ch)
  {
    match s.kernel
    case Evaluate =>
      c := if pick.PickNone? && s.ch.f.updateRequested then Some(AcceptUpdate) else None;
    case Running =>
      match s.ini.pc {
        case WaitPut => c := Some(CallNbGet);
        case Getting =>
          c := if s.ch.sc.ScIdle? then None else Some(ScMoves);
          assert s.ch.sc.ScIdle? ==> SyscHas(s);
        case Putting => c := if s.ch.sc.ScIdle? then None else Some(ScMoves);
        case _ => c := Some(CallNbPut(s.ini.cur));
      }
    case Update => c := if s.ch.sc.ScIdle? then None else Some(ScMoves);
    case DeltaNotify => c := if s.stopCalled then None else Some(DeliverEvents);
    case Advance => c := None;
  }

  /** Every step of the bridge is a step of the channel under two free callers, or does not involve it. */
  lemma NextIsChannelStep(s: State, a: Act) returns (c: Option<Action>)
    requires Control(s) && Bridge.Next(s, a).Some?
    ensures match c
            case None => Bridge.Next(s, a).value.ch == s.ch
            case Some(ca) => Step(s.ch, ca) == Some(Bridge.Next(s, a).value.ch)
  {
    match a
    case Arrive(r) => c := Some(CallPush(|s.mem.packets|));
    case ArriveExit => c := None;
    case OsActs =>
      if !s.ch.os.OsIdle? {
        c := Some(OsMoves);
      } else {
        c := match s.os.loop case Pushing => Some(CallWaitForPut) case Waiting => Some(CallNbPull) case _ => None;
      }
    case ScActs(pick) => c := ScIsChannelStep(s, pick);
    case Signal => c := None;
  }

  // ---------------------------------------------------------------------------
  // Payload exclusion.
  // ---------------------------------------------------------------------------

  /** The OS thread's next step reads or writes a packet or the buffer. */
  predicate OsTouches(s: State) {
    s.os.loop.AtRead? || s.ch.os.PullTake? || (s.os.loop.Pulling? && s.ch.os.OsIdle?)
  }

  predicate ScTouches(s: State) {
    s.kernel.Running? &&
    match s.ini.pc
    case WaitPut => false
    case Getting => s.ch.sc.ScIdle?
    case Putting => s.ch.sc.PutPrint?
    case _ => true
  }

  /** At no time is each thread about to touch the packet that both point to. */
  lemma PayloadExclusion(m: Machine, s: State)
    requires Reachable(m, s)
    ensures !(OsTouches(s) && ScTouches(s))
    ensures OsTouches(s) ==> PlaceOf(s) == WithOs || (PlaceOf(s) == FmSysc && s.ch.f.mFm == ByOs)
    ensures ScTouches(s) ==> PlaceOf(s) == WithSysc || (PlaceOf(s) == FmSysc && s.ch.f.mFm == BySysc)
  {
    ReachableIsGood(m, s);
  }

  function WithMemory(s: Option<State>, mem: Memory): Option<State> {
    match s
    case None => None
    case Some(t) => Some(t.(mem := mem))
  }

  /** The steps that are not said to touch memory neither write it nor depend on it: OS thread. */
  lemma OsTouchesNoMore(s: State, mem: Memory)
    requires !OsTouches(s)
    ensures OsGo(s).Some? ==> OsGo(s).value.mem == s.mem
    ensures OsGo(s.(mem := mem)) == WithMemory(OsGo(s), mem)
  {
    if s.ch.os.OsIdle? {
      match s.os.loop
      case Pushing =>
      case Waiting =>
      case _ =>
    }
  }

  lemma EvaluateTouchesNothing(s: State, pick: Pick, mem: Memory)
    requires s.kernel.Evaluate?
    ensures EvaluateGo(s, pick).Some? ==> EvaluateGo(s, pick).value.mem == s.mem
    ensures EvaluateGo(s.(mem := mem), pick) == WithMemory(EvaluateGo(s, pick), mem)
  {
    match pick case PickInitiator => case PickKeepAlive => case PickNone =>
  }

  lemma InitiatorTouchesNoMore(s: State, mem: Memory)
    requires s.kernel.Running? && !ScTouches(s)
    ensures InitiatorGo(s).Some? ==> InitiatorGo(s).value.mem == s.mem
    ensures InitiatorGo(s.(mem := mem)) == WithMemory(InitiatorGo(s), mem)
  {
    match s.ini.pc case WaitPut => case Getting => case Putting =>
  }

  lemma KernelTouchesNothing(s: State, mem: Memory)
    requires s.kernel.DeltaNotify? || s.kernel.Advance?
    ensures ScGo(s, PickNone).Some? && ScGo(s, PickNone).value.mem == s.mem
    ensures ScGo(s.(mem := mem), PickNone) == WithMemory(ScGo(s, PickNone), mem)
  {
  }

  /** The same of SystemC. */
  lemma ScTouchesNoMore(s: State, pick: Pick, mem: Memory)
    requires !ScTouches(s)
    ensures ScGo(s, pick).Some? ==> ScGo(s, pick).value.mem == s.mem
    ensures ScGo(s.(mem := mem), pick) == WithMemory(ScGo(s, pick), mem)
  {
    match s.kernel
    case Evaluate => EvaluateTouchesNothing(s, pick, mem);
    case Running => InitiatorTouchesNoMore(s, mem);
    case Update =>
    case DeltaNotify => KernelTouchesNothing(s, mem);
    case Advance => KernelTouchesNothing(s, mem);
    case Ended =>
  }

  // ---------------------------------------------------------------------------
  // The simulator.
  // ---------------------------------------------------------------------------

  /** The simulation ends only by sc_stop, and that only after a stop request: it never runs out of events. */
  lemma NeverStarves(m: Machine, s: State)
    requires Reachable(m, s)
    ensures s.kernel.Ended? ==> s.stopCalled && s.stopRequested
    ensures s.kernel.Advance? ==> WakeTime(s).Some?
    ensures s.kernel.DeltaNotify? && !s.stopRequested && s.ini.pc.WaitPut? ==> Notify(s).kernel.Evaluate?
  {
    ReachableIsGood(m, s);
    if s.kernel.Advance? {
      AlwaysAWakeTime(s);
    }
  }

  /** SystemC is never held up for more than three steps of the OS thread. */
  lemma SystemCIsNeverBlockedForEver(m: Machine, s: State)
    requires Reachable(m, s) && ScBlocked(s.ch)
    ensures exists k :: 1 <= k <= 3 && OsAlone(s.ch, k).Some? && !ScBlocked(OsAlone(s.ch, k).value)
  {
    ReachableIsGood(m, s);
    ScIsFreed(s.ch);
  }

  // ---------------------------------------------------------------------------
  // One turn of the initiator, and the end of the OS thread's loop.
  // ---------------------------------------------------------------------------

  lemma WaitIs(h: LegalHeader)
    ensures WaitOf(h) ==
            if h.command != DebugRead && h.command != DebugWrite
               && h.address in [0, 4, 8, 12, 16, 20, 24, 28] && 0 < h.dataLen && h.dataLen % 4 == 0 && h.address + h.dataLen <= 28
            then 10 * (h.dataLen / 4) else 0
  {
  }

  lemma TransportTakes(m: Machine, s: State)
    requires Good(m, s) && s.kernel.Running? && s.ini.pc.Getting? && s.ch.sc.ScIdle?
    ensures s.os.requests != []
    ensures var h := s.os.requests[|s.os.requests| - 1].header;
            var t := Transport(s);
            && t.kernel == (if h.command.IsDebug() then Kernel.Running else Kernel.Evaluate)
            && t.ini.pc == if h.command.IsDebug() then Transacted
                           else if WaitOf(h) == 0 then ZeroDelaying else Delaying(s.now + WaitOf(h))
  {
    var n := |s.os.requests|;
    assert StageOf(s) == Fresh && s.ch.scResult == Some(n - 1);
    var h := s.os.requests[n - 1].header;
    assert PacketAt(s.mem, n - 1).header == h;
    DelayIsWaitOf(s.regs, s.ini.command, h, Window(s.mem.buffer, h.dataLen));
  }

  /** Debug accesses go on at once; the others wait, for the delay of an accepted burst, or for the next delta. */
  lemma TransportWaits(m: Machine, s: State)
    requires Reachable(m, s) && s.kernel == Kernel.Running && s.ini.pc == Getting && s.ch.sc.ScIdle?
    ensures s.os.requests != []
    ensures var r := s.os.requests[|s.os.requests| - 1];
            var a, n := r.header.address, |r.data|;
            var t := Transport(s);
            if r.header.command == DebugRead || r.header.command == DebugWrite then
              t.ini.pc == Transacted && t.kernel == Kernel.Running
            else if a in [0, 4, 8, 12, 16, 20, 24, 28] && 0 < n && n % 4 == 0 && a + n <= 28 then
              t.ini.pc == Delaying(s.now + 10 * (n / 4)) && t.kernel == Kernel.Evaluate
            else
              t.ini.pc == ZeroDelaying && t.kernel == Kernel.Evaluate
  {
    ReachableIsGood(m, s);
    TransportTakes(m, s);
    WaitIs(s.os.requests[|s.os.requests| - 1].header);
  }

  /** An exit command ends the loop with nothing sent for it. */
  lemma ExitEndsTheLoop(s: State)
    requires s.os.loop.AtRead?
    ensures Bridge.Next(s, ArriveExit) == Some(s.(os := OsThread(Exited, s.os.requests, s.os.replies)))
  {
  }

  lemma NextAfterExit(s: State, a: Act)
    requires Control(s) && s.os.loop.Exited? && Bridge.Next(s, a).Some?
    ensures Bridge.Next(s, a).value.os == s.os && !a.Arrive?
  {
    match a
    case ScActs(pick) => ScLeavesOs(s, pick);
    case Signal =>
  }

  /** After it the OS thread neither reads nor sends any more. */
  lemma {:induction false} ExitIsFinal(s: State, acts: seq<Act>)
    requires Control(s) && s.os.loop.Exited? && Play(s, acts).Some?
    ensures Play(s, acts).value.os == s.os && Arrivals(acts) == []
    decreases |acts|
  {
    if acts == [] {
    } else {
      NextAfterExit(s, acts[0]);
      NextKeepsControl(s, acts[0]);
      ExitIsFinal(Bridge.Next(s, acts[0]).value, acts[1..]);
    }
  }
}
