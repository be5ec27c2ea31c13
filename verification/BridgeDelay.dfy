/** A wait(delay) of the initiator comes to its end: the keep-alive process lets time advance. */
module BridgeDelay {
  import opened Tlmx
  import opened Machine
  import opened Bridge
  import opened BridgeSafety
  import opened BridgeTime
  import opened BridgeProgress
  import opened BridgeTheorems

  /** The initiator is in a positive delay that time has not yet reached. */
  predicate InDelay(s: State) {
    s.ini.pc.Delaying? && !s.ini.runnable && !s.kernel.Running?
  }

  /** What is left to do before time can advance. */
  function DelayRank(s: State): nat {
    100 * SettleRank(s) + DeltaRank(s)
  }

  lemma UpdateShortensDelay(s: State)
    requires Control(s) && InDelay(s) && s.kernel.Update? && ScInside(s).Some?
    ensures var t := ScInside(s).value; InDelay(t) && DelayRank(t) < DelayRank(s) && t.now == s.now
  {
    match s.ch.sc
    case UpPushLock => case UpPushTest => case UpPushUnlock =>
    case UpPullLock => case UpPullTest => case UpPullUnlock =>
  }

  /** Each step of SystemC brings the next timed wake-up nearer, or time moves on to it. */
  lemma ScShortensDelay(s: State, pick: Pick)
    requires Control(s) && Alive(s) && Ahead(s) && InDelay(s) && ScGo(s, pick).Some?
    ensures var t := ScGo(s, pick).value;
            || (InDelay(t) && DelayRank(t) < DelayRank(s) && t.now == s.now)
            || (s.kernel.Advance? && Some(t.now) == WakeTime(s) && s.now < t.now)
  {
    match s.kernel
    case Evaluate =>
      match pick {
        case PickKeepAlive => case PickNone =>
      }
    case Update =>
      if !s.ch.sc.ScIdle? {
        UpdateShortensDelay(s);
      }
    case DeltaNotify =>
    case Advance => AlwaysAWakeTime(s);
  }

  lemma OsActsLeaveDelay(s: State)
    requires Control(s) && InDelay(s) && OsGo(s).Some?
    ensures var t := OsGo(s).value; InDelay(t) && DelayRank(t) == DelayRank(s) && t.now == s.now && t.ini == s.ini
  {
    if s.ch.os.OsIdle? {
      match s.os.loop case Pushing => case Waiting => case Pulling => match s.ch.osResult case None => case Some(p) =>
    }
  }

  /** No step of the OS thread puts it off. */
  lemma OsLeavesDelay(s: State, a: Act)
    requires Control(s) && InDelay(s) && !a.ScActs? && Bridge.Next(s, a).Some?
    ensures var t := Bridge.Next(s, a).value; InDelay(t) && DelayRank(t) == DelayRank(s) && t.now == s.now && t.ini == s.ini
  {
    match a
    case Arrive(r) =>
    case ArriveExit =>
    case OsActs => OsActsLeaveDelay(s);
    case Signal =>
  }

  function ScSteps(acts: seq<Act>): nat {
    if acts == [] then 0 else (if acts[0].ScActs? then 1 else 0) + ScSteps(acts[1..])
  }

  lemma {:induction false} PlayKeepsTime(m: Machine, s: State, acts: seq<Act>)
    requires Good(m, s) && Play(s, acts).Some?
    ensures s.now <= Play(s, acts).value.now
    decreases |acts|
  {
    if acts == [] {
    } else {
      NextIsGood(m, s, acts[0]);
      NextKeepsTime(s, acts[0]);
      PlayKeepsTime(m, Bridge.Next(s, acts[0]).value, acts[1..]);
    }
  }

  lemma DelayRankBound(s: State)
    ensures DelayRank(s) <= 511
  {
  }

  /**
   However the two threads interleave, and stopped or not, SystemC takes no more steps than the rank, and so
   never more than 511, before simulated time moves on.
   */
  lemma {:induction false} DelayIsBounded(m: Machine, s: State, acts: seq<Act>)
    requires Good(m, s) && InDelay(s)
    requires Play(s, acts).Some? && Play(s, acts).value.now == s.now
    ensures ScSteps(acts) <= DelayRank(s)
    decreases |acts|
  {
    if acts == [] {
    } else {
      var t := Bridge.Next(s, acts[0]).value;
      NextIsGood(m, s, acts[0]);
      PlayKeepsTime(m, t, acts[1..]);
      if acts[0].ScActs? {
        ScShortensDelay(s, acts[0].pick);
      } else {
        OsLeavesDelay(s, acts[0]);
      }
      DelayIsBounded(m, t, acts[1..]);
    }
  }

  /** Time moves on to the end of the delay, unless a stop request comes to its end first. */
  lemma WhereTimeGoes(s: State)
    requires Control(s) && Alive(s) && Ahead(s) && InDelay(s) && s.kernel.Advance?
    ensures var t := AdvanceTime(s);
            if s.ka.pc.SecondWait? && s.ka.pc.wake < s.ini.pc.wake
            then t.now == s.ka.pc.wake && InDelay(t) && LastDelta(t)
            else t.now == s.ini.pc.wake && t.ini.runnable
  {
  }

  // ---------------------------------------------------------------------------
  // The last second.
  // ---------------------------------------------------------------------------

  /** The keep-alive process, come round, sees a stop request and begins to wait for a second of simulated time. */
  lemma StopIsSeen(s: State)
    requires s.ka.pc.ZeroWait?
    ensures s.stopRequested ==> KeepAliveGo(s).ka.pc == SecondWait(s.now + 1_000_000_000)
    ensures !s.stopRequested ==> KeepAliveGo(s).ka.pc == if s.ka.signal then ZeroWait else ChangeWait
    ensures KeepAliveGo(s).stopCalled == s.stopCalled
  {
  }

  /** That second ends at w, or is over and the simulation stands still. */
  predicate LastSecond(s: State, w: nat) {
    s.now <= w && if s.stopCalled then s.now == w else s.ka.pc == SecondWait(w)
  }

  lemma RunningInLastSecond(s: State, w: nat)
    requires LastSecond(s, w) && s.kernel.Running? && InitiatorGo(s).Some?
    ensures LastSecond(InitiatorGo(s).value, w)
  {
    match s.ini.pc
    case Getting =>
      if s.ch.sc.ScIdle? {
        match s.ch.scResult case None => case Some(p) =>
      }
    case _ =>
  }

  lemma NextInLastSecond(m: Machine, s: State, w: nat, a: Act)
    requires Good(m, s) && LastSecond(s, w) && Bridge.Next(s, a).Some?
    ensures LastSecond(Bridge.Next(s, a).value, w)
  {
    match a
    case Arrive(r) =>
    case ArriveExit =>
    case OsActs =>
    case ScActs(pick) =>
      match s.kernel {
        case Evaluate => match pick { case PickInitiator => case PickKeepAlive => case PickNone => }
        case Running => RunningInLastSecond(s, w);
        case Update =>
        case DeltaNotify =>
        case Advance => AlwaysAWakeTime(s);
      }
    case Signal =>
  }

  /** sc_stop is called when exactly that second has passed, however many requests are served in it. */
  lemma {:induction false} StopTakesASecond(m: Machine, s: State, w: nat, acts: seq<Act>)
    requires Good(m, s) && LastSecond(s, w) && Play(s, acts).Some?
    ensures LastSecond(Play(s, acts).value, w)
    decreases |acts|
  {
    if acts == [] {
    } else {
      NextIsGood(m, s, acts[0]);
      NextInLastSecond(m, s, w, acts[0]);
      StopTakesASecond(m, Bridge.Next(s, acts[0]).value, w, acts[1..]);
    }
  }
}
