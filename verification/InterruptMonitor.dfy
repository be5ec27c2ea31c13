/** The driver's interrupt monitor: one thread in dev_wait, and the interrupt server. */
module InterruptMonitor {

  datatype MutexOwner = Nobody | TheWaiter | TheServer

  /** dev_wait, from its call to its return. */
  datatype WaiterPc =
    | Outside
    | WLock
    | WTest     // while (!interrupt_flag)
    | Asleep    // in pthread_cond_wait, without the mutex
    | Relock    // woken, on the way to take it again
    | WUnlock

  /** interrupt_server's endless loop. */
  datatype ServerPc =
    | Accept
    | CheckStop
    | SLock
    | SetFlag
    | SignalIt
    | SUnlock
    | Acknowledge
    | Gone

  datatype State = State(
    mutex: MutexOwner,
    flag: bool,
    stop: bool,         // server_stop, written without a lock
    w: WaiterPc,
    s: ServerPc,
    accepted: nat,      // connections found with server_stop clear
    raised: nat,        // times the flag was set
    returned: nat)       // times dev_wait returned

  const INITIAL: State := State(Nobody, false, false, Outside, Accept, 0, 0, 0)

  datatype Act =
    | CallWait
    | WaiterMoves
    | Spurious       // pthread_cond_wait may return at any time
    | Connects
    | AcceptFails
    | ServerMoves
    | RequestStop    // dev_close

  function WaiterStep(m: State): State {
    match m.w
    case Outside => m
    case WLock => if m.mutex.Nobody? then m.(mutex := TheWaiter, w := WTest) else m
    case WTest => if m.flag then m.(w := WUnlock) else m.(mutex := Nobody, w := Asleep)
    case Asleep => m
    case Relock => if m.mutex.Nobody? then m.(mutex := TheWaiter, w := WTest) else m
    case WUnlock => m.(mutex := Nobody, w := Outside, returned := m.returned + 1)
  }

  function ServerStep(m: State): State {
    match m.s
    case Accept => m
    case CheckStop => if m.stop then m.(s := Gone) else m.(s := SLock, accepted := m.accepted + 1)
    case SLock => if m.mutex.Nobody? then m.(mutex := TheServer, s := SetFlag) else m
    case SetFlag => m.(flag := true, s := SignalIt, raised := m.raised + 1)
    case SignalIt => m.(w := if m.w.Asleep? then Relock else m.w, s := SUnlock)
    case SUnlock => m.(mutex := Nobody, s := Acknowledge)
    case Acknowledge => m.(s := Accept)
    case Gone => m
  }

  /** A blocked thread's move changes nothing. */
  function Next(m: State, a: Act): State {
    match a
    case CallWait => if m.w.Outside? then m.(w := WLock) else m
    case WaiterMoves => WaiterStep(m)
    case Spurious => if m.w.Asleep? then m.(w := Relock) else m
    case Connects => if m.s.Accept? then m.(s := CheckStop) else m
    case AcceptFails => m
    case ServerMoves => ServerStep(m)
    case RequestStop => m.(stop := true)
  }

  function Play(m: State, acts: seq<Act>): State
    decreases |acts|
  {
    if acts == [] then m else Play(Next(m, acts[0]), acts[1..])
  }

  // ---------------------------------------------------------------------------
  // Safety.
  // ---------------------------------------------------------------------------

  predicate Inv(m: State) {
    && (m.mutex.TheWaiter? <==> m.w.WTest? || m.w.WUnlock?)
    && (m.mutex.TheServer? <==> m.s.SetFlag? || m.s.SignalIt? || m.s.SUnlock?)
    && (m.flag <==> m.raised > 0)
    && m.accepted == m.raised + (if m.s.SLock? || m.s.SetFlag? then 1 else 0)
    && (m.s.SignalIt? || m.s.SUnlock? || m.s.Acknowledge? ==> m.flag)
    && (m.w.WUnlock? || m.returned > 0 ==> m.flag)
    && (m.w.Asleep? && m.flag ==> m.s.SignalIt?)
    && (m.s.Gone? ==> m.stop)
  }

  lemma NextKeepsInv(m: State, a: Act)
    requires Inv(m)
    ensures Inv(Next(m, a))
  {
  }

  lemma {:induction false} PlayKeepsInv(m: State, acts: seq<Act>)
    requires Inv(m)
    ensures Inv(Play(m, acts))
    decreases |acts|
  {
    if acts == [] {
    } else {
      NextKeepsInv(m, acts[0]);
      PlayKeepsInv(Next(m, acts[0]), acts[1..]);
    }
  }

  /**
   dev_wait returns only after a connection was accepted with server_stop clear, and no wake-up is lost:
   asleep with the flag up, the waiter is about to be signalled.
   */
  lemma WaitMeansInterrupt(acts: seq<Act>)
    ensures var m := Play(INITIAL, acts);
            && (m.returned > 0 ==> m.accepted > 0)
            && (m.w.Asleep? && m.flag ==> m.s.SignalIt? && m.mutex.TheServer? && !Next(m, ServerMoves).w.Asleep?)
  {
    PlayKeepsInv(INITIAL, acts);
  }

  // ---------------------------------------------------------------------------
  // The flag is a latch.
  // ---------------------------------------------------------------------------

  /**
   Nothing takes the flag down again: after the first interrupt has been passed on, no dev_wait ever
   sleeps. Only until then does a call wait for an interrupt of its own.
   */
  lemma {:induction false} LaterWaitsDoNotSleep(m: State, acts: seq<Act>)
    requires Inv(m) && m.flag && !m.w.Asleep?
    ensures Play(m, acts).flag && !Play(m, acts).w.Asleep?
    decreases |acts|
  {
    if acts == [] {
    } else {
      NextKeepsInv(m, acts[0]);
      LaterWaitsDoNotSleep(Next(m, acts[0]), acts[1..]);
    }
  }

  /** dev_wait goes to sleep exactly when no interrupt has ever been passed on. */
  lemma SleepsOnlyBeforeTheFirst(m: State)
    requires Inv(m) && m.w.WTest?
    ensures WaiterStep(m).w.Asleep? <==> m.raised == 0
  {
  }

  // ---------------------------------------------------------------------------
  // Whether dev_wait can still return.
  // ---------------------------------------------------------------------------

  /** No interrupt so far, and the server will not pass on another. */
  predicate Abandoned(m: State) {
    !m.flag && (m.s.Gone? || (m.stop && (m.s.Accept? || m.s.CheckStop?)))
  }

  lemma {:induction false} AbandonedForEver(m: State, acts: seq<Act>)
    requires Inv(m) && Abandoned(m)
    ensures Abandoned(Play(m, acts)) && Play(m, acts).returned == m.returned
    decreases |acts|
  {
    if acts == [] {
    } else {
      NextKeepsInv(m, acts[0]);
      AbandonedForEver(Next(m, acts[0]), acts[1..]);
    }
  }

  /** A step that brings dev_wait nearer to its return. */
  function Helpful(m: State): Act {
    if m.w.WTest? || m.w.WUnlock? then WaiterMoves
    else if !m.flag then (if m.s.Accept? then Connects else ServerMoves)
    else if m.w.Asleep? || !m.mutex.Nobody? then ServerMoves
    else WaiterMoves
  }

  function Distance(m: State): nat {
    var server := match m.s
      case Accept => 4
      case CheckStop => 3
      case SLock => 2
      case SetFlag => 1
      case _ => 0;
    var holds := if m.s.SetFlag? then 3 else if m.s.SignalIt? then 2 else if m.s.SUnlock? then 1 else 0;
    if !m.flag then 20 + 2 * server + (if m.w.WTest? then 1 else 0)
    else match m.w
      case WUnlock => 1
      case WTest => 2
      case _ => 3 + holds
  }

  lemma HelpfulHelps(m: State)
    requires Inv(m) && !Abandoned(m) && !m.w.Outside?
    ensures var t := Next(m, Helpful(m));
            || t.returned == m.returned + 1
            || (!Abandoned(t) && !t.w.Outside? && t.returned == m.returned && Distance(t) < Distance(m))
  {
  }

  lemma {:induction false} ReturnWithin(m: State) returns (acts: seq<Act>)
    requires Inv(m) && !Abandoned(m) && !m.w.Outside?
    ensures |acts| <= Distance(m) && Play(m, acts).returned == m.returned + 1
    decreases Distance(m)
  {
    var t := Next(m, Helpful(m));
    HelpfulHelps(m);
    NextKeepsInv(m, Helpful(m));
    if t.returned == m.returned + 1 {
      acts := [Helpful(m)];
      assert Play(t, acts[1..]) == t;
    } else {
      var rest := ReturnWithin(t);
      acts := [Helpful(m)] + rest;
      assert acts[1..] == rest;
    }
  }

  /** A call of dev_wait can still return exactly when it is not abandoned. */
  lemma CanReturnUnlessAbandoned(m: State)
    requires Inv(m) && !m.w.Outside?
    ensures (exists acts :: Play(m, acts).returned > m.returned) <==> !Abandoned(m)
  {
    if Abandoned(m) {
      forall acts
        ensures Play(m, acts).returned == m.returned
      {
        AbandonedForEver(m, acts);
      }
    } else {
      var acts := ReturnWithin(m);
      assert Play(m, acts).returned > m.returned;
    }
  }

  // ---------------------------------------------------------------------------
  // Whether the server still serves.
  // ---------------------------------------------------------------------------

  /** The server leaves exactly when it finds server_stop set after a connection. */
  lemma HowTheServerLeaves(m: State, a: Act)
    requires m.s != Gone
    ensures Next(m, a).s == Gone <==> a == ServerMoves && m.s == CheckStop && m.stop
  {
  }

  lemma {:induction false} NoneAfterStop(m: State, acts: seq<Act>)
    requires m.stop
    ensures Play(m, acts).accepted == m.accepted && Play(m, acts).stop
    decreases |acts|
  {
    if acts == [] {
    } else {
      NoneAfterStop(Next(m, acts[0]), acts[1..]);
    }
  }

  /** A step that brings the server nearer to its next connection. */
  function Serving(m: State): Act {
    match m.s
    case Accept => Connects
    case SLock => if m.w.WTest? || m.w.WUnlock? then WaiterMoves else ServerMoves
    case _ => ServerMoves
  }

  function ToNext(m: State): nat {
    match m.s
    case SLock => 10 + (if m.w.WTest? then 2 else if m.w.WUnlock? then 1 else 0)
    case SetFlag => 8
    case SignalIt => 7
    case SUnlock => 6
    case Acknowledge => 5
    case Accept => 4
    case CheckStop => 3
    case Gone => 0
  }

  lemma ServingHelps(m: State)
    requires Inv(m) && !m.stop
    ensures var t := Next(m, Serving(m));
            && !t.stop
            && (t.accepted == m.accepted + 1 || (t.accepted == m.accepted && ToNext(t) < ToNext(m)))
  {
  }

  lemma {:induction false} NextConnection(m: State) returns (acts: seq<Act>)
    requires Inv(m) && !m.stop
    ensures Play(m, acts).accepted == m.accepted + 1
    decreases ToNext(m)
  {
    var t := Next(m, Serving(m));
    ServingHelps(m);
    NextKeepsInv(m, Serving(m));
    var rest: seq<Act> := [];
    if t.accepted == m.accepted {
      rest := NextConnection(t);
    }
    acts := [Serving(m)] + rest;
    assert acts[1..] == rest;
  }

  /** The server can pass on another interrupt, whatever dev_wait is doing, exactly until server_stop is set. */
  lemma ServesUntilStopped(m: State)
    requires Inv(m)
    ensures (exists acts :: Play(m, acts).accepted > m.accepted) <==> !m.stop
  {
    if m.stop {
      forall acts
        ensures Play(m, acts).accepted == m.accepted
      {
        NoneAfterStop(m, acts);
      }
    } else {
      var acts := NextConnection(m);
      assert Play(m, acts).accepted > m.accepted;
    }
  }
}
