/**
 The channel under two threads, one step for each mutex operation. Either side may make any calls in
 any order, except that SystemC runs update only when the kernel has accepted a request for it.
 */
module ChannelSteps {
  import opened Tlmx
  import opened Channel

  /** Where the OS thread is inside the channel. */
  datatype OsPc =
    | OsIdle
    | PushLock(p: Ptr)
    | PushQueue(p: Ptr)     // push_front, m_thread_did_push = true
    | PushRequest           // async_request_update
    | PushUnlock
    | WaitPutLock
    | WaitPutUnlock
    | WaitGetLock
    | WaitGetUnlock
    | PullLock
    | PullTake              // test, take the back, print it, pop_back, both flags
    | PullRequest
    | PullUnlock

  /** Where the SystemC thread is inside the channel. */
  datatype ScPc =
    | ScIdle
    | GetLock
    | GetTake               // test, take the back, pop_back
    | GetWake               // unlock m_mutex_wait_get
    | GetRewait             // lock it again
    | GetUnlock
    | PutLock(p: Ptr)
    | PutQueue(p: Ptr)      // push_front, m_sysc_did_put = true
    | PutPrint(p: Ptr)
    | PutWake               // unlock m_mutex_wait_put
    | PutRewait             // lock it again
    | PutUnlock
    | UpPushLock
    | UpPushTest
    | UpPushUnlock
    | UpPullLock
    | UpPullTest
    | UpPullUnlock
  {
    predicate InGet() { GetLock? || GetTake? || GetWake? || GetRewait? || GetUnlock? }
    predicate InPut() { PutLock? || PutQueue? || PutPrint? || PutWake? || PutRewait? || PutUnlock? }
    predicate InUpdate() {
      UpPushLock? || UpPushTest? || UpPushUnlock? || UpPullLock? || UpPullTest? || UpPullUnlock?
    }
  }

  /**
   The fields, both program counters, the result of each side's last nb_ call, the packets that have
   passed each end of each queue, and how many of the pushes and pulls SystemC has been told of.
   */
  datatype Sys = Sys(
    f: Fields,
    os: OsPc,
    sc: ScPc,
    osResult: Option<Ptr>,
    scResult: Option<Ptr>,
    pushed: seq<Ptr>,
    got: seq<Ptr>,
    put: seq<Ptr>,
    pulled: seq<Ptr>,
    toldPushes: nat,
    toldPulls: nat)

  function Start(): Sys {
    Sys(Constructed(), OsIdle, ScIdle, None, None, [], [], [], [], 0, 0)
  }

  // ---------------------------------------------------------------------------
  // Steps.
  // ---------------------------------------------------------------------------

  /** The OS thread's next step inside an operation; None when it is blocked or in no operation. */
  function OsStep(s: Sys): Option<Sys> {
    var f := s.f;
    match s.os
    case OsIdle => None
    case PushLock(p) => if f.mTo.Free? then Some(s.(f := f.(mTo := ByOs), os := PushQueue(p))) else None
    case PushQueue(p) =>
      Some(s.(f := f.(toSysc := [p] + f.toSysc, didPush := true), os := PushRequest, pushed := s.pushed + [p]))
    case PushRequest => Some(s.(f := f.(updateRequested := true), os := PushUnlock))
    case PushUnlock => Some(s.(f := f.(mTo := Free), os := OsIdle))
    case WaitPutLock => if f.mWaitPut.Free? then Some(s.(f := f.(mWaitPut := ByOs), os := WaitPutUnlock)) else None
    case WaitPutUnlock => Some(s.(f := f.(mWaitPut := Free), os := OsIdle))
    case WaitGetLock => if f.mWaitGet.Free? then Some(s.(f := f.(mWaitGet := ByOs), os := WaitGetUnlock)) else None
    case WaitGetUnlock => Some(s.(f := f.(mWaitGet := Free), os := OsIdle))
    case PullLock => if f.mFm.Free? then Some(s.(f := f.(mFm := ByOs), os := PullTake)) else None
    case PullTake =>
      if f.fmSysc == [] then Some(s.(osResult := None, os := PullUnlock))
      else Some(s.(f := f.(fmSysc := Front(f.fmSysc), didPull := true, didPut := false), os := PullRequest,
                   osResult := Some(Last(f.fmSysc)), pulled := s.pulled + [Last(f.fmSysc)]))
    case PullRequest => Some(s.(f := f.(updateRequested := true), os := PullUnlock))
    case PullUnlock => Some(s.(f := f.(mFm := Free), os := OsIdle))
  }

  /** The SystemC thread's next step inside an operation; None when it is blocked or in no operation. */
  function ScStep(s: Sys): Option<Sys> {
    var f := s.f;
    match s.sc
    case ScIdle => None
    case GetLock => if f.mTo.Free? then Some(s.(f := f.(mTo := BySysc), sc := GetTake)) else None
    case GetTake =>
      if f.toSysc == [] then Some(s.(scResult := None, sc := GetUnlock))
      else Some(s.(f := f.(toSysc := Front(f.toSysc)), sc := GetWake,
                   scResult := Some(Last(f.toSysc)), got := s.got + [Last(f.toSysc)]))
    case GetWake => Some(s.(f := f.(mWaitGet := Free), sc := GetRewait))
    case GetRewait => if f.mWaitGet.Free? then Some(s.(f := f.(mWaitGet := BySysc), sc := GetUnlock)) else None
    case GetUnlock => Some(s.(f := f.(mTo := Free), sc := ScIdle))
    case PutLock(p) => if f.mFm.Free? then Some(s.(f := f.(mFm := BySysc), sc := PutQueue(p))) else None
    case PutQueue(p) =>
      Some(s.(f := f.(fmSysc := [p] + f.fmSysc, didPut := true), sc := PutPrint(p), put := s.put + [p]))
    case PutPrint(p) => Some(s.(sc := PutWake))
    case PutWake => Some(s.(f := f.(mWaitPut := Free), sc := PutRewait))
    case PutRewait => if f.mWaitPut.Free? then Some(s.(f := f.(mWaitPut := BySysc), sc := PutUnlock)) else None
    case PutUnlock => Some(s.(f := f.(mFm := Free), sc := ScIdle))
    case UpPushLock => if f.mTo.Free? then Some(s.(f := f.(mTo := BySysc), sc := UpPushTest)) else None
    case UpPushTest =>
      if f.didPush
      then Some(s.(f := f.(putEvent := true, didPush := false), sc := UpPushUnlock, toldPushes := |s.pushed|))
      else Some(s.(sc := UpPushUnlock))
    case UpPushUnlock => Some(s.(f := f.(mTo := Free), sc := UpPullLock))
    case UpPullLock => if f.mFm.Free? then Some(s.(f := f.(mFm := BySysc), sc := UpPullTest)) else None
    case UpPullTest =>
      if f.didPull
      then Some(s.(f := f.(getEvent := true, didPull := false), sc := UpPullUnlock, toldPulls := |s.pulled|))
      else Some(s.(sc := UpPullUnlock))
    case UpPullUnlock => Some(s.(f := f.(mFm := Free), sc := ScIdle))
  }

  /** Everything either thread can do to the channel. */
  datatype Action =
    | OsMoves
    | ScMoves
    | CallPush(p: Ptr)
    | CallWaitForPut
    | CallWaitForGet
    | CallNbPull
    | CallNbGet
    | CallNbPut(p: Ptr)
    | AcceptUpdate      // the kernel answers async_request_update by calling update
    | DeliverEvents     // delta notification

  function Step(s: Sys, a: Action): Option<Sys> {
    match a
    case OsMoves => OsStep(s)
    case ScMoves => ScStep(s)
    case CallPush(p) => if s.os.OsIdle? then Some(s.(os := PushLock(p))) else None
    case CallWaitForPut => if s.os.OsIdle? then Some(s.(os := WaitPutLock)) else None
    case CallWaitForGet => if s.os.OsIdle? then Some(s.(os := WaitGetLock)) else None
    case CallNbPull => if s.os.OsIdle? then Some(s.(os := PullLock)) else None
    case CallNbGet => if s.sc.ScIdle? then Some(s.(sc := GetLock)) else None
    case CallNbPut(p) => if s.sc.ScIdle? then Some(s.(sc := PutLock(p))) else None
    case AcceptUpdate =>
      if s.sc.ScIdle? && s.f.updateRequested
      then Some(s.(f := s.f.(updateRequested := false), sc := UpPushLock))
      else None
    case DeliverEvents => if s.sc.ScIdle? then Some(s.(f := s.f.(putEvent := false, getEvent := false))) else None
  }

  function Run(s: Sys, actions: seq<Action>): Option<Sys>
    decreases |actions|
  {
    if actions == [] then Some(s)
    else
      match Step(s, actions[0])
      case None => None
      case Some(t) => Run(t, actions[1..])
  }

  // ---------------------------------------------------------------------------
  // The invariant.
  // ---------------------------------------------------------------------------

  function OwnerOf(os: bool, sc: bool): Owner {
    if os then ByOs else if sc then BySysc else Free
  }

  predicate OsHoldsTo(s: Sys) { s.os.PushQueue? || s.os.PushRequest? || s.os.PushUnlock? }
  predicate OsHoldsFm(s: Sys) { s.os.PullTake? || s.os.PullRequest? || s.os.PullUnlock? }
  predicate ScHoldsTo(s: Sys) {
    s.sc.GetTake? || s.sc.GetWake? || s.sc.GetRewait? || s.sc.GetUnlock? || s.sc.UpPushTest? || s.sc.UpPushUnlock?
  }
  predicate ScHoldsFm(s: Sys) {
    s.sc.PutQueue? || s.sc.PutPrint? || s.sc.PutWake? || s.sc.PutRewait? || s.sc.PutUnlock? || s.sc.UpPullTest? || s.sc.UpPullUnlock?
  }

  /** Each mutex is owned by the thread that is between its lock and its unlock, and by no other. */
  predicate Locks(s: Sys) {
    && !(OsHoldsTo(s) && ScHoldsTo(s))
    && !(OsHoldsFm(s) && ScHoldsFm(s))
    && s.f.mTo == OwnerOf(OsHoldsTo(s), ScHoldsTo(s))
    && s.f.mFm == OwnerOf(OsHoldsFm(s), ScHoldsFm(s))
    && (s.os.WaitPutUnlock? ==> s.sc.PutRewait?)
    && (s.os.WaitGetUnlock? ==> s.sc.GetRewait?)
    && s.f.mWaitPut == OwnerOf(s.os.WaitPutUnlock?, !s.sc.PutRewait?)
    && s.f.mWaitGet == OwnerOf(s.os.WaitGetUnlock?, !s.sc.GetRewait?)
  }

  /** What went in at one end is what came out at the other followed by what is still there, in order. */
  predicate Fifo(sent: seq<Ptr>, taken: seq<Ptr>, queue: seq<Ptr>) {
    sent == taken + OldestFirst(queue)
  }

  predicate Conserved(s: Sys) {
    Fifo(s.pushed, s.got, s.f.toSysc) && Fifo(s.put, s.pulled, s.f.fmSysc)
  }

  /** m_thread_did_push is up exactly while SystemC has not been told of the latest push, and telling it is on the way. */
  predicate ToldOfPushes(s: Sys) {
    && s.toldPushes <= |s.pushed|
    && (s.f.didPush <==> s.toldPushes < |s.pushed|)
    && (s.f.didPush ==> s.f.updateRequested || s.os.PushRequest? || s.sc.UpPushLock? || s.sc.UpPushTest?)
  }

  predicate ToldOfPulls(s: Sys) {
    && s.toldPulls <= |s.pulled|
    && (s.f.didPull <==> s.toldPulls < |s.pulled|)
    && (s.f.didPull ==>
          || s.f.updateRequested || s.os.PullRequest?
          || s.sc.UpPushLock? || s.sc.UpPushTest? || s.sc.UpPushUnlock? || s.sc.UpPullLock? || s.sc.UpPullTest?)
  }

  predicate Inv(s: Sys) {
    Locks(s) && Conserved(s) && ToldOfPushes(s) && ToldOfPulls(s)
  }

  lemma FifoIn(sent: seq<Ptr>, taken: seq<Ptr>, queue: seq<Ptr>, p: Ptr)
    requires Fifo(sent, taken, queue)
    ensures Fifo(sent + [p], taken, [p] + queue)
  {
    assert ([p] + queue)[1..] == queue;
    assert OldestFirst([p] + queue) == OldestFirst(queue) + [p];
  }

  lemma FifoOut(sent: seq<Ptr>, taken: seq<Ptr>, queue: seq<Ptr>)
    requires Fifo(sent, taken, queue) && queue != []
    ensures Fifo(sent, taken + [Last(queue)], Front(queue))
  {
    TakeOldest(queue);
  }

  /** Neither end of either queue is moved. */
  predicate SameEnds(s: Sys, t: Sys) {
    && t.pushed == s.pushed && t.got == s.got && t.f.toSysc == s.f.toSysc
    && t.put == s.put && t.pulled == s.pulled && t.f.fmSysc == s.f.fmSysc
  }

  lemma OsLeavesEnds(s: Sys)
    requires OsStep(s).Some? && !s.os.PushQueue? && !s.os.PullTake?
    ensures SameEnds(s, OsStep(s).value)
  {
    match s.os
    case PushLock(p) => case PushRequest => case PushUnlock =>
    case WaitPutLock => case WaitPutUnlock => case WaitGetLock => case WaitGetUnlock =>
    case PullLock => case PullRequest => case PullUnlock =>
  }

  lemma ScLeavesEnds(s: Sys)
    requires ScStep(s).Some? && !s.sc.PutQueue? && !s.sc.GetTake?
    ensures SameEnds(s, ScStep(s).value)
  {
    match s.sc
    case GetLock => case GetWake => case GetRewait => case GetUnlock =>
    case PutLock(p) => case PutPrint(p) => case PutWake => case PutRewait => case PutUnlock =>
    case UpPushLock => case UpPushTest => case UpPushUnlock =>
    case UpPullLock => case UpPullTest => case UpPullUnlock =>
  }

  lemma OsKeepsConserved(s: Sys)
    requires Conserved(s) && OsStep(s).Some?
    ensures Conserved(OsStep(s).value)
  {
    match s.os
    case PushQueue(p) => FifoIn(s.pushed, s.got, s.f.toSysc, p);
    case PullTake =>
      if s.f.fmSysc != [] {
        FifoOut(s.put, s.pulled, s.f.fmSysc);
      }
    case _ => OsLeavesEnds(s);
  }

  lemma ScKeepsConserved(s: Sys)
    requires Conserved(s) && ScStep(s).Some?
    ensures Conserved(ScStep(s).value)
  {
    match s.sc
    case PutQueue(p) => FifoIn(s.put, s.pulled, s.f.fmSysc, p);
    case GetTake =>
      if s.f.toSysc != [] {
        FifoOut(s.pushed, s.got, s.f.toSysc);
      }
    case _ => ScLeavesEnds(s);
  }

  lemma OsKeepsLocks(s: Sys)
    requires Locks(s) && OsStep(s).Some?
    ensures Locks(OsStep(s).value)
  {
    match s.os
    case PushLock(p) => case PushQueue(p) => case PushRequest => case PushUnlock =>
    case WaitPutLock => case WaitPutUnlock => case WaitGetLock => case WaitGetUnlock =>
    case PullLock => case PullTake => case PullRequest => case PullUnlock =>
  }

  lemma GetKeepsLocks(s: Sys)
    requires Locks(s) && s.sc.InGet() && ScStep(s).Some?
    ensures Locks(ScStep(s).value)
  {
    match s.sc
    case GetLock => case GetTake => case GetWake => case GetRewait => case GetUnlock =>
  }

  lemma PutKeepsLocks(s: Sys)
    requires Locks(s) && s.sc.InPut() && ScStep(s).Some?
    ensures Locks(ScStep(s).value)
  {
    match s.sc
    case PutLock(p) => case PutQueue(p) => case PutPrint(p) => case PutWake => case PutRewait => case PutUnlock =>
  }

  lemma UpdateKeepsLocks(s: Sys)
    requires Locks(s) && s.sc.InUpdate() && ScStep(s).Some?
    ensures Locks(ScStep(s).value)
  {
    match s.sc
    case UpPushLock => case UpPushTest => case UpPushUnlock =>
    case UpPullLock => case UpPullTest => case UpPullUnlock =>
  }

  lemma ScKeepsLocks(s: Sys)
    requires Locks(s) && ScStep(s).Some?
    ensures Locks(ScStep(s).value)
  {
    if s.sc.InGet() {
      GetKeepsLocks(s);
    } else if s.sc.InPut() {
      PutKeepsLocks(s);
    } else {
      UpdateKeepsLocks(s);
    }
  }

  lemma OsKeepsTold(s: Sys)
    requires Locks(s) && ToldOfPushes(s) && ToldOfPulls(s) && OsStep(s).Some?
    ensures ToldOfPushes(OsStep(s).value)
    ensures ToldOfPulls(OsStep(s).value)
  {
    match s.os
    case PushLock(p) => case PushQueue(p) => case PushRequest => case PushUnlock =>
    case WaitPutLock => case WaitPutUnlock => case WaitGetLock => case WaitGetUnlock =>
    case PullLock => case PullTake => case PullRequest => case PullUnlock =>
  }

  lemma GetKeepsTold(s: Sys)
    requires Locks(s) && ToldOfPushes(s) && ToldOfPulls(s) && s.sc.InGet() && ScStep(s).Some?
    ensures ToldOfPushes(ScStep(s).value)
    ensures ToldOfPulls(ScStep(s).value)
  {
    match s.sc
    case GetLock => case GetTake => case GetWake => case GetRewait => case GetUnlock =>
  }

  lemma PutKeepsTold(s: Sys)
    requires Locks(s) && ToldOfPushes(s) && ToldOfPulls(s) && s.sc.InPut() && ScStep(s).Some?
    ensures ToldOfPushes(ScStep(s).value)
    ensures ToldOfPulls(ScStep(s).value)
  {
    match s.sc
    case PutLock(p) => case PutQueue(p) => case PutPrint(p) => case PutWake => case PutRewait => case PutUnlock =>
  }

  lemma UpdateKeepsTold(s: Sys)
    requires Locks(s) && ToldOfPushes(s) && ToldOfPulls(s) && s.sc.InUpdate() && ScStep(s).Some?
    ensures ToldOfPushes(ScStep(s).value)
    ensures ToldOfPulls(ScStep(s).value)
  {
    match s.sc
    case UpPushLock => case UpPushTest => case UpPushUnlock =>
    case UpPullLock => case UpPullTest => case UpPullUnlock =>
  }

  lemma ScKeepsTold(s: Sys)
    requires Locks(s) && ToldOfPushes(s) && ToldOfPulls(s) && ScStep(s).Some?
    ensures ToldOfPushes(ScStep(s).value)
    ensures ToldOfPulls(ScStep(s).value)
  {
    if s.sc.InGet() {
      GetKeepsTold(s);
    } else if s.sc.InPut() {
      PutKeepsTold(s);
    } else {
      UpdateKeepsTold(s);
    }
  }

  lemma CallKeepsInv(s: Sys, a: Action)
    requires Inv(s) && Step(s, a).Some? && !a.OsMoves? && !a.ScMoves?
    ensures Inv(Step(s, a).value)
  {
  }

  lemma StepKeepsInv(s: Sys, a: Action)
    requires Inv(s) && Step(s, a).Some?
    ensures Inv(Step(s, a).value)
  {
    match a
    case OsMoves =>
      OsKeepsLocks(s);
      OsKeepsConserved(s);
      OsKeepsTold(s);
    case ScMoves =>
      ScKeepsLocks(s);
      ScKeepsConserved(s);
      ScKeepsTold(s);
    case _ =>
      CallKeepsInv(s, a);
  }

  lemma {:induction false} RunKeepsInv(s: Sys, actions: seq<Action>)
    requires Inv(s) && Run(s, actions).Some?
    ensures Inv(Run(s, actions).value)
    decreases |actions|
  {
    if actions == [] {
    } else {
      StepKeepsInv(s, actions[0]);
      RunKeepsInv(Step(s, actions[0]).value, actions[1..]);
    }
  }

  /** Safety of the channel on every interleaving of every sequence of calls. */
  lemma EveryRunIsSafe(actions: seq<Action>)
    requires Run(Start(), actions).Some?
    ensures Inv(Run(Start(), actions).value)
  {
    RunKeepsInv(Start(), actions);
  }

  // ---------------------------------------------------------------------------
  // Blocking.
  // ---------------------------------------------------------------------------

  /** The thread is inside an operation and its next step is a lock that it cannot have. */
  predicate OsBlocked(s: Sys) {
    !s.os.OsIdle? && OsStep(s).None?
  }

  predicate ScBlocked(s: Sys) {
    !s.sc.ScIdle? && ScStep(s).None?
  }

  /** Steps until the OS thread, inside a critical section, has left it. */
  function OsHold(pc: OsPc): nat {
    match pc
    case PushQueue(_) => 3
    case PushRequest => 2
    case PushUnlock => 1
    case WaitPutUnlock => 1
    case WaitGetUnlock => 1
    case PullTake => 3
    case PullRequest => 2
    case PullUnlock => 1
    case _ => 0
  }

  /**
   The OS thread holds at most one channel mutex and never waits for one while holding another: while it
   keeps SystemC waiting it has a step, that step brings it nearer to letting go, and at zero it has let go.
   */
  lemma OsLetsGo(s: Sys)
    requires Locks(s) && ScBlocked(s)
    ensures OsHold(s.os) > 0 && OsStep(s).Some?
    ensures var t := OsStep(s).value;
            && OsHold(t.os) < OsHold(s.os)
            && t.sc == s.sc
            && (OsHold(t.os) == 0 ==> !ScBlocked(t))
  {
  }

  /** k steps of the OS thread alone. */
  function OsAlone(s: Sys, k: nat): Option<Sys>
    decreases k
  {
    if k == 0 then Some(s)
    else
      match OsStep(s)
      case None => None
      case Some(t) => OsAlone(t, k - 1)
  }

  /** SystemC is never blocked for ever: at most three steps of the OS thread alone free it. */
  lemma {:induction false} ScIsFreed(s: Sys)
    requires Locks(s) && ScBlocked(s)
    ensures exists k :: 1 <= k <= OsHold(s.os) <= 3 && OsAlone(s, k).Some? && !ScBlocked(OsAlone(s, k).value)
    decreases OsHold(s.os)
  {
    OsLetsGo(s);
    var t := OsStep(s).value;
    OsKeepsLocks(s);
    if ScBlocked(t) {
      ScIsFreed(t);
      var k :| 1 <= k <= OsHold(t.os) && OsAlone(t, k).Some? && !ScBlocked(OsAlone(t, k).value);
      assert OsAlone(s, k + 1) == OsAlone(t, k);
    } else {
      assert OsAlone(s, 1) == OsAlone(t, 0);
    }
  }

  /** The two threads never block each other. */
  lemma NoDeadlock(s: Sys)
    requires Locks(s)
    ensures !(OsBlocked(s) && ScBlocked(s))
  {
  }

  // ---------------------------------------------------------------------------
  // Undisturbed, the steps of an operation add up to the operation.
  // ---------------------------------------------------------------------------

  /** k steps of the SystemC thread alone. */
  function ScAlone(s: Sys, k: nat): Option<Sys>
    decreases k
  {
    if k == 0 then Some(s)
    else
      match ScStep(s)
      case None => None
      case Some(t) => ScAlone(t, k - 1)
  }

  lemma OsAloneNext(s: Sys, k: nat)
    requires k > 0 && OsStep(s).Some?
    ensures OsAlone(s, k) == OsAlone(OsStep(s).value, k - 1)
  {
  }

  lemma ScAloneNext(s: Sys, k: nat)
    requires k > 0 && ScStep(s).Some?
    ensures ScAlone(s, k) == ScAlone(ScStep(s).value, k - 1)
  {
  }

  lemma StepsOfPush(s: Sys, p: Ptr)
    requires s.os == PushLock(p) && s.f.mTo == Free
    ensures OsAlone(s, 4) == Some(s.(f := Pushed(s.f, p), os := OsIdle, pushed := s.pushed + [p]))
  {
    OsAloneNext(s, 4);
    var s1 := OsStep(s).value;
    OsAloneNext(s1, 3);
    var s2 := OsStep(s1).value;
    OsAloneNext(s2, 2);
    var s3 := OsStep(s2).value;
    OsAloneNext(s3, 1);
  }

  lemma StepsOfNbPull(s: Sys)
    requires s.os == PullLock && s.f.mFm == Free
    ensures var k := if s.f.fmSysc == [] then 3 else 4;
            && OsAlone(s, k).Some?
            && OsAlone(s, k).value ==
               s.(f := Pulled(s.f), os := OsIdle, osResult := Oldest(s.f.fmSysc),
                  pulled := if s.f.fmSysc == [] then s.pulled else s.pulled + [Last(s.f.fmSysc)])
  {
    var k := if s.f.fmSysc == [] then 3 else 4;
    OsAloneNext(s, k);
    var s1 := OsStep(s).value;
    OsAloneNext(s1, k - 1);
    var s2 := OsStep(s1).value;
    OsAloneNext(s2, k - 2);
    var s3 := OsStep(s2).value;
    if s.f.fmSysc != [] {
      OsAloneNext(s3, 1);
    }
  }

  /** wait_for_put, when it finds the mutex free. */
  lemma StepsOfWaitForPut(s: Sys)
    requires s.os == WaitPutLock && s.f.mWaitPut == Free
    ensures OsAlone(s, 2) == Some(s.(os := OsIdle))
  {
    OsAloneNext(s, 2);
    OsAloneNext(OsStep(s).value, 1);
  }

  /** wait_for_get, when it finds the mutex free; it finds it so only inside the wake-up of nb_get. */
  lemma StepsOfWaitForGet(s: Sys)
    requires s.os == WaitGetLock && Locks(s)
    ensures OsStep(s).Some? <==> s.sc == GetRewait
    ensures s.f.mWaitGet == Free ==> OsAlone(s, 2) == Some(s.(os := OsIdle))
  {
    if s.f.mWaitGet == Free {
      OsAloneNext(s, 2);
      OsAloneNext(OsStep(s).value, 1);
    }
  }

  /** A thread that is in no operation can begin any of its own; update only when it was asked for. */
  lemma EveryCallCanBegin(s: Sys, p: Ptr)
    ensures s.os == OsIdle ==>
              && Step(s, CallPush(p)) == Some(s.(os := PushLock(p)))
              && Step(s, CallWaitForPut) == Some(s.(os := WaitPutLock))
              && Step(s, CallWaitForGet) == Some(s.(os := WaitGetLock))
              && Step(s, CallNbPull) == Some(s.(os := PullLock))
    ensures s.sc == ScIdle ==>
              && Step(s, CallNbGet) == Some(s.(sc := GetLock))
              && Step(s, CallNbPut(p)) == Some(s.(sc := PutLock(p)))
              && (Step(s, AcceptUpdate).Some? <==> s.f.updateRequested)
              && Step(s, DeliverEvents) == Some(s.(f := s.f.(putEvent := false, getEvent := false)))
  {
  }

  lemma StepsOfNbGet(s: Sys)
    requires s.sc == GetLock && s.f.mTo == Free && s.f.mWaitGet == BySysc
    ensures var k := if s.f.toSysc == [] then 3 else 5;
            && ScAlone(s, k).Some?
            && ScAlone(s, k).value ==
               s.(f := Got(s.f), sc := ScIdle, scResult := Oldest(s.f.toSysc),
                  got := if s.f.toSysc == [] then s.got else s.got + [Last(s.f.toSysc)])
  {
    var k := if s.f.toSysc == [] then 3 else 5;
    ScAloneNext(s, k);
    var s1 := ScStep(s).value;
    ScAloneNext(s1, k - 1);
    var s2 := ScStep(s1).value;
    ScAloneNext(s2, k - 2);
    var s3 := ScStep(s2).value;
    if s.f.toSysc != [] {
      ScAloneNext(s3, 2);
      var s4 := ScStep(s3).value;
      ScAloneNext(s4, 1);
    }
  }

  /** nb_put as far as its unlock of m_mutex_wait_put. */
  lemma StepsToWakeUp(s: Sys, p: Ptr)
    requires s.sc == PutLock(p) && s.f.mFm == Free && s.f.mWaitPut == BySysc
    ensures ScAlone(s, 4) ==
            Some(s.(f := Put(s.f, p).(mFm := BySysc, mWaitPut := Free), sc := PutRewait, put := s.put + [p]))
  {
    ScAloneNext(s, 4);
    var s1 := ScStep(s).value;
    ScAloneNext(s1, 3);
    var s2 := ScStep(s1).value;
    ScAloneNext(s2, 2);
    var s3 := ScStep(s2).value;
    ScAloneNext(s3, 1);
  }

  /** The rest of nb_put, once nobody else has that mutex. */
  lemma StepsAfterWakeUp(s: Sys)
    requires s.sc == PutRewait && s.f.mWaitPut == Free
    ensures ScAlone(s, 2) == Some(s.(f := s.f.(mFm := Free, mWaitPut := BySysc), sc := ScIdle))
  {
    ScAloneNext(s, 2);
    var s1 := ScStep(s).value;
    ScAloneNext(s1, 1);
  }

  lemma {:induction false} ScAloneSum(s: Sys, j: nat, k: nat)
    requires ScAlone(s, j).Some?
    ensures ScAlone(s, j + k) == ScAlone(ScAlone(s, j).value, k)
    decreases j
  {
    if j == 0 {
    } else {
      ScAloneSum(ScStep(s).value, j - 1, k);
    }
  }

  lemma StepsOfNbPut(s: Sys, p: Ptr)
    requires s.sc == PutLock(p) && s.f.mFm == Free && s.f.mWaitPut == BySysc
    ensures ScAlone(s, 6) == Some(s.(f := Put(s.f, p), sc := ScIdle, put := s.put + [p]))
  {
    StepsToWakeUp(s, p);
    ScAloneSum(s, 4, 2);
    StepsAfterWakeUp(ScAlone(s, 4).value);
  }

  lemma StepsOfPushSection(s: Sys)
    requires s.sc == UpPushLock && s.f.mTo == Free
    ensures ScAlone(s, 3) ==
            Some(s.(f := s.f.(putEvent := s.f.putEvent || s.f.didPush, didPush := false), sc := UpPullLock,
                    toldPushes := if s.f.didPush then |s.pushed| else s.toldPushes))
  {
    ScAloneNext(s, 3);
    var s1 := ScStep(s).value;
    ScAloneNext(s1, 2);
    var s2 := ScStep(s1).value;
    ScAloneNext(s2, 1);
  }

  lemma StepsOfPullSection(s: Sys)
    requires s.sc == UpPullLock && s.f.mFm == Free
    ensures ScAlone(s, 3) ==
            Some(s.(f := s.f.(getEvent := s.f.getEvent || s.f.didPull, didPull := false), sc := ScIdle,
                    toldPulls := if s.f.didPull then |s.pulled| else s.toldPulls))
  {
    ScAloneNext(s, 3);
    var s1 := ScStep(s).value;
    ScAloneNext(s1, 2);
    var s2 := ScStep(s1).value;
    ScAloneNext(s2, 1);
  }

  lemma StepsOfUpdate(s: Sys)
    requires s.sc == UpPushLock && s.f.mTo == Free && s.f.mFm == Free
    ensures ScAlone(s, 6) ==
            Some(s.(f := Updated(s.f), sc := ScIdle,
                    toldPushes := if s.f.didPush then |s.pushed| else s.toldPushes,
                    toldPulls := if s.f.didPull then |s.pulled| else s.toldPulls))
  {
    StepsOfPushSection(s);
    ScAloneSum(s, 3, 3);
    StepsOfPullSection(ScAlone(s, 3).value);
  }
}
