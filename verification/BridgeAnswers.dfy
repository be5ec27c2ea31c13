/** Which waits of the OS thread come to an end, and which requests are answered. */
module BridgeAnswers {
  import opened Tlmx
  import opened Machine
  import opened Channel
  import opened Bridge
  import opened BridgeSafety
  import opened BridgeRefinement
  import opened BridgeTime
  import opened BridgeProgress
  import opened BridgeTheorems

  // ---------------------------------------------------------------------------
  // SystemC lets the OS thread through.
  // ---------------------------------------------------------------------------

  predicate OnlySysc(acts: seq<Act>) {
    forall i :: 0 <= i < |acts| ==> acts[i].ScActs?
  }

  /** SystemC has moved: the OS thread is where it was, and no response has been lost. */
  predicate Later(s: State, t: State) {
    && t.os == s.os && t.ch.os == s.ch.os && t.stopRequested == s.stopRequested
    && (!Lost(s) ==> !Lost(t))
  }

  lemma LaterStill(s: State, t: State, u: State)
    requires Later(s, t) && Later(t, u)
    ensures Later(s, u)
  {
  }

  lemma ScIsLater(s: State, pick: Pick)
    requires StillWaiting(s) && ScGo(s, pick).Some?
    ensures var t := ScGo(s, pick).value;
            Later(s, t) && !Hopeless(t) && (Waits(t) ==> Rank(t) < Rank(s))
  {
    ScProgress(s, pick);
    ScLeavesOs(s, pick);
  }

  /** One step of SystemC, from a state in which the OS thread waits, but not in vain. */
  lemma SyscStep(m: Machine, s: State, pick: Pick) returns (t: State)
    requires Good(m, s) && Waits(s) && !Hopeless(s) && ScGo(s, pick).Some?
    ensures Bridge.Next(s, ScActs(pick)) == Some(t) && Good(m, t) && Later(s, t)
    ensures !Hopeless(t) && (Waits(t) ==> Rank(t) < Rank(s))
  {
    t := ScGo(s, pick).value;
    assert Bridge.Next(s, ScActs(pick)) == Some(t);
    NextIsGood(m, s, ScActs(pick));
    ScIsLater(s, pick);
  }

  lemma RankIsPositive(s: State)
    requires StillWaiting(s)
    ensures Rank(s) > 0
  {
  }

  lemma SomeSyscStep(m: Machine, s: State) returns (pick: Pick, t: State)
    requires Good(m, s) && Waits(s) && !Hopeless(s)
    ensures Bridge.Next(s, ScActs(pick)) == Some(t)
    ensures Good(m, t) && Later(s, t) && !Hopeless(t) && 0 < Rank(s) && (Waits(t) ==> Rank(t) < Rank(s))
  {
    pick := ScHasAStep(s);
    RankIsPositive(s);
    t := SyscStep(m, s, pick);
  }

  lemma ThenTheRest(s: State, pick: Pick, t: State, rest: seq<Act>)
    requires Bridge.Next(s, ScActs(pick)) == Some(t) && Later(s, t)
    requires OnlySysc(rest) && Play(t, rest).Some? && Later(t, Play(t, rest).value)
    ensures OnlySysc([ScActs(pick)] + rest) && Play(s, [ScActs(pick)] + rest) == Play(t, rest)
    ensures Later(s, Play(t, rest).value)
  {
    PlayCons(s, ScActs(pick), rest);
    LaterStill(s, t, Play(t, rest).value);
  }

  /** An OS thread that waits, but not in vain, can always be let through by SystemC alone. */
  lemma {:induction false} SyscLetsItThrough(m: Machine, s: State) returns (acts: seq<Act>)
    requires Good(m, s) && !Hopeless(s)
    ensures OnlySysc(acts) && |acts| <= Rank(s) && Play(s, acts).Some?
    ensures Later(s, Play(s, acts).value) && !Waits(Play(s, acts).value)
    decreases Rank(s)
  {
    acts := [];
    if Waits(s) {
      var pick, t := SomeSyscStep(m, s);
      if Waits(t) {
        acts := SyscLetsItThrough(m, t);
      }
      ThenTheRest(s, pick, t, acts);
      acts := [ScActs(pick)] + acts;
    }
  }

  ghost predicate LetThroughAt(s: State, acts: seq<Act>, k: nat)
    requires k <= |acts|
  {
    Play(s, acts[..k]).Some? && !Waits(Play(s, acts[..k]).value)
  }

  /** Some prefix of the course leads to a state in which the OS thread does not wait. */
  ghost predicate LetThroughAlong(s: State, acts: seq<Act>) {
    exists k :: 0 <= k <= |acts| && LetThroughAt(s, acts, k)
  }

  lemma LetThroughLater(s: State, a: Act, rest: seq<Act>)
    requires Bridge.Next(s, a).Some? && LetThroughAlong(Bridge.Next(s, a).value, rest)
    ensures LetThroughAlong(s, [a] + rest)
  {
    var k :| 0 <= k <= |rest| && LetThroughAt(Bridge.Next(s, a).value, rest, k);
    PlayCons(s, a, rest[..k]);
    assert ([a] + rest)[..k + 1] == [a] + rest[..k];
    assert LetThroughAt(s, [a] + rest, k + 1);
  }

  /** And it is let through on every course that SystemC may take: none is longer than the rank. */
  lemma {:induction false} LetThroughIsInevitable(m: Machine, s: State, acts: seq<Act>)
    requires Good(m, s) && !Hopeless(s)
    requires OnlySysc(acts) && |acts| >= Rank(s) && Play(s, acts).Some?
    ensures LetThroughAlong(s, acts)
    decreases Rank(s)
  {
    if !Waits(s) {
      assert LetThroughAt(s, acts, 0);
    } else {
      RankIsPositive(s);
      var rest := acts[1..];
      assert acts == [acts[0]] + rest;
      var t := SyscStep(m, s, acts[0].pick);
      if Waits(t) {
        LetThroughIsInevitable(m, t, rest);
      } else {
        assert LetThroughAt(t, rest, 0);
      }
      LetThroughLater(s, acts[0], rest);
    }
  }

  // ---------------------------------------------------------------------------
  // Waiting for ever.
  // ---------------------------------------------------------------------------

  lemma {:induction false} PlayKeepsLost(m: Machine, s: State, acts: seq<Act>)
    requires Good(m, s) && Lost(s) && Play(s, acts).Some?
    ensures var t := Play(s, acts).value;
            Good(m, t) && Lost(t) && t.os.replies == s.os.replies && (Hopeless(s) ==> Hopeless(t))
    decreases |acts|
  {
    if acts == [] {
    } else {
      NextIsGood(m, s, acts[0]);
      NextKeepsLost(s, acts[0]);
      PlayKeepsLost(m, Bridge.Next(s, acts[0]).value, acts[1..]);
    }
  }

  /** The OS thread waits now and in every state that can follow. */
  ghost predicate WaitsForEver(s: State) {
    forall t :: Leads(s, t) ==> Waits(t)
  }

  /** The OS thread is blocked for ever exactly when it waits at the lock of wait_for_put for a lost response. */
  lemma WaitsForEverIsHopeless(m: Machine, s: State)
    requires Reachable(m, s)
    ensures WaitsForEver(s) <==> Hopeless(s)
  {
    ReachableIsGood(m, s);
    if Hopeless(s) {
      forall t | Leads(s, t)
        ensures Waits(t)
      {
        var acts :| Play(s, acts) == Some(t);
        PlayKeepsLost(m, s, acts);
        HopelessWaits(t);
      }
    } else {
      var acts := SyscLetsItThrough(m, s);
      assert Leads(s, Play(s, acts).value);
    }
  }

  /** Responses are cut off only after a stop request. */
  lemma OnlyStopsCutOff(s: State)
    requires Control(s) && Alive(s) && !s.stopRequested
    ensures !CutOff(s)
    ensures Hopeless(s) <==> Stuck(s)
  {
  }

  /** With no stop request it has then come too late for the unlock in nb_put, with its response in the queue. */
  lemma WaitsForEverIsStuck(m: Machine, s: State)
    requires Reachable(m, s) && !s.stopRequested
    ensures WaitsForEver(s) <==> Stuck(s)
  {
    ReachableIsGood(m, s);
    OnlyStopsCutOff(s);
    WaitsForEverIsHopeless(m, s);
  }

  // ---------------------------------------------------------------------------
  // Answers.
  // ---------------------------------------------------------------------------

  /** Steps of the OS thread before its response is sent. */
  function OsRank(s: State): nat {
    var inside :=
      match s.ch.os
      case PushLock(_) => 5
      case PushQueue(_) => 4
      case PushRequest => 3
      case PushUnlock => 2
      case WaitPutLock => 3
      case WaitPutUnlock => 2
      case PullLock => 5
      case PullTake => 4
      case PullRequest => 3
      case PullUnlock => 2
      case _ => 1;
    match s.os.loop
    case Pushing => 10 + inside
    case Waiting => 6 + inside
    case _ => inside
  }

  lemma OsInsideLosesNothing(s: State)
    requires Control(s) && OneOut(s) && !Lost(s) && OsInside(s).Some?
    ensures !Lost(OsInside(s).value)
  {
    match s.ch.os
    case PushLock(p) => case PushQueue(p) => case PushRequest => case PushUnlock =>
    case WaitPutLock => case WaitPutUnlock =>
    case PullLock => case PullTake => case PullRequest => case PullUnlock =>
    case _ =>
  }

  predicate Answers(m: Machine, s: State, t: State)
    requires OneOut(s)
  {
    && t.os.requests == s.os.requests && t.stopRequested == s.stopRequested
    && t.os.replies == s.os.replies + [LatestReply(m, s.os.requests)]
  }

  /** The latest request can still get the machine's reply. */
  ghost predicate CanBeAnswered(m: Machine, s: State)
    requires OneOut(s)
  {
    exists t :: Leads(s, t) && Answers(m, s, t)
  }

  predicate SameExchange(s: State, t: State) {
    t.os.requests == s.os.requests && t.os.replies == s.os.replies && t.stopRequested == s.stopRequested
  }

  /** The OS thread is about to send the response. */
  predicate AboutToSend(s: State) {
    s.os.loop.Pulling? && s.ch.os.OsIdle?
  }

  lemma OsInsideGoesOn(s: State)
    requires Control(s) && OneOut(s) && !Lost(s) && OsInside(s).Some?
    ensures var t := OsInside(s).value; SameExchange(s, t) && !Lost(t) && OsRank(t) < OsRank(s)
  {
    OsInsideLosesNothing(s);
    match s.ch.os
    case PushLock(p) => case PushQueue(p) => case PushRequest => case PushUnlock =>
    case WaitPutLock => case WaitPutUnlock =>
    case PullLock => case PullTake => case PullRequest => case PullUnlock =>
    case _ =>
  }

  lemma OsBetweenGoesOn(s: State)
    requires Control(s) && OneOut(s) && !Lost(s) && s.ch.os.OsIdle? && !s.os.loop.Pulling?
    ensures OsBetween(s).Some?
    ensures var t := OsBetween(s).value; SameExchange(s, t) && !Lost(t) && OsRank(t) < OsRank(s)
  {
    match s.os.loop
    case Pushing =>
    case Waiting =>
  }

  lemma OsSends(m: Machine, s: State)
    requires Control(s) && Refines(m, s) && OneOut(s) && AboutToSend(s)
    ensures OsBetween(s).Some? && Answers(m, s, OsBetween(s).value)
  {
    SendIsReply(m, s);
  }

  /** The request has been answered, or its answer is nearer by a step of the OS thread. */
  predicate GoneOn(m: Machine, s: State, t: State, sent: bool)
    requires OneOut(s)
  {
    if sent then Answers(m, s, t) else SameExchange(s, t) && !Lost(t) && OsRank(t) < OsRank(s)
  }

  /** The response is on its way: one step of the OS thread sends it, or brings it nearer. */
  lemma OsGoesOn(m: Machine, s: State) returns (t: State)
    requires Good(m, s) && OneOut(s) && !Lost(s) && !Waits(s)
    ensures Bridge.Next(s, OsActs) == Some(t) && GoneOn(m, s, t, AboutToSend(s))
  {
    if !s.ch.os.OsIdle? {
      OsInsideGoesOn(s);
    } else if AboutToSend(s) {
      OsSends(m, s);
    } else {
      OsBetweenGoesOn(s);
    }
    t := OsGo(s).value;
  }

  lemma OsRunsOn(m: Machine, s: State) returns (t: State)
    requires Reachable(m, s) && OneOut(s) && !Lost(s) && !Waits(s)
    ensures Leads(s, t) && GoneOn(m, s, t, AboutToSend(s))
  {
    ReachableIsGood(m, s);
    t := OsGoesOn(m, s);
    OneStep(s, OsActs);
  }

  lemma GoneOnSince(m: Machine, s: State, t: State, u: State, sent: bool)
    requires OneOut(s) && Later(s, t) && !Lost(t) && GoneOn(m, t, u, sent)
    ensures GoneOn(m, s, u, sent)
  {
  }

  /** What answers the request later answers it now. */
  lemma AnswerIsTheSame(m: Machine, s: State, t: State, u: State)
    requires OneOut(s) && SameExchange(s, t) && Answers(m, t, u)
    ensures Answers(m, s, u)
  {
  }

  lemma WaitIsOver(m: Machine, s: State) returns (t: State)
    requires Reachable(m, s) && !Hopeless(s)
    ensures Leads(s, t) && Later(s, t) && !Waits(t)
  {
    ReachableIsGood(m, s);
    var acts := SyscLetsItThrough(m, s);
    t := Play(s, acts).value;
  }

  /** SystemC lets the OS thread through, and it takes one step. */
  lemma OneStepOn(m: Machine, s: State) returns (sent: bool, u: State)
    requires Reachable(m, s) && OneOut(s) && !Lost(s)
    ensures Leads(s, u)
    ensures GoneOn(m, s, u, sent)
  {
    var t := WaitIsOver(m, s);
    LeadsOn(Initial(m), s, t);
    sent := AboutToSend(t);
    u := OsRunsOn(m, t);
    LeadsOn(s, t, u);
    GoneOnSince(m, s, t, u, sent);
  }

  /** If it is not lost, the two threads alone can bring it to its end. */
  lemma {:induction false} AnswerComes(m: Machine, s: State) returns (u: State)
    requires Reachable(m, s) && OneOut(s) && !Lost(s)
    ensures Leads(s, u) && Answers(m, s, u)
    decreases OsRank(s)
  {
    var sent, t := OneStepOn(m, s);
    u := t;
    if !sent {
      LeadsOn(Initial(m), s, t);
      u := AnswerComes(m, t);
      LeadsOn(s, t, u);
      AnswerIsTheSame(m, s, t, u);
    }
  }

  /**
   A request that was read can still be answered exactly when its response is not lost; and if it is lost,
   nothing is ever sent again.
   */
  lemma AnsweredUnlessLost(m: Machine, s: State)
    requires Reachable(m, s) && OneOut(s)
    ensures CanBeAnswered(m, s) <==> !Lost(s)
    ensures Lost(s) ==> forall t :: Leads(s, t) ==> t.os.replies == s.os.replies
  {
    ReachableIsGood(m, s);
    if Lost(s) {
      forall t | Leads(s, t)
        ensures t.os.replies == s.os.replies
      {
        var acts :| Play(s, acts) == Some(t);
        PlayKeepsLost(m, s, acts);
      }
    } else {
      var t := AnswerComes(m, s);
    }
  }

  /** With no stop request: exactly when nb_put is not over before the OS thread has been let through. */
  lemma AnsweredUnlessMissed(m: Machine, s: State)
    requires Reachable(m, s) && OneOut(s) && !s.stopRequested
    ensures CanBeAnswered(m, s) <==> !Missed(s)
  {
    ReachableIsGood(m, s);
    OnlyStopsCutOff(s);
    AnsweredUnlessLost(m, s);
  }

  lemma PastWaitIsNotLost(s: State)
    requires Control(s) && OneOut(s) && PastWait(s)
    ensures !Lost(s) && OsRank(s) <= 8
  {
  }

  lemma ScStaysThrough(s: State, pick: Pick)
    requires OneOut(s) && PastWait(s) && ScGo(s, pick).Some?
    ensures var t := ScGo(s, pick).value; OneOut(t) && PastWait(t) && OsRank(t) == OsRank(s)
  {
    ScLeavesOs(s, pick);
  }

  lemma OsStaysThrough(s: State)
    requires Control(s) && OneOut(s) && PastWait(s) && OsGo(s).Some? && !AboutToSend(s)
    ensures var t := OsGo(s).value; OneOut(t) && PastWait(t) && OsRank(t) < OsRank(s)
  {
    if s.ch.os.OsIdle? {
      match s.os.loop
      case Waiting =>
    } else {
      match s.ch.os
      case WaitPutUnlock =>
      case PullLock => case PullTake => case PullRequest => case PullUnlock =>
    }
  }

  /**
   Once the OS thread has had the mutex nothing can go wrong: on every step of anyone its response stays safe,
   none but its own steps matter, and each of these, of which there are at most eight, brings the response nearer
   or sends it.
   */
  lemma OnceThrough(m: Machine, s: State, a: Act)
    requires Good(m, s) && OneOut(s) && PastWait(s) && Bridge.Next(s, a).Some?
    ensures !Lost(s) && OsRank(s) <= 8
    ensures var t := Bridge.Next(s, a).value;
            if a.OsActs? && AboutToSend(s) then Answers(m, s, t)
            else OneOut(t) && PastWait(t) && if a.OsActs? then OsRank(t) < OsRank(s) else OsRank(t) == OsRank(s)
  {
    PastWaitIsNotLost(s);
    match a
    case ArriveExit =>
    case OsActs =>
      if AboutToSend(s) {
        OsSends(m, s);
      } else {
        OsStaysThrough(s);
      }
    case ScActs(pick) => ScStaysThrough(s, pick);
    case Signal =>
  }

  // ---------------------------------------------------------------------------
  // How it comes to that.
  // ---------------------------------------------------------------------------

  lemma OsInsideMissesNothing(s: State)
    requires Control(s) && !Missed(s) && OsInside(s).Some?
    ensures !Missed(OsInside(s).value)
  {
    match s.ch.os
    case PushLock(p) => case PushQueue(p) => case PushRequest => case PushUnlock =>
    case WaitPutLock => case WaitPutUnlock =>
    case PullLock => case PullTake => case PullRequest => case PullUnlock =>
    case _ =>
  }

  lemma GetMissesNothing(s: State)
    requires Control(s) && !Missed(s) && s.kernel.Running? && s.ch.sc.InGet() && ScInside(s).Some?
    ensures !Missed(ScInside(s).value)
  {
    match s.ch.sc
    case GetLock => case GetTake => case GetWake => case GetRewait => case GetUnlock =>
  }

  lemma PutMisses(s: State)
    requires Control(s) && !Missed(s) && s.kernel.Running? && s.ch.sc.InPut() && ScInside(s).Some?
    ensures Missed(ScInside(s).value) <==> s.ch.sc.PutRewait? && !PastWait(s)
  {
    match s.ch.sc
    case PutLock(p) => case PutQueue(p) => case PutPrint(p) => case PutWake => case PutRewait => case PutUnlock =>
  }

  lemma UpdateMissesNothing(s: State)
    requires Control(s) && !Missed(s) && s.kernel.Update? && ScInside(s).Some?
    ensures !Missed(ScInside(s).value)
  {
    match s.ch.sc
    case UpPushLock => case UpPushTest => case UpPushUnlock =>
    case UpPullLock => case UpPullTest => case UpPullUnlock =>
  }

  lemma InitiatorMissesNothing(s: State)
    requires Control(s) && !Missed(s) && s.kernel.Running? && s.ch.sc.ScIdle?
    ensures InitiatorGo(s).Some? && !Missed(InitiatorGo(s).value)
  {
    match s.ini.pc case WaitPut => case Putting => case Getting => case _ =>
  }

  lemma HowSystemCMisses(s: State, pick: Pick)
    requires Control(s) && !Missed(s) && ScGo(s, pick).Some?
    ensures Missed(ScGo(s, pick).value) <==> s.ch.sc.PutRewait? && !PastWait(s)
  {
    match s.kernel
    case Evaluate => match pick { case PickInitiator => case PickKeepAlive => case PickNone => }
    case Running =>
      if s.ch.sc.InGet() {
        GetMissesNothing(s);
      } else if s.ch.sc.InPut() {
        PutMisses(s);
      } else {
        InitiatorMissesNothing(s);
      }
    case Update =>
      if !s.ch.sc.ScIdle? {
        UpdateMissesNothing(s);
      }
    case DeltaNotify =>
    case Advance =>
  }

  /** A response is missed in exactly one way: nb_put takes the mutex back before the OS thread has had it. */
  lemma HowItIsMissed(s: State, a: Act)
    requires Control(s) && !Missed(s) && Bridge.Next(s, a).Some?
    ensures Missed(Bridge.Next(s, a).value) <==> a.ScActs? && s.ch.sc.PutRewait? && !PastWait(s)
  {
    match a
    case Arrive(r) =>
    case ArriveExit =>
    case OsActs =>
      if s.ch.os.OsIdle? {
        match s.os.loop {
          case Pushing => case Waiting => case _ =>
        }
      } else {
        OsInsideMissesNothing(s);
      }
    case ScActs(pick) => HowSystemCMisses(s, pick);
    case Signal =>
  }

  /**
   The OS thread gets stuck in exactly two ways: nb_put takes the mutex back while it waits for it, or it comes
   from push to wait_for_put when nb_put has taken it back already.
   */
  lemma HowItGetsStuck(s: State, a: Act)
    requires Control(s) && !Stuck(s) && Bridge.Next(s, a).Some?
    ensures Stuck(Bridge.Next(s, a).value) <==>
            || (a.ScActs? && s.ch.sc.PutRewait? && s.ch.os.WaitPutLock?)
            || (a.OsActs? && s.os.loop.Pushing? && s.ch.os.OsIdle? && Missed(s))
  {
    if Missed(s) {
      NextKeepsMissed(s, a);
    } else {
      HowItIsMissed(s, a);
    }
    if a.ScActs? {
      ScLeavesOs(s, a.pick);
    }
  }

  /** What a stuck state looks like: the answered request is the one response, and nobody has been told of anything. */
  lemma StuckLooksLike(m: Machine, s: State)
    requires Reachable(m, s) && Stuck(s)
    ensures var n := |s.os.requests|;
            && n == |s.os.replies| + 1 == |s.mem.packets|
            && s.ch.f.fmSysc == [n - 1] && s.ch.f.toSysc == []
            && s.ch.f.didPut && !s.ch.f.didPush && !s.ch.f.putEvent
            && s.ch.f.mWaitPut == BySysc
            && s.mem.packets[n - 1].status == LatestReply(m, s.os.requests).status
    ensures s.ini.pc.WaitPut? || s.ini.pc.Putting?
  {
    ReachableIsGood(m, s);
  }
}
