/** Runs that show that the conditions are met: a request that is answered, and two whose answer is never sent. */
module BridgeRuns {
  import opened Tlmx
  import opened Machine
  import opened Channel
  import opened ChannelSteps
  import opened Bridge
  import opened BridgeProgress
  import opened BridgeTheorems

  // ---------------------------------------------------------------------------
  // Putting runs together.
  // ---------------------------------------------------------------------------

  /** The OS thread runs alone inside the channel. */
  lemma {:induction false} OsRunsAlone(s: State, k: nat)
    requires OsAlone(s.ch, k).Some?
    ensures Leads(s, s.(ch := OsAlone(s.ch, k).value))
    decreases k
  {
    if k == 0 {
      assert Play(s, []) == Some(s);
      assert s == s.(ch := OsAlone(s.ch, 0).value);
    } else {
      OneStep(s, OsActs);
      OsRunsAlone(Bridge.Next(s, OsActs).value, k - 1);
      LeadsOn(s, Bridge.Next(s, OsActs).value, s.(ch := OsAlone(s.ch, k).value));
    }
  }

  /** SystemC has the channel to itself, from update or from the initiator. */
  lemma {:induction false} ScRunsAlone(s: State, k: nat)
    requires s.kernel.Update? || (s.kernel.Running? && (s.ini.pc.Getting? || s.ini.pc.Putting?))
    requires ScAlone(s.ch, k).Some?
    ensures Leads(s, s.(ch := ScAlone(s.ch, k).value))
    decreases k
  {
    if k == 0 {
      assert Play(s, []) == Some(s);
      assert s == s.(ch := ScAlone(s.ch, 0).value);
    } else {
      OneStep(s, ScActs(PickNone));
      ScRunsAlone(Bridge.Next(s, ScActs(PickNone)).value, k - 1);
      LeadsOn(s, Bridge.Next(s, ScActs(PickNone)).value, s.(ch := ScAlone(s.ch, k).value));
    }
  }

  // ---------------------------------------------------------------------------
  // The way of the first request, a debug access.
  // ---------------------------------------------------------------------------

  /** Pushed; the OS thread is back from push, or already at the lock in wait_for_put. */
  function AfterPush(m: Machine, r: Request, early: bool): State {
    var s := OsRead(Initial(m), r).value;
    s.(os := s.os.(loop := if early then Waiting else Pushing),
       ch := s.ch.(f := Pushed(s.ch.f, 0), os := if early then WaitPutLock else OsIdle, pushed := [0]))
  }

  lemma RunPush(m: Machine, r: Request, early: bool)
    ensures Leads(Initial(m), AfterPush(m, r, early))
  {
    var s := OsRead(Initial(m), r).value;
    OneStep(Initial(m), Arrive(r));
    StepsOfPush(s.ch, 0);
    OsRunsAlone(s, 4);
    var t := s.(ch := OsAlone(s.ch, 4).value);
    LeadsOn(Initial(m), s, t);
    assert s.ch.pushed + [0] == [0];
    assert t == AfterPush(m, r, false);
    if early {
      OneStep(t, OsActs);
      assert Bridge.Next(t, OsActs).value == AfterPush(m, r, true);
      LeadsOn(Initial(m), t, AfterPush(m, r, true));
    }
  }

  /** The kernel has passed the push on, and the initiator has been woken and runs. */
  function AfterWake(m: Machine, r: Request, early: bool): State {
    var s := AfterPush(m, r, early);
    s.(ini := s.ini.(wakes := 1), ka := s.ka.(runnable := true), kernel := Running,
       ch := s.ch.(f := s.ch.f.(didPush := false, updateRequested := false), toldPushes := 1))
  }

  lemma RunWake(m: Machine, r: Request, early: bool)
    ensures Leads(AfterPush(m, r, early), AfterWake(m, r, early))
  {
    var s := AfterPush(m, r, early);
    var s1 := BeginUpdate(s);
    OneStep(s, ScActs(PickNone));
    StepsOfUpdate(s1.ch);
    ScRunsAlone(s1, 6);
    var s2 := s1.(ch := ScAlone(s1.ch, 6).value);
    LeadsOn(s, s1, s2);
    var s3 := s2.(kernel := DeltaNotify);
    OneStep(s2, ScActs(PickNone));
    LeadsOn(s, s2, s3);
    OneStep(s3, ScActs(PickNone));
    LeadsOn(s, s3, Notify(s3));
    OneStep(Notify(s3), ScActs(PickInitiator));
    LeadsOn(s, Notify(s3), AfterWake(m, r, early));
  }

  /** The initiator has the packet. */
  function AfterGet(m: Machine, r: Request, early: bool): State {
    var s := AfterWake(m, r, early);
    s.(ka := WriteSignal(s.ka, false), ini := s.ini.(pc := Getting),
       ch := s.ch.(f := Got(s.ch.f), scResult := Some(0), got := [0]))
  }

  lemma RunGet(m: Machine, r: Request, early: bool)
    ensures Leads(AfterWake(m, r, early), AfterGet(m, r, early))
  {
    var s := AfterWake(m, r, early);
    OneStep(s, ScActs(PickNone));
    var s1 := Bridge.Next(s, ScActs(PickNone)).value;
    StepsOfNbGet(s1.ch);
    ScRunsAlone(s1, 5);
    assert s1.ch.got + [0] == [0];
    assert s1.(ch := ScAlone(s1.ch, 5).value) == AfterGet(m, r, early);
    LeadsOn(s, s1, AfterGet(m, r, early));
  }

  /** The response is in the queue and the baton is free: the one moment to take it. */
  function AtWakeUp(m: Machine, r: Request, early: bool): State {
    var s := SetStatus(TransactAt(AfterGet(m, r, early), 0));
    s.(ch := s.ch.(f := Put(s.ch.f, 0).(mFm := BySysc, mWaitPut := Free), sc := PutRewait, put := [0]))
  }

  lemma RunPut(m: Machine, r: Request, early: bool)
    requires r.header.command.IsDebug()
    ensures Leads(AfterGet(m, r, early), AtWakeUp(m, r, early))
  {
    var s := AfterGet(m, r, early);
    OneStep(s, ScActs(PickNone));
    var s1 := TransactAt(s, 0);
    assert PacketAt(s.mem, 0).header == r.header;
    OneStep(s1, ScActs(PickNone));
    var s2 := SetStatus(s1);
    LeadsOn(s, s1, s2);
    StepsToWakeUp(s2.ch, 0);
    ScRunsAlone(s2, 4);
    assert s2.ch.put + [0] == [0];
    assert s2.(ch := ScAlone(s2.ch, 4).value) == AtWakeUp(m, r, early);
    LeadsOn(s, s2, AtWakeUp(m, r, early));
  }

  lemma RunToWakeUp(m: Machine, r: Request, early: bool)
    requires r.header.command.IsDebug()
    ensures Reachable(m, AtWakeUp(m, r, early))
  {
    RunPush(m, r, early);
    RunWake(m, r, early);
    LeadsOn(Initial(m), AfterPush(m, r, early), AfterWake(m, r, early));
    RunGet(m, r, early);
    LeadsOn(Initial(m), AfterWake(m, r, early), AfterGet(m, r, early));
    RunPut(m, r, early);
    LeadsOn(Initial(m), AfterGet(m, r, early), AtWakeUp(m, r, early));
  }

  // ---------------------------------------------------------------------------
  // The two endings.
  // ---------------------------------------------------------------------------

  /** The OS thread is late: any first debug request can be carried out and its response never be pulled. */
  lemma ResponseCanBeMissed(m: Machine, r: Request)
    requires r.header.command.IsDebug()
    ensures exists t :: Reachable(m, t) && Stuck(t) && t.os.requests == [r] && t.os.replies == [] && !t.stopRequested
  {
    RunToWakeUp(m, r, false);
    var s := AtWakeUp(m, r, false);
    StepsAfterWakeUp(s.ch);
    ScRunsAlone(s, 2);
    var s1 := s.(ch := ScAlone(s.ch, 2).value);
    LeadsOn(Initial(m), s, s1);
    OneStep(s1, OsActs);
    var t := Bridge.Next(s1, OsActs).value;
    LeadsOn(Initial(m), s1, t);
    assert Reachable(m, t) && Stuck(t);
  }

  /** The OS thread takes the baton, and nb_put comes to its end. */
  lemma RunBaton(m: Machine, r: Request) returns (t: State)
    requires r.header.command.IsDebug()
    ensures Reachable(m, t) && t.os.requests == [r] && t.os.replies == []
    ensures t.os.loop.Waiting? && t.ch.os.OsIdle? && t.ch.f.mFm == Free && t.ch.f.fmSysc == [0]
  {
    RunToWakeUp(m, r, true);
    var s := AtWakeUp(m, r, true);
    StepsOfWaitForPut(s.ch);
    OsRunsAlone(s, 2);
    var s1 := s.(ch := OsAlone(s.ch, 2).value);
    LeadsOn(Initial(m), s, s1);
    StepsAfterWakeUp(s1.ch);
    ScRunsAlone(s1, 2);
    t := s1.(ch := ScAlone(s1.ch, 2).value);
    LeadsOn(Initial(m), s1, t);
  }

  lemma RunPull(m: Machine, s: State) returns (t: State)
    requires Reachable(m, s)
    requires s.os.loop.Waiting? && s.ch.os.OsIdle? && s.ch.f.mFm == Free && s.ch.f.fmSysc != []
    ensures Reachable(m, t) && t.os.loop.AtRead?
    ensures t.os.requests == s.os.requests && |t.os.replies| == |s.os.replies| + 1
  {
    OneStep(s, OsActs);
    var s1 := Bridge.Next(s, OsActs).value;
    LeadsOn(Initial(m), s, s1);
    StepsOfNbPull(s1.ch);
    OsRunsAlone(s1, 4);
    var s2 := s1.(ch := OsAlone(s1.ch, 4).value);
    LeadsOn(Initial(m), s1, s2);
    OneStep(s2, OsActs);
    t := Bridge.Next(s2, OsActs).value;
    LeadsOn(Initial(m), s2, t);
  }

  /** The OS thread is there in time: the response is sent, and it is the machine's. */
  lemma ResponseCanBeSent(m: Machine, r: Request)
    requires r.header.command.IsDebug()
    ensures exists t :: Reachable(m, t) && t.os.loop.AtRead? && t.os.requests == [r] && t.os.replies == [Reply(m, r)]
  {
    var s := RunBaton(m, r);
    var t := RunPull(m, s);
    ReachableIsGood(m, t);
    GoodCounts(m, t);
    assert [r][..1] == [r] && [r][..0] == [];
    assert Replies(m, [r]) == [Reply(After(m, []), r)];
  }

  // ---------------------------------------------------------------------------
  // A stop request.
  // ---------------------------------------------------------------------------

  /** A stop request at the start, and the delta cycle that lets the keep-alive process see it. */
  function AfterStop(m: Machine): State {
    Initial(m).(stopRequested := true)
  }

  lemma RunToLastSecond(m: Machine, s: State) returns (t: State)
    requires s == AfterStop(m)
    ensures Reachable(m, t)
    ensures t == s.(kernel := Update, ka := s.ka.(pc := SecondWait(m.time + ONE_SECOND)))
  {
    OneStep(Initial(m), Signal);
    OneStep(s, ScActs(PickNone));
    var u := s.(kernel := Update);
    LeadsOn(Initial(m), s, u);
    OneStep(u, ScActs(PickNone));
    var v := u.(kernel := DeltaNotify);
    LeadsOn(Initial(m), u, v);
    OneStep(v, ScActs(PickNone));
    LeadsOn(Initial(m), v, Notify(v));
    OneStep(Notify(v), ScActs(PickKeepAlive));
    var w := KeepAliveGo(Notify(v));
    LeadsOn(Initial(m), Notify(v), w);
    OneStep(w, ScActs(PickNone));
    t := BeginUpdate(w);
    LeadsOn(Initial(m), w, t);
  }

  /** A request that is read when the last second is over is cut off. */
  lemma ResponseCanBeCutOff(m: Machine, r: Request)
    ensures exists t :: Reachable(m, t) && CutOff(t) && t.os.requests == [r] && t.os.replies == []
  {
    var s1 := AfterStop(m);
    var s2 := RunToLastSecond(m, s1);
    var s3 := Notify(s2.(kernel := DeltaNotify));
    OneStep(s2, ScActs(PickNone));
    LeadsOn(Initial(m), s2, s2.(kernel := DeltaNotify));
    OneStep(s2.(kernel := DeltaNotify), ScActs(PickNone));
    LeadsOn(Initial(m), s2.(kernel := DeltaNotify), s3);
    OneStep(s3, ScActs(PickNone));
    var s4 := AdvanceTime(s3);
    LeadsOn(Initial(m), s3, s4);
    OneStep(s4, Arrive(r));
    var t := OsRead(s4, r).value;
    LeadsOn(Initial(m), s4, t);
    assert CutOff(t);
  }
}
