/** On every interleaving the bridge does what the sequential machine does. */
module BridgeRefinement {
  import opened Tlmx
  import opened Machine
  import opened Bridge
  import opened BridgeSafety

  // ---------------------------------------------------------------------------
  // How far the latest request has come.
  // ---------------------------------------------------------------------------

  datatype Stage =
    | Nothing    // every request read has been answered
    | Fresh      // read, not yet carried out
    | Carried    // carried out; its status is still in the payload
    | Answered   // its status is in the packet

  function StageOf(s: State): Stage {
    match PlaceOf(s)
    case WithOs => if s.os.loop.Pushing? then Fresh else if s.os.loop.Pulling? then Answered else Nothing
    case ToSysc => Fresh
    case WithSysc => if s.ini.pc.Getting? then Fresh else if s.ini.pc.Putting? then Answered else Carried
    case FmSysc => Answered
  }

  /** Requests, responses, memory, device and payload are as they were, and so is the stage. */
  predicate SameData(s: State, t: State) {
    && t.os.requests == s.os.requests
    && t.os.replies == s.os.replies
    && t.mem == s.mem
    && t.regs == s.regs
    && t.ini.command == s.ini.command
    && t.ini.status == s.ini.status
    && StageOf(t) == StageOf(s)
  }

  /** The three steps that change the data are the ones at which the stage moves on, and then reading. */
  predicate Moves(s: State, a: Act) {
    || a.Arrive?
    || (a.OsActs? && s.os.loop.Pulling? && s.ch.os.OsIdle?)
    || (a.ScActs? && s.kernel.Running? && s.ini.pc.Getting? && s.ch.sc.ScIdle?)
    || (a.ScActs? && s.kernel.Running? && (s.ini.pc.Transacted? || s.ini.pc.Delaying? || s.ini.pc.ZeroDelaying?))
  }

  lemma OsInsideKeepsData(s: State)
    requires Control(s) && OsInside(s).Some?
    ensures SameData(s, OsInside(s).value)
  {
    match s.ch.os
    case PushLock(p) => case PushQueue(p) => case PushRequest => case PushUnlock =>
    case WaitPutLock => case WaitPutUnlock =>
    case PullLock => case PullTake => case PullRequest => case PullUnlock =>
    case _ =>
  }

  lemma GetKeepsData(s: State)
    requires Control(s) && s.kernel.Running? && s.ch.sc.InGet() && ScInside(s).Some?
    ensures SameData(s, ScInside(s).value)
  {
    match s.ch.sc
    case GetLock => case GetTake => case GetWake => case GetRewait => case GetUnlock =>
  }

  lemma PutKeepsData(s: State)
    requires Control(s) && s.kernel.Running? && s.ch.sc.InPut() && ScInside(s).Some?
    ensures SameData(s, ScInside(s).value)
  {
    match s.ch.sc
    case PutLock(p) => case PutQueue(p) => case PutPrint(p) => case PutWake => case PutRewait => case PutUnlock =>
  }

  lemma UpdateKeepsData(s: State)
    requires Control(s) && s.kernel.Update? && ScInside(s).Some?
    ensures SameData(s, ScInside(s).value)
  {
    match s.ch.sc
    case UpPushLock => case UpPushTest => case UpPushUnlock =>
    case UpPullLock => case UpPullTest => case UpPullUnlock =>
  }

  lemma ScInsideKeepsData(s: State)
    requires Control(s) && (s.kernel.Running? || s.kernel.Update?) && ScInside(s).Some?
    ensures SameData(s, ScInside(s).value)
  {
    if s.kernel.Update? {
      UpdateKeepsData(s);
    } else if s.ch.sc.InGet() {
      GetKeepsData(s);
    } else {
      PutKeepsData(s);
    }
  }

  lemma InitiatorKeepsData(s: State, pick: Pick)
    requires Control(s) && s.kernel.Running? && InitiatorGo(s).Some? && !Moves(s, ScActs(pick))
    ensures SameData(s, InitiatorGo(s).value)
  {
    if !s.ch.sc.ScIdle? {
      ScInsideKeepsData(s);
    }
  }

  lemma KernelKeepsData(s: State)
    requires Control(s)
    ensures s.kernel.Evaluate? && !s.ini.runnable ==> SameData(s, BeginUpdate(s))
    ensures s.kernel.DeltaNotify? ==> SameData(s, Notify(s))
    ensures s.kernel.Advance? ==> SameData(s, AdvanceTime(s))
  {
  }

  lemma ScKeepsData(s: State, pick: Pick)
    requires Control(s) && ScGo(s, pick).Some? && !Moves(s, ScActs(pick))
    ensures SameData(s, ScGo(s, pick).value)
  {
    match s.kernel
    case Evaluate =>
      match pick {
        case PickInitiator =>
        case PickKeepAlive =>
        case PickNone => KernelKeepsData(s);
      }
    case Running => InitiatorKeepsData(s, pick);
    case Update =>
      if !s.ch.sc.ScIdle? {
        ScInsideKeepsData(s);
      }
    case DeltaNotify => KernelKeepsData(s);
    case Advance => KernelKeepsData(s);
  }

  lemma NextKeepsData(s: State, a: Act)
    requires Control(s) && Bridge.Next(s, a).Some? && !Moves(s, a)
    ensures SameData(s, Bridge.Next(s, a).value)
  {
    match a
    case ArriveExit =>
    case OsActs =>
      if !s.ch.os.OsIdle? {
        OsInsideKeepsData(s);
      }
    case ScActs(pick) => ScKeepsData(s, pick);
    case Signal =>
  }

  // ---------------------------------------------------------------------------
  // The refinement relation.
  // ---------------------------------------------------------------------------

  /** The machine before the latest request, and what it answers to that request. */
  function Before(m: Machine, rs: seq<Request>): Machine
    requires rs != []
  {
    After(m, rs[..|rs| - 1])
  }

  function LatestReply(m: Machine, rs: seq<Request>): Response
    requires rs != []
  {
    Reply(Before(m, rs), rs[|rs| - 1])
  }

  predicate DeviceIs(s: State, m: Machine) {
    s.regs == m.regs && s.ini.command == m.command
  }

  /** The bridge in front of machine m is where the sequential machine is. */
  predicate Refines(m: Machine, s: State) {
    var rs := s.os.requests;
    var n := |rs|;
    && |s.mem.packets| == n
    && |s.os.replies| <= n
    && s.os.replies == Replies(m, rs[..|s.os.replies|])
    && match StageOf(s)
       case Nothing => |s.os.replies| == n && DeviceIs(s, After(m, rs))
       case Fresh =>
         && n == |s.os.replies| + 1 && DeviceIs(s, Before(m, rs))
         && s.mem.packets[n - 1].header == rs[n - 1].header && s.mem.buffer == rs[n - 1].data
       case Carried =>
         && n == |s.os.replies| + 1 && DeviceIs(s, After(m, rs))
         && s.mem.packets[n - 1].header == rs[n - 1].header && s.mem.buffer == LatestReply(m, rs).data
         && StatusOf(s.ini.status) == LatestReply(m, rs).status
       case Answered =>
         && n == |s.os.replies| + 1 && DeviceIs(s, After(m, rs))
         && s.mem.packets[n - 1].header == rs[n - 1].header && s.mem.buffer == LatestReply(m, rs).data
         && s.mem.packets[n - 1].status == LatestReply(m, rs).status
  }

  lemma SameDataRefines(m: Machine, s: State, t: State)
    requires Refines(m, s) && SameData(s, t)
    ensures Refines(m, t)
  {
  }

  lemma ReadRefines(m: Machine, s: State, r: Request)
    requires Control(s) && Refines(m, s) && OsRead(s, r).Some?
    ensures Refines(m, OsRead(s, r).value)
  {
    var t := OsRead(s, r).value;
    var rs := s.os.requests;
    assert StageOf(s) == Nothing && StageOf(t) == Fresh;
    assert t.os.requests[..|rs|] == rs == rs[..|rs|];
  }

  lemma TransactRefines(m: Machine, s: State)
    requires Control(s) && Refines(m, s) && s.kernel.Running? && s.ini.pc.Getting? && s.ch.sc.ScIdle?
    ensures Refines(m, Transport(s))
  {
    var n := |s.os.requests|;
    assert StageOf(s) == Fresh && s.ch.scResult == Some(n - 1);
    var t := TransactAt(s, n - 1);
    assert StageOf(t) == Carried;
    assert PacketAt(s.mem, n - 1).header == s.os.requests[n - 1].header;
    assert OutcomeOf(Before(m, s.os.requests), s.os.requests[n - 1]) ==
           Transact(s.regs, s.ini.command, s.os.requests[n - 1].header, s.mem.buffer);
  }

  lemma SetStatusRefines(m: Machine, s: State)
    requires Control(s) && Refines(m, s) && s.kernel.Running?
    requires s.ini.pc.Transacted? || s.ini.pc.Delaying? || s.ini.pc.ZeroDelaying?
    ensures Refines(m, SetStatus(s))
  {
    assert StageOf(s) == Carried && StageOf(SetStatus(s)) == Answered;
  }

  /** What the OS thread packs is the machine's answer. */
  lemma PackedIsReply(m: Machine, s: State)
    requires Control(s) && Refines(m, s) && s.os.loop.Pulling? && s.ch.os.OsIdle?
    ensures StageOf(s) == Answered && s.ch.osResult == Some(|s.os.requests| - 1)
    ensures Packed(s.mem, |s.os.requests| - 1) == LatestReply(m, s.os.requests)
  {
  }

  lemma RepliesGrow(m: Machine, rs: seq<Request>)
    requires rs != []
    ensures Replies(m, rs[..|rs| - 1]) + [LatestReply(m, rs)] == Replies(m, rs)
  {
  }

  lemma SendIsReply(m: Machine, s: State)
    requires Control(s) && Refines(m, s) && s.os.loop.Pulling? && s.ch.os.OsIdle?
    ensures OsBetween(s).Some? && StageOf(OsBetween(s).value) == Nothing
    ensures OsBetween(s).value.os.replies == s.os.replies + [LatestReply(m, s.os.requests)]
  {
    PackedIsReply(m, s);
  }

  lemma AnsweredRefines(m: Machine, s: State, t: State)
    requires Refines(m, s) && StageOf(s) == Answered && StageOf(t) == Nothing
    requires t.os.requests == s.os.requests && t.os.replies == s.os.replies + [LatestReply(m, s.os.requests)]
    requires t.mem == s.mem && t.regs == s.regs && t.ini == s.ini
    ensures Refines(m, t)
  {
    var rs := s.os.requests;
    RepliesGrow(m, rs);
    assert rs[..|rs|] == rs;
  }

  lemma SendRefines(m: Machine, s: State)
    requires Control(s) && Refines(m, s) && s.os.loop.Pulling? && s.ch.os.OsIdle?
    ensures OsBetween(s).Some? && Refines(m, OsBetween(s).value)
  {
    SendIsReply(m, s);
    PackedIsReply(m, s);
    AnsweredRefines(m, s, OsBetween(s).value);
  }

  lemma NextRefines(m: Machine, s: State, a: Act)
    requires Control(s) && Refines(m, s) && Bridge.Next(s, a).Some?
    ensures Refines(m, Bridge.Next(s, a).value)
  {
    if !Moves(s, a) {
      NextKeepsData(s, a);
      SameDataRefines(m, s, Bridge.Next(s, a).value);
    } else {
      match a
      case Arrive(r) => ReadRefines(m, s, r);
      case OsActs => SendRefines(m, s);
      case ScActs(_) =>
        if s.ini.pc.Getting? {
          TransactRefines(m, s);
        } else {
          SetStatusRefines(m, s);
        }
    }
  }
}
