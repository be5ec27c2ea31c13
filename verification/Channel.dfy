/** The thread-safe channel: its fields, what each of its operations does to them, and the class. */
module Channel {
  import opened Tlmx

  /** Packets are handed over by pointer: a pointer is a place in the table of packets made so far. */
  type Ptr = nat

  /** Which thread holds a std::mutex. */
  datatype Owner = Free | ByOs | BySysc

  /**
   The fields of tlmx_channel. The queues grow at the front (push_front) and shrink at the back.
   putEvent and getEvent are the zero-time notifications that are pending on its two events, and
   updateRequested is an async_request_update that the kernel has not yet answered.
   */
  datatype Fields = Fields(
    toSysc: seq<Ptr>,
    fmSysc: seq<Ptr>,
    didPush: bool,
    didPut: bool,
    didPull: bool,
    putEvent: bool,
    getEvent: bool,
    updateRequested: bool,
    mTo: Owner,
    mFm: Owner,
    mWaitGet: Owner,
    mWaitPut: Owner)

  function Constructed(): Fields {
    Fields([], [], false, false, false, false, false, false, Free, Free, BySysc, BySysc)
  }

  function Last(q: seq<Ptr>): Ptr
    requires q != []
  {
    q[|q| - 1]
  }

  function Front(q: seq<Ptr>): (r: seq<Ptr>)
    requires q != []
    ensures |r| == |q| - 1
  {
    q[..|q| - 1]
  }

  // ---------------------------------------------------------------------------
  // Whole operations, for a caller that is not disturbed.
  // ---------------------------------------------------------------------------

  function Pushed(f: Fields, p: Ptr): Fields {
    f.(toSysc := [p] + f.toSysc, didPush := true, updateRequested := true)
  }

  function Got(f: Fields): Fields {
    if f.toSysc == [] then f else f.(toSysc := Front(f.toSysc))
  }

  function Put(f: Fields, p: Ptr): Fields {
    f.(fmSysc := [p] + f.fmSysc, didPut := true)
  }

  function Pulled(f: Fields): Fields {
    if f.fmSysc == [] then f
    else f.(fmSysc := Front(f.fmSysc), didPull := true, didPut := false, updateRequested := true)
  }

  /** update: each raised flag becomes one notification. */
  function Updated(f: Fields): Fields {
    f.(putEvent := f.putEvent || f.didPush, didPush := false,
       getEvent := f.getEvent || f.didPull, didPull := false)
  }

  function Oldest(q: seq<Ptr>): Option<Ptr> {
    if q == [] then None else Some(Last(q))
  }

  /** The channel object. Each method runs with the locks it takes free, as they are once it has them. */
  class TlmxChannel {
    var queueToSysc: seq<Ptr>
    var threadDidPush: bool
    var queueFmSysc: seq<Ptr>
    var syscDidPut: bool
    var threadDidPull: bool
    var syscPutEvent: bool
    var syscGetEvent: bool
    var updateRequested: bool
    var mutexToSysc: Owner
    var mutexFmSysc: Owner
    var mutexWaitGet: Owner
    var mutexWaitPut: Owner

    function View(): Fields
      reads this
    {
      Fields(queueToSysc, queueFmSysc, threadDidPush, syscDidPut, threadDidPull, syscPutEvent, syscGetEvent,
             updateRequested, mutexToSysc, mutexFmSysc, mutexWaitGet, mutexWaitPut)
    }

    constructor ()
      ensures View() == Constructed()
    {
      queueToSysc, queueFmSysc := [], [];
      threadDidPush, threadDidPull, syscDidPut := false, false, false;
      syscPutEvent, syscGetEvent, updateRequested := false, false, false;
      mutexToSysc, mutexFmSysc := Free, Free;
      mutexWaitGet := BySysc;
      mutexWaitPut := BySysc;
    }

    method Push(p: Ptr)
      requires mutexToSysc == Free
      modifies this
      ensures View() == Pushed(old(View()), p)
    {
      mutexToSysc := ByOs;
      queueToSysc := [p] + queueToSysc;
      threadDidPush := true;
      updateRequested := true;
      mutexToSysc := Free;
    }

    method NbGet() returns (taken: Option<Ptr>)
      requires mutexToSysc == Free && mutexWaitGet == BySysc
      modifies this
      ensures taken == Oldest(old(queueToSysc)) && View() == Got(old(View()))
    {
      mutexToSysc := BySysc;
      if queueToSysc == [] {
        mutexToSysc := Free;
        return None;
      }
      taken := Some(Last(queueToSysc));
      queueToSysc := Front(queueToSysc);
      mutexWaitGet := Free;
      mutexWaitGet := BySysc;
      mutexToSysc := Free;
    }

    method NbPut(p: Ptr)
      requires mutexFmSysc == Free && mutexWaitPut == BySysc
      modifies this
      ensures View() == Put(old(View()), p)
    {
      mutexFmSysc := BySysc;
      queueFmSysc := [p] + queueFmSysc;
      syscDidPut := true;
      mutexWaitPut := Free;
      mutexWaitPut := BySysc;
      mutexFmSysc := Free;
    }

    method NbPull() returns (taken: Option<Ptr>)
      requires mutexFmSysc == Free
      modifies this
      ensures taken == Oldest(old(queueFmSysc)) && View() == Pulled(old(View()))
    {
      mutexFmSysc := ByOs;
      if queueFmSysc == [] {
        mutexFmSysc := Free;
        return None;
      }
      taken := Some(Last(queueFmSysc));
      queueFmSysc := Front(queueFmSysc);
      threadDidPull := true;
      syscDidPut := false;
      updateRequested := true;
      mutexFmSysc := Free;
    }

    method Update()
      requires mutexToSysc == Free && mutexFmSysc == Free
      modifies this
      ensures View() == Updated(old(View()))
    {
      mutexToSysc := BySysc;
      if threadDidPush {
        syscPutEvent := true;
        threadDidPush := false;
      }
      mutexToSysc := Free;
      mutexFmSysc := BySysc;
      if threadDidPull {
        syscGetEvent := true;
        threadDidPull := false;
      }
      mutexFmSysc := Free;
    }
  }

  // ---------------------------------------------------------------------------
  // First in, first out.
  // ---------------------------------------------------------------------------

  /** The contents of a queue, oldest first. */
  function OldestFirst(q: seq<Ptr>): (r: seq<Ptr>)
    ensures |r| == |q|
  {
    if q == [] then [] else OldestFirst(q[1..]) + [q[0]]
  }

  /** Taking from the back takes the oldest. */
  lemma {:induction false} TakeOldest(q: seq<Ptr>)
    requires q != []
    ensures OldestFirst(q) == [Last(q)] + OldestFirst(Front(q))
  {
    if |q| == 1 {
    } else {
      TakeOldest(q[1..]);
      assert Front(q)[1..] == Front(q[1..]);
    }
  }
}
