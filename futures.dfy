/**
 * The one-shot completion handler and the future adapter shared by
 * src/api/build.rs and src/api/transform.rs. The `Mutex` around the future's
 * state is modelled as plain sequential access; the `Arc` that shares the
 * state between the future and the completion closure is modelled as both
 * holding a reference to the same `FutureState` object.
 */
module Futures {
  import opened Wrappers

  /** A task's `Waker`; `task` identifies the task it wakes. */
  datatype Waker = Waker(task: nat)

  datatype Poll<R> = Ready(value: R) | Pending

  /** `BuildFutureState` / `TransformFutureState` as a value. */
  datatype Cell<R> = Cell(result: Option<R>, waker: Option<Waker>)

  /** The wakers a completion of `s` wakes: the stored one, if any. */
  function Woken<R>(s: Cell<R>): (w: seq<Waker>)
    ensures |w| <= 1
    ensures w == [] <==> s.waker.None?
  {
    if s.waker.Some? then [s.waker.value] else []
  }

  /** The completion closure's effect: the result is stored and the stored waker taken. */
  function Completed<R>(s: Cell<R>, r: R): (t: Cell<R>)
    ensures t.result == Some(r) && t.waker.None?
  {
    Cell(Some(r), None)
  }

  /** `poll`: the new state and the answer. */
  function Polled<R>(s: Cell<R>, cx: Waker): (res: (Cell<R>, Poll<R>))
    ensures res.0.result.None?
    ensures res.1.Ready? <==> s.result.Some?
    ensures s.result.Some? ==> res.1.value == s.result.value && res.0.waker == s.waker
    ensures s.result.None? ==> res.0.waker == Some(cx)
  {
    match s.result
    case Some(r) => (Cell(None, s.waker), Ready(r))
    case None => (Cell(None, Some(cx)), Pending)
  }

  /** The answers of polling `s` with the wakers `cxs`, one after another, with no completion between. */
  function Polls<R>(s: Cell<R>, cxs: seq<Waker>): (ps: seq<Poll<R>>)
    ensures |ps| == |cxs|
    decreases |cxs|
  {
    if cxs == [] then [] else
      var (t, p) := Polled(s, cxs[0]);
      [p] + Polls(t, cxs[1..])
  }

  /** Without a stored result every poll answers `Pending`. */
  lemma {:induction false} PendingUntilCompleted<R>(s: Cell<R>, cxs: seq<Waker>)
    requires s.result.None?
    ensures forall k :: 0 <= k < |cxs| ==> Polls(s, cxs)[k].Pending?
    decreases |cxs|
  {
    if cxs != [] {
      PendingUntilCompleted(Polled(s, cxs[0]).0, cxs[1..]);
    }
  }

  /** A completed result is delivered by the next poll, and by no poll after it. */
  lemma {:induction false} DeliveredOnce<R>(s: Cell<R>, r: R, cxs: seq<Waker>)
    requires |cxs| > 0
    ensures Polls(Completed(s, r), cxs)[0] == Ready(r)
    ensures forall k :: 1 <= k < |cxs| ==> Polls(Completed(s, r), cxs)[k].Pending?
  {
    var t := Polled(Completed(s, r), cxs[0]).0;
    PendingUntilCompleted(t, cxs[1..]);
    assert Polls(Completed(s, r), cxs) == [Ready(r)] + Polls(t, cxs[1..]);
  }

  /**
   * No lost wake-up: a poll that answers `Pending` leaves its waker behind, the
   * completion wakes exactly that waker, and the next poll gets the result.
   */
  lemma NoLostWakeup<R>(s: Cell<R>, cx: Waker, r: R, cx': Waker)
    requires s.result.None?
    ensures Polled(s, cx).1 == Pending
    ensures Woken(Polled(s, cx).0) == [cx]
    ensures Polled(Completed(Polled(s, cx).0, r), cx').1 == Ready(r)
  {
  }

  /** The state behind the future's `Arc<Mutex<..>>`; `woken` records every `wake()`. */
  class FutureState<R> {
    var result: Option<R>
    var waker: Option<Waker>
    ghost var woken: seq<Waker>

    ghost function Value(): Cell<R>
      reads this
    {
      Cell(result, waker)
    }

    /** `Arc::new(Mutex::new(..State { result: None, waker: None }))`. */
    constructor ()
      ensures result == None && waker == None && woken == []
    {
      result, waker := None, None;
      woken := [];
    }

    /** The body of the completion closure: store the result, then take and wake the stored waker. */
    method Complete(r: R)
      modifies this
      ensures Value() == Completed(old(Value()), r)
      ensures woken == old(woken) + Woken(old(Value()))
    {
      result := Some(r);
      var w := waker;
      waker := None;
      if w.Some? {
        woken := woken + [w.value];
      }
    }

    /** `poll`: take the result if there is one, otherwise store the task's waker. */
    method Poll(cx: Waker) returns (p: Poll<R>)
      modifies this
      ensures (Value(), p) == Polled(old(Value()), cx)
      ensures woken == old(woken)
    {
      var taken := result;
      result := None;
      match taken
      case Some(r) =>
        p := Ready(r);
      case None =>
        waker := Some(cx);
        p := Pending;
    }
  }

  /**
   * What the boxed `dyn FnOnce(R)` does: a caller's own closure, which the
   * model only identifies, or the completion closure of a future's state.
   */
  datatype Closure<R> = UserClosure(id: nat) | CompleteFuture(state: FutureState<R>) {
    /** The objects the closure changes when it runs. */
    function Footprint(): (fp: set<object>)
      ensures CompleteFuture? <==> fp != {}
    {
      match this
      case UserClosure(_) => {}
      case CompleteFuture(state) => {state}
    }
  }

  /** Calling the closure with `r`; a future's closure completes its state. */
  method Invoke<R>(f: Closure<R>, r: R)
    modifies f.Footprint()
    ensures f.CompleteFuture? ==>
      && f.state.Value() == Completed(old(f.state.Value()), r)
      && f.state.woken == old(f.state.woken) + Woken(old(f.state.Value()))
  {
    if f.CompleteFuture? {
      f.state.Complete(r);
    }
  }
}
