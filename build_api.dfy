/**
 * The build invocation protocol (src/api/build.rs). `build_direct` boxes the
 * handler, moves one strong count of the options into a heap envelope and
 * hands the envelope to `GoBuild`; some time later the foreign runtime calls
 * `build_callback` exactly once with that envelope, which gives the count back
 * and invokes the handler with the result containers.
 *
 * The foreign runtime is `GoBuildRuntime`: `GoBuild` records a pending call,
 * and `Complete` is the later callback of any one pending call. Its `Valid()`
 * is the ledger every pending call relies on: its envelope is unconsumed, its
 * handler has not run, and the options it points to are alive because the
 * pending calls never hold more counts than the `Arc` has.
 */
module BuildApi {
  import opened Wrappers
  import opened Memory
  import opened Containers
  import opened Futures
  import opened Builders

  /**
   * `BuildInvocationData`, the envelope behind `cb_data`, with the boxed
   * handler it points to. `consumed` is set when `Box::from_raw` takes the
   * envelope back; the handler is invoked then and never before, and
   * `invokedWith` records its argument.
   */
  class BuildInvocationData {
    const optArcRaw: Arc<BuildOptions>
    const cbTraitPtr: Closure<BuildResult>
    var consumed: bool
    ghost var invokedWith: Option<BuildResult>

    constructor (optArcRaw: Arc<BuildOptions>, cbTraitPtr: Closure<BuildResult>)
      ensures this.optArcRaw == optArcRaw && this.cbTraitPtr == cbTraitPtr
      ensures !consumed && invokedWith == None
    {
      this.optArcRaw := optArcRaw;
      this.cbTraitPtr := cbTraitPtr;
      consumed := false;
      invokedWith := None;
    }
  }

  /** The arguments of one `GoBuild` call: allocator, envelope and options snapshot (the callback is always `build_callback`). */
  datatype GoBuildCall = GoBuildCall(alloc: Heap, cbData: BuildInvocationData, opt: Ptr<FfiBuildOptions>)

  /** The raw options handles the pending calls keep. */
  function OptHandles(calls: seq<GoBuildCall>): (hs: seq<Option<Arc<BuildOptions>>>)
    ensures |hs| == |calls|
    ensures forall i :: 0 <= i < |calls| ==> hs[i] == Some(calls[i].cbData.optArcRaw)
  {
    seq(|calls|, k requires 0 <= k < |calls| => Some(calls[k].cbData.optArcRaw))
  }

  /**
   * A call the foreign runtime has not answered yet: its envelope is intact,
   * its handler has not run, and its snapshot is the options'.
   */
  ghost predicate Outstanding(call: GoBuildCall)
    reads call.cbData, call.cbData.optArcRaw.value
  {
    && !call.cbData.consumed && call.cbData.invokedWith.None?
    && call.cbData.optArcRaw.value.Built()
    && call.opt == call.cbData.optArcRaw.value.ffiapiPtr
  }

  /** No two calls share an envelope. */
  predicate Distinct(calls: seq<GoBuildCall>) {
    forall i, j :: 0 <= i < j < |calls| ==> calls[i].cbData != calls[j].cbData
  }

  /**
   * Queueing `call` behind `calls`: the handles grow by the call's, and the
   * queue stays distinct when the call's envelope is new to it.
   */
  lemma Appended(calls: seq<GoBuildCall>, call: GoBuildCall)
    ensures var queued := calls + [call];
      && (forall k :: 0 <= k < |queued| ==> queued[k] == (if k < |calls| then calls[k] else call))
      && OptHandles(queued) == OptHandles(calls) + [Some(call.cbData.optArcRaw)]
      && (Distinct(calls) && (forall k :: 0 <= k < |calls| ==> calls[k].cbData != call.cbData) ==> Distinct(queued))
  {
    var queued := calls + [call];
    assert forall k :: 0 <= k < |calls| ==> queued[k] == calls[k];
  }

  /**
   * Taking call `i` out of a queue: the others keep their order, their
   * handles are the old handles less the `i`th, and they stay distinct from
   * each other and from the removed call.
   */
  lemma Removed(calls: seq<GoBuildCall>, i: nat)
    requires i < |calls|
    ensures var rest := calls[..i] + calls[i + 1..];
      && |rest| == |calls| - 1
      && (forall k :: 0 <= k < |rest| ==> rest[k] == calls[if k < i then k else k + 1])
      && OptHandles(rest) == OptHandles(calls)[..i] + OptHandles(calls)[i + 1..]
      && (Distinct(calls) ==> Distinct(rest) && forall k :: 0 <= k < |rest| ==> rest[k].cbData != calls[i].cbData)
  {
    var rest := calls[..i] + calls[i + 1..];
    assert forall k :: 0 <= k < |rest| ==> rest[k] == calls[if k < i then k else k + 1];
    if Distinct(calls) {
      forall k, l | 0 <= k < l < |rest|
        ensures rest[k].cbData != rest[l].cbData
      {
        assert rest[k] == calls[if k < i then k else k + 1];
        assert rest[l] == calls[if l < i then l else l + 1];
      }
    }
  }

  /** What the ledger of `calls` reads: the envelopes, the options they keep and the handles. */
  ghost function CallObjects(calls: seq<GoBuildCall>): set<object> {
    var envelopes: set<object> := set i | 0 <= i < |calls| :: calls[i].cbData;
    var options: set<object> := set i | 0 <= i < |calls| :: calls[i].cbData.optArcRaw.value;
    envelopes + options + Targets(OptHandles(calls))
  }

  /**
   * The ledger of a queue: every call is outstanding, no two share an
   * envelope, and the options handles they keep are covered by strong
   * counts, so no options can be dropped while a call is pending.
   */
  ghost predicate Ledger(calls: seq<GoBuildCall>)
    reads CallObjects(calls)
  {
    && (forall i :: 0 <= i < |calls| ==> Outstanding(calls[i]))
    && Covered(OptHandles(calls))
    && Distinct(calls)
  }

  /** Queueing a call whose handle is one count more than the queue holds keeps the ledger. */
  lemma LedgerAppend(calls: seq<GoBuildCall>, call: GoBuildCall)
    requires Ledger(calls) && Outstanding(call)
    requires Held(OptHandles(calls), call.cbData.optArcRaw) < call.cbData.optArcRaw.strong
    requires forall i :: 0 <= i < |calls| ==> calls[i].cbData != call.cbData
    ensures Ledger(calls + [call])
    ensures Held(OptHandles(calls + [call]), call.cbData.optArcRaw) == Held(OptHandles(calls), call.cbData.optArcRaw) + 1
  {
    Appended(calls, call);
    CoveredAppend(OptHandles(calls), Some(call.cbData.optArcRaw));
  }

  /**
   * Taking call `i` off a queue keeps the ledger of the rest; the call is
   * outstanding, shares its envelope with none of the rest, and its handle
   * has a count the rest do not hold.
   */
  lemma LedgerRemove(calls: seq<GoBuildCall>, i: nat)
    requires Ledger(calls) && i < |calls|
    ensures var rest := calls[..i] + calls[i + 1..]; var d := calls[i].cbData;
      && Ledger(rest)
      && Outstanding(calls[i])
      && Held(OptHandles(rest), d.optArcRaw) < d.optArcRaw.strong
      && (forall k :: 0 <= k < |rest| ==> rest[k].cbData != d)
  {
    Removed(calls, i);
    CoveredRemove(OptHandles(calls), i);
  }

  /**
   * The ledger of `calls` survives giving back one count of `opt` that the
   * queue did not need, when the envelopes stay unanswered and no other count
   * and no snapshot changes.
   */
  twostate lemma LedgerKept(calls: seq<GoBuildCall>, new opt: Arc<BuildOptions>)
    requires old(Ledger(calls))
    requires forall k :: 0 <= k < |calls| ==> calls[k].cbData.consumed == old(calls[k].cbData.consumed)
    requires forall k :: 0 <= k < |calls| ==> calls[k].cbData.invokedWith == old(calls[k].cbData.invokedWith)
    requires old(allocated(opt))
    requires Held(OptHandles(calls), opt) < old(opt.strong) && opt.strong == old(opt.strong) - 1
    requires forall a: Arc<BuildOptions> | old(allocated(a)) && a != opt :: a.strong == old(a.strong)
    requires forall o: BuildOptions | old(allocated(o)) :: o.ffiapiPtr == old(o.ffiapiPtr)
    ensures Ledger(calls)
  {
    var opts := OptHandles(calls);
    forall k | 0 <= k < |opts| && opts[k].Some?
      ensures Held(opts, opts[k].value) <= opts[k].value.strong
    {
    }
    forall k | 0 <= k < |calls|
      ensures Outstanding(calls[k])
    {
      assert old(Outstanding(calls[k]));
    }
  }

  /** The foreign runtime's queue of builds it has been asked for and has not answered. */
  class GoBuildRuntime {
    var pending: seq<GoBuildCall>

    constructor ()
      ensures pending == []
    {
      pending := [];
    }

    /** The strong counts of `a` held by pending calls. */
    ghost function Holding(a: Arc<BuildOptions>): nat
      reads this
    {
      Held(OptHandles(pending), a)
    }

    /** The ledger of the pending calls holds. */
    ghost predicate Valid()
      reads this, CallObjects(pending)
    {
      Ledger(pending)
    }

    /**
     * `GoBuild`: the call is queued and returns at once. Its requires are the
     * contract of the foreign call: `cbData` is an intact envelope that no
     * pending call uses, holding one more count of options whose snapshot is
     * `opt` than the pending calls already hold.
     */
    method GoBuild(alloc: Heap, cbData: BuildInvocationData, opt: Ptr<FfiBuildOptions>)
      requires Valid()
      requires Outstanding(GoBuildCall(alloc, cbData, opt))
      requires Holding(cbData.optArcRaw) < cbData.optArcRaw.strong
      requires forall i :: 0 <= i < |pending| ==> pending[i].cbData != cbData
      modifies this
      ensures Valid()
      ensures pending == old(pending) + [GoBuildCall(alloc, cbData, opt)]
      ensures Holding(cbData.optArcRaw) == old(Holding(cbData.optArcRaw)) + 1
    {
      LedgerAppend(pending, GoBuildCall(alloc, cbData, opt));
      pending := pending + [GoBuildCall(alloc, cbData, opt)];
    }

    /** The foreign runtime takes pending call `i` off its queue, to answer it. */
    method Dequeue(i: nat) returns (call: GoBuildCall)
      requires Valid() && i < |pending|
      modifies this
      ensures Valid()
      ensures call == old(pending[i]) && pending == old(pending[..i] + pending[i + 1..])
      ensures Outstanding(call) && Holding(call.cbData.optArcRaw) < call.cbData.optArcRaw.strong
      ensures forall k :: 0 <= k < |pending| ==> pending[k].cbData != call.cbData
    {
      call := pending[i];
      LedgerRemove(pending, i);
      pending := pending[..i] + pending[i + 1..];
    }

    /**
     * The foreign runtime finishes pending call `i`: it calls `build_callback`
     * with the envelope and the arrays it allocated.
     */
    method Complete(i: nat, rust: Heap,
                    rawOutputFiles: Ptr<OutputFile>, outputFilesLen: nat,
                    rawErrors: Ptr<Message>, errorsLen: nat,
                    rawWarnings: Ptr<Message>, warningsLen: nat) returns (result: BuildResult)
      requires Valid() && i < |pending|
      modifies this, pending[i].cbData, pending[i].cbData.optArcRaw, pending[i].cbData.cbTraitPtr.Footprint(), rust
      ensures Valid()
      ensures pending == old(pending[..i] + pending[i + 1..])
      ensures var d := old(pending[i].cbData);
        && d.consumed && d.invokedWith == Some(result)
        && d.optArcRaw.strong == old(d.optArcRaw.strong) - 1
      ensures result.outputFiles.ptr == rawOutputFiles && result.outputFiles.len == outputFilesLen
      ensures result.errors.ptr == rawErrors && result.errors.len == errorsLen
      ensures result.warnings.ptr == rawWarnings && result.warnings.len == warningsLen
      ensures var libc := old(pending[i].alloc);
        result.outputFiles.libc == libc && result.errors.libc == libc && result.warnings.libc == libc
      ensures var d := old(pending[i].cbData);
        && rust.next == old(rust.next)
        && rust.freed == old(rust.freed) + (if d.optArcRaw.strong == 0 then [Erase(d.optArcRaw.value.ffiapiPtr)] else [])
      ensures var f := old(pending[i].cbData.cbTraitPtr); f.CompleteFuture? ==>
        && f.state.Value() == Completed(old(f.state.Value()), result)
        && f.state.woken == old(f.state.woken) + Woken(old(f.state.Value()))
    {
      var call := Dequeue(i);
      result := Answer(this, call, rust, rawOutputFiles, outputFilesLen, rawErrors, errorsLen, rawWarnings, warningsLen);
    }
  }

  /**
   * The foreign runtime answering a call it has taken off its queue: it runs
   * `build_callback`, and the calls still pending keep their ledger.
   */
  method Answer(rt: GoBuildRuntime, call: GoBuildCall, rust: Heap,
                rawOutputFiles: Ptr<OutputFile>, outputFilesLen: nat,
                rawErrors: Ptr<Message>, errorsLen: nat,
                rawWarnings: Ptr<Message>, warningsLen: nat) returns (result: BuildResult)
    requires rt.Valid() && Outstanding(call)
    requires forall k :: 0 <= k < |rt.pending| ==> rt.pending[k].cbData != call.cbData
    requires rt.Holding(call.cbData.optArcRaw) < call.cbData.optArcRaw.strong
    modifies call.cbData, call.cbData.optArcRaw, call.cbData.cbTraitPtr.Footprint(), rust
    ensures rt.Valid() && rt.pending == old(rt.pending)
    ensures var d := call.cbData;
      && d.consumed && d.invokedWith == Some(result)
      && d.optArcRaw.strong == old(d.optArcRaw.strong) - 1
    ensures result.outputFiles.ptr == rawOutputFiles && result.outputFiles.len == outputFilesLen
    ensures result.errors.ptr == rawErrors && result.errors.len == errorsLen
    ensures result.warnings.ptr == rawWarnings && result.warnings.len == warningsLen
    ensures result.outputFiles.libc == call.alloc && result.errors.libc == call.alloc && result.warnings.libc == call.alloc
    ensures rust.next == old(rust.next)
    ensures rust.freed == old(rust.freed) +
      (if call.cbData.optArcRaw.strong == 0 then [Erase(call.cbData.optArcRaw.value.ffiapiPtr)] else [])
    ensures var f := call.cbData.cbTraitPtr; f.CompleteFuture? ==>
      && f.state.Value() == Completed(old(f.state.Value()), result)
      && f.state.woken == old(f.state.woken) + Woken(old(f.state.Value()))
  {
    ghost var rest := rt.pending;
    result := BuildCallback(call.cbData, rust, call.alloc, rawOutputFiles, outputFilesLen, rawErrors, errorsLen, rawWarnings, warningsLen);
    LedgerKept(rest, call.cbData.optArcRaw);
  }

  /**
   * `build_callback`: takes the envelope back, releases the options count it
   * held (dropping the options if it was the last one), wraps the foreign
   * arrays in containers of exactly the lengths passed, and invokes the handler
   * once with them. `libc` is the C allocator, a process global in the
   * source: the containers release the arrays with its `free`.
   */
  method BuildCallback(rawCbData: BuildInvocationData, rust: Heap, libc: Heap,
                       rawOutputFiles: Ptr<OutputFile>, outputFilesLen: nat,
                       rawErrors: Ptr<Message>, errorsLen: nat,
                       rawWarnings: Ptr<Message>, warningsLen: nat) returns (result: BuildResult)
    requires !rawCbData.consumed
    requires rawCbData.optArcRaw.strong >= 1 && rawCbData.optArcRaw.value.Built()
    modifies rawCbData, rawCbData.optArcRaw, rawCbData.cbTraitPtr.Footprint(), rust
    ensures rawCbData.consumed && rawCbData.invokedWith == Some(result)
    ensures rawCbData.optArcRaw.strong == old(rawCbData.optArcRaw.strong) - 1
    ensures forall e: BuildInvocationData | old(allocated(e)) && e != rawCbData ::
      e.consumed == old(e.consumed) && e.invokedWith == old(e.invokedWith)
    ensures forall a: Arc<BuildOptions> | old(allocated(a)) && a != rawCbData.optArcRaw :: a.strong == old(a.strong)
    ensures forall o: BuildOptions | old(allocated(o)) :: o.ffiapiPtr == old(o.ffiapiPtr)
    ensures rust.next == old(rust.next)
    ensures rust.freed == old(rust.freed) +
      (if rawCbData.optArcRaw.strong == 0 then [Erase(rawCbData.optArcRaw.value.ffiapiPtr)] else [])
    ensures fresh(result.outputFiles) && fresh(result.errors) && fresh(result.warnings)
    ensures result.outputFiles.ptr == rawOutputFiles && result.outputFiles.len == outputFilesLen
    ensures result.errors.ptr == rawErrors && result.errors.len == errorsLen
    ensures result.warnings.ptr == rawWarnings && result.warnings.len == warningsLen
    ensures !result.outputFiles.dropped && !result.errors.dropped && !result.warnings.dropped
    ensures result.outputFiles.libc == libc && result.errors.libc == libc && result.warnings.libc == libc
    ensures var f := rawCbData.cbTraitPtr; f.CompleteFuture? ==>
      && f.state.Value() == Completed(old(f.state.Value()), result)
      && f.state.woken == old(f.state.woken) + Woken(old(f.state.Value()))
  {
    var cbData := rawCbData;
    cbData.consumed := true;
    // Drop refcount.
    var last := cbData.optArcRaw.Release();
    if last {
      cbData.optArcRaw.value.Drop(rust);
    }
    var rustCbTraitBox := cbData.cbTraitPtr;
    var outputFiles := new SliceContainer(rawOutputFiles, outputFilesLen, libc);
    var errors, warnings := WrapDiagnostics(rawErrors, errorsLen, rawWarnings, warningsLen, libc);
    result := BuildResult(outputFiles, errors, warnings);
    cbData.invokedWith := Some(result);
    Invoke(rustCbTraitBox, result);
  }

  /**
   * `build_direct`: the by-value `options` handle gives its count to the
   * envelope (the clone's +1 and the parameter's drop on return cancel out),
   * and `GoBuild` receives `malloc`, the envelope and `options.ffiapi_ptr`.
   */
  method BuildDirect(options: Arc<BuildOptions>, cb: Closure<BuildResult>, libc: Heap, rt: GoBuildRuntime)
    requires rt.Valid()
    requires options.value.Built()
    requires rt.Holding(options) < options.strong
    modifies rt, options
    ensures rt.Valid()
    ensures options.strong == old(options.strong)
    ensures rt.Holding(options) == old(rt.Holding(options)) + 1
    ensures |rt.pending| == |old(rt.pending)| + 1 && rt.pending[..|old(rt.pending)|] == old(rt.pending)
    ensures var call := rt.pending[|rt.pending| - 1];
      && fresh(call.cbData) && call.alloc == libc && call.opt == options.value.ffiapiPtr
      && call.cbData.optArcRaw == options && call.cbData.cbTraitPtr == cb
  {
    options.Clone();
    var data := new BuildInvocationData(options, cb);
    rt.GoBuild(libc, data, options.value.ffiapiPtr);
    DropParameter(options, rt);
    // The drop was not the last: the envelope still holds a count.
    assert options.strong >= 1;
  }

  /**
   * The end of `build_direct`'s scope: its by-value `options` handle is
   * dropped, giving back the count its clone gave the envelope, and the
   * ledger of the pending calls still holds.
   */
  method DropParameter(options: Arc<BuildOptions>, rt: GoBuildRuntime)
    requires rt.Valid()
    requires rt.Holding(options) < options.strong
    modifies options
    ensures rt.Valid()
    ensures options.strong == old(options.strong) - 1
  {
    var _ := options.Release();
    LedgerKept(rt.pending, options);
  }

  /** `BuildFuture`: the future side of the shared state. */
  class BuildFuture {
    const state: FutureState<BuildResult>

    constructor (state: FutureState<BuildResult>)
      ensures this.state == state
    {
      this.state := state;
    }

    /** `poll`: `Ready` with the stored result, which is taken; otherwise the waker is stored and `Pending`. */
    method Poll(cx: Waker) returns (p: Poll<BuildResult>)
      modifies state
      ensures (state.Value(), p) == Polled(old(state.Value()), cx)
      ensures state.woken == old(state.woken)
    {
      p := state.Poll(cx);
    }
  }

  /** `build`: a fresh empty state, shared with the completion closure handed to `build_direct`. */
  method Build(options: Arc<BuildOptions>, libc: Heap, rt: GoBuildRuntime) returns (future: BuildFuture)
    requires rt.Valid()
    requires options.value.Built()
    requires rt.Holding(options) < options.strong
    modifies rt, options
    ensures rt.Valid()
    ensures fresh(future) && fresh(future.state)
    ensures future.state.Value() == Cell(None, None) && future.state.woken == []
    ensures options.strong == old(options.strong)
    ensures rt.Holding(options) == old(rt.Holding(options)) + 1
    ensures |rt.pending| == |old(rt.pending)| + 1 && rt.pending[..|old(rt.pending)|] == old(rt.pending)
    ensures var call := rt.pending[|rt.pending| - 1];
      && call.alloc == libc && call.opt == options.value.ffiapiPtr
      && call.cbData.optArcRaw == options && call.cbData.cbTraitPtr == CompleteFuture(future.state)
  {
    var state := new FutureState();
    future := new BuildFuture(state);
    BuildDirect(options, CompleteFuture(state), libc, rt);
  }

  /** The start of `AwaitBuild`: `build`, then a poll that finds no result and leaves its waker. */
  method StartBuild(options: Arc<BuildOptions>, libc: Heap, rt: GoBuildRuntime, cx: Waker)
    returns (future: BuildFuture, first: Poll<BuildResult>)
    requires rt.Valid()
    requires options.value.Built()
    requires rt.Holding(options) < options.strong
    modifies rt, options
    ensures rt.Valid()
    ensures fresh(future) && fresh(future.state) && first == Pending
    ensures future.state.Value() == Cell(None, Some(cx)) && future.state.woken == []
    ensures options.strong == old(options.strong)
    ensures |rt.pending| == |old(rt.pending)| + 1 && rt.pending[..|old(rt.pending)|] == old(rt.pending)
    ensures var d := rt.pending[|rt.pending| - 1].cbData;
      fresh(d) && d.optArcRaw == options && d.cbTraitPtr == CompleteFuture(future.state)
  {
    future := Build(options, libc, rt);
    first := future.Poll(cx);
  }

  /** `poll` touches only the future's state: the runtime's queue and its ledger stay as they are. */
  method PollBeside(future: BuildFuture, cx: Waker, ghost rt: GoBuildRuntime) returns (p: Poll<BuildResult>)
    requires rt.Valid()
    modifies future.state
    ensures (future.state.Value(), p) == Polled(old(future.state.Value()), cx)
    ensures future.state.woken == old(future.state.woken)
    ensures rt.Valid() && rt.pending == old(rt.pending)
  {
    p := future.Poll(cx);
  }

  /**
   * `task::block_on(build(options))` against the foreign runtime: `build`
   * queues the call, a first poll finds no result and leaves its waker, the
   * runtime answers the call, which wakes that waker, and the next poll is
   * `Ready` with exactly the result `build_callback` handed over. The
   * options end one count lower: the caller's by-value handle is gone.
   */
  method AwaitBuild(options: Arc<BuildOptions>, libc: Heap, rust: Heap, rt: GoBuildRuntime, cx: Waker,
                    rawOutputFiles: Ptr<OutputFile>, outputFilesLen: nat,
                    rawErrors: Ptr<Message>, errorsLen: nat,
                    rawWarnings: Ptr<Message>, warningsLen: nat)
    returns (future: BuildFuture, first: Poll<BuildResult>, result: BuildResult, second: Poll<BuildResult>)
    requires rt.Valid()
    requires options.value.Built()
    requires rt.Holding(options) < options.strong
    modifies rt, options, rust
    ensures rt.Valid() && rt.pending == old(rt.pending)
    ensures fresh(future) && first == Pending && future.state.woken == [cx] && second == Ready(result)
    ensures result.outputFiles.ptr == rawOutputFiles && result.outputFiles.len == outputFilesLen
    ensures result.errors.ptr == rawErrors && result.errors.len == errorsLen
    ensures result.warnings.ptr == rawWarnings && result.warnings.len == warningsLen
    ensures options.strong == old(options.strong) - 1
  {
    future, first := StartBuild(options, libc, rt, cx);
    result := rt.Complete(|rt.pending| - 1, rust, rawOutputFiles, outputFilesLen,
                          rawErrors, errorsLen, rawWarnings, warningsLen);
    second := PollBeside(future, cx, rt);
  }
}
