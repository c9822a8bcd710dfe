/**
 * The transform invocation protocol (src/api/transform.rs). It follows the
 * build protocol, with two kept-alive handles instead of one: the source code
 * `Arc<Vec<u8>>` and the options. `transform_direct` stores a count of each
 * in the envelope; `transform_direct_unmanaged` stores neither and leaves
 * keeping the code and the options alive to its caller.
 */
module TransformApi {
  import opened Wrappers
  import opened Memory
  import opened Containers
  import opened Futures
  import opened Bridge
  import Builders

  type TransformOptions = Builders.TransformOptions
  type FfiTransformOptions = Builders.FfiTransformOptions

  /** The bytes of the source code, as the `Vec<u8>` behind the caller's `Arc`. */
  type SourceCode = Buf<uint8>

  /**
   * `TransformInvocationData`, the envelope behind `cb_data`, with the boxed
   * handler it points to; as for builds, `consumed` is set when the callback
   * takes the envelope back and runs the handler.
   */
  class TransformInvocationData {
    const srcVecArcRaw: Option<Arc<SourceCode>>
    const optArcRaw: Option<Arc<TransformOptions>>
    const cbTraitPtr: Closure<TransformResult>
    var consumed: bool
    ghost var invokedWith: Option<TransformResult>

    constructor (srcVecArcRaw: Option<Arc<SourceCode>>, optArcRaw: Option<Arc<TransformOptions>>,
                 cbTraitPtr: Closure<TransformResult>)
      ensures this.srcVecArcRaw == srcVecArcRaw && this.optArcRaw == optArcRaw && this.cbTraitPtr == cbTraitPtr
      ensures !consumed && invokedWith == None
    {
      this.srcVecArcRaw := srcVecArcRaw;
      this.optArcRaw := optArcRaw;
      this.cbTraitPtr := cbTraitPtr;
      consumed := false;
      invokedWith := None;
    }
  }

  /** The arguments of one `GoTransform` call (the callback is always `transform_callback`). */
  datatype GoTransformCall = GoTransformCall(
    alloc: Heap, cbData: TransformInvocationData, code: GoString, opt: Ptr<FfiTransformOptions>)

  /** The raw code handles the pending calls keep (`None` for an unmanaged call). */
  function SrcHandles(calls: seq<GoTransformCall>): (hs: seq<Option<Arc<SourceCode>>>)
    ensures |hs| == |calls|
    ensures forall i :: 0 <= i < |calls| ==> hs[i] == calls[i].cbData.srcVecArcRaw
  {
    seq(|calls|, k requires 0 <= k < |calls| => calls[k].cbData.srcVecArcRaw)
  }

  /** The raw options handles the pending calls keep (`None` for an unmanaged call). */
  function OptHandles(calls: seq<GoTransformCall>): (hs: seq<Option<Arc<TransformOptions>>>)
    ensures |hs| == |calls|
    ensures forall i :: 0 <= i < |calls| ==> hs[i] == calls[i].cbData.optArcRaw
  {
    seq(|calls|, k requires 0 <= k < |calls| => calls[k].cbData.optArcRaw)
  }

  /** No two calls share an envelope. */
  predicate Distinct(calls: seq<GoTransformCall>) {
    forall i, j :: 0 <= i < j < |calls| ==> calls[i].cbData != calls[j].cbData
  }

  /**
   * Queueing `call` behind `calls`: the handles grow by the call's, and the
   * queue stays distinct when the call's envelope is new to it.
   */
  lemma Appended(calls: seq<GoTransformCall>, call: GoTransformCall)
    ensures var queued := calls + [call];
      && (forall k :: 0 <= k < |queued| ==> queued[k] == (if k < |calls| then calls[k] else call))
      && SrcHandles(queued) == SrcHandles(calls) + [call.cbData.srcVecArcRaw]
      && OptHandles(queued) == OptHandles(calls) + [call.cbData.optArcRaw]
      && (Distinct(calls) && (forall k :: 0 <= k < |calls| ==> calls[k].cbData != call.cbData) ==> Distinct(queued))
  {
    var queued := calls + [call];
    assert forall k :: 0 <= k < |calls| ==> queued[k] == calls[k];
  }

  /**
   * Taking call `i` out of a queue: the others keep their order, and their
   * handles are the old handles less the `i`th.
   */
  lemma Removed(calls: seq<GoTransformCall>, i: nat)
    requires i < |calls|
    ensures var rest := calls[..i] + calls[i + 1..];
      && |rest| == |calls| - 1
      && (forall k :: 0 <= k < |rest| ==> rest[k] == calls[if k < i then k else k + 1])
      && SrcHandles(rest) == SrcHandles(calls)[..i] + SrcHandles(calls)[i + 1..]
      && OptHandles(rest) == OptHandles(calls)[..i] + OptHandles(calls)[i + 1..]
  {
    var rest := calls[..i] + calls[i + 1..];
    forall k | 0 <= k < |rest|
      ensures rest[k] == calls[if k < i then k else k + 1]
    {
    }
    var srcs, opts := SrcHandles(calls), OptHandles(calls);
    assert SrcHandles(rest) == srcs[..i] + srcs[i + 1..] by {
      forall k | 0 <= k < |rest|
        ensures SrcHandles(rest)[k] == (srcs[..i] + srcs[i + 1..])[k]
      {
      }
    }
    assert OptHandles(rest) == opts[..i] + opts[i + 1..] by {
      forall k | 0 <= k < |rest|
        ensures OptHandles(rest)[k] == (opts[..i] + opts[i + 1..])[k]
      {
      }
    }
  }

  /** Taking call `i` out of a distinct queue leaves the others distinct from each other and from it. */
  lemma RemovedDistinct(calls: seq<GoTransformCall>, i: nat)
    requires i < |calls| && Distinct(calls)
    ensures var rest := calls[..i] + calls[i + 1..];
      Distinct(rest) && forall k :: 0 <= k < |rest| ==> rest[k].cbData != calls[i].cbData
  {
    var rest := calls[..i] + calls[i + 1..];
    forall k | 0 <= k < |rest|
      ensures rest[k] == calls[if k < i then k else k + 1]
    {
    }
  }

  /** The options a call keeps alive, if it keeps any. */
  function KeptOptions(d: TransformInvocationData): set<object> {
    if d.optArcRaw.Some? then {d.optArcRaw.value.value} else {}
  }

  /**
   * A call the foreign runtime has not answered yet: its envelope is intact
   * and its handler has not run; where it keeps the code alive, `code` reads back the code's bytes; where it
   * keeps the options alive, `opt` is their snapshot.
   */
  ghost predicate Outstanding(call: GoTransformCall)
    reads call.cbData, KeptOptions(call.cbData)
  {
    var d := call.cbData;
    && !d.consumed && d.invokedWith.None?
    && (d.srcVecArcRaw.Some? ==> DecodeGoString(call.code) == Some(d.srcVecArcRaw.value.value.elems))
    && (d.optArcRaw.Some? ==> d.optArcRaw.value.value.Built() && call.opt == d.optArcRaw.value.value.ffiapiPtr)
  }

  /** What the ledger of `calls` reads: the envelopes, the options they keep and the handles. */
  ghost function CallObjects(calls: seq<GoTransformCall>): set<object> {
    var envelopes: set<object> := set i | 0 <= i < |calls| :: calls[i].cbData;
    var options: set<object> := set i | 0 <= i < |calls| && calls[i].cbData.optArcRaw.Some? ::
      calls[i].cbData.optArcRaw.value.value;
    envelopes + options + Targets(SrcHandles(calls)) + Targets(OptHandles(calls))
  }

  /**
   * The ledger of a queue: every call is outstanding, no two share an
   * envelope, and the code and options handles they keep are covered by
   * strong counts, so neither can be dropped while a call keeping it waits.
   */
  ghost predicate Ledger(calls: seq<GoTransformCall>)
    reads CallObjects(calls)
  {
    && (forall i :: 0 <= i < |calls| ==> Outstanding(calls[i]))
    && Covered(SrcHandles(calls))
    && Covered(OptHandles(calls))
    && Distinct(calls)
  }

  /** Queueing a call whose handles are each one count more than the queue holds keeps the ledger. */
  lemma LedgerAppend(calls: seq<GoTransformCall>, call: GoTransformCall)
    requires Ledger(calls) && Outstanding(call)
    requires call.cbData.srcVecArcRaw.Some? ==>
      Held(SrcHandles(calls), call.cbData.srcVecArcRaw.value) < call.cbData.srcVecArcRaw.value.strong
    requires call.cbData.optArcRaw.Some? ==>
      Held(OptHandles(calls), call.cbData.optArcRaw.value) < call.cbData.optArcRaw.value.strong
    requires forall i :: 0 <= i < |calls| ==> calls[i].cbData != call.cbData
    ensures Ledger(calls + [call])
    ensures call.cbData.srcVecArcRaw.Some? ==>
      Held(SrcHandles(calls + [call]), call.cbData.srcVecArcRaw.value) ==
      Held(SrcHandles(calls), call.cbData.srcVecArcRaw.value) + 1
    ensures call.cbData.optArcRaw.Some? ==>
      Held(OptHandles(calls + [call]), call.cbData.optArcRaw.value) ==
      Held(OptHandles(calls), call.cbData.optArcRaw.value) + 1
  {
    Appended(calls, call);
    CoveredAppend(SrcHandles(calls), call.cbData.srcVecArcRaw);
    CoveredAppend(OptHandles(calls), call.cbData.optArcRaw);
  }

  /**
   * Taking call `i` off a queue keeps the ledger of the rest; the call is
   * outstanding, shares its envelope with none of the rest, and each handle
   * it keeps has a count the rest do not hold.
   */
  lemma LedgerRemove(calls: seq<GoTransformCall>, i: nat)
    requires Ledger(calls) && i < |calls|
    ensures var rest := calls[..i] + calls[i + 1..]; var d := calls[i].cbData;
      && Ledger(rest)
      && Outstanding(calls[i])
      && (d.srcVecArcRaw.Some? ==> Held(SrcHandles(rest), d.srcVecArcRaw.value) < d.srcVecArcRaw.value.strong)
      && (d.optArcRaw.Some? ==> Held(OptHandles(rest), d.optArcRaw.value) < d.optArcRaw.value.strong)
      && (forall k :: 0 <= k < |rest| ==> rest[k].cbData != d)
  {
    var rest := calls[..i] + calls[i + 1..];
    Removed(calls, i);
    RemovedDistinct(calls, i);
    CoveredRemove(SrcHandles(calls), i);
    CoveredRemove(OptHandles(calls), i);
  }

  /**
   * The ledger of `calls` survives giving back one count of each handle in
   * `src` and `opt` that the queue did not need, when the envelopes stay
   * unanswered and no other count and no snapshot changes.
   */
  twostate lemma LedgerKept(calls: seq<GoTransformCall>, new src: Option<Arc<SourceCode>>, new opt: Option<Arc<TransformOptions>>)
    requires old(Ledger(calls))
    requires forall k :: 0 <= k < |calls| ==> calls[k].cbData.consumed == old(calls[k].cbData.consumed)
    requires forall k :: 0 <= k < |calls| ==> calls[k].cbData.invokedWith == old(calls[k].cbData.invokedWith)
    requires old(allocated(src))
    requires old(allocated(opt))
    requires src.Some? ==>
      Held(SrcHandles(calls), src.value) < old(src.value.strong) && src.value.strong == old(src.value.strong) - 1
    requires opt.Some? ==>
      Held(OptHandles(calls), opt.value) < old(opt.value.strong) && opt.value.strong == old(opt.value.strong) - 1
    requires forall a: Arc<SourceCode> | old(allocated(a)) && Some(a) != src :: a.strong == old(a.strong)
    requires forall a: Arc<TransformOptions> | old(allocated(a)) && Some(a) != opt :: a.strong == old(a.strong)
    requires forall o: TransformOptions | old(allocated(o)) :: o.ffiapiPtr == old(o.ffiapiPtr)
    ensures Ledger(calls)
  {
    var srcs, opts := SrcHandles(calls), OptHandles(calls);
    forall k | 0 <= k < |srcs| && srcs[k].Some?
      ensures Held(srcs, srcs[k].value) <= srcs[k].value.strong
    {
    }
    forall k | 0 <= k < |opts| && opts[k].Some?
      ensures Held(opts, opts[k].value) <= opts[k].value.strong
    {
    }
    forall k | 0 <= k < |calls|
      ensures Outstanding(calls[k])
    {
      assert old(Outstanding(calls[k]));
    }
  }

  /** The foreign runtime's queue of transforms it has been asked for and has not answered. */
  class GoTransformRuntime {
    var pending: seq<GoTransformCall>

    constructor ()
      ensures pending == []
    {
      pending := [];
    }

    /** The strong counts of the code `a` held by pending calls. */
    ghost function HoldingSrc(a: Arc<SourceCode>): nat
      reads this
    {
      Held(SrcHandles(pending), a)
    }

    /** The strong counts of the options `a` held by pending calls. */
    ghost function HoldingOpt(a: Arc<TransformOptions>): nat
      reads this
    {
      Held(OptHandles(pending), a)
    }

    /** The ledger of the pending calls holds. */
    ghost predicate Valid()
      reads this, CallObjects(pending)
    {
      Ledger(pending)
    }

    /**
     * `GoTransform`: the call is queued and returns at once. Its requires are
     * the contract of the foreign call: `cbData` is an intact envelope no
     * pending call uses, and each handle it keeps is one count more than the
     * pending calls already hold.
     */
    method GoTransform(alloc: Heap, cbData: TransformInvocationData, code: GoString, opt: Ptr<FfiTransformOptions>)
      requires Valid()
      requires Outstanding(GoTransformCall(alloc, cbData, code, opt))
      requires cbData.srcVecArcRaw.Some? ==> HoldingSrc(cbData.srcVecArcRaw.value) < cbData.srcVecArcRaw.value.strong
      requires cbData.optArcRaw.Some? ==> HoldingOpt(cbData.optArcRaw.value) < cbData.optArcRaw.value.strong
      requires forall i :: 0 <= i < |pending| ==> pending[i].cbData != cbData
      modifies this
      ensures Valid()
      ensures pending == old(pending) + [GoTransformCall(alloc, cbData, code, opt)]
      ensures cbData.srcVecArcRaw.Some? ==>
        HoldingSrc(cbData.srcVecArcRaw.value) == old(HoldingSrc(cbData.srcVecArcRaw.value)) + 1
      ensures cbData.optArcRaw.Some? ==>
        HoldingOpt(cbData.optArcRaw.value) == old(HoldingOpt(cbData.optArcRaw.value)) + 1
    {
      LedgerAppend(pending, GoTransformCall(alloc, cbData, code, opt));
      pending := pending + [GoTransformCall(alloc, cbData, code, opt)];
    }

    /** The foreign runtime takes pending call `i` off its queue, to answer it. */
    method Dequeue(i: nat) returns (call: GoTransformCall)
      requires Valid() && i < |pending|
      modifies this
      ensures Valid()
      ensures call == old(pending[i]) && pending == old(pending[..i] + pending[i + 1..])
      ensures Outstanding(call)
      ensures call.cbData.srcVecArcRaw.Some? ==>
        HoldingSrc(call.cbData.srcVecArcRaw.value) < call.cbData.srcVecArcRaw.value.strong
      ensures call.cbData.optArcRaw.Some? ==>
        HoldingOpt(call.cbData.optArcRaw.value) < call.cbData.optArcRaw.value.strong
      ensures forall k :: 0 <= k < |pending| ==> pending[k].cbData != call.cbData
    {
      call := pending[i];
      LedgerRemove(pending, i);
      pending := pending[..i] + pending[i + 1..];
    }

    /**
     * The foreign runtime finishes pending call `i`: it builds the code and
     * map containers and calls `transform_callback` with them, the envelope
     * and the diagnostic arrays it allocated.
     */
    method Complete(i: nat, rust: Heap,
                    codeData: Ptr<uint8>, codeLen: nat, mapData: Ptr<uint8>, mapLen: nat,
                    rawErrors: Ptr<Message>, errorsLen: nat,
                    rawWarnings: Ptr<Message>, warningsLen: nat) returns (result: TransformResult)
      requires Valid() && i < |pending|
      modifies this, pending[i].cbData, pending[i].cbData.cbTraitPtr.Footprint(), rust
      modifies if pending[i].cbData.srcVecArcRaw.Some? then {pending[i].cbData.srcVecArcRaw.value} else {}
      modifies if pending[i].cbData.optArcRaw.Some? then {pending[i].cbData.optArcRaw.value} else {}
      ensures Valid()
      ensures pending == old(pending[..i] + pending[i + 1..])
      ensures var d := old(pending[i].cbData);
        && d.consumed && d.invokedWith == Some(result)
        && (d.srcVecArcRaw.Some? ==> d.srcVecArcRaw.value.strong == old(d.srcVecArcRaw.value.strong) - 1)
        && (d.optArcRaw.Some? ==> d.optArcRaw.value.strong == old(d.optArcRaw.value.strong) - 1)
      ensures result.code.data == codeData && result.code.len == codeLen
      ensures result.sourceMap.data == mapData && result.sourceMap.len == mapLen
      ensures result.errors.ptr == rawErrors && result.errors.len == errorsLen
      ensures result.warnings.ptr == rawWarnings && result.warnings.len == warningsLen
      ensures var libc := old(pending[i].alloc);
        && result.code.libc == libc && result.sourceMap.libc == libc
        && result.errors.libc == libc && result.warnings.libc == libc
      ensures rust.next == old(rust.next)
      ensures rust.freed == old(rust.freed) + DroppedCode(old(pending[i].cbData)) + DroppedSnapshot(old(pending[i].cbData))
      ensures var f := old(pending[i].cbData.cbTraitPtr); f.CompleteFuture? ==>
        && f.state.Value() == Completed(old(f.state.Value()), result)
        && f.state.woken == old(f.state.woken) + Woken(old(f.state.Value()))
    {
      var code := new StrContainer(codeData, codeLen, pending[i].alloc);
      var sourceMap := new StrContainer(mapData, mapLen, pending[i].alloc);
      var call := Dequeue(i);
      result := Answer(this, call, rust, code, sourceMap, rawErrors, errorsLen, rawWarnings, warningsLen);
    }
  }

  /**
   * The foreign runtime answering a call it has taken off its queue: it runs
   * `transform_callback`, and the calls still pending keep their ledger.
   */
  method Answer(rt: GoTransformRuntime, call: GoTransformCall, rust: Heap,
                code: StrContainer, sourceMap: StrContainer,
                rawErrors: Ptr<Message>, errorsLen: nat,
                rawWarnings: Ptr<Message>, warningsLen: nat) returns (result: TransformResult)
    requires rt.Valid() && Outstanding(call)
    requires forall k :: 0 <= k < |rt.pending| ==> rt.pending[k].cbData != call.cbData
    requires call.cbData.srcVecArcRaw.Some? ==>
      rt.HoldingSrc(call.cbData.srcVecArcRaw.value) < call.cbData.srcVecArcRaw.value.strong
    requires call.cbData.optArcRaw.Some? ==>
      rt.HoldingOpt(call.cbData.optArcRaw.value) < call.cbData.optArcRaw.value.strong
    modifies call.cbData, call.cbData.cbTraitPtr.Footprint(), rust
    modifies if call.cbData.srcVecArcRaw.Some? then {call.cbData.srcVecArcRaw.value} else {}
    modifies if call.cbData.optArcRaw.Some? then {call.cbData.optArcRaw.value} else {}
    ensures rt.Valid() && rt.pending == old(rt.pending)
    ensures var d := call.cbData;
      && d.consumed && d.invokedWith == Some(result)
      && (d.srcVecArcRaw.Some? ==> d.srcVecArcRaw.value.strong == old(d.srcVecArcRaw.value.strong) - 1)
      && (d.optArcRaw.Some? ==> d.optArcRaw.value.strong == old(d.optArcRaw.value.strong) - 1)
    ensures result.code == code && result.sourceMap == sourceMap
    ensures result.errors.ptr == rawErrors && result.errors.len == errorsLen
    ensures result.warnings.ptr == rawWarnings && result.warnings.len == warningsLen
    ensures result.errors.libc == call.alloc && result.warnings.libc == call.alloc
    ensures rust.next == old(rust.next)
    ensures rust.freed == old(rust.freed) + DroppedCode(call.cbData) + DroppedSnapshot(call.cbData)
    ensures var f := call.cbData.cbTraitPtr; f.CompleteFuture? ==>
      && f.state.Value() == Completed(old(f.state.Value()), result)
      && f.state.woken == old(f.state.woken) + Woken(old(f.state.Value()))
  {
    ghost var rest := rt.pending;
    result := TransformCallback(call.cbData, rust, call.alloc, code, sourceMap, rawErrors, errorsLen, rawWarnings, warningsLen);
    LedgerKept(rest, call.cbData.srcVecArcRaw, call.cbData.optArcRaw);
  }

  /**
   * `transform_callback`: takes the envelope back, releases each handle it
   * keeps exactly once (dropping the code or the options if that was their
   * last count),
   * and invokes the handler once with the code, the map and containers of
   * exactly the lengths passed, released with the C allocator `libc`'s `free`.
   */
  method TransformCallback(rawCbData: TransformInvocationData, rust: Heap, libc: Heap,
                           code: StrContainer, sourceMap: StrContainer,
                           rawErrors: Ptr<Message>, errorsLen: nat,
                           rawWarnings: Ptr<Message>, warningsLen: nat) returns (result: TransformResult)
    requires !rawCbData.consumed
    requires rawCbData.srcVecArcRaw.Some? ==> rawCbData.srcVecArcRaw.value.strong >= 1
    requires rawCbData.optArcRaw.Some? ==>
      rawCbData.optArcRaw.value.strong >= 1 && rawCbData.optArcRaw.value.value.Built()
    modifies rawCbData, rawCbData.cbTraitPtr.Footprint(), rust
    modifies if rawCbData.srcVecArcRaw.Some? then {rawCbData.srcVecArcRaw.value} else {}
    modifies if rawCbData.optArcRaw.Some? then {rawCbData.optArcRaw.value} else {}
    ensures rawCbData.consumed && rawCbData.invokedWith == Some(result)
    ensures rawCbData.srcVecArcRaw.Some? ==>
      rawCbData.srcVecArcRaw.value.strong == old(rawCbData.srcVecArcRaw.value.strong) - 1
    ensures rawCbData.optArcRaw.Some? ==>
      rawCbData.optArcRaw.value.strong == old(rawCbData.optArcRaw.value.strong) - 1
    ensures forall e: TransformInvocationData | old(allocated(e)) && e != rawCbData ::
      e.consumed == old(e.consumed) && e.invokedWith == old(e.invokedWith)
    ensures forall a: Arc<SourceCode> | old(allocated(a)) && Some(a) != rawCbData.srcVecArcRaw :: a.strong == old(a.strong)
    ensures forall a: Arc<TransformOptions> | old(allocated(a)) && Some(a) != rawCbData.optArcRaw :: a.strong == old(a.strong)
    ensures forall o: TransformOptions | old(allocated(o)) :: o.ffiapiPtr == old(o.ffiapiPtr)
    ensures rust.next == old(rust.next)
    ensures rust.freed == old(rust.freed) + DroppedCode(rawCbData) + DroppedSnapshot(rawCbData)
    ensures result.code == code && result.sourceMap == sourceMap
    ensures fresh(result.errors) && fresh(result.warnings)
    ensures result.errors.ptr == rawErrors && result.errors.len == errorsLen
    ensures result.warnings.ptr == rawWarnings && result.warnings.len == warningsLen
    ensures !result.errors.dropped && !result.warnings.dropped
    ensures result.errors.libc == libc && result.warnings.libc == libc
    ensures var f := rawCbData.cbTraitPtr; f.CompleteFuture? ==>
      && f.state.Value() == Completed(old(f.state.Value()), result)
      && f.state.woken == old(f.state.woken) + Woken(old(f.state.Value()))
  {
    var cbData := rawCbData;
    cbData.consumed := true;
    ReleaseKept(cbData, rust);
    var rustCbTraitBox := cbData.cbTraitPtr;
    var errors, warnings := WrapDiagnostics(rawErrors, errorsLen, rawWarnings, warningsLen, libc);
    result := TransformResult(code, sourceMap, errors, warnings);
    cbData.invokedWith := Some(result);
    Invoke(rustCbTraitBox, result);
  }

  /**
   * The buffer freed when an envelope's code loses its last count: the
   * `Vec<u8>` is dropped, and it frees its buffer if it ever allocated one.
   */
  ghost function DroppedCode(d: TransformInvocationData): (freed: seq<RawPtr>)
    reads if d.srcVecArcRaw.Some? then {d.srcVecArcRaw.value} else {}
    ensures |freed| <= 1
    ensures freed != [] <==>
      d.srcVecArcRaw.Some? && d.srcVecArcRaw.value.strong == 0 && d.srcVecArcRaw.value.value.cap > 0
    ensures freed != [] ==> freed[0] == RawAt(d.srcVecArcRaw.value.value.addr)
  {
    if d.srcVecArcRaw.Some? && d.srcVecArcRaw.value.strong == 0 && d.srcVecArcRaw.value.value.cap > 0 then
      [Erase(d.srcVecArcRaw.value.value.AsPtr())]
    else []
  }

  /** `Vec<u8>`'s drop: its buffer is freed once, unless it never allocated one. */
  method DropSourceCode(code: SourceCode, rust: Heap)
    modifies rust
    ensures rust.next == old(rust.next)
    ensures rust.freed == old(rust.freed) + (if code.cap > 0 then [RawAt(code.addr)] else [])
  {
    if code.cap > 0 {
      rust.Free(Erase(code.AsPtr()));
    }
  }

  /** The snapshot freed when an envelope's options lose their last count: none, or theirs. */
  ghost function DroppedSnapshot(d: TransformInvocationData): (freed: seq<RawPtr>)
    reads if d.optArcRaw.Some? then {d.optArcRaw.value, d.optArcRaw.value.value} else {}
    ensures |freed| <= 1
    ensures freed != [] <==> d.optArcRaw.Some? && d.optArcRaw.value.strong == 0
  {
    if d.optArcRaw.Some? && d.optArcRaw.value.strong == 0 then [Erase(d.optArcRaw.value.value.ffiapiPtr)] else []
  }

  /**
   * The drops of the handles an envelope keeps, in `transform_callback`: each
   * loses one count; the code is dropped if its count was the last, and so
   * are the options.
   */
  method ReleaseKept(d: TransformInvocationData, rust: Heap)
    requires d.srcVecArcRaw.Some? ==> d.srcVecArcRaw.value.strong >= 1
    requires d.optArcRaw.Some? ==> d.optArcRaw.value.strong >= 1 && d.optArcRaw.value.value.Built()
    modifies rust
    modifies if d.srcVecArcRaw.Some? then {d.srcVecArcRaw.value} else {}
    modifies if d.optArcRaw.Some? then {d.optArcRaw.value} else {}
    ensures d.srcVecArcRaw.Some? ==> d.srcVecArcRaw.value.strong == old(d.srcVecArcRaw.value.strong) - 1
    ensures d.optArcRaw.Some? ==> d.optArcRaw.value.strong == old(d.optArcRaw.value.strong) - 1
    ensures forall a: Arc<SourceCode> | old(allocated(a)) && Some(a) != d.srcVecArcRaw :: a.strong == old(a.strong)
    ensures forall a: Arc<TransformOptions> | old(allocated(a)) && Some(a) != d.optArcRaw :: a.strong == old(a.strong)
    ensures rust.next == old(rust.next)
    ensures rust.freed == old(rust.freed) + DroppedCode(d) + DroppedSnapshot(d)
  {
    // Drop source code refcount.
    if d.srcVecArcRaw.Some? {
      var last := d.srcVecArcRaw.value.Release();
      if last {
        DropSourceCode(d.srcVecArcRaw.value.value, rust);
      }
    }
    // Drop options refcount.
    if d.optArcRaw.Some? {
      var last := d.optArcRaw.value.Release();
      if last {
        d.optArcRaw.value.value.Drop(rust);
      }
    }
  }

  /** `call_ffi_transform`: `GoTransform` receives `malloc`, the envelope, the code and `options.ffiapi_ptr`. */
  method CallFfiTransform(cbData: TransformInvocationData, goCode: GoString, options: TransformOptions,
                          libc: Heap, rt: GoTransformRuntime)
    requires rt.Valid()
    requires Outstanding(GoTransformCall(libc, cbData, goCode, options.ffiapiPtr))
    requires cbData.srcVecArcRaw.Some? ==> rt.HoldingSrc(cbData.srcVecArcRaw.value) < cbData.srcVecArcRaw.value.strong
    requires cbData.optArcRaw.Some? ==> rt.HoldingOpt(cbData.optArcRaw.value) < cbData.optArcRaw.value.strong
    requires forall i :: 0 <= i < |rt.pending| ==> rt.pending[i].cbData != cbData
    modifies rt
    ensures rt.Valid()
    ensures rt.pending == old(rt.pending) + [GoTransformCall(libc, cbData, goCode, options.ffiapiPtr)]
    ensures cbData.srcVecArcRaw.Some? ==>
      rt.HoldingSrc(cbData.srcVecArcRaw.value) == old(rt.HoldingSrc(cbData.srcVecArcRaw.value)) + 1
    ensures cbData.optArcRaw.Some? ==>
      rt.HoldingOpt(cbData.optArcRaw.value) == old(rt.HoldingOpt(cbData.optArcRaw.value)) + 1
  {
    rt.GoTransform(libc, cbData, goCode, options.ffiapiPtr);
  }

  /**
   * `transform_direct_unmanaged`: the envelope keeps no handle, so the
   * callback releases no count; the code and the options are borrowed.
   */
  method TransformDirectUnmanaged(code: Slice<uint8>, options: TransformOptions, cb: Closure<TransformResult>,
                                  libc: Heap, rt: GoTransformRuntime)
    requires code.Valid()
    requires rt.Valid()
    modifies rt
    ensures rt.Valid()
    ensures |rt.pending| == |old(rt.pending)| + 1 && rt.pending[..|old(rt.pending)|] == old(rt.pending)
    ensures var call := rt.pending[|rt.pending| - 1];
      && fresh(call.cbData) && call.alloc == libc && call.opt == options.ffiapiPtr
      && call.cbData.srcVecArcRaw.None? && call.cbData.optArcRaw.None? && call.cbData.cbTraitPtr == cb
      && call.code.n == |code.elems| && DecodeGoString(call.code) == Some(code.elems)
  {
    var goCode := FromBytesUnmanaged(code);
    var data := new TransformInvocationData(None, None, cb);
    CallFfiTransform(data, goCode, options, libc, rt);
  }

  /**
   * `transform_direct`: each by-value handle gives its count to the envelope
   * (the clone's +1 and the parameter's drop on return cancel out); the code
   * handed over reads back the code's bytes.
   */
  method TransformDirect(code: Arc<SourceCode>, options: Arc<TransformOptions>, cb: Closure<TransformResult>,
                         libc: Heap, rt: GoTransformRuntime)
    requires code.value.Valid() && options.value.Built()
    requires rt.Valid()
    requires rt.HoldingSrc(code) < code.strong && rt.HoldingOpt(options) < options.strong
    modifies rt, code, options
    ensures rt.Valid()
    ensures code.strong == old(code.strong) && options.strong == old(options.strong)
    ensures rt.HoldingSrc(code) == old(rt.HoldingSrc(code)) + 1
    ensures rt.HoldingOpt(options) == old(rt.HoldingOpt(options)) + 1
    ensures |rt.pending| == |old(rt.pending)| + 1 && rt.pending[..|old(rt.pending)|] == old(rt.pending)
    ensures var call := rt.pending[|rt.pending| - 1];
      && fresh(call.cbData) && call.alloc == libc && call.opt == options.value.ffiapiPtr
      && call.cbData.srcVecArcRaw == Some(code) && call.cbData.optArcRaw == Some(options)
      && call.cbData.cbTraitPtr == cb
      && call.code.n == |code.value.elems| && DecodeGoString(call.code) == Some(code.value.elems)
  {
    var goCode := FromBytesUnmanaged(code.value.AsSlice());
    code.Clone();
    options.Clone();
    var data := new TransformInvocationData(Some(code), Some(options), cb);
    CallFfiTransform(data, goCode, options.value, libc, rt);
    DropParameters(code, options, rt);
    // Neither drop was the last: the envelope still holds a count of each.
    assert code.strong >= 1 && options.strong >= 1;
  }

  /**
   * The end of `transform_direct`'s scope: its by-value `code` and `options`
   * handles are dropped, giving back the counts their clones gave the
   * envelope, and the ledger of the pending calls still holds.
   */
  method DropParameters(code: Arc<SourceCode>, options: Arc<TransformOptions>, rt: GoTransformRuntime)
    requires rt.Valid()
    requires rt.HoldingSrc(code) < code.strong && rt.HoldingOpt(options) < options.strong
    modifies code, options
    ensures rt.Valid()
    ensures code.strong == old(code.strong) - 1 && options.strong == old(options.strong) - 1
  {
    var _ := code.Release();
    var _ := options.Release();
    LedgerKept(rt.pending, Some(code), Some(options));
  }

  /** `TransformFuture`: the future side of the shared state. */
  class TransformFuture {
    const state: FutureState<TransformResult>

    constructor (state: FutureState<TransformResult>)
      ensures this.state == state
    {
      this.state := state;
    }

    /** `poll`: `Ready` with the stored result, which is taken; otherwise the waker is stored and `Pending`. */
    method Poll(cx: Waker) returns (p: Poll<TransformResult>)
      modifies state
      ensures (state.Value(), p) == Polled(old(state.Value()), cx)
      ensures state.woken == old(state.woken)
    {
      p := state.Poll(cx);
    }
  }

  /** `transform`: a fresh empty state, shared with the completion closure handed to `transform_direct`. */
  method Transform(code: Arc<SourceCode>, options: Arc<TransformOptions>, libc: Heap, rt: GoTransformRuntime)
    returns (future: TransformFuture)
    requires code.value.Valid() && options.value.Built()
    requires rt.Valid()
    requires rt.HoldingSrc(code) < code.strong && rt.HoldingOpt(options) < options.strong
    modifies rt, code, options
    ensures rt.Valid()
    ensures fresh(future) && fresh(future.state)
    ensures future.state.Value() == Cell(None, None) && future.state.woken == []
    ensures code.strong == old(code.strong) && options.strong == old(options.strong)
    ensures rt.HoldingSrc(code) == old(rt.HoldingSrc(code)) + 1
    ensures rt.HoldingOpt(options) == old(rt.HoldingOpt(options)) + 1
    ensures |rt.pending| == |old(rt.pending)| + 1 && rt.pending[..|old(rt.pending)|] == old(rt.pending)
    ensures var call := rt.pending[|rt.pending| - 1];
      && call.alloc == libc && call.opt == options.value.ffiapiPtr
      && call.cbData.srcVecArcRaw == Some(code) && call.cbData.optArcRaw == Some(options)
      && call.cbData.cbTraitPtr == CompleteFuture(future.state)
  {
    var state := new FutureState();
    future := new TransformFuture(state);
    TransformDirect(code, options, CompleteFuture(state), libc, rt);
  }

  /** The start of `AwaitTransform`: `transform`, then a poll that finds no result and leaves its waker. */
  method StartTransform(code: Arc<SourceCode>, options: Arc<TransformOptions>, libc: Heap,
                        rt: GoTransformRuntime, cx: Waker)
    returns (future: TransformFuture, first: Poll<TransformResult>)
    requires code.value.Valid() && options.value.Built()
    requires rt.Valid()
    requires rt.HoldingSrc(code) < code.strong && rt.HoldingOpt(options) < options.strong
    modifies rt, code, options
    ensures rt.Valid()
    ensures fresh(future) && fresh(future.state) && first == Pending
    ensures future.state.Value() == Cell(None, Some(cx)) && future.state.woken == []
    ensures code.strong == old(code.strong) && options.strong == old(options.strong)
    ensures |rt.pending| == |old(rt.pending)| + 1 && rt.pending[..|old(rt.pending)|] == old(rt.pending)
    ensures var d := rt.pending[|rt.pending| - 1].cbData;
      && fresh(d) && d.srcVecArcRaw == Some(code) && d.optArcRaw == Some(options)
      && d.cbTraitPtr == CompleteFuture(future.state)
  {
    future := Transform(code, options, libc, rt);
    first := future.Poll(cx);
  }

  /** `poll` touches only the future's state: the runtime's queue and its ledger stay as they are. */
  method PollBeside(future: TransformFuture, cx: Waker, ghost rt: GoTransformRuntime) returns (p: Poll<TransformResult>)
    requires rt.Valid()
    modifies future.state
    ensures (future.state.Value(), p) == Polled(old(future.state.Value()), cx)
    ensures future.state.woken == old(future.state.woken)
    ensures rt.Valid() && rt.pending == old(rt.pending)
  {
    p := future.Poll(cx);
  }

  /**
   * `task::block_on(transform(code, options))` against the foreign runtime:
   * `transform` queues the call, a first poll finds no result and leaves its
   * waker, the runtime answers the call, which wakes that waker, and the next
   * poll is `Ready` with exactly the result `transform_callback` handed over.
   * The code and the options each end one count lower: the caller's by-value
   * handles are gone.
   */
  method AwaitTransform(code: Arc<SourceCode>, options: Arc<TransformOptions>, libc: Heap, rust: Heap,
                        rt: GoTransformRuntime, cx: Waker,
                        codeData: Ptr<uint8>, codeLen: nat, mapData: Ptr<uint8>, mapLen: nat,
                        rawErrors: Ptr<Message>, errorsLen: nat,
                        rawWarnings: Ptr<Message>, warningsLen: nat)
    returns (future: TransformFuture, first: Poll<TransformResult>, result: TransformResult, second: Poll<TransformResult>)
    requires code.value.Valid() && options.value.Built()
    requires rt.Valid()
    requires rt.HoldingSrc(code) < code.strong && rt.HoldingOpt(options) < options.strong
    modifies rt, code, options, rust
    ensures rt.Valid() && rt.pending == old(rt.pending)
    ensures fresh(future) && first == Pending && future.state.woken == [cx] && second == Ready(result)
    ensures result.code.data == codeData && result.code.len == codeLen
    ensures result.sourceMap.data == mapData && result.sourceMap.len == mapLen
    ensures result.errors.ptr == rawErrors && result.errors.len == errorsLen
    ensures result.warnings.ptr == rawWarnings && result.warnings.len == warningsLen
    ensures code.strong == old(code.strong) - 1 && options.strong == old(options.strong) - 1
  {
    future, first := StartTransform(code, options, libc, rt, cx);
    result := rt.Complete(|rt.pending| - 1, rust, codeData, codeLen, mapData, mapLen,
                          rawErrors, errorsLen, rawWarnings, warningsLen);
    second := PollBeside(future, cx, rt);
  }
}
