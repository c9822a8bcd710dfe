# esbuild-rs binding layer, modelled in Dafny

esbuild-rs is a Rust crate that drives esbuild's Go runtime through a C ABI. Rust
turns its configuration into flat pointer/length records. It hands them to `GoBuild`
or `GoTransform`, together with an allocator, a callback and an opaque envelope. Some
time later the Go side calls the callback once with arrays it allocated.

This project models the sequential, deterministic part of that layer and proves
what it promises:

- **ABI value encoding** (`src/bridge.rs`, module `Bridge`).
  - Strings, byte slices, vectors, map entries and tagged enums become
    `GoString`, Go slice headers and entry records.
  - An empty slice is always passed as the static zero-filled dummy buffer. It is
    never passed as null or as Rust's dangling placeholder.
  - Pointers are abstract handles (`Memory.Ptr`). What Go reads through them is
    `Memory.Read`.
- **Enum encodings, builders and result containers** (`src/wrapper.rs`).
  - `OptionTypes`: each enum is encoded as its declaration-order discriminant,
    and has a decoder that inverts it.
  - `Builders`, for both option builders:
    - `new()` defaults;
    - the consuming `build()`, which moves the variable-length fields into a
      new `Arc` and then writes a flat snapshot late into `ffiapi_ptr`;
    - the snapshot's `Drop`;
    - a decoder for the snapshot that stands for Go's reading of it.
  - `Containers`: `SliceContainer` and `StrContainer` (views and `free`-once
    drops), plus `Message`'s `Display` format.
- **Invocation protocol and futures** (`src/api/build.rs`, `src/api/transform.rs`;
  modules `BuildApi`, `TransformApi` and `Futures`).
  - The foreign runtime is a class holding the queue of calls it has not
    answered yet. `GoBuild`/`GoTransform` queue a call, and `Complete` is the
    callback of any one of them.
  - The queue's `Valid()` is a reference-count ledger:
    - every pending envelope is unconsumed;
    - no two calls share an envelope;
    - every raw `Arc` handle an envelope keeps is backed by a strong count.
    The callback keeps this ledger for the calls still pending.
  - The future is a `result`/`waker` cell. The completion closure and `poll`
    change it.

`Arc` is a class with a `strong: nat` count. An envelope is a heap object with a
`consumed` flag and a ghost record of the one argument its handler was invoked with.
The allocator is a `Heap` that hands out fresh addresses and records the `free`s of the
allocations the model tracks; the ones it does not track are listed under "Left out".

Three behaviours of the code that the model reproduces:

- `build_direct` and `transform_direct` take their `Arc`s by value. The clone
  stored in the envelope and the parameter's drop on return cancel out. So the
  caller sees `strong` unchanged after the call and one lower after the
  callback: the handle it moved in is gone. Each in-flight call holds exactly
  one count of each `Arc` it keeps alive. That count is the ledger's `Holding`,
  which these methods raise by one and the callback lowers by one.
- `SliceContainer::drop` frees only the array. Its loop over the indices drops
  raw pointers, which releases nothing. So memory owned by the elements (the
  strings inside a `Message` or `OutputFile`) stays allocated.
  `Containers.SliceContainer.Drop` models this.
- Nothing checks UTF-8: `StrContainer::as_str` is unchecked, and so is the
  code handed to `GoTransform`.

## Model

| member | source | states |
|---|---|---|
| Bridge.GetAllocationPointer | src/bridge.rs:8-22 | never null or dangling; the dummy buffer exactly when the slice is empty; otherwise the slice's own start; reading `len` elements through it gives back the slice |
| Bridge.FromBytesUnmanaged | src/bridge.rs:43-50 | `n` is the byte length; `p` is neither null nor dangling; Go reads back exactly the bytes, also when there are none |
| Bridge.ShrinkToFit | src/bridge.rs:31-32 | same bytes, capacity equal to the length |
| Bridge.FromString | src/bridge.rs:31-40 | after shrinking, `n` is the string's length and Go reads back its bytes unchanged; `p` is neither null nor dangling |
| Bridge.FromVecUnmanaged | src/bridge.rs:60-71 | `len` is the vector's length and `cap` its capacity, so `len <= cap`; data pointer by the empty-slice rule; Go reads back the elements |
| Bridge.FromMapEntry | src/bridge.rs:80-86 | Go reads the key back from `name` and the value from `value`, unswapped and unchanged |
| Bridge.FromEngine | src/bridge.rs:95-101 | Go decodes the name discriminant back to the engine name and reads back the version bytes |
| Bridge.FromLoaderEntry | src/bridge.rs:110-116 | Go reads back the extension bytes and decodes the loader discriminant back to the loader |
| OptionTypes.EngineNameCode | src/wrapper.rs:111-119 | the code is the variant's position in declaration order (Chrome 0 … Safari 5) |
| OptionTypes.EngineNameFromCode | src/wrapper.rs:111-119 | defined exactly on codes below 6; its result encodes back to the code |
| OptionTypes.FormatCode | src/wrapper.rs:121-127 | position in declaration order (Default 0 … ESModule 3) |
| OptionTypes.FormatFromCode | src/wrapper.rs:121-127 | defined exactly on codes below 4; inverse of the encoding |
| OptionTypes.LoaderCode | src/wrapper.rs:129-141 | position in declaration order (JS 0 … Binary 9) |
| OptionTypes.LoaderFromCode | src/wrapper.rs:129-141 | defined exactly on codes below 10; inverse of the encoding |
| OptionTypes.PlatformCode | src/wrapper.rs:143-147 | position in declaration order (Browser 0, Node 1) |
| OptionTypes.PlatformFromCode | src/wrapper.rs:143-147 | defined exactly on codes below 2; inverse of the encoding |
| OptionTypes.SourceMapCode | src/wrapper.rs:149-155 | position in declaration order (None 0 … External 3) |
| OptionTypes.SourceMapFromCode | src/wrapper.rs:149-155 | defined exactly on codes below 4; inverse of the encoding |
| OptionTypes.TargetCode | src/wrapper.rs:157-167 | position in declaration order (ESNext 0, ES5 1 … ES2020 7) |
| OptionTypes.TargetFromCode | src/wrapper.rs:157-167 | defined exactly on codes below 8; inverse of the encoding |
| OptionTypes.CodesRoundTrip | src/wrapper.rs:111-167 | decoding undoes every enum encoding, so each encoding is injective |
| Builders.Transform | src/wrapper.rs:11-14 | same count; element `i` of the result is the mapper applied to element `i`, in iteration order |
| Builders.DecodeEachTransform | src/wrapper.rs:11-14 | when decoding inverts the element encoding, decoding a transformed vector gives back every element, in order |
| Builders.ElementRoundTrips | src/wrapper.rs:287-300 | each element converter used by `build()` is inverted by Go's reading of it |
| Builders.NewBuildOptionsBuilder | src/wrapper.rs:250-281 | the default builder's strings are well-formed buffers |
| Builders.NewBuildOptionsSnapshot | src/wrapper.rs:250-281 | from the defaults Go receives source map, target, platform and format code 0 (None, ESNext, Browser, Default), every flag off, and every string and list empty behind the dummy buffer |
| Builders.BuildRoundTrip | src/wrapper.rs:304-341 | decoding the snapshot gives back the builder's whole configuration: every scalar flag and enum, every string, every list in order |
| Builders.BuildSnapshot | src/wrapper.rs:305-339 | the `FfiapiBuildOptions` literal: Go decodes its source map, target, platform and format codes back to the builder's |
| Builders.BuildSnapshotCounts | src/wrapper.rs:287-338 | every count field equals the element count of the builder's list; every string's `n` is its byte length |
| Builders.BuildSnapshotSafe | src/wrapper.rs:304-341 | whatever the builder holds, no snapshot pointer is null or dangling, and an empty field points at the dummy buffer |
| Builders.BuildOptions.Drop | src/wrapper.rs:242-248 | frees the boxed snapshot exactly once; nothing else is allocated or freed |
| Builders.TransformCollect | src/wrapper.rs:11-14 | the collected vector holds the transformed elements with capacity equal to length; only a non-empty one allocates |
| Builders.MoveBuildFields | src/wrapper.rs:284-300 | the moved fields hold the builder's strings unchanged and each vector encoded element-wise; none of the tracked allocations is freed (the consumed builder buffers are untracked) |
| Builders.ShareBuildFields | src/wrapper.rs:301-343 | a fresh sole `Arc` over the fields; one box is allocated, holding the snapshot of the fields at their final place; `ffiapi_ptr` goes from null to that box |
| Builders.BuildBuildOptions | src/wrapper.rs:283-344 | `build()`: a fresh `Arc` with strong count 1 whose fields hold the builder's, and whose `ffiapi_ptr` is the last allocated box, holding the snapshot of those fields |
| Builders.NewTransformOptionsBuilder | src/wrapper.rs:397-417 | the default builder's strings are well-formed buffers |
| Builders.NewTransformOptionsSnapshot | src/wrapper.rs:397-417 | from the defaults Go receives source map, target and loader code 0 (None, ESNext, JS), every flag off, and every string and list empty behind the dummy buffer |
| Builders.TransformRoundTrip | src/wrapper.rs:432-451 | decoding the transform snapshot gives back the builder's whole configuration, loader included |
| Builders.TransformSnapshot | src/wrapper.rs:433-451 | the `FfiapiTransformOptions` literal: Go decodes its source map, target and loader codes back to the builder's |
| Builders.TransformSnapshotCounts | src/wrapper.rs:423-450 | every count equals the element count of the builder's list; every string's `n` is its byte length |
| Builders.TransformSnapshotSafe | src/wrapper.rs:432-451 | no snapshot pointer is null or dangling; an empty field points at the dummy buffer |
| Builders.TransformOptions.Drop | src/wrapper.rs:389-395 | frees the boxed snapshot exactly once |
| Builders.MoveTransformFields | src/wrapper.rs:420-428 | the moved fields hold the builder's strings and element-wise encoded vectors |
| Builders.ShareTransformFields | src/wrapper.rs:429-454 | a fresh sole `Arc`; one box holding the snapshot of the fields; `ffiapi_ptr` written from null to it |
| Builders.BuildTransformOptions | src/wrapper.rs:419-455 | as `BuildBuildOptions`, for the transform fields and snapshot |
| Containers.SliceContainer.AsSlice | src/wrapper.rs:24-28 | exactly `len` elements, those at `ptr` |
| Containers.SliceContainer.Drop | src/wrapper.rs:41-51 | the array pointer is freed exactly once, with the `free` of the C allocator recorded in the container, and nothing else is freed, so memory owned by the elements stays allocated |
| Containers.StrContainer.AsStr | src/wrapper.rs:62-66 | exactly `len` bytes, those at `data`, unvalidated |
| Containers.StrContainer.Drop | src/wrapper.rs:79-86 | the data pointer is freed exactly once, with the recorded C allocator's `free` |
| Containers.WrapDiagnostics | src/api/build.rs:39-46 | two fresh, undropped containers over exactly the arrays and lengths passed, freeing with the given C allocator |
| Containers.Display | src/wrapper.rs:98-102 | the output starts with `<text> [<file>`, ends with `]`, and reads back as exactly that prefix followed by the line and the column |
| Containers.DisplayUnique | src/wrapper.rs:98-102 | no other byte string reads back as the same text, file, line and column, so the display is pinned down byte for byte |
| Containers.FormatInt | src/wrapper.rs:100 | the printed integer holds no `:` and no `]`, so the location can be split at its last two colons |
| Containers.FormatCanonical | src/wrapper.rs:100 | the only bytes that read back as an integer are its `{}` printing: no leading zero, no `-0` |
| Containers.LocationCanonical | src/wrapper.rs:100 | a byte string whose location reads back is exactly its prefix, `:`, the printed line, `:`, the printed column and `]` |
| Containers.ParseFormat | src/wrapper.rs:100 | an integer printed with `{}` (sign and decimal digits) reads back as itself |
| Containers.LocationRoundTrip | src/wrapper.rs:100 | whatever text and file precede it, `:<line>:<column>]` is read back as that line and column, and the part before it as itself |
| Containers.DisplayIgnoresLength | src/wrapper.rs:98-102 | the span `length` does not affect the display |
| Futures.Woken | src/api/build.rs:165-167 | a completion wakes at most one waker, and one exactly when a waker is stored |
| Futures.Completed | src/api/build.rs:162-168 | after the completion closure the result is stored and no waker is left |
| Futures.Polled | src/api/build.rs:177-186 | `Ready` exactly when a result is stored, and with that result; the result is left empty; when `Pending`, the current waker replaces any earlier one |
| Futures.PendingUntilCompleted | src/api/build.rs:177-186 | with no result stored, every poll in a row answers `Pending` |
| Futures.DeliveredOnce | src/api/build.rs:162-186 | after a completion the next poll is `Ready` with the result, and every later poll is `Pending` |
| Futures.NoLostWakeup | src/api/build.rs:162-186 | a `Pending` poll leaves its waker, the completion wakes exactly that waker, and the next poll gets the result |
| Futures.FutureState.Complete | src/api/build.rs:162-168 | the state becomes `Completed` of the old state, and the stored waker, if any, is woken once |
| Futures.FutureState.Poll | src/api/build.rs:177-186 | new state and answer are `Polled` of the old state; nothing is woken |
| Futures.Invoke | src/api/build.rs:48-52 | a future's completion closure completes its state; a caller's closure changes nothing the model tracks |
| Memory.Arc.Clone | src/api/build.rs:104 | the strong count goes up by one |
| Memory.Arc.Release | src/api/build.rs:30 | the strong count goes down by one, and the value is reported as last exactly when it reaches zero |
| Memory.Heap.Collect | src/wrapper.rs:13 | the new vector holds the elements with capacity equal to length; a fresh address only when non-empty |
| Memory.Heap.Alloc | src/wrapper.rs:305 | `Box::new`: a fresh address, never handed out before; nothing is freed |
| Memory.Heap.Free | src/wrapper.rs:48 | records exactly one `free` of the pointer |
| Memory.Held | src/api/build.rs:103-106 | counts of an `Arc` kept by raw handles, at most one per handle |
| Memory.HeldAppend | src/api/build.rs:103-106 | `Arc::into_raw` of one more handle adds exactly its own count |
| Memory.HeldRemove | src/api/build.rs:27-30 | taking one handle back removes exactly its own count and no other |
| Memory.CoveredAppend | src/api/build.rs:103-106 | storing a handle that was one count beyond those held keeps every handle backed by a strong count |
| Memory.CoveredRemove | src/api/build.rs:27-30 | taking a handle back leaves the rest backed, with one count of its `Arc` to spare for the release |
| BuildApi.OptHandles | src/api/build.rs:12-15 | definition: the `opt_arc_raw` field of each pending envelope, in queue order, which the ledger lemmas count |
| BuildApi.Appended | src/api/build.rs:103-106 | queueing a call keeps the others in order, appends its handle, and keeps envelopes distinct when its envelope is new |
| BuildApi.Removed | src/api/build.rs:27-30 | removing call `i` keeps the others in order, drops exactly its handle, and keeps envelopes distinct from each other and from it |
| BuildApi.LedgerAppend | src/api/build.rs:103-119 | queueing an intact envelope holding one more count than the queue keeps the ledger and raises that `Arc`'s held counts by exactly one |
| BuildApi.LedgerRemove | src/api/build.rs:27-30 | taking a call off keeps the ledger of the rest; the call is intact, unshared, and its count is not needed by the rest |
| BuildApi.LedgerKept | src/api/build.rs:27-30 | releasing a count that the pending calls do not need, with nothing else changed, keeps their ledger |
| BuildApi.GoBuildRuntime.GoBuild | src/api/build.rs:114-119 | the call is queued behind the others, the ledger holds, and the options' held counts go up by exactly one |
| BuildApi.GoBuildRuntime.Dequeue | src/api/build.rs:27 | the chosen call leaves the queue; the rest keep their ledger; the call is intact and its count spare |
| BuildApi.GoBuildRuntime.Complete | src/api/build.rs:17-54 | the call leaves the queue, its envelope is consumed once, its handler is invoked with the result, the options lose exactly one count, the snapshot is freed iff that was the last count, the containers have exactly the lengths passed and free with the allocator handed to `GoBuild`, a future's state becomes completed with the result and its stored waker is woken, and the ledger of the rest holds |
| BuildApi.Answer | src/api/build.rs:17-54 | the callback of a dequeued call leaves the queue and its ledger unchanged, frees the snapshot iff the options lost their last count, and completes a future's state with the result, waking its stored waker |
| BuildApi.BuildCallback | src/api/build.rs:17-54 | envelope consumed, options released exactly once (and the snapshot freed iff that was the last count), no other count or envelope touched, three fresh containers of exactly the lengths passed that free with the C allocator, handler invoked once with them |
| BuildApi.BuildDirect | src/api/build.rs:94-121 | a fresh envelope holding the options and the handler is queued with `malloc` and `options.ffiapi_ptr`; the ledger holds; held counts go up by one while the caller-visible count is unchanged |
| BuildApi.DropParameter | src/api/build.rs:94-121 | dropping the by-value parameter gives back one count and keeps the ledger |
| BuildApi.BuildFuture.Poll | src/api/build.rs:177-186 | the state and the answer are `Polled` of the old state |
| BuildApi.Build | src/api/build.rs:156-172 | a fresh future whose state starts with no result and no waker, and whose completion closure is the handler queued by `build_direct` |
| BuildApi.AwaitBuild | src/api/build.rs:156-186 | `build` then two polls around the runtime's answer: the first is `Pending`, the answer wakes exactly that poll's waker, the second is `Ready` with the result `build_callback` handed over, and the options end one count lower |
| TransformApi.SrcHandles | src/api/transform.rs:12-16 | definition: the `src_vec_arc_raw` field (or none) of each pending envelope, in queue order, which the ledger lemmas count |
| TransformApi.OptHandles | src/api/transform.rs:12-16 | definition: the `opt_arc_raw` field (or none) of each pending envelope, in queue order, which the ledger lemmas count |
| TransformApi.Appended | src/api/transform.rs:158-162 | queueing a call keeps the others in order and appends its two handles |
| TransformApi.Removed | src/api/transform.rs:28-38 | removing call `i` keeps the others in order and drops exactly its two handles |
| TransformApi.RemovedDistinct | src/api/transform.rs:28 | after removing a call, the rest share no envelope with each other or with it |
| TransformApi.LedgerAppend | src/api/transform.rs:158-165 | queueing an intact envelope whose handles are each one count beyond those held keeps the ledger and raises each held count by exactly one |
| TransformApi.LedgerRemove | src/api/transform.rs:28-38 | taking a call off keeps the ledger of the rest; each handle it keeps has a count the rest do not need |
| TransformApi.LedgerKept | src/api/transform.rs:28-38 | releasing counts the pending calls do not need, with nothing else changed, keeps their ledger |
| TransformApi.GoTransformRuntime.GoTransform | src/api/transform.rs:72-78 | the call is queued and each kept handle's held count goes up by exactly one |
| TransformApi.GoTransformRuntime.Dequeue | src/api/transform.rs:28 | the chosen call leaves the queue; the rest keep their ledger; the call is intact and its counts spare |
| TransformApi.GoTransformRuntime.Complete | src/api/transform.rs:18-59 | the call leaves the queue, its envelope is consumed, its handler is invoked with the result, each kept handle loses exactly one count, the code's buffer and the snapshot are freed exactly when their last count goes, all four containers free with the allocator handed to `GoTransform`, a future's state becomes completed with the result and its stored waker is woken, and the ledger of the rest holds |
| TransformApi.Answer | src/api/transform.rs:18-59 | the callback of a dequeued call leaves the queue and its ledger unchanged, frees the code's buffer and the snapshot exactly when their last count goes, and completes a future's state with the result, waking its stored waker |
| TransformApi.TransformCallback | src/api/transform.rs:18-59 | envelope consumed, each `Some` handle released exactly once and no `None` one, no other count touched, the code's buffer and the options' snapshot freed exactly when their last count goes, code and map passed through, diagnostic containers of exactly the lengths passed that free with the C allocator, handler invoked once |
| TransformApi.DroppedCode | src/api/transform.rs:31-33 | at most one buffer is freed, the code's own, and one exactly when the code lost its last count and had allocated a buffer |
| TransformApi.DropSourceCode | src/api/transform.rs:31-33 | dropping the `Vec<u8>` frees its buffer once if it has capacity, and nothing otherwise |
| TransformApi.DroppedSnapshot | src/api/transform.rs:35-38 | at most one snapshot is freed, and one exactly when the kept options lost their last count |
| TransformApi.ReleaseKept | src/api/transform.rs:30-38 | each kept handle loses exactly one count; the code's buffer is freed iff that was the code's last count and the buffer was allocated; the options' snapshot is freed iff that was their last count |
| TransformApi.CallFfiTransform | src/api/transform.rs:61-79 | `GoTransform` receives `malloc`, the envelope, the code and `options.ffiapi_ptr` |
| TransformApi.TransformDirectUnmanaged | src/api/transform.rs:81-100 | a fresh envelope with no handles is queued, so its callback releases nothing; the code handed over has `n` equal to its length and reads back as the code |
| TransformApi.TransformDirect | src/api/transform.rs:145-167 | a fresh envelope holding `Some` code and `Some` options is queued; each held count goes up by one; caller-visible counts are unchanged; the code handed over reads back as the code's bytes |
| TransformApi.DropParameters | src/api/transform.rs:145-167 | dropping the two by-value parameters gives back one count of each and keeps the ledger |
| TransformApi.TransformFuture.Poll | src/api/transform.rs:226-235 | the state and the answer are `Polled` of the old state |
| TransformApi.Transform | src/api/transform.rs:207-221 | a fresh future with no result and no waker, whose completion closure is the handler queued by `transform_direct` |
| TransformApi.AwaitTransform | src/api/transform.rs:207-235 | `transform` then two polls around the runtime's answer: the first is `Pending`, the answer wakes exactly that waker, the second is `Ready` with the result `transform_callback` handed over, and code and options end one count lower |

## Left out

- The Go side (`GoBuild`, `GoTransform`) and the esbuild compiler behind it. They are the abstract runtimes `GoBuildRuntime` and `GoTransformRuntime`: a call is queued, and later answered once through `Complete`. The result arrays' contents are parameters.
- MSVC in-memory DLL loading and the `transmute` of its function pointers: platform plumbing with no logic of its own.
- Threads, the `Mutex` and the real `Waker`. Every operation is sequential, and a waker is an identifier whose `wake()` calls are recorded.
- The `callback` function pointer is not recorded in `GoBuildCall`/`GoTransformCall`: it is always `build_callback`/`transform_callback`, which `Complete` runs.
- The Rust allocations of the envelope and the handler boxes, and their frees in the callback. The envelope's `consumed` flag stands for the reclaiming `Box::from_raw`.
- Other Rust allocations and frees are not tracked in the `Heap`:
  - the frees of the builder's `Vec` and `HashMap` buffers, which `build()` consumes through `into_iter`;
  - the reallocation `shrink_to_fit` makes of a string with spare capacity;
  - the block `Arc::new` allocates for the count and the value, and its free on the last release.
  So `Heap.freed` records the frees of the snapshot box, the code buffer and the C arrays, and no others.
- The drop glue of the `Vec`/`String` fields of `BuildOptions`/`TransformOptions` when the options are dropped. Only the boxed snapshot's free (`Drop`) is modelled. The code `Vec<u8>` dropped by `transform_callback` is modelled.
- The contents of the 1024-byte dummy buffer. Through it the model admits only the zero-length read.
- Bridge.ShrinkToFit: the model keeps the buffer's address; a real reallocation may move it.
- Memory.Heap.Collect: capacity is modelled as exactly the length, which `collect` gives for these exact-size iterators but does not promise in general.
- The caller's own `Arc` handles are not tracked. The models of `build_direct`/`transform_direct` require only that the pending calls hold fewer counts than the `Arc` has.
- The `#[repr(C)]` layouts, and the snapshot fields that `src/bridge.rs` declares but `src/wrapper.rs` never sets (`sources_content`, `charset`, `tree_shaking`, `banner` and others). Each snapshot datatype has the fields `src/wrapper.rs` writes, under its names. The two files disagree on many names: `defines`/`define`, `defines_len`/`define_len`, `pure_functions`/`pure`, `externals`/`external`, `loaders`/`loader`, `loaders_len`/`loader_len`. `strict_nullish_coalescing` and `strict_class_fields` exist only in `src/wrapper.rs`. They also disagree on `TransformResult { code, map }` vs `js`/`js_source_map`; `TransformResult` here has the fields `transform_callback` fills, `code` and `sourceMap`.
- `src/wrapper.rs` encodes the defines with `FfiapiDefine::from_map_entry`, but `src/bridge.rs` defines no `FfiapiDefine`. The model uses `FfiapiMapStringStringEntry::from_map_entry` (`Bridge.FromMapEntry`), the name/value pair converter that `src/bridge.rs` does define and that its snapshot's `define` field points to.
- `NodePlatform` and `NoSourceMap` are the variants `Platform::Node` and `SourceMap::None`, renamed to avoid clashes with `EngineName.Node` and `Option.None`.
- `HashMap` fields (`defines`, `loaders`) are sequences in the map's iteration order, which `build()` keeps. The unspecified order itself is not modelled.
- TransformApi.TransformDirectUnmanaged: the caller's obligation to keep the code and the options alive until the callback is not checked, because the envelope keeps no handle to them.
- The `Arc` around the future's state: the future and the completion closure share one `FutureState` object, and its counts are not tracked.
- The bytes that `GoString::from_string` leaks through `mem::forget` are never freed, and the model never frees them.
- No UTF-8 validation is modelled, because the code does none.
- Futures.Invoke: a caller's handler is modelled as touching no tracked state. In the source it runs arbitrary code, which may drop `Arc`s it captured or start another `build_direct`/`transform_direct`. So the frame clauses of `BuildApi.Answer`, `TransformApi.Answer`, `BuildApi.BuildCallback` and `TransformApi.TransformCallback` cover only handlers of that kind and the future's own completion closure.
- The C allocator `libc` is a process global in the source. Here it is an explicit `Heap` handed to `GoBuild`/`GoTransform` and recorded in every result container.
- `Answer`, `ReleaseKept`, `DropSourceCode`, `WrapDiagnostics`, `DropParameter(s)`, `MoveBuildFields`/`ShareBuildFields`, `MoveTransformFields`/`ShareTransformFields`, `StartBuild`/`StartTransform`, `PollBeside` and `TransformCollect` split single source functions into steps. They add no behaviour.
- `nodejs/`, `demo/`, the build script and `src/prelude.rs` (not compiled into the crate) are not part of this model.
