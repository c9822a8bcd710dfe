/**
 * The configuration builders (src/wrapper.rs): a builder of plain Rust
 * values, and the consuming `build()` that first moves the variable-length
 * fields, encoded element by element, into a new shared allocation and only
 * then derives from that allocation the flat snapshot handed to Go, written
 * late into the allocation's `ffiapi_ptr`.
 *
 * A `HashMap` field is represented by the sequence of its entries in the
 * map's own iteration order: that order is fixed for a given map but not
 * specified, and `build()` keeps it.
 */
module Builders {
  import opened Wrappers
  import opened Memory
  import opened OptionTypes
  import opened Bridge

  type Bytes = seq<uint8>

  /** `transform`: maps every element in iteration order. */
  function Transform<I, O>(src: seq<I>, mapper: I -> O): (r: seq<O>)
    ensures |r| == |src|
    ensures forall i :: 0 <= i < |src| ==> r[i] == mapper(src[i])
  {
    if |src| == 0 then [] else [mapper(src[0])] + Transform(src[1..], mapper)
  }

  /** The foreign side's reading of a sequence of encoded elements, one by one. */
  function DecodeEach<T, U>(s: seq<T>, decode: T -> Option<U>): Option<seq<U>> {
    if |s| == 0 then Some([])
    else
      var head :- decode(s[0]);
      var tail :- DecodeEach(s[1..], decode);
      Some([head] + tail)
  }

  /** When decoding undoes encoding element-wise, it undoes `Transform` too. */
  lemma {:induction false} DecodeEachTransform<A, B, C>(s: seq<A>, encode: A -> B, decode: B -> Option<C>, view: A -> C)
    requires forall x :: decode(encode(x)) == Some(view(x))
    ensures DecodeEach(Transform(s, encode), decode) == Some(Transform(s, view))
  {
    if |s| > 0 {
      DecodeEachTransform(s[1..], encode, decode, view);
      assert Transform(s, encode)[1..] == Transform(s[1..], encode);
    }
  }

  /** `len` elements at `p`, each decoded. */
  function DecodeArray<T, U>(p: Ptr<T>, len: nat, decode: T -> Option<U>): Option<seq<U>> {
    var elems :- Read(p, len);
    DecodeEach(elems, decode)
  }

  /** A Go slice of `GoString`s, each decoded. */
  function DecodeStrings(s: GoSlice<GoString>): Option<seq<Bytes>> {
    var elems :- DecodeGoSlice(s);
    DecodeEach(elems, DecodeGoString)
  }

  // What the foreign side should recover from each encoded element.

  function StringView(s: RustString): Bytes {
    s.elems
  }

  function EngineView(e: Engine): (EngineName, Bytes) {
    (e.name, e.version.elems)
  }

  function DefineView(entry: (RustString, RustString)): (Bytes, Bytes) {
    (entry.0.elems, entry.1.elems)
  }

  function LoaderView(entry: (RustString, Loader)): (Bytes, Loader) {
    (entry.0.elems, entry.1)
  }

  lemma ElementRoundTrips()
    ensures forall s :: DecodeGoString(FromString(s)) == Some(StringView(s))
    ensures forall e :: DecodeEngine(FromEngine(e)) == Some(EngineView(e))
    ensures forall d :: DecodeMapEntry(FromMapEntry(d)) == Some(DefineView(d))
    ensures forall l :: DecodeLoaderEntry(FromLoaderEntry(l)) == Some(LoaderView(l))
  {
  }

  // ---------------------------------------------------------------- build

  datatype BuildOptionsBuilder = BuildOptionsBuilder(
    sourceMap: SourceMap,
    target: Target,
    engines: seq<Engine>,
    strict: StrictOptions,
    minifyWhitespace: bool,
    minifyIdentifiers: bool,
    minifySyntax: bool,
    jsxFactory: RustString,
    jsxFragment: RustString,
    defines: seq<(RustString, RustString)>,
    pureFunctions: seq<RustString>,
    globalName: RustString,
    bundle: bool,
    splitting: bool,
    outfile: RustString,
    metafile: RustString,
    outdir: RustString,
    platform: Platform,
    format: Format,
    externals: seq<RustString>,
    loaders: seq<(RustString, Loader)>,
    resolveExtensions: seq<RustString>,
    tsconfig: RustString,
    entryPoints: seq<RustString>)
  {
    /** The strings that `build()` keeps and points into are well-formed buffers. */
    predicate Valid() {
      && jsxFactory.Valid() && jsxFragment.Valid() && globalName.Valid()
      && outfile.Valid() && metafile.Valid() && outdir.Valid() && tsconfig.Valid()
    }
  }

  /** `BuildOptionsBuilder::new`. */
  function NewBuildOptionsBuilder(): (b: BuildOptionsBuilder)
    ensures b.Valid()
  {
    BuildOptionsBuilder(
      sourceMap := NoSourceMap,
      target := ESNext,
      engines := [],
      strict := StrictOptions(nullishCoalescing := false, classFields := false),
      minifyWhitespace := false,
      minifyIdentifiers := false,
      minifySyntax := false,
      jsxFactory := EmptyString,
      jsxFragment := EmptyString,
      defines := [],
      pureFunctions := [],
      globalName := EmptyString,
      bundle := false,
      splitting := false,
      outfile := EmptyString,
      metafile := EmptyString,
      outdir := EmptyString,
      platform := Browser,
      format := Default,
      externals := [],
      loaders := [],
      resolveExtensions := [],
      tsconfig := EmptyString,
      entryPoints := [])
  }

  /** The fields of `BuildOptions` that the snapshot points into. */
  datatype BuildOptionsFields = BuildOptionsFields(
    engines: Buf<FfiEngine>,
    jsxFactory: RustString,
    jsxFragment: RustString,
    defines: Buf<MapEntry>,
    pureFunctions: Buf<GoString>,
    globalName: RustString,
    outfile: RustString,
    metafile: RustString,
    outdir: RustString,
    externals: Buf<GoString>,
    loaders: Buf<FfiLoader>,
    resolveExtensions: Buf<GoString>,
    tsconfig: RustString,
    entryPoints: Buf<GoString>)
  {
    ghost predicate Valid() {
      && engines.Valid() && jsxFactory.Valid() && jsxFragment.Valid() && defines.Valid()
      && pureFunctions.Valid() && globalName.Valid() && outfile.Valid() && metafile.Valid()
      && outdir.Valid() && externals.Valid() && loaders.Valid() && resolveExtensions.Valid()
      && tsconfig.Valid() && entryPoints.Valid()
    }

    /** The fields are those of `b`: strings moved as they are, vectors encoded element-wise. */
    ghost predicate Holds(b: BuildOptionsBuilder) {
      && Valid()
      && engines.elems == Transform(b.engines, FromEngine)
      && jsxFactory == b.jsxFactory
      && jsxFragment == b.jsxFragment
      && defines.elems == Transform(b.defines, FromMapEntry)
      && pureFunctions.elems == Transform(b.pureFunctions, FromString)
      && globalName == b.globalName
      && outfile == b.outfile
      && metafile == b.metafile
      && outdir == b.outdir
      && externals.elems == Transform(b.externals, FromString)
      && loaders.elems == Transform(b.loaders, FromLoaderEntry)
      && resolveExtensions.elems == Transform(b.resolveExtensions, FromString)
      && tsconfig == b.tsconfig
      && entryPoints.elems == Transform(b.entryPoints, FromString)
    }
  }

  /** The flat snapshot `build()` writes (the fields src/wrapper.rs sets). */
  datatype FfiBuildOptions = FfiBuildOptions(
    sourceMap: uint8,
    target: uint8,
    engines: Ptr<FfiEngine>,
    enginesLen: nat,
    strictNullishCoalescing: bool,
    strictClassFields: bool,
    minifyWhitespace: bool,
    minifyIdentifiers: bool,
    minifySyntax: bool,
    jsxFactory: GoString,
    jsxFragment: GoString,
    defines: Ptr<MapEntry>,
    definesLen: nat,
    pureFunctions: GoSlice<GoString>,
    globalName: GoString,
    bundle: bool,
    splitting: bool,
    outfile: GoString,
    metafile: GoString,
    outdir: GoString,
    platform: uint8,
    format: uint8,
    externals: GoSlice<GoString>,
    loaders: Ptr<FfiLoader>,
    loadersLen: nat,
    resolveExtensions: GoSlice<GoString>,
    tsconfig: GoString,
    entryPoints: GoSlice<GoString>)

  /**
   * The snapshot: scalars from the builder, pointers and counts from the
   * fields already moved into the shared allocation.
   */
  function BuildSnapshot(b: BuildOptionsBuilder, f: BuildOptionsFields): (s: FfiBuildOptions)
    requires f.Valid()
    ensures SourceMapFromCode(s.sourceMap) == Some(b.sourceMap) && TargetFromCode(s.target) == Some(b.target)
    ensures PlatformFromCode(s.platform) == Some(b.platform) && FormatFromCode(s.format) == Some(b.format)
  {
    FfiBuildOptions(
      sourceMap := SourceMapCode(b.sourceMap),
      target := TargetCode(b.target),
      engines := GetAllocationPointer(f.engines.AsSlice()),
      enginesLen := |f.engines.elems|,
      strictNullishCoalescing := b.strict.nullishCoalescing,
      strictClassFields := b.strict.classFields,
      minifyWhitespace := b.minifyWhitespace,
      minifyIdentifiers := b.minifyIdentifiers,
      minifySyntax := b.minifySyntax,
      jsxFactory := FromBytesUnmanaged(f.jsxFactory.AsSlice()),
      jsxFragment := FromBytesUnmanaged(f.jsxFragment.AsSlice()),
      defines := GetAllocationPointer(f.defines.AsSlice()),
      definesLen := |f.defines.elems|,
      pureFunctions := FromVecUnmanaged(f.pureFunctions),
      globalName := FromBytesUnmanaged(f.globalName.AsSlice()),
      bundle := b.bundle,
      splitting := b.splitting,
      outfile := FromBytesUnmanaged(f.outfile.AsSlice()),
      metafile := FromBytesUnmanaged(f.metafile.AsSlice()),
      outdir := FromBytesUnmanaged(f.outdir.AsSlice()),
      platform := PlatformCode(b.platform),
      format := FormatCode(b.format),
      externals := FromVecUnmanaged(f.externals),
      loaders := GetAllocationPointer(f.loaders.AsSlice()),
      loadersLen := |f.loaders.elems|,
      resolveExtensions := FromVecUnmanaged(f.resolveExtensions),
      tsconfig := FromBytesUnmanaged(f.tsconfig.AsSlice()),
      entryPoints := FromVecUnmanaged(f.entryPoints))
  }

  /** The configuration as plain values: what the builder says and what Go should see. */
  datatype BuildConfig = BuildConfig(
    sourceMap: SourceMap,
    target: Target,
    engines: seq<(EngineName, Bytes)>,
    strict: StrictOptions,
    minifyWhitespace: bool,
    minifyIdentifiers: bool,
    minifySyntax: bool,
    jsxFactory: Bytes,
    jsxFragment: Bytes,
    defines: seq<(Bytes, Bytes)>,
    pureFunctions: seq<Bytes>,
    globalName: Bytes,
    bundle: bool,
    splitting: bool,
    outfile: Bytes,
    metafile: Bytes,
    outdir: Bytes,
    platform: Platform,
    format: Format,
    externals: seq<Bytes>,
    loaders: seq<(Bytes, Loader)>,
    resolveExtensions: seq<Bytes>,
    tsconfig: Bytes,
    entryPoints: seq<Bytes>)

  function BuildConfigOf(b: BuildOptionsBuilder): BuildConfig {
    BuildConfig(
      sourceMap := b.sourceMap,
      target := b.target,
      engines := Transform(b.engines, EngineView),
      strict := b.strict,
      minifyWhitespace := b.minifyWhitespace,
      minifyIdentifiers := b.minifyIdentifiers,
      minifySyntax := b.minifySyntax,
      jsxFactory := b.jsxFactory.elems,
      jsxFragment := b.jsxFragment.elems,
      defines := Transform(b.defines, DefineView),
      pureFunctions := Transform(b.pureFunctions, StringView),
      globalName := b.globalName.elems,
      bundle := b.bundle,
      splitting := b.splitting,
      outfile := b.outfile.elems,
      metafile := b.metafile.elems,
      outdir := b.outdir.elems,
      platform := b.platform,
      format := b.format,
      externals := Transform(b.externals, StringView),
      loaders := Transform(b.loaders, LoaderView),
      resolveExtensions := Transform(b.resolveExtensions, StringView),
      tsconfig := b.tsconfig.elems,
      entryPoints := Transform(b.entryPoints, StringView))
  }

  /** How the foreign side reads a build snapshot; `None` where it would fault. */
  function DecodeBuildSnapshot(s: FfiBuildOptions): Option<BuildConfig> {
    var sourceMap :- SourceMapFromCode(s.sourceMap);
    var target :- TargetFromCode(s.target);
    var engines :- DecodeArray(s.engines, s.enginesLen, DecodeEngine);
    var jsxFactory :- DecodeGoString(s.jsxFactory);
    var jsxFragment :- DecodeGoString(s.jsxFragment);
    var defines :- DecodeArray(s.defines, s.definesLen, DecodeMapEntry);
    var pureFunctions :- DecodeStrings(s.pureFunctions);
    var globalName :- DecodeGoString(s.globalName);
    var outfile :- DecodeGoString(s.outfile);
    var metafile :- DecodeGoString(s.metafile);
    var outdir :- DecodeGoString(s.outdir);
    var platform :- PlatformFromCode(s.platform);
    var format :- FormatFromCode(s.format);
    var externals :- DecodeStrings(s.externals);
    var loaders :- DecodeArray(s.loaders, s.loadersLen, DecodeLoaderEntry);
    var resolveExtensions :- DecodeStrings(s.resolveExtensions);
    var tsconfig :- DecodeGoString(s.tsconfig);
    var entryPoints :- DecodeStrings(s.entryPoints);
    Some(BuildConfig(
      sourceMap := sourceMap,
      target := target,
      engines := engines,
      strict := StrictOptions(nullishCoalescing := s.strictNullishCoalescing, classFields := s.strictClassFields),
      minifyWhitespace := s.minifyWhitespace,
      minifyIdentifiers := s.minifyIdentifiers,
      minifySyntax := s.minifySyntax,
      jsxFactory := jsxFactory,
      jsxFragment := jsxFragment,
      defines := defines,
      pureFunctions := pureFunctions,
      globalName := globalName,
      bundle := s.bundle,
      splitting := s.splitting,
      outfile := outfile,
      metafile := metafile,
      outdir := outdir,
      platform := platform,
      format := format,
      externals := externals,
      loaders := loaders,
      resolveExtensions := resolveExtensions,
      tsconfig := tsconfig,
      entryPoints := entryPoints))
  }

  /**
   * Round trip: reading the snapshot built from a builder recovers exactly
   * the builder's configuration, every scalar, string and list, in order.
   */
  lemma BuildRoundTrip(b: BuildOptionsBuilder, f: BuildOptionsFields)
    requires f.Holds(b)
    ensures DecodeBuildSnapshot(BuildSnapshot(b, f)) == Some(BuildConfigOf(b))
  {
    var s := BuildSnapshot(b, f);
    CodesRoundTrip(Chrome, b.format, JS, b.platform, b.sourceMap, b.target);
    ElementRoundTrips();
    assert DecodeArray(s.engines, s.enginesLen, DecodeEngine) == Some(Transform(b.engines, EngineView)) by {
      DecodeEachTransform(b.engines, FromEngine, DecodeEngine, EngineView);
    }
    assert DecodeArray(s.defines, s.definesLen, DecodeMapEntry) == Some(Transform(b.defines, DefineView)) by {
      DecodeEachTransform(b.defines, FromMapEntry, DecodeMapEntry, DefineView);
    }
    assert DecodeArray(s.loaders, s.loadersLen, DecodeLoaderEntry) == Some(Transform(b.loaders, LoaderView)) by {
      DecodeEachTransform(b.loaders, FromLoaderEntry, DecodeLoaderEntry, LoaderView);
    }
    assert DecodeStrings(s.pureFunctions) == Some(Transform(b.pureFunctions, StringView)) by {
      DecodeEachTransform(b.pureFunctions, FromString, DecodeGoString, StringView);
    }
    assert DecodeStrings(s.externals) == Some(Transform(b.externals, StringView)) by {
      DecodeEachTransform(b.externals, FromString, DecodeGoString, StringView);
    }
    assert DecodeStrings(s.resolveExtensions) == Some(Transform(b.resolveExtensions, StringView)) by {
      DecodeEachTransform(b.resolveExtensions, FromString, DecodeGoString, StringView);
    }
    assert DecodeStrings(s.entryPoints) == Some(Transform(b.entryPoints, StringView)) by {
      DecodeEachTransform(b.entryPoints, FromString, DecodeGoString, StringView);
    }
  }

  /** Each count is the number of elements stored, each string length its byte count. */
  lemma BuildSnapshotCounts(b: BuildOptionsBuilder, f: BuildOptionsFields)
    requires f.Holds(b)
    ensures var s := BuildSnapshot(b, f);
      && s.enginesLen == |b.engines| && s.definesLen == |b.defines| && s.loadersLen == |b.loaders|
      && s.pureFunctions.len == |b.pureFunctions| && s.externals.len == |b.externals|
      && s.resolveExtensions.len == |b.resolveExtensions| && s.entryPoints.len == |b.entryPoints|
      && s.jsxFactory.n == |b.jsxFactory.elems| && s.jsxFragment.n == |b.jsxFragment.elems|
      && s.globalName.n == |b.globalName.elems| && s.outfile.n == |b.outfile.elems|
      && s.metafile.n == |b.metafile.elems| && s.outdir.n == |b.outdir.elems|
      && s.tsconfig.n == |b.tsconfig.elems|
  {
  }

  /** A pointer Go can be handed for `len` elements: never null or dangling, the dummy buffer when empty. */
  predicate SafeFor<T>(p: Ptr<T>, len: int) {
    p != Null && p != Dangling && (len == 0 ==> p == Dummy)
  }

  predicate SafeBuildSnapshot(s: FfiBuildOptions) {
    && SafeFor(s.engines, s.enginesLen) && SafeFor(s.defines, s.definesLen) && SafeFor(s.loaders, s.loadersLen)
    && SafeFor(s.pureFunctions.data, s.pureFunctions.len) && SafeFor(s.externals.data, s.externals.len)
    && SafeFor(s.resolveExtensions.data, s.resolveExtensions.len) && SafeFor(s.entryPoints.data, s.entryPoints.len)
    && SafeFor(s.jsxFactory.p, s.jsxFactory.n) && SafeFor(s.jsxFragment.p, s.jsxFragment.n)
    && SafeFor(s.globalName.p, s.globalName.n) && SafeFor(s.outfile.p, s.outfile.n)
    && SafeFor(s.metafile.p, s.metafile.n) && SafeFor(s.outdir.p, s.outdir.n)
    && SafeFor(s.tsconfig.p, s.tsconfig.n)
  }

  /** Whatever the builder holds, no snapshot pointer is null or the dangling placeholder. */
  lemma BuildSnapshotSafe(b: BuildOptionsBuilder, f: BuildOptionsFields)
    requires f.Valid()
    ensures SafeBuildSnapshot(BuildSnapshot(b, f))
  {
  }

  /**
   * The defaults of `BuildOptionsBuilder::new`, as Go receives them: every
   * enum at its first variant (code 0), every flag off, every string and
   * list empty behind the dummy buffer.
   */
  lemma NewBuildOptionsSnapshot(f: BuildOptionsFields)
    requires f.Holds(NewBuildOptionsBuilder())
    ensures var s := BuildSnapshot(NewBuildOptionsBuilder(), f);
      && s.sourceMap == 0 && s.target == 0 && s.platform == 0 && s.format == 0
      && !s.strictNullishCoalescing && !s.strictClassFields
      && !s.minifyWhitespace && !s.minifyIdentifiers && !s.minifySyntax && !s.bundle && !s.splitting
      && s.enginesLen == 0 && s.definesLen == 0 && s.loadersLen == 0
      && s.engines == Dummy && s.defines == Dummy && s.loaders == Dummy
      && s.pureFunctions.data == Dummy && s.pureFunctions.len == 0
      && s.externals.data == Dummy && s.externals.len == 0
      && s.resolveExtensions.data == Dummy && s.resolveExtensions.len == 0
      && s.entryPoints.data == Dummy && s.entryPoints.len == 0
      && s.jsxFactory == GoString(Dummy, 0) && s.jsxFragment == GoString(Dummy, 0)
      && s.globalName == GoString(Dummy, 0) && s.outfile == GoString(Dummy, 0)
      && s.metafile == GoString(Dummy, 0) && s.outdir == GoString(Dummy, 0)
      && s.tsconfig == GoString(Dummy, 0)
  {
  }

  /**
   * `BuildOptions`: the moved fields and the snapshot pointer, null until
   * `build()` writes it.
   */
  class BuildOptions {
    const fields: BuildOptionsFields
    var ffiapiPtr: Ptr<FfiBuildOptions>

    constructor (fields: BuildOptionsFields)
      ensures this.fields == fields && ffiapiPtr == Null
    {
      this.fields := fields;
      ffiapiPtr := Null;
    }

    /** `ffiapi_ptr` holds the boxed snapshot. */
    ghost predicate Built()
      reads this
    {
      ffiapiPtr.At? && |ffiapiPtr.elems| == 1
    }

    /**
     * `Drop`: frees the boxed snapshot. It runs when the value's last `Arc`
     * handle is released, which `Arc.Release` reports exactly once.
     */
    method Drop(rust: Heap)
      requires Built()
      modifies rust
      ensures rust.freed == old(rust.freed) + [Erase(ffiapiPtr)] && rust.next == old(rust.next)
    {
      rust.Free(Erase(ffiapiPtr));
    }
  }

  /**
   * `transform` as the builders call it: the encoded elements, in order,
   * collected into a new vector whose capacity is its length; only a
   * non-empty vector allocates.
   */
  method TransformCollect<A, B>(rust: Heap, src: seq<A>, mapper: A -> B) returns (v: Buf<B>)
    modifies rust
    ensures v.Valid() && v.elems == Transform(src, mapper) && v.cap == |src|
    ensures rust.next == old(rust.next) + (if |src| > 0 then 1 else 0) && rust.freed == old(rust.freed)
  {
    v := rust.Collect(Transform(src, mapper));
  }

  /** Step 1 of `build()`: the variable-length fields, encoded element-wise and collected into new vectors. */
  method MoveBuildFields(b: BuildOptionsBuilder, rust: Heap) returns (f: BuildOptionsFields)
    requires b.Valid()
    modifies rust
    ensures f.Holds(b)
    ensures old(rust.next) <= rust.next && rust.freed == old(rust.freed)
  {
    var engines := TransformCollect(rust, b.engines, FromEngine);
    var defines := TransformCollect(rust, b.defines, FromMapEntry);
    var pureFunctions := TransformCollect(rust, b.pureFunctions, FromString);
    var externals := TransformCollect(rust, b.externals, FromString);
    var loaders := TransformCollect(rust, b.loaders, FromLoaderEntry);
    var resolveExtensions := TransformCollect(rust, b.resolveExtensions, FromString);
    var entryPoints := TransformCollect(rust, b.entryPoints, FromString);
    f := BuildOptionsFields(
      engines := engines,
      jsxFactory := b.jsxFactory,
      jsxFragment := b.jsxFragment,
      defines := defines,
      pureFunctions := pureFunctions,
      globalName := b.globalName,
      outfile := b.outfile,
      metafile := b.metafile,
      outdir := b.outdir,
      externals := externals,
      loaders := loaders,
      resolveExtensions := resolveExtensions,
      tsconfig := b.tsconfig,
      entryPoints := entryPoints);
  }

  /**
   * Step 2 of `build()`: the fields are moved into a new `Arc` first; the
   * snapshot is computed from the fields at their final place, boxed, and
   * written into `ffiapi_ptr` while the `Arc` is still its only owner.
   */
  method ShareBuildFields(b: BuildOptionsBuilder, fields: BuildOptionsFields, rust: Heap)
    returns (options: Arc<BuildOptions>)
    requires fields.Valid()
    modifies rust
    ensures fresh(options) && fresh(options.value)
    ensures options.strong == 1 && options.value.fields == fields
    ensures rust.next == old(rust.next) + 1 && rust.freed == old(rust.freed)
    ensures options.value.ffiapiPtr == At(old(rust.next), [BuildSnapshot(b, fields)])
  {
    var res := new BuildOptions(fields);
    options := new Arc(res);
    var snapshot := BuildSnapshot(b, res.fields);
    var box := rust.Alloc();
    // Arc::get_mut(..).unwrap() cannot fail: nobody else holds the Arc yet.
    assert options.strong == 1;
    res.ffiapiPtr := At(box, [snapshot]);
  }

  /**
   * `BuildOptionsBuilder::build`: a new sole `Arc` whose fields hold the
   * builder's and whose snapshot, in the box allocated last, is the builder's
   * snapshot of those fields.
   */
  method BuildBuildOptions(b: BuildOptionsBuilder, rust: Heap) returns (options: Arc<BuildOptions>)
    requires b.Valid()
    modifies rust
    ensures fresh(options) && fresh(options.value)
    ensures options.strong == 1
    ensures options.value.fields.Holds(b)
    ensures old(rust.next) < rust.next
    ensures options.value.ffiapiPtr == At(rust.next - 1, [BuildSnapshot(b, options.value.fields)])
    ensures rust.freed == old(rust.freed)
  {
    var fields := MoveBuildFields(b, rust);
    options := ShareBuildFields(b, fields, rust);
  }

  // ------------------------------------------------------------ transform

  datatype TransformOptionsBuilder = TransformOptionsBuilder(
    sourceMap: SourceMap,
    target: Target,
    engines: seq<Engine>,
    strict: StrictOptions,
    minifyWhitespace: bool,
    minifyIdentifiers: bool,
    minifySyntax: bool,
    jsxFactory: RustString,
    jsxFragment: RustString,
    defines: seq<(RustString, RustString)>,
    pureFunctions: seq<RustString>,
    sourceFile: RustString,
    loader: Loader)
  {
    /** The strings that `build()` keeps and points into are well-formed buffers. */
    predicate Valid() {
      jsxFactory.Valid() && jsxFragment.Valid() && sourceFile.Valid()
    }
  }

  /** `TransformOptionsBuilder::new`. */
  function NewTransformOptionsBuilder(): (b: TransformOptionsBuilder)
    ensures b.Valid()
  {
    TransformOptionsBuilder(
      sourceMap := NoSourceMap,
      target := ESNext,
      engines := [],
      strict := StrictOptions(nullishCoalescing := false, classFields := false),
      minifyWhitespace := false,
      minifyIdentifiers := false,
      minifySyntax := false,
      jsxFactory := EmptyString,
      jsxFragment := EmptyString,
      defines := [],
      pureFunctions := [],
      sourceFile := EmptyString,
      loader := JS)
  }

  /** The fields of `TransformOptions` that the snapshot points into. */
  datatype TransformOptionsFields = TransformOptionsFields(
    engines: Buf<FfiEngine>,
    jsxFactory: RustString,
    jsxFragment: RustString,
    defines: Buf<MapEntry>,
    pureFunctions: Buf<GoString>,
    sourceFile: RustString)
  {
    ghost predicate Valid() {
      && engines.Valid() && jsxFactory.Valid() && jsxFragment.Valid() && defines.Valid()
      && pureFunctions.Valid() && sourceFile.Valid()
    }

    /** The fields are those of `b`: strings moved as they are, vectors encoded element-wise. */
    ghost predicate Holds(b: TransformOptionsBuilder) {
      && Valid()
      && engines.elems == Transform(b.engines, FromEngine)
      && jsxFactory == b.jsxFactory
      && jsxFragment == b.jsxFragment
      && defines.elems == Transform(b.defines, FromMapEntry)
      && pureFunctions.elems == Transform(b.pureFunctions, FromString)
      && sourceFile == b.sourceFile
    }
  }

  /** The flat snapshot the transform `build()` writes (the fields src/wrapper.rs sets). */
  datatype FfiTransformOptions = FfiTransformOptions(
    sourceMap: uint8,
    target: uint8,
    engines: Ptr<FfiEngine>,
    enginesLen: nat,
    strictNullishCoalescing: bool,
    strictClassFields: bool,
    minifyWhitespace: bool,
    minifyIdentifiers: bool,
    minifySyntax: bool,
    jsxFactory: GoString,
    jsxFragment: GoString,
    defines: Ptr<MapEntry>,
    definesLen: nat,
    pureFunctions: GoSlice<GoString>,
    sourceFile: GoString,
    loader: uint8)

  /**
   * The transform snapshot: scalars from the builder, pointers and counts
   * from the fields already moved into the shared allocation.
   */
  function TransformSnapshot(b: TransformOptionsBuilder, f: TransformOptionsFields): (s: FfiTransformOptions)
    requires f.Valid()
    ensures SourceMapFromCode(s.sourceMap) == Some(b.sourceMap) && TargetFromCode(s.target) == Some(b.target)
    ensures LoaderFromCode(s.loader) == Some(b.loader)
  {
    FfiTransformOptions(
      sourceMap := SourceMapCode(b.sourceMap),
      target := TargetCode(b.target),
      engines := GetAllocationPointer(f.engines.AsSlice()),
      enginesLen := |f.engines.elems|,
      strictNullishCoalescing := b.strict.nullishCoalescing,
      strictClassFields := b.strict.classFields,
      minifyWhitespace := b.minifyWhitespace,
      minifyIdentifiers := b.minifyIdentifiers,
      minifySyntax := b.minifySyntax,
      jsxFactory := FromBytesUnmanaged(f.jsxFactory.AsSlice()),
      jsxFragment := FromBytesUnmanaged(f.jsxFragment.AsSlice()),
      defines := GetAllocationPointer(f.defines.AsSlice()),
      definesLen := |f.defines.elems|,
      pureFunctions := FromVecUnmanaged(f.pureFunctions),
      sourceFile := FromBytesUnmanaged(f.sourceFile.AsSlice()),
      loader := LoaderCode(b.loader))
  }

  datatype TransformConfig = TransformConfig(
    sourceMap: SourceMap,
    target: Target,
    engines: seq<(EngineName, Bytes)>,
    strict: StrictOptions,
    minifyWhitespace: bool,
    minifyIdentifiers: bool,
    minifySyntax: bool,
    jsxFactory: Bytes,
    jsxFragment: Bytes,
    defines: seq<(Bytes, Bytes)>,
    pureFunctions: seq<Bytes>,
    sourceFile: Bytes,
    loader: Loader)

  function TransformConfigOf(b: TransformOptionsBuilder): TransformConfig {
    TransformConfig(
      sourceMap := b.sourceMap,
      target := b.target,
      engines := Transform(b.engines, EngineView),
      strict := b.strict,
      minifyWhitespace := b.minifyWhitespace,
      minifyIdentifiers := b.minifyIdentifiers,
      minifySyntax := b.minifySyntax,
      jsxFactory := b.jsxFactory.elems,
      jsxFragment := b.jsxFragment.elems,
      defines := Transform(b.defines, DefineView),
      pureFunctions := Transform(b.pureFunctions, StringView),
      sourceFile := b.sourceFile.elems,
      loader := b.loader)
  }

  /** How the foreign side reads a transform snapshot; `None` where it would fault. */
  function DecodeTransformSnapshot(s: FfiTransformOptions): Option<TransformConfig> {
    var sourceMap :- SourceMapFromCode(s.sourceMap);
    var target :- TargetFromCode(s.target);
    var engines :- DecodeArray(s.engines, s.enginesLen, DecodeEngine);
    var jsxFactory :- DecodeGoString(s.jsxFactory);
    var jsxFragment :- DecodeGoString(s.jsxFragment);
    var defines :- DecodeArray(s.defines, s.definesLen, DecodeMapEntry);
    var pureFunctions :- DecodeStrings(s.pureFunctions);
    var sourceFile :- DecodeGoString(s.sourceFile);
    var loader :- LoaderFromCode(s.loader);
    Some(TransformConfig(
      sourceMap := sourceMap,
      target := target,
      engines := engines,
      strict := StrictOptions(nullishCoalescing := s.strictNullishCoalescing, classFields := s.strictClassFields),
      minifyWhitespace := s.minifyWhitespace,
      minifyIdentifiers := s.minifyIdentifiers,
      minifySyntax := s.minifySyntax,
      jsxFactory := jsxFactory,
      jsxFragment := jsxFragment,
      defines := defines,
      pureFunctions := pureFunctions,
      sourceFile := sourceFile,
      loader := loader))
  }

  /** Round trip: reading the transform snapshot recovers exactly the builder's configuration. */
  lemma TransformRoundTrip(b: TransformOptionsBuilder, f: TransformOptionsFields)
    requires f.Holds(b)
    ensures DecodeTransformSnapshot(TransformSnapshot(b, f)) == Some(TransformConfigOf(b))
  {
    var s := TransformSnapshot(b, f);
    CodesRoundTrip(Chrome, Default, b.loader, Browser, b.sourceMap, b.target);
    ElementRoundTrips();
    assert DecodeArray(s.engines, s.enginesLen, DecodeEngine) == Some(Transform(b.engines, EngineView)) by {
      DecodeEachTransform(b.engines, FromEngine, DecodeEngine, EngineView);
    }
    assert DecodeArray(s.defines, s.definesLen, DecodeMapEntry) == Some(Transform(b.defines, DefineView)) by {
      DecodeEachTransform(b.defines, FromMapEntry, DecodeMapEntry, DefineView);
    }
    assert DecodeStrings(s.pureFunctions) == Some(Transform(b.pureFunctions, StringView)) by {
      DecodeEachTransform(b.pureFunctions, FromString, DecodeGoString, StringView);
    }
  }

  /** Each count is the number of elements stored, each string length its byte count. */
  lemma TransformSnapshotCounts(b: TransformOptionsBuilder, f: TransformOptionsFields)
    requires f.Holds(b)
    ensures var s := TransformSnapshot(b, f);
      && s.enginesLen == |b.engines| && s.definesLen == |b.defines|
      && s.pureFunctions.len == |b.pureFunctions|
      && s.jsxFactory.n == |b.jsxFactory.elems| && s.jsxFragment.n == |b.jsxFragment.elems|
      && s.sourceFile.n == |b.sourceFile.elems|
  {
  }

  predicate SafeTransformSnapshot(s: FfiTransformOptions) {
    && SafeFor(s.engines, s.enginesLen) && SafeFor(s.defines, s.definesLen)
    && SafeFor(s.pureFunctions.data, s.pureFunctions.len)
    && SafeFor(s.jsxFactory.p, s.jsxFactory.n) && SafeFor(s.jsxFragment.p, s.jsxFragment.n)
    && SafeFor(s.sourceFile.p, s.sourceFile.n)
  }

  /** Whatever the builder holds, no snapshot pointer is null or the dangling placeholder. */
  lemma TransformSnapshotSafe(b: TransformOptionsBuilder, f: TransformOptionsFields)
    requires f.Valid()
    ensures SafeTransformSnapshot(TransformSnapshot(b, f))
  {
  }

  /** The defaults of `TransformOptionsBuilder::new`, as Go receives them; the loader is `JS` (code 0). */
  lemma NewTransformOptionsSnapshot(f: TransformOptionsFields)
    requires f.Holds(NewTransformOptionsBuilder())
    ensures var s := TransformSnapshot(NewTransformOptionsBuilder(), f);
      && s.sourceMap == 0 && s.target == 0 && s.loader == 0
      && !s.strictNullishCoalescing && !s.strictClassFields
      && !s.minifyWhitespace && !s.minifyIdentifiers && !s.minifySyntax
      && s.enginesLen == 0 && s.definesLen == 0
      && s.engines == Dummy && s.defines == Dummy
      && s.pureFunctions.data == Dummy && s.pureFunctions.len == 0
      && s.jsxFactory == GoString(Dummy, 0) && s.jsxFragment == GoString(Dummy, 0)
      && s.sourceFile == GoString(Dummy, 0)
  {
  }

  /** `TransformOptions`: the moved fields and the snapshot pointer, null until `build()` writes it. */
  class TransformOptions {
    const fields: TransformOptionsFields
    var ffiapiPtr: Ptr<FfiTransformOptions>

    constructor (fields: TransformOptionsFields)
      ensures this.fields == fields && ffiapiPtr == Null
    {
      this.fields := fields;
      ffiapiPtr := Null;
    }

    ghost predicate Built()
      reads this
    {
      ffiapiPtr.At? && |ffiapiPtr.elems| == 1
    }

    /**
     * `Drop`: frees the boxed snapshot. It runs when the value's last `Arc`
     * handle is released, which `Arc.Release` reports exactly once.
     */
    method Drop(rust: Heap)
      requires Built()
      modifies rust
      ensures rust.freed == old(rust.freed) + [Erase(ffiapiPtr)] && rust.next == old(rust.next)
    {
      rust.Free(Erase(ffiapiPtr));
    }
  }

  /** Step 1 of the transform `build()`. */
  method MoveTransformFields(b: TransformOptionsBuilder, rust: Heap) returns (f: TransformOptionsFields)
    requires b.Valid()
    modifies rust
    ensures f.Holds(b)
    ensures old(rust.next) <= rust.next && rust.freed == old(rust.freed)
  {
    var engines := TransformCollect(rust, b.engines, FromEngine);
    var defines := TransformCollect(rust, b.defines, FromMapEntry);
    var pureFunctions := TransformCollect(rust, b.pureFunctions, FromString);
    f := TransformOptionsFields(
      engines := engines,
      jsxFactory := b.jsxFactory,
      jsxFragment := b.jsxFragment,
      defines := defines,
      pureFunctions := pureFunctions,
      sourceFile := b.sourceFile);
  }

  /** Step 2 of the transform `build()`, in the same order as the build-options one. */
  method ShareTransformFields(b: TransformOptionsBuilder, fields: TransformOptionsFields, rust: Heap)
    returns (options: Arc<TransformOptions>)
    requires fields.Valid()
    modifies rust
    ensures fresh(options) && fresh(options.value)
    ensures options.strong == 1 && options.value.fields == fields
    ensures rust.next == old(rust.next) + 1 && rust.freed == old(rust.freed)
    ensures options.value.ffiapiPtr == At(old(rust.next), [TransformSnapshot(b, fields)])
  {
    var res := new TransformOptions(fields);
    options := new Arc(res);
    var snapshot := TransformSnapshot(b, res.fields);
    var box := rust.Alloc();
    // Arc::get_mut(..).unwrap() cannot fail: nobody else holds the Arc yet.
    assert options.strong == 1;
    res.ffiapiPtr := At(box, [snapshot]);
  }

  /** `TransformOptionsBuilder::build`: as `BuildBuildOptions`, for the transform fields and snapshot. */
  method BuildTransformOptions(b: TransformOptionsBuilder, rust: Heap) returns (options: Arc<TransformOptions>)
    requires b.Valid()
    modifies rust
    ensures fresh(options) && fresh(options.value)
    ensures options.strong == 1
    ensures options.value.fields.Holds(b)
    ensures old(rust.next) < rust.next
    ensures options.value.ffiapiPtr == At(rust.next - 1, [TransformSnapshot(b, options.value.fields)])
    ensures rust.freed == old(rust.freed)
  {
    var fields := MoveTransformFields(b, rust);
    options := ShareTransformFields(b, fields, rust);
  }
}
