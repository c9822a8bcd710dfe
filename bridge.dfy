/**
 * ABI value encoding (src/bridge.rs): owned strings, byte slices, vectors,
 * name/value pairs and tagged enums turned into the flat pointer/length
 * records the foreign runtime reads, without copying any payload.
 *
 * `ptrdiff_t` and `size_t` lengths are naturals here: Rust never lets an
 * allocation exceed `isize::MAX` bytes, so the casts in the source lose
 * nothing.
 */
module Bridge {
  import opened Wrappers
  import opened Memory
  import opened OptionTypes

  /**
   * `get_allocation_pointer`: the pointer handed across for a slice. An empty
   * slice never passes on Rust's dangling placeholder nor a null pointer but
   * the static dummy buffer; a non-empty one passes its own start.
   */
  function GetAllocationPointer<T>(data: Slice<T>): (p: Ptr<T>)
    requires data.Valid()
    ensures p != Null && p != Dangling
    ensures p == Dummy <==> |data.elems| == 0
    ensures |data.elems| > 0 ==> p == data.start
    ensures Read(p, |data.elems|) == Some(data.elems)
  {
    if |data.elems| == 0 then Dummy else data.start
  }

  /** `GoString { p, n }`. */
  datatype GoString = GoString(p: Ptr<uint8>, n: int)

  /** What Go reads from a `GoString`: `n` bytes starting at `p`. */
  function DecodeGoString(g: GoString): Option<seq<uint8>> {
    if g.n < 0 then None else Read(g.p, g.n)
  }

  /**
   * `GoString::from_bytes_unmanaged`: a view of borrowed bytes, which must
   * outlive it. Go reads back exactly those bytes, also when there are none.
   */
  function FromBytesUnmanaged(s: Slice<uint8>): (g: GoString)
    requires s.Valid()
    ensures g.n == |s.elems|
    ensures g.p != Null && g.p != Dangling
    ensures DecodeGoString(g) == Some(s.elems)
  {
    GoString(GetAllocationPointer(s), |s.elems|)
  }

  /**
   * `String::shrink_to_fit`: same bytes, capacity cut to the length. An
   * empty string gives its allocation back and is left with capacity 0.
   * A reallocation may move the bytes; the model keeps the address, and
   * nothing here depends on it.
   */
  function ShrinkToFit(s: RustString): (t: RustString)
    ensures t.Valid() && t.elems == s.elems && t.cap == |s.elems|
  {
    Buf(s.addr, s.elems, |s.elems|)
  }

  /**
   * `GoString::from_string`: the string is shrunk, encoded and then
   * forgotten, so its bytes stay allocated for good and are never freed by
   * Rust. Go reads back the string's bytes unchanged.
   */
  function FromString(s: RustString): (g: GoString)
    ensures g.n == |s.elems|
    ensures g.p != Null && g.p != Dangling
    ensures DecodeGoString(g) == Some(s.elems)
  {
    var shrunk := ShrinkToFit(s);
    GoString(GetAllocationPointer(shrunk.AsSlice()), |shrunk.elems|)
  }

  /** `FfiapiGoStringGoSlice { data, len, cap }`: a Go slice header. */
  datatype GoSlice<T> = GoSlice(data: Ptr<T>, len: int, cap: int)

  /** What Go reads from a slice header: `len` elements at `data`, when `0 <= len <= cap`. */
  function DecodeGoSlice<T>(s: GoSlice<T>): Option<seq<T>> {
    if 0 <= s.len <= s.cap then Read(s.data, s.len) else None
  }

  /**
   * `FfiapiGoStringGoSlice::from_vec_unamanged`: length and capacity of the
   * vector, data pointer by the empty-slice rule. The vector must outlive
   * the header.
   */
  function FromVecUnmanaged<T>(v: Buf<T>): (s: GoSlice<T>)
    requires v.Valid()
    ensures s.len == |v.elems| && s.cap == v.cap && s.len <= s.cap
    ensures s.data != Null && s.data != Dangling
    ensures DecodeGoSlice(s) == Some(v.elems)
  {
    GoSlice(GetAllocationPointer(v.AsSlice()), |v.elems|, v.cap)
  }

  /** `FfiapiMapStringStringEntry { name, value }`. */
  datatype MapEntry = MapEntry(name: GoString, value: GoString)

  function DecodeMapEntry(e: MapEntry): Option<(seq<uint8>, seq<uint8>)> {
    var name :- DecodeGoString(e.name);
    var value :- DecodeGoString(e.value);
    Some((name, value))
  }

  /** `FfiapiMapStringStringEntry::from_map_entry`: key into `name`, value into `value`. */
  function FromMapEntry(entry: (RustString, RustString)): (e: MapEntry)
    ensures DecodeMapEntry(e) == Some((entry.0.elems, entry.1.elems))
  {
    MapEntry(FromString(entry.0), FromString(entry.1))
  }

  /** `FfiapiEngine { name, version }`. */
  datatype FfiEngine = FfiEngine(name: uint8, version: GoString)

  function DecodeEngine(e: FfiEngine): Option<(EngineName, seq<uint8>)> {
    var name :- EngineNameFromCode(e.name);
    var version :- DecodeGoString(e.version);
    Some((name, version))
  }

  /** `FfiapiEngine::from_engine`: the name as its discriminant, the version through `from_string`. */
  function FromEngine(engine: Engine): (e: FfiEngine)
    ensures DecodeEngine(e) == Some((engine.name, engine.version.elems))
  {
    CodesRoundTrip(engine.name, Default, JS, Browser, NoSourceMap, ESNext);
    FfiEngine(EngineNameCode(engine.name), FromString(engine.version))
  }

  /** `FfiapiLoader { name, loader }`. */
  datatype FfiLoader = FfiLoader(name: GoString, loader: uint8)

  function DecodeLoaderEntry(l: FfiLoader): Option<(seq<uint8>, Loader)> {
    var name :- DecodeGoString(l.name);
    var loader :- LoaderFromCode(l.loader);
    Some((name, loader))
  }

  /** `FfiapiLoader::from_map_entry`: the extension through `from_string`, the loader as its discriminant. */
  function FromLoaderEntry(entry: (RustString, Loader)): (l: FfiLoader)
    ensures DecodeLoaderEntry(l) == Some((entry.0.elems, entry.1))
  {
    CodesRoundTrip(Chrome, Default, entry.1, Browser, NoSourceMap, ESNext);
    FfiLoader(FromString(entry.0), LoaderCode(entry.1))
  }
}
