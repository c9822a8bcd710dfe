/**
 * The plain value types of the configuration (src/wrapper.rs): the enums the
 * snapshot encodes as `as u8` discriminants, `Engine` and `StrictOptions`.
 *
 * Each enum comes with the list of its variants in declaration order; the
 * encoding of a variant is its position in that list, which makes every
 * encoding injective. The decoders are the foreign side's reading of a byte.
 */
module OptionTypes {
  import opened Wrappers
  import opened Memory

  datatype EngineName = Chrome | Edge | Firefox | IOS | Node | Safari

  const EngineNames: seq<EngineName> := [Chrome, Edge, Firefox, IOS, Node, Safari]

  function EngineNameCode(e: EngineName): (c: uint8)
    ensures (c as int) < |EngineNames| && EngineNames[c as int] == e
  {
    match e
    case Chrome => 0
    case Edge => 1
    case Firefox => 2
    case IOS => 3
    case Node => 4
    case Safari => 5
  }

  function EngineNameFromCode(c: uint8): (e: Option<EngineName>)
    ensures e.Some? <==> (c as int) < |EngineNames|
    ensures e.Some? ==> EngineNameCode(e.value) == c
  {
    if (c as int) < |EngineNames| then Some(EngineNames[c as int]) else None
  }

  datatype Format = Default | IIFE | CommonJS | ESModule

  const Formats: seq<Format> := [Default, IIFE, CommonJS, ESModule]

  function FormatCode(f: Format): (c: uint8)
    ensures (c as int) < |Formats| && Formats[c as int] == f
  {
    match f
    case Default => 0
    case IIFE => 1
    case CommonJS => 2
    case ESModule => 3
  }

  function FormatFromCode(c: uint8): (f: Option<Format>)
    ensures f.Some? <==> (c as int) < |Formats|
    ensures f.Some? ==> FormatCode(f.value) == c
  {
    if (c as int) < |Formats| then Some(Formats[c as int]) else None
  }

  datatype Loader = JS | JSX | TS | TSX | JSON | Text | Base64 | DataURL | File | Binary

  const Loaders: seq<Loader> := [JS, JSX, TS, TSX, JSON, Text, Base64, DataURL, File, Binary]

  function LoaderCode(l: Loader): (c: uint8)
    ensures (c as int) < |Loaders| && Loaders[c as int] == l
  {
    match l
    case JS => 0
    case JSX => 1
    case TS => 2
    case TSX => 3
    case JSON => 4
    case Text => 5
    case Base64 => 6
    case DataURL => 7
    case File => 8
    case Binary => 9
  }

  function LoaderFromCode(c: uint8): (l: Option<Loader>)
    ensures l.Some? <==> (c as int) < |Loaders|
    ensures l.Some? ==> LoaderCode(l.value) == c
  {
    if (c as int) < |Loaders| then Some(Loaders[c as int]) else None
  }

  datatype Platform = Browser | NodePlatform

  const Platforms: seq<Platform> := [Browser, NodePlatform]

  function PlatformCode(p: Platform): (c: uint8)
    ensures (c as int) < |Platforms| && Platforms[c as int] == p
  {
    match p
    case Browser => 0
    case NodePlatform => 1
  }

  function PlatformFromCode(c: uint8): (p: Option<Platform>)
    ensures p.Some? <==> (c as int) < |Platforms|
    ensures p.Some? ==> PlatformCode(p.value) == c
  {
    if (c as int) < |Platforms| then Some(Platforms[c as int]) else None
  }

  datatype SourceMap = NoSourceMap | Inline | Linked | External

  const SourceMaps: seq<SourceMap> := [NoSourceMap, Inline, Linked, External]

  function SourceMapCode(s: SourceMap): (c: uint8)
    ensures (c as int) < |SourceMaps| && SourceMaps[c as int] == s
  {
    match s
    case NoSourceMap => 0
    case Inline => 1
    case Linked => 2
    case External => 3
  }

  function SourceMapFromCode(c: uint8): (s: Option<SourceMap>)
    ensures s.Some? <==> (c as int) < |SourceMaps|
    ensures s.Some? ==> SourceMapCode(s.value) == c
  {
    if (c as int) < |SourceMaps| then Some(SourceMaps[c as int]) else None
  }

  datatype Target = ESNext | ES5 | ES2015 | ES2016 | ES2017 | ES2018 | ES2019 | ES2020

  const Targets: seq<Target> := [ESNext, ES5, ES2015, ES2016, ES2017, ES2018, ES2019, ES2020]

  function TargetCode(t: Target): (c: uint8)
    ensures (c as int) < |Targets| && Targets[c as int] == t
  {
    match t
    case ESNext => 0
    case ES5 => 1
    case ES2015 => 2
    case ES2016 => 3
    case ES2017 => 4
    case ES2018 => 5
    case ES2019 => 6
    case ES2020 => 7
  }

  function TargetFromCode(c: uint8): (t: Option<Target>)
    ensures t.Some? <==> (c as int) < |Targets|
    ensures t.Some? ==> TargetCode(t.value) == c
  {
    if (c as int) < |Targets| then Some(Targets[c as int]) else None
  }

  /**
   * Decoding undoes every encoding, so no two variants of one enum share a
   * code.
   */
  lemma CodesRoundTrip(e: EngineName, f: Format, l: Loader, p: Platform, s: SourceMap, t: Target)
    ensures EngineNameFromCode(EngineNameCode(e)) == Some(e)
    ensures FormatFromCode(FormatCode(f)) == Some(f)
    ensures LoaderFromCode(LoaderCode(l)) == Some(l)
    ensures PlatformFromCode(PlatformCode(p)) == Some(p)
    ensures SourceMapFromCode(SourceMapCode(s)) == Some(s)
    ensures TargetFromCode(TargetCode(t)) == Some(t)
  {
  }

  /** `Engine` (wrapper.rs): a target engine and its version string. */
  datatype Engine = Engine(name: EngineName, version: RustString)

  datatype StrictOptions = StrictOptions(nullishCoalescing: bool, classFields: bool)
}
