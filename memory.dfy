/**
 * The memory vocabulary shared by the whole model: bytes, raw pointers as
 * abstract handles, the heap buffers of `Vec`/`String`, borrowed slices, an
 * allocator that records every `free`, and the shared allocation behind an
 * `Arc`.
 */
module Memory {
  import opened Wrappers

  /** `u8`. */
  newtype uint8 = x: int | 0 <= x < 0x100

  type Addr = nat

  /**
   * A typed raw pointer. `At(addr, elems)` points at the start of a live
   * allocation whose initialised elements, from that point on, are `elems`.
   * `Dangling` is the non-null placeholder Rust uses for an allocation of
   * size zero; `Dummy` is the static, zero-filled 1024-byte buffer
   * `DUMMY_SAFE_PTR`.
   */
  datatype Ptr<T> =
    | Null
    | Dangling
    | Dummy
    | At(addr: Addr, elems: seq<T>)

  /** A pointer after the cast to `*mut c_void`: only its address is left. */
  datatype RawPtr = RawNull | RawDangling | RawDummy | RawAt(addr: Addr)

  function Erase<T>(p: Ptr<T>): RawPtr {
    match p
    case Null => RawNull
    case Dangling => RawDangling
    case Dummy => RawDummy
    case At(a, _) => RawAt(a)
  }

  /**
   * What the foreign runtime sees when it reads `n` elements starting at `p`.
   * It faults on a null or a dangling pointer, whatever `n` is; through the
   * dummy buffer the model only admits the zero-length read.
   */
  function Read<T>(p: Ptr<T>, n: nat): (r: Option<seq<T>>)
    ensures r.Some? ==> |r.value| == n && (p.At? || (p.Dummy? && n == 0))
  {
    match p
    case At(_, elems) => if n <= |elems| then Some(elems[..n]) else None
    case Dummy => if n == 0 then Some([]) else None
    case _ => None
  }

  /** A borrowed slice `&[T]`: its start pointer and its elements. */
  datatype Slice<T> = Slice(start: Ptr<T>, elems: seq<T>) {
    /** A non-empty slice starts at real memory holding its elements. */
    ghost predicate Valid() {
      |elems| > 0 ==> start.At? && |elems| <= |start.elems| && start.elems[..|elems|] == elems
    }
  }

  /** The heap buffer owned by a `Vec<T>` (or, for bytes, a `String`). */
  datatype Buf<T> = Buf(addr: Addr, elems: seq<T>, cap: nat) {
    predicate Valid() {
      |elems| <= cap
    }

    /** `as_ptr()`: a buffer that never allocated answers with the dangling placeholder. */
    function AsPtr(): Ptr<T> {
      if cap == 0 then Dangling else At(addr, elems)
    }

    /** Borrowing the buffer as `&[T]`. */
    function AsSlice(): (s: Slice<T>)
      requires Valid()
      ensures s.Valid() && s.elems == elems
      ensures |elems| == 0 && cap == 0 ==> s.start == Dangling
    {
      Slice(AsPtr(), elems)
    }
  }

  /** Bytes of a `String`. */
  type RustString = Buf<uint8>

  /** `String::new()`: empty, nothing allocated. */
  const EmptyString: RustString := Buf(0, [], 0)

  /**
   * An allocator: `Alloc` hands out addresses never handed out before, and
   * `freed` records every call to its matching `free`, in order.
   */
  class Heap {
    var next: Addr
    var freed: seq<RawPtr>

    constructor ()
      ensures next == 0 && freed == []
    {
      next, freed := 0, [];
    }

    method Alloc() returns (a: Addr)
      modifies this
      ensures a == old(next) && next == old(next) + 1 && freed == old(freed)
    {
      a := next;
      next := next + 1;
    }

    /** A vector collected from `elems`: capacity equals length; an empty one does not allocate. */
    method Collect<T>(elems: seq<T>) returns (v: Buf<T>)
      modifies this
      ensures v.Valid() && v.elems == elems && v.cap == |elems|
      ensures |elems| > 0 ==> v.addr == old(next) && next == old(next) + 1
      ensures |elems| == 0 ==> next == old(next)
      ensures freed == old(freed)
    {
      if |elems| == 0 {
        v := Buf(0, [], 0);
      } else {
        var a := Alloc();
        v := Buf(a, elems, |elems|);
      }
    }

    method Free(p: RawPtr)
      modifies this
      ensures freed == old(freed) + [p] && next == old(next)
    {
      freed := freed + [p];
    }
  }

  /**
   * The shared allocation behind `Arc<T>`: the value and its strong count.
   * Every handle is a reference to this object.
   */
  class Arc<T> {
    const value: T
    var strong: nat

    /** `Arc::new`: the first and only owner. */
    constructor (v: T)
      ensures value == v && strong == 1
    {
      value := v;
      strong := 1;
    }

    /** `Arc::clone`: one more owner. */
    method Clone()
      modifies this
      ensures strong == old(strong) + 1
    {
      strong := strong + 1;
    }

    /** Dropping one handle; `last` says the value must now be destroyed. */
    method Release() returns (last: bool)
      requires strong >= 1
      modifies this
      ensures strong == old(strong) - 1 && last == (strong == 0)
    {
      strong := strong - 1;
      last := strong == 0;
    }
  }

  /**
   * The number of handles in `handles` that own a count of `a`: the counts a
   * set of raw handles (`Arc::into_raw`) keeps alive until they are released.
   */
  function Held<T>(handles: seq<Option<Arc<T>>>, a: Arc<T>): (n: nat)
    ensures n <= |handles|
  {
    if handles == [] then 0
    else (if handles[0] == Some(a) then 1 else 0) + Held(handles[1..], a)
  }

  /** Taking one more handle adds exactly its own count. */
  lemma {:induction false} HeldAppend<T>(handles: seq<Option<Arc<T>>>, h: Option<Arc<T>>, a: Arc<T>)
    ensures Held(handles + [h], a) == Held(handles, a) + (if h == Some(a) then 1 else 0)
  {
    if handles != [] {
      assert (handles + [h])[1..] == handles[1..] + [h];
      HeldAppend(handles[1..], h, a);
    }
  }

  /** Releasing the handle at `i` gives back exactly its own count, and no other. */
  lemma {:induction false} HeldRemove<T>(handles: seq<Option<Arc<T>>>, i: nat, a: Arc<T>)
    requires i < |handles|
    ensures Held(handles[..i] + handles[i + 1..], a) + (if handles[i] == Some(a) then 1 else 0) == Held(handles, a)
  {
    if i > 0 {
      assert (handles[..i] + handles[i + 1..])[1..] == handles[1..][..i - 1] + handles[1..][i..];
      HeldRemove(handles[1..], i - 1, a);
    } else {
      assert handles[..i] + handles[i + 1..] == handles[1..];
    }
  }

  /** The `Arc`s that `handles` point to. */
  function Targets<T>(handles: seq<Option<Arc<T>>>): (arcs: set<object>)
    ensures forall k :: 0 <= k < |handles| && handles[k].Some? ==> handles[k].value in arcs
  {
    set k | 0 <= k < |handles| && handles[k].Some? :: handles[k].value as object
  }

  /**
   * Every handle is backed by a strong count: no `Arc` has fewer strong
   * counts than `handles` hold, so none of them can reach zero while one of
   * these handles is still outstanding.
   */
  ghost predicate Covered<T>(handles: seq<Option<Arc<T>>>)
    reads Targets(handles)
  {
    forall k :: 0 <= k < |handles| && handles[k].Some? ==> Held(handles, handles[k].value) <= handles[k].value.strong
  }

  /** `Arc::into_raw` of a handle that was one count beyond those held keeps every count covered. */
  lemma CoveredAppend<T>(handles: seq<Option<Arc<T>>>, h: Option<Arc<T>>)
    requires Covered(handles)
    requires h.Some? ==> Held(handles, h.value) < h.value.strong
    ensures Covered(handles + [h])
    ensures h.Some? ==> Held(handles + [h], h.value) == Held(handles, h.value) + 1
  {
    forall k | 0 <= k < |handles + [h]| && (handles + [h])[k].Some?
      ensures Held(handles + [h], (handles + [h])[k].value) <= (handles + [h])[k].value.strong
    {
      HeldAppend(handles, h, (handles + [h])[k].value);
    }
    if h.Some? {
      HeldAppend(handles, h, h.value);
    }
  }

  /**
   * Taking handle `i` back (`Arc::from_raw`) leaves the rest covered, with
   * one count of its `Arc` to spare: the count that handle is about to release.
   */
  lemma CoveredRemove<T>(handles: seq<Option<Arc<T>>>, i: nat)
    requires Covered(handles) && i < |handles|
    ensures Covered(handles[..i] + handles[i + 1..])
    ensures handles[i].Some? ==> Held(handles[..i] + handles[i + 1..], handles[i].value) < handles[i].value.strong
  {
    var rest := handles[..i] + handles[i + 1..];
    forall k | 0 <= k < |rest| && rest[k].Some?
      ensures Held(rest, rest[k].value) <= rest[k].value.strong
    {
      assert rest[k] == handles[if k < i then k else k + 1];
      HeldRemove(handles, i, rest[k].value);
    }
    if handles[i].Some? {
      HeldRemove(handles, i, handles[i].value);
    }
  }
}
