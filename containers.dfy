/**
 * Result ownership containers (src/wrapper.rs): wrappers around memory the
 * foreign runtime allocated with the `malloc` it was handed, released with the
 * matching `free`; and the `Display` format of a diagnostic `Message`.
 */
module Containers {
  import opened Wrappers
  import opened Memory

  /**
   * `SliceContainer<T>`: a foreign-allocated array of `len` elements. `libc`
   * is the C allocator whose `free` releases it, the one whose `malloc` the
   * foreign runtime was handed.
   */
  class SliceContainer<T> {
    const ptr: Ptr<T>
    const len: nat
    const libc: Heap
    var dropped: bool

    constructor (ptr: Ptr<T>, len: nat, libc: Heap)
      ensures this.ptr == ptr && this.len == len && this.libc == libc && !dropped
    {
      this.ptr := ptr;
      this.len := len;
      this.libc := libc;
      dropped := false;
    }

    /** The array really holds `len` readable elements. */
    ghost predicate Readable() {
      Read(ptr, len).Some?
    }

    /** `as_slice`: exactly the `len` elements at `ptr`, without copying. */
    function AsSlice(): (s: seq<T>)
      requires Readable()
      ensures |s| == len && Read(ptr, len) == Some(s)
    {
      Read(ptr, len).value
    }

    /**
     * `Drop`: frees the array once, with the C allocator's `free`. The loop
     * over the indices drops copies of raw element pointers, which releases
     * nothing, so memory owned by the elements themselves is not freed here.
     */
    method Drop()
      requires !dropped
      modifies this, libc
      ensures dropped
      ensures libc.freed == old(libc.freed) + [Erase(ptr)] && libc.next == old(libc.next)
    {
      for i := 0 to len
        modifies {}
      {
        // drop(self.ptr.offset(i)): a raw pointer has no destructor.
      }
      libc.Free(Erase(ptr));
      dropped := true;
    }
  }

  /** `StrContainer { len, data }`: a foreign-allocated string of `len` bytes, released with `libc`'s `free`. */
  class StrContainer {
    const len: nat
    const data: Ptr<uint8>
    const libc: Heap
    var dropped: bool

    constructor (data: Ptr<uint8>, len: nat, libc: Heap)
      ensures this.data == data && this.len == len && this.libc == libc && !dropped
    {
      this.data := data;
      this.len := len;
      this.libc := libc;
      dropped := false;
    }

    ghost predicate Readable() {
      Read(data, len).Some?
    }

    /** `as_str`: exactly the `len` bytes at `data`; they are not checked to be UTF-8. */
    function AsStr(): (s: seq<uint8>)
      requires Readable()
      ensures |s| == len && Read(data, len) == Some(s)
    {
      Read(data, len).value
    }

    /** `Drop`: frees the bytes once, with the C allocator's `free`. */
    method Drop()
      requires !dropped
      modifies this, libc
      ensures dropped
      ensures libc.freed == old(libc.freed) + [Erase(data)] && libc.next == old(libc.next)
    {
      libc.Free(Erase(data));
      dropped := true;
    }
  }

  /**
   * The error and warning containers both completion callbacks wrap around
   * the diagnostic arrays they are passed, of exactly the lengths passed.
   */
  method WrapDiagnostics<M>(rawErrors: Ptr<M>, errorsLen: nat, rawWarnings: Ptr<M>, warningsLen: nat, libc: Heap)
    returns (errors: SliceContainer<M>, warnings: SliceContainer<M>)
    ensures fresh(errors) && fresh(warnings)
    ensures errors.ptr == rawErrors && errors.len == errorsLen && errors.libc == libc && !errors.dropped
    ensures warnings.ptr == rawWarnings && warnings.len == warningsLen && warnings.libc == libc && !warnings.dropped
  {
    errors := new SliceContainer(rawErrors, errorsLen, libc);
    warnings := new SliceContainer(rawWarnings, warningsLen, libc);
  }

  /** `Message`: a diagnostic; `line`, `column` and `length` are `ptrdiff_t`. */
  datatype Message = Message(file: StrContainer, line: int, column: int, length: int, text: StrContainer)

  /** `OutputFile`: a path and its contents. */
  datatype OutputFile = OutputFile(path: StrContainer, data: StrContainer)

  /** What a build hands to its handler. */
  datatype BuildResult = BuildResult(
    outputFiles: SliceContainer<OutputFile>,
    errors: SliceContainer<Message>,
    warnings: SliceContainer<Message>)

  /** What a transform hands to its handler: the generated code and its source map (`map`). */
  datatype TransformResult = TransformResult(
    code: StrContainer,
    sourceMap: StrContainer,
    errors: SliceContainer<Message>,
    warnings: SliceContainer<Message>)

  const SPACE: uint8 := 0x20
  const MINUS: uint8 := 0x2D
  const ZERO: uint8 := 0x30
  const COLON: uint8 := 0x3A
  const OPEN_BRACKET: uint8 := 0x5B
  const CLOSE_BRACKET: uint8 := 0x5D

  predicate IsDigit(b: uint8) {
    ZERO <= b < ZERO + 10
  }

  /** Decimal digits of `n`, most significant first, no leading zero. */
  function Digits(n: nat): (s: seq<uint8>)
    ensures |s| > 0 && forall i :: 0 <= i < |s| ==> IsDigit(s[i])
    ensures s[0] == ZERO <==> n == 0
    ensures |s| > 1 ==> s[0] != ZERO
  {
    if n < 10 then [ZERO + n as uint8] else Digits(n / 10) + [ZERO + (n % 10) as uint8]
  }

  /** How `{}` prints a signed integer. */
  function FormatInt(i: int): (s: seq<uint8>)
    ensures COLON !in s && CLOSE_BRACKET !in s
  {
    if i < 0 then [MINUS] + Digits(-i) else Digits(i)
  }

  /** Reads a non-empty run of decimal digits, whatever its first digit. */
  function ParseDigitRun(s: seq<uint8>): Option<nat> {
    if |s| == 0 || !IsDigit(s[|s| - 1]) then None
    else if |s| == 1 then Some((s[0] - ZERO) as nat)
    else
      var high :- ParseDigitRun(s[..|s| - 1]);
      Some(high * 10 + (s[|s| - 1] - ZERO) as nat)
  }

  /** Reads a natural number printed in decimal, with no leading zero. */
  function ParseNat(s: seq<uint8>): Option<nat> {
    if |s| > 1 && s[0] == ZERO then None else ParseDigitRun(s)
  }

  /** Reads a decimal integer, negative only after a minus sign and never `-0`. */
  function ParseInt(s: seq<uint8>): Option<int> {
    if |s| > 0 && s[0] == MINUS then
      var n :- ParseNat(s[1..]);
      if n == 0 then None
      else
        var negated := -(n as int);
        Some(negated)
    else
      ParseNat(s)
  }

  lemma {:induction false} ParseDigits(n: nat)
    ensures ParseDigitRun(Digits(n)) == Some(n)
  {
    if n >= 10 {
      ParseDigits(n / 10);
      var d := Digits(n);
      assert d[..|d| - 1] == Digits(n / 10);
    }
  }

  /** A digit run that reads as `n` and has no leading zero is the printing of `n`. */
  lemma {:induction false} DigitRunCanonical(s: seq<uint8>, n: nat)
    requires ParseDigitRun(s) == Some(n)
    requires |s| > 1 ==> s[0] != ZERO
    ensures s == Digits(n)
  {
    if |s| > 1 {
      var front, last := s[..|s| - 1], s[|s| - 1];
      var high := ParseDigitRun(front).value;
      var d := (last - ZERO) as nat;
      assert n == high * 10 + d;
      DigitRunCanonical(front, high);
      assert front[0] == s[0];
      LastDigit(high, d);
      assert s == front + [last];
    }
  }

  /** Appending digit `d` to `high`'s printing gives the printing of `high * 10 + d`. */
  lemma LastDigit(high: nat, d: nat)
    requires 0 < high && d < 10
    ensures Digits(high * 10 + d) == Digits(high) + [ZERO + d as uint8]
  {
    var n := high * 10 + d;
    assert n / 10 == high && n % 10 == d;
  }

  /** Printing an integer and reading it back gives the integer. */
  lemma ParseFormat(i: int)
    ensures ParseInt(FormatInt(i)) == Some(i)
  {
    if i < 0 {
      ParseDigits(-i);
      assert FormatInt(i)[1..] == Digits(-i);
    } else {
      ParseDigits(i);
    }
  }

  /**
   * The printing is the only way to write an integer that reads back: no
   * leading zero, no `-0`, so `{}`'s output is pinned down by its value.
   */
  lemma FormatCanonical(s: seq<uint8>, i: int)
    requires ParseInt(s) == Some(i)
    ensures s == FormatInt(i)
  {
    if |s| > 0 && s[0] == MINUS {
      var n := ParseNat(s[1..]).value;
      DigitRunCanonical(s[1..], n);
      assert s == [MINUS] + s[1..];
    } else {
      DigitRunCanonical(s, i);
    }
  }

  /**
   * `Message`'s `Display`: `<text> [<file>:<line>:<column>]`. Text, file,
   * line and column are all read back from the output.
   */
  function Display(m: Message): (out: seq<uint8>)
    requires m.file.Readable() && m.text.Readable()
    ensures m.text.AsStr() + [SPACE, OPEN_BRACKET] + m.file.AsStr() <= out
    ensures |out| > 0 && out[|out| - 1] == CLOSE_BRACKET
    ensures ParseLocation(out) == Some((m.text.AsStr() + [SPACE, OPEN_BRACKET] + m.file.AsStr(), m.line, m.column))
  {
    var front := m.text.AsStr() + [SPACE, OPEN_BRACKET] + m.file.AsStr() + [COLON] + FormatInt(m.line);
    var out := front + [COLON] + FormatInt(m.column) + [CLOSE_BRACKET];
    LocationRoundTrip(m.text.AsStr() + [SPACE, OPEN_BRACKET] + m.file.AsStr(), m.line, m.column);
    out
  }

  /** Splits `s` around the last occurrence of `b`. */
  function SplitLast(s: seq<uint8>, b: uint8): (r: Option<(seq<uint8>, seq<uint8>)>)
    ensures r.Some? ==> s == r.value.0 + [b] + r.value.1 && b !in r.value.1
    ensures r.None? ==> b !in s
  {
    if |s| == 0 then None
    else if s[|s| - 1] == b then Some((s[..|s| - 1], []))
    else
      var r :- SplitLast(s[..|s| - 1], b);
      assert s == s[..|s| - 1] + [s[|s| - 1]];
      Some((r.0, r.1 + [s[|s| - 1]]))
  }

  /**
   * Splits a displayed message into what precedes its location and the line
   * and column, reading back from the closing bracket to the last two colons.
   */
  function ParseLocation(out: seq<uint8>): Option<(seq<uint8>, int, int)> {
    if |out| == 0 || out[|out| - 1] != CLOSE_BRACKET then None
    else
      var atColumn :- SplitLast(out[..|out| - 1], COLON);
      var column :- ParseInt(atColumn.1);
      var atLine :- SplitLast(atColumn.0, COLON);
      var line :- ParseInt(atLine.1);
      Some((atLine.0, line, column))
  }

  /** Splitting at the last `b` finds the `b` that only `rest` follows. */
  lemma {:induction false} SplitLastAppend(a: seq<uint8>, b: uint8, rest: seq<uint8>)
    requires b !in rest
    ensures SplitLast(a + [b] + rest, b) == Some((a, rest))
  {
    var s := a + [b] + rest;
    if rest == [] {
      assert s[..|s| - 1] == a;
    } else {
      var last := rest[|rest| - 1];
      assert s[..|s| - 1] == a + [b] + rest[..|rest| - 1];
      SplitLastAppend(a, b, rest[..|rest| - 1]);
      assert rest == rest[..|rest| - 1] + [last];
    }
  }

  /**
   * Whatever text and file contain, the location printed after them is read
   * back, and so is everything before it.
   */
  lemma LocationRoundTrip(prefix: seq<uint8>, line: int, column: int)
    ensures ParseLocation(prefix + [COLON] + FormatInt(line) + [COLON] + FormatInt(column) + [CLOSE_BRACKET])
      == Some((prefix, line, column))
  {
    var front := prefix + [COLON] + FormatInt(line);
    var body := front + [COLON] + FormatInt(column);
    var out := body + [CLOSE_BRACKET];
    assert out[..|out| - 1] == body;
    SplitLastAppend(front, COLON, FormatInt(column));
    SplitLastAppend(prefix, COLON, FormatInt(line));
    ParseFormat(line);
    ParseFormat(column);
  }

  /**
   * Reading a location back determines the output completely: a displayed
   * message is the only byte string that reads back as its text, file, line
   * and column.
   */
  lemma LocationCanonical(out: seq<uint8>, prefix: seq<uint8>, line: int, column: int)
    requires ParseLocation(out) == Some((prefix, line, column))
    ensures out == prefix + [COLON] + FormatInt(line) + [COLON] + FormatInt(column) + [CLOSE_BRACKET]
  {
    var atColumn := SplitLast(out[..|out| - 1], COLON).value;
    var atLine := SplitLast(atColumn.0, COLON).value;
    FormatCanonical(atColumn.1, column);
    FormatCanonical(atLine.1, line);
    assert out == out[..|out| - 1] + [CLOSE_BRACKET];
  }

  /** Two outputs that read back as the same message's location are the same output. */
  lemma DisplayUnique(m: Message, out: seq<uint8>)
    requires m.file.Readable() && m.text.Readable()
    requires ParseLocation(out) == ParseLocation(Display(m))
    ensures out == Display(m)
  {
    var prefix := m.text.AsStr() + [SPACE, OPEN_BRACKET] + m.file.AsStr();
    LocationCanonical(out, prefix, m.line, m.column);
    LocationCanonical(Display(m), prefix, m.line, m.column);
  }

  /** The span `length` of a message does not appear in its display. */
  lemma DisplayIgnoresLength(m: Message, length: int)
    requires m.file.Readable() && m.text.Readable()
    ensures Display(m.(length := length)) == Display(m)
  {
  }
}
