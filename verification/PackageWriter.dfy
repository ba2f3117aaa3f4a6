/**
  The two passes of drivers/acpi/utils.c:58-257 in place, over a caller's
  buffer.  A write count per byte records that the head and tail cursors never
  overlap.
  */
module PackageWriter {
  import opened Wrappers
  import opened PackageExtraction

  // `Overrun` is no status of the source: the writing pass would leave the buffer.
  datatype Status = Ok | BadParameter | BadData | NoSupport | Overflow | Overrun

  function Splice(s: seq<Byte>, at: nat, b: seq<Byte>): (r: seq<Byte>)
    requires at + |b| <= |s|
    ensures |r| == |s|
  {
    s[..at] + b + s[at + |b|..]
  }

  lemma SpliceTwice(s: seq<Byte>, at: nat, a: seq<Byte>, b: seq<Byte>)
    requires at + |a| + |b| <= |s|
    ensures Splice(Splice(s, at, a), at + |a|, b) == Splice(s, at, a + b)
  {
  }

  /** One more write of every byte from `at` to `to`. */
  ghost predicate Counted(before: seq<nat>, after: seq<nat>, at: nat, to: nat) {
    && |after| == |before|
    && forall k :: 0 <= k < |before| ==> after[k] == before[k] + if at <= k < to then 1 else 0
  }

  /** What the format asks of each element: numbers as numbers or text, strings and buffers as text or bytes. */
  predicate Asks(e: Element, f: char) {
    (e.Integer? && f in {'N', 'S'}) || ((e.String? || e.Buffer?) && f in {'S', 'B'})
  }

  /** The sizing pass; both sizes are unsigned 32-bit sums. */
  method Measure(es: seq<Element>, format: seq<char>) returns (st: Status, required: nat, tailOffset: nat)
    requires |format| <= |es|
    ensures st == Ok <==> AllSupported(es, format)
    ensures st == Ok ==> required == Size(es, format) % U32 && tailOffset == (WORD * |format|) % U32
    ensures st == Ok <==> forall k :: 0 <= k < |format| ==> Asks(es[k], format[k])
    ensures st != Ok ==> exists k :: 0 <= k < |format| && st == (if es[k].Other? then NoSupport else BadData) && FirstUnsupported(es, format, k)
  {
    required, tailOffset := 0, 0;
    ghost var size := 0;
    for i := 0 to |format|
      invariant forall j :: 0 <= j < i ==> Supported(es[j], format[j])
      invariant size == Needs(es, format, i)
      invariant required == size % U32 && tailOffset == (WORD * i) % U32
    {
      if !Supported(es[i], format[i]) {
        assert FirstUnsupported(es, format, i);
        return Refusal(es[i], format[i]), 0, 0;
      }
      required := (required + WORD + TailSize(es[i], format[i])) % U32;
      tailOffset := (tailOffset + WORD) % U32;
      ModStep(size, WORD + TailSize(es[i], format[i]));
      ModStep(WORD * i, WORD);
      size := size + WORD + TailSize(es[i], format[i]);
    }
    NeedsSize(es, format, |format|);
    st := Ok;
  }

  function Refusal(e: Element, f: char): Status {
    if e.Other? then NoSupport else BadData
  }

  predicate FirstUnsupported(es: seq<Element>, format: seq<char>, k: nat)
    requires k < |format| <= |es|
  {
    !Supported(es[k], format[k]) && forall j :: 0 <= j < k ==> Supported(es[j], format[j])
  }

  /** The tail size as the sizing pass computes it. */
  function TailSize(e: Element, f: char): nat
    requires Supported(e, f)
  {
    if e.Integer? then (if f == 'N' then 0 else WORD + 1)
    else if f == 'S' then |e.bytes| + 1 else |e.bytes|
  }

  function Needs(es: seq<Element>, format: seq<char>, n: nat): nat
    requires n <= |format| <= |es| && forall j :: 0 <= j < n ==> Supported(es[j], format[j])
  {
    if n == 0 then 0 else Needs(es, format, n - 1) + WORD + TailSize(es[n - 1], format[n - 1])
  }

  lemma ModStep(a: nat, b: nat)
    ensures (a % U32 + b) % U32 == (a + b) % U32
  {
    var q := a / U32;
    assert a == q * U32 + a % U32;
    ModShift(a % U32 + b, q);
  }

  lemma {:induction false} ModShift(x: nat, q: nat)
    ensures (x + q * U32) % U32 == x % U32
  {
    if q > 0 { ModShift(x, q - 1); }
  }

  /** The two passes agree on the size of every element, hence of the whole. */
  lemma {:induction false} NeedsSize(es: seq<Element>, format: seq<char>, n: nat)
    requires AllSupported(es, format) && n <= |format|
    ensures Needs(es, format, n) == WORD * n + Offset(es, format, n) - WORD * |format|
    decreases n
  {
    if n > 0 {
      NeedsSize(es, format, n - 1);
      TailStep(es, format, n - 1);
    }
  }

  lemma TailStep(es: seq<Element>, format: seq<char>, i: nat)
    requires AllSupported(es, format) && i < |format|
    ensures Offset(es, format, i + 1) == Offset(es, format, i) + TailSize(es[i], format[i])
    ensures |TailOf(es[i], format[i])| == TailSize(es[i], format[i])
  {
  }

  /** The buffer starts with `heads` and holds `tails` from `mid` on. */
  ghost predicate Holds(d: seq<Byte>, mid: nat, heads: seq<Byte>, tails: seq<Byte>) {
    && |heads| <= mid && mid + |tails| <= |d|
    && d[..|heads|] == heads && d[mid..mid + |tails|] == tails
  }

  /** A splice behind the heads or behind the tails extends that part and leaves the other one. */
  lemma SpliceHead(d: seq<Byte>, mid: nat, heads: seq<Byte>, tails: seq<Byte>, h: seq<Byte>)
    requires Holds(d, mid, heads, tails) && |heads| + |h| <= mid
    ensures Holds(Splice(d, |heads|, h), mid, heads + h, tails)
  {
    var d1 := Splice(d, |heads|, h);
    assert d1[..|heads + h|] == d[..|heads|] + h;
    assert d1[mid..mid + |tails|] == d[mid..mid + |tails|];
  }

  lemma SpliceTail(d: seq<Byte>, mid: nat, heads: seq<Byte>, tails: seq<Byte>, t: seq<Byte>)
    requires Holds(d, mid, heads, tails) && mid + |tails| + |t| <= |d|
    ensures Holds(Splice(d, mid + |tails|, t), mid, heads, tails + t)
  {
    var d1 := Splice(d, mid + |tails|, t);
    assert d1[..|heads|] == d[..|heads|];
    assert d1[mid..mid + |tails + t|] == d[mid..mid + |tails|] + t;
  }

  lemma NextPiece(es: seq<Element>, format: seq<char>, base: nat, i: nat, tail: nat, heads: seq<Byte>, tails: seq<Byte>)
    requires AllSupported(es, format) && i < |format| && tail == Offset(es, format, i)
    requires heads == Heads(es, format, base, i) && tails == Tails(es, format, i)
    ensures Heads(es, format, base, i + 1) == heads + HeadOf(es[i], format[i], base + tail)
    ensures Tails(es, format, i + 1) == tails + TailOf(es[i], format[i])
    ensures tail + |TailOf(es[i], format[i])| == Offset(es, format, i + 1) <= Size(es, format)
  {
    TailsGrow(es, format, |format|, i + 1);
  }

  lemma HoldsLayout(d: seq<Byte>, es: seq<Element>, format: seq<char>, base: nat)
    requires AllSupported(es, format) && |d| == Size(es, format)
    requires Holds(d, WORD * |format|, Heads(es, format, base, |format|), Tails(es, format, |format|))
    ensures d == Layout(es, format, base)
  {
    var mid := WORD * |format|;
    assert d == d[..mid] + d[mid..|d|];
  }

  /** Written exactly once: the head up to `i` entries and the tail up to its cursor. */
  ghost predicate Once(count: seq<nat>, n: nat, head: nat, tail: nat) {
    forall k :: 0 <= k < |count| ==> count[k] == if k < head || n <= k < tail then 1 else 0
  }

  lemma OnceNext(c0: seq<nat>, c1: seq<nat>, c2: seq<nat>, n: nat, head: nat, head': nat, tail: nat, tail': nat)
    requires head <= head' <= n <= tail <= tail' && Once(c0, n, head, tail)
    requires Counted(c0, c1, head, head') && Counted(c1, c2, tail, tail')
    ensures Once(c2, n, head', tail')
  {
  }

  class Output {
    const base: nat              // address of the buffer
    var length: nat
    var data: array?<Byte>
    ghost var count: seq<nat>    // how often each byte has been written

    ghost predicate Valid()
      reads this
    {
      data != null ==> data.Length == length == |count|
    }

    constructor (base: nat, data: array<Byte>)
      ensures Valid() && this.base == base && this.data == data && length == data.Length
      ensures forall k :: 0 <= k < |count| ==> count[k] == 0
    {
      this.base, this.data, length := base, data, data.Length;
      count := seq(data.Length, _ => 0);
    }

    /** Copies bytes into the buffer. */
    method Put(at: nat, bytes: seq<Byte>)
      requires Valid() && data != null && at + |bytes| <= length
      modifies this`count, data
      ensures Valid() && data[..] == Splice(old(data[..]), at, bytes)
      ensures Counted(old(count), count, at, at + |bytes|)
    {
      ghost var was, counts := data[..], count;
      for i := 0 to |bytes|
        invariant |count| == |counts| && data != null && data == old(data)
        invariant forall k :: 0 <= k < data.Length ==> data[k] == if at <= k < at + i then bytes[k - at] else was[k]
        invariant Counted(counts, count, at, at + i)
      {
        data[at + i] := bytes[i];
        count := count[at + i := count[at + i] + 1];
      }
      assert data[..] == Splice(was, at, bytes);
    }

    /** Copies text or bytes behind the tail cursor, text with its terminator, and moves the cursor. */
    method PutText(bytes: seq<Byte>, ends: bool, tail: nat) returns (tail': nat)
      requires Valid() && data != null && tail + |bytes| + (if ends then 1 else 0) <= length
      modifies this`count, data
      ensures Valid() && tail' == tail + |bytes| + if ends then 1 else 0
      ensures data[..] == Splice(old(data[..]), tail, if ends then bytes + [0] else bytes)
      ensures Counted(old(count), count, tail, tail')
    {
      ghost var was := data[..];
      Put(tail, bytes);
      tail' := tail + |bytes|;
      if ends {
        SpliceTwice(was, tail, bytes, [0]);
        Put(tail', [0]);
        tail' := tail' + 1;
      }
    }

    /** Writes what one element leaves behind the tail cursor and moves the cursor. */
    method PutTail(e: Element, f: char, tail: nat) returns (tail': nat)
      requires Valid() && data != null && Supported(e, f) && tail + |TailOf(e, f)| <= length
      modifies this`count, data
      ensures Valid() && tail' == tail + |TailOf(e, f)|
      ensures data[..] == Splice(old(data[..]), tail, TailOf(e, f))
      ensures Counted(old(count), count, tail, tail')
    {
      if e.Integer? && f == 'N' {
        assert data[..] == Splice(data[..], tail, []);
        return tail;
      }
      var bytes := if e.Integer? then Little(e.value, WORD) else e.bytes;
      assert TailOf(e, f) == if f == 'S' then bytes + [0] else bytes;
      tail' := PutText(bytes, f == 'S', tail);
    }

    /** Writes one element at both cursors. */
    method PutElement(e: Element, f: char, head: nat, tail: nat, ghost mid: nat,
                      ghost heads: seq<Byte>, ghost tails: seq<Byte>, ghost heads': seq<Byte>, ghost tails': seq<Byte>)
      returns (head': nat, tail': nat)
      requires Valid() && data != null && Supported(e, f)
      requires head == |heads| && tail == mid + |tails| && head + WORD <= mid && tail + |TailOf(e, f)| <= length
      requires Holds(data[..], mid, heads, tails) && Once(count, mid, head, tail)
      requires heads' == heads + HeadOf(e, f, base + tail) && tails' == tails + TailOf(e, f)
      modifies this`count, data
      ensures Valid() && head' == head + WORD && tail' == tail + |TailOf(e, f)|
      ensures Holds(data[..], mid, heads', tails')
      ensures Once(count, mid, head', tail')
    {
      ghost var d, c := data[..], count;
      ghost var h, t := HeadOf(e, f, base + tail), TailOf(e, f);
      var number := e.Integer? && f == 'N';
      Put(head, Little(if number then e.value else base + tail, WORD));
      ghost var d1, c1 := data[..], count;
      assert Holds(d1, mid, heads + h, tails) by { SpliceHead(d, mid, heads, tails, h); }
      tail' := PutTail(e, f, tail);
      head' := head + WORD;
      assert Holds(data[..], mid, heads + h, tails + t) by { SpliceTail(d1, mid, heads + h, tails, t); }
      assert Once(count, mid, head', tail') by { OnceNext(c, c1, count, mid, head, head', tail, tail'); }
    }

    method FillNext(es: seq<Element>, format: seq<char>, i: nat, head: nat, tail: nat, ghost mid: nat) returns (head': nat, tail': nat)
      requires Valid() && data != null && AllSupported(es, format) && i < |format| && length == Size(es, format)
      requires mid == WORD * |format| && head == WORD * i && tail == Offset(es, format, i)
      requires Holds(data[..], mid, Heads(es, format, base, i), Tails(es, format, i)) && Once(count, mid, head, tail)
      modifies this`count, data
      ensures Valid() && head' == WORD * (i + 1) && tail' == Offset(es, format, i + 1)
      ensures Holds(data[..], mid, Heads(es, format, base, i + 1), Tails(es, format, i + 1)) && Once(count, mid, head', tail')
    {
      ghost var heads, tails := Heads(es, format, base, i), Tails(es, format, i);
      ghost var heads', tails' := Heads(es, format, base, i + 1), Tails(es, format, i + 1);
      NextPiece(es, format, base, i, tail, heads, tails);
      head', tail' := PutElement(es[i], format[i], head, tail, mid, heads, tails, heads', tails');
    }

    /** The writing pass. */
    method Fill(es: seq<Element>, format: seq<char>, tailOffset: nat)
      requires Valid() && data != null && AllSupported(es, format) && length == Size(es, format)
      requires tailOffset == WORD * |format| && Once(count, tailOffset, 0, tailOffset)
      modifies this`count, data
      ensures Valid() && data[..] == Layout(es, format, base)
      ensures Once(count, tailOffset, tailOffset, length)
    {
      var head, tail := 0, tailOffset;
      for i := 0 to |format|
        invariant Valid() && data != null && data == old(data) && length == old(length)
        invariant head == WORD * i && tail == Offset(es, format, i)
        invariant Holds(data[..], tailOffset, Heads(es, format, base, i), Tails(es, format, i))
        invariant Once(count, tailOffset, head, tail)
      {
        head, tail := FillNext(es, format, i, head, tail, tailOffset);
      }
      HoldsLayout(data[..], es, format, base);
    }

    /**
      The whole call.  The required size is a 32-bit sum: a package of 2^32
      bytes or more passes the comparison with a buffer too short for it, and
      then, and only then, the writing pass would run past the end.
      */
    method Extract(es: seq<Element>, format: seq<char>) returns (st: Status)
      requires Valid() && (forall k :: 0 <= k < |count| ==> count[k] == 0)
      modifies this`length, this`count, data
      ensures es == [] ==> st == BadParameter
      ensures es != [] && |format| > |es| ==> st == BadData
      ensures es != [] && |format| <= |es| && !AllSupported(es, format) ==>
                exists k :: 0 <= k < |format| && st == (if es[k].Other? then NoSupport else BadData) && FirstUnsupported(es, format, k)
      ensures es != [] && AllSupported(es, format) ==>
                var size := Size(es, format);
                st == if old(length) < size % U32 then Overflow
                      else if old(length) > size % U32 || data == null then BadParameter
                      else if size >= U32 then Overrun
                      else Ok
      ensures st == Ok ==> data[..] == Layout(es, format, base) && forall k :: 0 <= k < |count| ==> count[k] == 1
      ensures length == if st == Overflow then Size(es, format) % U32 else old(length)
      ensures st != Ok && data != null ==> data[..] == old(data[..])
    {
      if es == [] { return BadParameter; }
      if |format| > |es| { return BadData; }
      var required, tailOffset;
      st, required, tailOffset := Measure(es, format);
      if st != Ok { return; }
      assert Size(es, format) >= WORD * |format|;
      if length < required {
        length := required;
        return Overflow;
      } else if length != required || data == null {
        return BadParameter;
      }
      if Size(es, format) > length { return Overrun; }
      Fill(es, format, tailOffset);
    }
  }
}
