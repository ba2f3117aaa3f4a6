/**
  Flattening a package into a caller's buffer by a format string
  (drivers/acpi/utils.c:58-257): a sizing pass, then a writing pass that fills
  the head with numbers and pointers and the tail with what they point to.
  Sizes are those of a 64-bit little-endian machine.
  */
module PackageExtraction {
  import opened Wrappers

  type Word = x: int | 0 <= x < U64

  const WORD: nat := 8                     // size of a number and of a pointer

  datatype Element = Integer(value: Word) | String(bytes: seq<Byte>) | Buffer(bytes: seq<Byte>) | Other

  // ---------------------------------------------------------------- numbers

  function Pow256(n: nat): nat {
    if n == 0 then 1 else 256 * Pow256(n - 1)
  }

  /** The `n` low bytes of `v`, least significant first. */
  function Little(v: nat, n: nat): (s: seq<Byte>)
    ensures |s| == n
    decreases n, v
  {
    if n == 0 then [] else [v % 256] + Little(v / 256, n - 1)
  }

  function Number(s: seq<Byte>): nat {
    if s == [] then 0 else s[0] + 256 * Number(s[1..])
  }

  lemma {:induction false} NumberLittle(v: nat, n: nat)
    requires v < Pow256(n)
    ensures Number(Little(v, n)) == v
    decreases n
  {
    if n > 0 {
      NumberLittle(v / 256, n - 1);
      assert Little(v, n)[1..] == Little(v / 256, n - 1);
    }
  }

  lemma WordHolds()
    ensures Pow256(WORD) == U64
  {
    assert Pow256(4) == 0x1_0000_0000;
    assert Pow256(6) == 0x1_0000_0000_0000;
  }

  // ----------------------------------------------------------------- layout

  predicate Supported(e: Element, f: char) {
    match e
    case Integer(_) => f == 'N' || f == 'S'
    case String(_) => f == 'S' || f == 'B'
    case Buffer(_) => f == 'S' || f == 'B'
    case Other => false
  }

  /** What an element leaves in the tail. */
  function TailOf(e: Element, f: char): seq<Byte>
    requires Supported(e, f)
  {
    match e
    case Integer(v) => if f == 'N' then [] else Little(v, WORD) + [0]
    case String(b) => if f == 'S' then b + [0] else b
    case Buffer(b) => if f == 'S' then b + [0] else b
  }

  /** What it leaves in the head, when its tail starts at address `at`. */
  function HeadOf(e: Element, f: char, at: nat): (s: seq<Byte>)
    requires Supported(e, f)
    ensures |s| == WORD
  {
    Little(if e.Integer? && f == 'N' then e.value else at, WORD)
  }

  predicate AllSupported(es: seq<Element>, format: seq<char>) {
    |format| <= |es| && forall i :: 0 <= i < |format| ==> Supported(es[i], format[i])
  }

  /** The tails of the first `n` elements, one after the other. */
  function Tails(es: seq<Element>, format: seq<char>, n: nat): seq<Byte>
    requires AllSupported(es, format) && n <= |format|
  {
    if n == 0 then [] else Tails(es, format, n - 1) + TailOf(es[n - 1], format[n - 1])
  }

  /** Where the tail of element `n` starts. */
  function Offset(es: seq<Element>, format: seq<char>, n: nat): nat
    requires AllSupported(es, format) && n <= |format|
  {
    WORD * |format| + |Tails(es, format, n)|
  }

  /** The heads of the first `n` elements. */
  function Heads(es: seq<Element>, format: seq<char>, base: nat, n: nat): (s: seq<Byte>)
    requires AllSupported(es, format) && n <= |format|
    ensures |s| == WORD * n
  {
    if n == 0 then []
    else Heads(es, format, base, n - 1) + HeadOf(es[n - 1], format[n - 1], base + Offset(es, format, n - 1))
  }

  /** The filled buffer at address `base`: all heads, then all tails. */
  function Layout(es: seq<Element>, format: seq<char>, base: nat): seq<Byte>
    requires AllSupported(es, format)
  {
    Heads(es, format, base, |format|) + Tails(es, format, |format|)
  }

  /** Bytes the package needs. */
  function Size(es: seq<Element>, format: seq<char>): nat
    requires AllSupported(es, format)
  {
    Offset(es, format, |format|)
  }

  lemma {:induction false} TailsGrow(es: seq<Element>, format: seq<char>, n: nat, i: nat)
    requires AllSupported(es, format) && i <= n <= |format|
    ensures Tails(es, format, i) <= Tails(es, format, n)
    decreases n
  {
    if i < n { TailsGrow(es, format, n - 1, i); }
  }

  lemma {:induction false} HeadsGrow(es: seq<Element>, format: seq<char>, base: nat, n: nat, i: nat)
    requires AllSupported(es, format) && i <= n <= |format|
    ensures Heads(es, format, base, i) <= Heads(es, format, base, n)
    decreases n
  {
    if i < n { HeadsGrow(es, format, base, n - 1, i); }
  }

  lemma SliceOf(s: seq<Byte>, a: seq<Byte>, t: seq<Byte>)
    requires a + t <= s
    ensures s[|a|..|a| + |t|] == t
  {
  }

  // ----------------------------------------------------------------- decoding

  datatype Item = Num(n: nat) | Text(bytes: seq<Byte>) | Blob(bytes: seq<Byte>)

  /** What a caller is meant to read: a number, or the bytes behind a pointer without a string's terminator. */
  function Rendered(e: Element, f: char): Item
    requires Supported(e, f)
  {
    match e
    case Integer(v) => if f == 'N' then Num(v) else Text(Little(v, WORD))
    case String(b) => if f == 'S' then Text(b) else Blob(b)
    case Buffer(b) => if f == 'S' then Text(b) else Blob(b)
  }

  function WordAt(buf: seq<Byte>, i: nat): nat
    requires WORD * i + WORD <= |buf|
  {
    Number(buf[WORD * i..WORD * i + WORD])
  }

  /** Where the data of the first pointer from entry `i` on starts; the end of the buffer if there is none. */
  function Start(buf: seq<Byte>, base: nat, format: seq<char>, i: nat): int
    requires i <= |format| && WORD * |format| <= |buf|
    decreases |format| - i
  {
    if i == |format| then |buf|
    else if format[i] != 'N' then WordAt(buf, i) - base
    else Start(buf, base, format, i + 1)
  }

  /** Entry `i`, read from the buffer and the format alone; None when its pointer makes no sense. */
  function Decode(buf: seq<Byte>, base: nat, format: seq<char>, i: nat): Option<Item>
    requires i < |format| && WORD * |format| <= |buf|
  {
    if format[i] == 'N' then Some(Num(WordAt(buf, i)))
    else
      var from, to := Start(buf, base, format, i), Start(buf, base, format, i + 1);
      if !(0 <= from <= to <= |buf|) then None
      else if format[i] == 'B' then Some(Blob(buf[from..to]))
      else if from == to then None
      else Some(Text(buf[from..to - 1]))
  }

  // --------------------------------------------------------------- round trip

  /** Every head word is where the format says it is. */
  lemma LayoutHead(es: seq<Element>, format: seq<char>, base: nat, i: nat)
    requires AllSupported(es, format) && i < |format|
    ensures WORD * i + WORD <= |Layout(es, format, base)|
    ensures Layout(es, format, base)[WORD * i..WORD * i + WORD] == HeadOf(es[i], format[i], base + Offset(es, format, i))
  {
    var before, h := Heads(es, format, base, i), HeadOf(es[i], format[i], base + Offset(es, format, i));
    var heads, tails := Heads(es, format, base, |format|), Tails(es, format, |format|);
    assert before + h <= heads by { HeadsGrow(es, format, base, |format|, i + 1); }
    SliceOf(heads + tails, before, h);
  }

  /** What the bytes behind a pointer stand for. */
  function Meaning(f: char, tail: seq<Byte>): Option<Item> {
    if f == 'B' then Some(Blob(tail)) else if tail == [] then None else Some(Text(tail[..|tail| - 1]))
  }

  lemma TailRendered(e: Element, f: char)
    requires Supported(e, f) && f != 'N'
    ensures Meaning(f, TailOf(e, f)) == Some(Rendered(e, f))
  {
    if e.Integer? { assert (Little(e.value, WORD) + [0])[..WORD] == Little(e.value, WORD); }
    if !e.Integer? { assert (e.bytes + [0])[..|e.bytes|] == e.bytes; }
  }

  lemma SliceShort(s: seq<Byte>, from: nat, to: nat)
    requires from < to <= |s|
    ensures |s[from..to]| == to - from && s[from..to][..to - from - 1] == s[from..to - 1]
  {
    var a, b := s[from..to][..to - from - 1], s[from..to - 1];
    assert |a| == |b|;
    forall k | 0 <= k < |a| ensures a[k] == b[k] { }
  }

  lemma DecodeMeaning(buf: seq<Byte>, base: nat, format: seq<char>, i: nat, from: nat, to: nat)
    requires i < |format| && WORD * |format| <= |buf| && format[i] != 'N'
    requires from == Start(buf, base, format, i) && to == Start(buf, base, format, i + 1) && from <= to <= |buf|
    ensures Decode(buf, base, format, i) == Meaning(format[i], buf[from..to])
  {
    if from < to { SliceShort(buf, from, to); }
  }

  lemma SliceBehind(heads: seq<Byte>, s: seq<Byte>, a: seq<Byte>, t: seq<Byte>)
    requires a + t <= s
    ensures var lo := |heads| + |a|; lo + |t| <= |heads + s| && (heads + s)[lo..lo + |t|] == t
  {
    assert heads + s == (heads + a + t) + s[|a + t|..];
    SliceOf(heads + s, heads + a, t);
  }

  /** Every tail is between its own offset and the next. */
  lemma LayoutTail(es: seq<Element>, format: seq<char>, base: nat, i: nat)
    requires AllSupported(es, format) && i < |format|
    ensures Offset(es, format, i) <= Offset(es, format, i + 1) <= Size(es, format) == |Layout(es, format, base)|
    ensures Layout(es, format, base)[Offset(es, format, i)..Offset(es, format, i + 1)] == TailOf(es[i], format[i])
  {
    var before, t := Tails(es, format, i), TailOf(es[i], format[i]);
    var heads, tails := Heads(es, format, base, |format|), Tails(es, format, |format|);
    assert before + t <= tails by { TailsGrow(es, format, |format|, i + 1); }
    assert Offset(es, format, i + 1) == |heads| + |before| + |t|;
    SliceBehind(heads, tails, before, t);
  }

  lemma HeadNumber(e: Element, f: char, at: nat)
    requires Supported(e, f) && at < U64
    ensures Number(HeadOf(e, f, at)) == if f == 'N' then e.value else at
  {
    WordHolds();
    NumberLittle(if f == 'N' then e.value else at, WORD);
  }

  lemma LayoutWord(es: seq<Element>, format: seq<char>, base: nat, i: nat)
    requires AllSupported(es, format) && i < |format|
    requires base + Size(es, format) < U64
    ensures WORD * |format| <= |Layout(es, format, base)|
    ensures WordAt(Layout(es, format, base), i) == if format[i] == 'N' then es[i].value else base + Offset(es, format, i)
  {
    var at := base + Offset(es, format, i);
    assert at < U64 by { LayoutTail(es, format, base, i); }
    LayoutHead(es, format, base, i);
    HeadNumber(es[i], format[i], at);
  }

  /** The next pointer found in the buffer is the offset of the next tail. */
  lemma {:induction false} LayoutStart(es: seq<Element>, format: seq<char>, base: nat, i: nat)
    requires AllSupported(es, format) && i <= |format|
    requires base + Size(es, format) < U64
    ensures WORD * |format| <= |Layout(es, format, base)|
    ensures Start(Layout(es, format, base), base, format, i) == Offset(es, format, i)
    decreases |format| - i
  {
    if i < |format| {
      LayoutWord(es, format, base, i);
      if format[i] == 'N' {
        LayoutStart(es, format, base, i + 1);
        LayoutTail(es, format, base, i);
      }
    }
  }

  lemma LayoutHolds(es: seq<Element>, format: seq<char>, base: nat)
    requires AllSupported(es, format)
    ensures WORD * |format| <= |Layout(es, format, base)|
  {
  }

  /** A pointer in the buffer is decoded to the meaning of its tail. */
  lemma PointerDecodes(es: seq<Element>, format: seq<char>, base: nat, i: nat)
    requires AllSupported(es, format) && i < |format| && format[i] != 'N' && base + Size(es, format) < U64
    ensures WORD * |format| <= |Layout(es, format, base)|
    ensures Decode(Layout(es, format, base), base, format, i) == Meaning(format[i], TailOf(es[i], format[i]))
  {
    var buf, from, to := Layout(es, format, base), Offset(es, format, i), Offset(es, format, i + 1);
    LayoutHolds(es, format, base);
    assert from <= to <= |buf| && buf[from..to] == TailOf(es[i], format[i]) by { LayoutTail(es, format, base, i); }
    assert Start(buf, base, format, i) == from by { LayoutStart(es, format, base, i); }
    assert Start(buf, base, format, i + 1) == to by { LayoutStart(es, format, base, i + 1); }
    DecodeMeaning(buf, base, format, i, from, to);
  }

  /** Reading the buffer back by the format alone returns every element. */
  lemma RoundTrip(es: seq<Element>, format: seq<char>, base: nat, i: nat)
    requires AllSupported(es, format) && i < |format|
    requires base + Size(es, format) < U64
    ensures WORD * |format| <= |Layout(es, format, base)|
    ensures Decode(Layout(es, format, base), base, format, i) == Some(Rendered(es[i], format[i]))
  {
    if format[i] == 'N' {
      LayoutWord(es, format, base, i);
    } else {
      PointerDecodes(es, format, base, i);
      TailRendered(es[i], format[i]);
    }
  }
}
