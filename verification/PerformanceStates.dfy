/**
  Reading the performance states of a processor
  (drivers/acpi/processor_perflib.c:399-460): states with an unusable frequency
  are squeezed out of the table while it is being filled.
  */
module PerformanceStates {
  import opened Wrappers

  /** A state as firmware gives it: its frequency in MHz, an unsigned 64-bit number, and the rest. */
  datatype Px = Px(frequency: nat, rest: int)

  /** The driver's check: the frequency in kHz, computed in 64 bits, survives a cast to 32 bits. */
  predicate Accepted(x: Px) {
    x.frequency != 0 && (x.frequency * 1000) % U64 < U32
  }

  /** What the check is for. */
  predicate Representable(x: Px) {
    0 < x.frequency * 1000 < U32
  }

  /** The product wraps around to a small number. */
  predicate Wraps(x: Px) {
    x.frequency * 1000 >= U64 && (x.frequency * 1000) % U64 < U32
  }

  /** The check is exact unless the product wraps around to a small number; it never does for products below 2^64. */
  lemma CheckExactUnlessWrapped(x: Px)
    requires x.frequency < U64
    ensures (Accepted(x) <==> Representable(x)) <==> !Wraps(x)
    ensures Representable(x) ==> Accepted(x)
    ensures x.frequency * 1000 < U64 ==> (Accepted(x) <==> Representable(x))
  {
  }

  /** 2^61 MHz is accepted: its product is a multiple of 2^64. */
  lemma WrappedFrequency()
    ensures Accepted(Px(0x2000_0000_0000_0000, 0)) && !Representable(Px(0x2000_0000_0000_0000, 0))
  {
  }

  function Usable(xs: seq<Px>): (r: seq<Px>)
    ensures |r| <= |xs|
  {
    if xs == [] then []
    else
      var l := |xs| - 1;
      Usable(xs[..l]) + if Accepted(xs[l]) then [xs[l]] else []
  }

  lemma {:induction false} AllUsable(xs: seq<Px>)
    ensures Usable(xs) == xs <==> forall i :: 0 <= i < |xs| ==> Accepted(xs[i])
    ensures |Usable(xs)| == |xs| <==> forall i :: 0 <= i < |xs| ==> Accepted(xs[i])
  {
    if xs != [] {
      var l := |xs| - 1;
      AllUsable(xs[..l]);
      assert xs == xs[..l] + [xs[l]];
    }
  }

  /** The representable states, in order: what the table should hold. */
  function Fitting(xs: seq<Px>): seq<Px> {
    if xs == [] then []
    else
      var l := |xs| - 1;
      Fitting(xs[..l]) + if Representable(xs[l]) then [xs[l]] else []
  }

  predicate NoneWraps(xs: seq<Px>) {
    forall i :: 0 <= i < |xs| ==> !Wraps(xs[i])
  }

  /** The table kept is the one that should be kept, if and only if no product wraps around. */
  lemma {:induction false} KeptExactlyWhenNoneWraps(xs: seq<Px>)
    requires forall i :: 0 <= i < |xs| ==> xs[i].frequency < U64
    ensures |Fitting(xs)| <= |Usable(xs)|
    ensures |Fitting(xs)| == |Usable(xs)| <==> NoneWraps(xs)
    ensures Usable(xs) == Fitting(xs) <==> NoneWraps(xs)
  {
    if xs != [] {
      var l := |xs| - 1;
      KeptExactlyWhenNoneWraps(xs[..l]);
      CheckExactUnlessWrapped(xs[l]);
      WrapsLast(xs);
    }
  }

  lemma WrapsLast(xs: seq<Px>)
    requires xs != []
    ensures NoneWraps(xs) <==> NoneWraps(xs[..|xs| - 1]) && !Wraps(xs[|xs| - 1])
  {
    assert xs == xs[..|xs| - 1] + [xs[|xs| - 1]];
  }

  /** Every state kept is representable if and only if no product wraps around. */
  lemma {:induction false} AllRepresentableExactlyWhenNoneWraps(xs: seq<Px>)
    requires forall i :: 0 <= i < |xs| ==> xs[i].frequency < U64
    ensures (forall i :: 0 <= i < |Usable(xs)| ==> Representable(Usable(xs)[i])) <==> NoneWraps(xs)
  {
    if xs != [] {
      var l := |xs| - 1;
      AllRepresentableExactlyWhenNoneWraps(xs[..l]);
      CheckExactUnlessWrapped(xs[l]);
      WrapsLast(xs);
      var u := Usable(xs[..l]);
      assert Usable(xs)[..|u|] == u;
      assert forall i :: 0 <= i < |u| ==> Usable(xs)[i] == u[i];
      assert Accepted(xs[l]) ==> Usable(xs)[|u|] == xs[l];
    }
  }

  /**
    Fills the table and keeps exactly the usable states, in order; fails when
    an element cannot be read (`readable`), or there are states but none is
    usable.
    */
  method Extract(package: seq<Px>, readable: seq<bool>, states: array<Px>) returns (ok: bool, count: nat)
    requires states.Length == |package| == |readable|
    modifies states
    ensures ok <==> (forall i :: 0 <= i < |package| ==> readable[i]) && (package == [] || Usable(package) != [])
    ensures ok ==> count == |Usable(package)| && states[..count] == Usable(package)
  {
    var lastInvalid := -1;
    for i := 0 to |package|
      invariant Squeezed(package[..i], states[..], lastInvalid)
      invariant forall k :: 0 <= k < i ==> readable[k]
    {
      if !readable[i] { return false, |package|; }
      ghost var before := states[..];
      states[i] := package[i];
      ghost var last := lastInvalid;
      if !Accepted(states[i]) {
        if lastInvalid == -1 { lastInvalid := i; }
      } else if lastInvalid != -1 {
        states[lastInvalid] := states[i];
        lastInvalid := lastInvalid + 1;
      }
      SqueezedNext(package, i, before, states[..], last, lastInvalid);
    }
    assert package[..|package|] == package;
    AllUsable(package);
    if lastInvalid == 0 { return false, |package|; }
    return true, if lastInvalid > 0 then lastInvalid else |package|;
  }

  /** The usable ones of `xs` are at the front; `lastInvalid` is where the next goes, or -1 if none was dropped. */
  predicate Squeezed(xs: seq<Px>, states: seq<Px>, lastInvalid: int) {
    var u := Usable(xs);
    && |xs| <= |states| && states[..|u|] == u
    && (if |u| == |xs| then lastInvalid == -1 else lastInvalid == |u|)
  }

  lemma SqueezedNext(package: seq<Px>, i: nat, before: seq<Px>, after: seq<Px>, last: int, last': int)
    requires i < |package| == |before| == |after| && Squeezed(package[..i], before, last)
    requires var x := package[i];
             if !Accepted(x) then after == before[i := x] && last' == if last == -1 then i else last
             else if last == -1 then after == before[i := x] && last' == -1
             else 0 <= last < |before| && after == before[i := x][last := x] && last' == last + 1
    ensures Squeezed(package[..i + 1], after, last')
  {
    assert package[..i + 1][..i] == package[..i];
    var u := Usable(package[..i]);
    assert after[..|u|] == u;
    if Accepted(package[i]) { assert after[..|u| + 1] == after[..|u|] + [after[|u|]]; }
  }
}
