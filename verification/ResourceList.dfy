/**
  Power resource lists are kept in ascending resource order, so that resources
  go on in ascending and off in descending order (drivers/acpi/power.c:108-176).
  */
module ResourceList {
  import opened PowerResources

  type Order = nat -> nat

  ghost predicate Ascending(order: Order, list: seq<nat>) {
    forall i, j :: 0 <= i < j < |list| ==> order(list[i]) <= order(list[j])
  }

  /** The entries of one order value, in list order. */
  function Rank(order: Order, list: seq<nat>, o: nat): seq<nat> {
    if list == [] then []
    else if order(list[0]) == o then [list[0]] + Rank(order, list[1..], o)
    else Rank(order, list[1..], o)
  }

  /** The first position from `i` on whose entry has a greater order. */
  function Place(order: Order, list: seq<nat>, r: nat, i: nat): (k: nat)
    requires i <= |list|
    ensures i <= k <= |list|
    decreases |list| - i
  {
    if i == |list| || order(list[i]) > order(r) then i else Place(order, list, r, i + 1)
  }

  lemma {:induction false} PlaceLaw(order: Order, list: seq<nat>, r: nat, i: nat)
    requires i <= |list|
    ensures var k := Place(order, list, r, i);
            && (k < |list| ==> order(list[k]) > order(r))
            && forall j :: i <= j < k ==> order(list[j]) <= order(r)
    decreases |list| - i
  {
    if i < |list| && order(list[i]) <= order(r) { PlaceLaw(order, list, r, i + 1); }
  }

  function Insert(order: Order, list: seq<nat>, r: nat): seq<nat> {
    var k := Place(order, list, r, 0);
    list[..k] + [r] + list[k..]
  }

  /** The list obtained from `list` by adding `rs` one by one. */
  function Listing(order: Order, list: seq<nat>, rs: seq<nat>): seq<nat> {
    if rs == [] then list else Insert(order, Listing(order, list, rs[..|rs| - 1]), rs[|rs| - 1])
  }

  /** Behind its place, a sorted list holds only entries of greater order. */
  lemma PlaceSplits(order: Order, list: seq<nat>, r: nat)
    requires Ascending(order, list)
    ensures var k := Place(order, list, r, 0);
            forall j :: k <= j < |list| ==> order(list[j]) > order(r)
  {
    PlaceLaw(order, list, r, 0);
  }

  lemma InsertAscending(order: Order, list: seq<nat>, r: nat)
    requires Ascending(order, list)
    ensures Ascending(order, Insert(order, list, r))
  {
    var k, l := Place(order, list, r, 0), Insert(order, list, r);
    PlaceLaw(order, list, r, 0);
    PlaceSplits(order, list, r);
    forall i, j | 0 <= i < j < |l|
      ensures order(l[i]) <= order(l[j])
    {
      var x, y := if i < k then i else i - 1, if j < k then j else j - 1;
      assert i != k ==> l[i] == list[x];
      assert j != k ==> l[j] == list[y];
    }
  }

  lemma InsertMultiset(order: Order, list: seq<nat>, r: nat)
    ensures multiset(Insert(order, list, r)) == multiset(list) + multiset{r}
  {
    var k := Place(order, list, r, 0);
    assert list == list[..k] + list[k..];
  }

  lemma InsertRank(order: Order, list: seq<nat>, r: nat, o: nat)
    requires var k := Place(order, list, r, 0);
             forall j :: k <= j < |list| ==> order(list[j]) > order(r)
    ensures Rank(order, Insert(order, list, r), o) == Rank(order, list, o) + if order(r) == o then [r] else []
  {
    var k := Place(order, list, r, 0);
    var before, after := list[..k], list[k..];
    assert before + after == list;
    forall i | 0 <= i < |after| ensures order(after[i]) > order(r) { assert after[i] == list[k + i]; }
    RankInserted(order, before, r, after, o);
  }

  lemma RankInserted(order: Order, a: seq<nat>, r: nat, b: seq<nat>, o: nat)
    requires forall i :: 0 <= i < |b| ==> order(b[i]) > order(r)
    ensures Rank(order, a + [r] + b, o) == Rank(order, a + b, o) + if order(r) == o then [r] else []
  {
    RankSplice(order, a, r, b, o);
    if order(r) == o { RankEmpty(order, b, o); }
  }

  lemma RankSplice(order: Order, a: seq<nat>, r: nat, b: seq<nat>, o: nat)
    ensures Rank(order, a + [r] + b, o) == Rank(order, a, o) + (if order(r) == o then [r] else []) + Rank(order, b, o)
    ensures Rank(order, a + b, o) == Rank(order, a, o) + Rank(order, b, o)
  {
    RankConcat(order, a + [r], b, o);
    RankLast(order, a + [r], o);
    assert (a + [r])[..|a|] == a;
    RankConcat(order, a, b, o);
  }

  lemma {:induction false} RankConcat(order: Order, a: seq<nat>, b: seq<nat>, o: nat)
    ensures Rank(order, a + b, o) == Rank(order, a, o) + Rank(order, b, o)
  {
    if a == [] {
      assert a + b == b;
    } else {
      assert (a + b)[1..] == a[1..] + b;
      RankConcat(order, a[1..], b, o);
    }
  }

  lemma {:induction false} RankEmpty(order: Order, list: seq<nat>, o: nat)
    requires forall i :: 0 <= i < |list| ==> order(list[i]) != o
    ensures Rank(order, list, o) == []
  {
    if list != [] { RankEmpty(order, list[1..], o); }
  }

  lemma {:induction false} RankLast(order: Order, list: seq<nat>, o: nat)
    requires list != []
    ensures var l := |list| - 1;
            Rank(order, list, o) == Rank(order, list[..l], o) + if order(list[l]) == o then [list[l]] else []
  {
    if |list| > 1 {
      RankLast(order, list[1..], o);
      assert list[1..][..|list| - 2] == list[..|list| - 1][1..];
    }
  }

  lemma {:induction false} ListingAscending(order: Order, list: seq<nat>, rs: seq<nat>)
    requires Ascending(order, list)
    ensures Ascending(order, Listing(order, list, rs))
    decreases |rs|
  {
    if rs != [] {
      var l := |rs| - 1;
      ListingAscending(order, list, rs[..l]);
      InsertAscending(order, Listing(order, list, rs[..l]), rs[l]);
    }
  }

  lemma {:induction false} ListingMultiset(order: Order, list: seq<nat>, rs: seq<nat>)
    ensures multiset(Listing(order, list, rs)) == multiset(list) + multiset(rs)
    decreases |rs|
  {
    if rs != [] {
      var l := |rs| - 1;
      ListingMultiset(order, list, rs[..l]);
      InsertMultiset(order, Listing(order, list, rs[..l]), rs[l]);
      assert rs == rs[..l] + [rs[l]];
    }
  }

  lemma {:induction false} ListingRank(order: Order, list: seq<nat>, rs: seq<nat>, o: nat)
    requires Ascending(order, list)
    ensures Rank(order, Listing(order, list, rs), o) == Rank(order, list, o) + Rank(order, rs, o)
    decreases |rs|
  {
    if rs != [] {
      var l := |rs| - 1;
      var before := Listing(order, list, rs[..l]);
      ListingRank(order, list, rs[..l], o);
      ListingAscending(order, list, rs[..l]);
      PlaceSplits(order, before, rs[l]);
      InsertRank(order, before, rs[l], o);
      RankLast(order, rs, o);
    }
  }

  /** A listing stays sorted, holds every resource as often as before and added, and keeps ties in arrival order. */
  lemma ListingLaw(order: Order, list: seq<nat>, rs: seq<nat>, o: nat)
    requires Ascending(order, list)
    ensures Ascending(order, Listing(order, list, rs))
    ensures multiset(Listing(order, list, rs)) == multiset(list) + multiset(rs)
    ensures Rank(order, Listing(order, list, rs), o) == Rank(order, list, o) + Rank(order, rs, o)
  {
    ListingAscending(order, list, rs);
    ListingMultiset(order, list, rs);
    ListingRank(order, list, rs, o);
  }

  class List {
    var entries: seq<nat>

    constructor ()
      ensures entries == []
    {
      entries := [];
    }

    method Add(order: Order, r: nat)
      modifies this
      ensures entries == Insert(order, old(entries), r)
    {
      var i := 0;
      while i < |entries| && order(entries[i]) <= order(r)
        invariant i <= |entries|
        invariant Place(order, entries, r, i) == Place(order, entries, r, 0)
      {
        i := i + 1;
      }
      entries := entries[..i] + [r] + entries[i..];
    }

    /**
      Adds the resources a package names from `start` on; an element that is
      no usable reference frees the whole list.
      */
    method Extract(order: Order, package: seq<Reference>, start: nat) returns (ok: bool)
      requires start <= |package|
      modifies this
      ensures ok <==> forall i :: start <= i < |package| ==> package[i].Resource?
      ensures entries == if ok then Listing(order, old(entries), Handles(package, start, |package|)) else []
    {
      ok := true;
      for i := start to |package|
        invariant forall k :: start <= k < i ==> package[k].Resource?
        invariant entries == Listing(order, old(entries), Handles(package, start, i))
      {
        if !package[i].Resource? {
          entries := [];
          return false;
        }
        ghost var rs, r := Handles(package, start, i), package[i].r;
        Add(order, package[i].r);
        assert entries == Listing(order, old(entries), rs + [r]) by { ListingNext(order, old(entries), rs, r); }
      }
    }
  }

  lemma ListingNext(order: Order, list: seq<nat>, rs: seq<nat>, r: nat)
    ensures Listing(order, list, rs + [r]) == Insert(order, Listing(order, list, rs), r)
  {
    assert (rs + [r])[..|rs|] == rs;
  }

  /** A package element: a registered power resource, or something that cannot be listed. */
  datatype Reference = Resource(r: nat) | Unusable

  /** The resources named by elements `lo` to `hi`, in package order. */
  function Handles(package: seq<Reference>, lo: nat, hi: nat): seq<nat>
    requires lo <= hi <= |package| && forall i :: lo <= i < hi ==> package[i].Resource?
    decreases hi - lo
  {
    if lo == hi then [] else Handles(package, lo, hi - 1) + [package[hi - 1].r]
  }

  // ------------------------------------------------ order of the evaluations

  /** The `_ON` evaluations from `from` on are in ascending order, none below `low`. */
  ghost predicate OnsAscend(order: Order, log: seq<Act>, from: nat, low: nat) {
    && (forall x :: from <= x < |log| && log[x].EvalOn? ==> low <= order(log[x].r))
    && (forall x, y :: from <= x < y < |log| && log[x].EvalOn? && log[y].EvalOn? ==> order(log[x].r) <= order(log[y].r))
  }

  /** The `_OFF` evaluations from `from` on are in descending order, none above `high`. */
  ghost predicate OffsDescend(order: Order, log: seq<Act>, from: nat, high: nat) {
    && (forall x :: from <= x < |log| && log[x].EvalOff? ==> order(log[x].r) <= high)
    && (forall x, y :: from <= x < y < |log| && log[x].EvalOff? && log[y].EvalOff? ==> order(log[y].r) <= order(log[x].r))
  }

  lemma {:induction false} OnOrder(fw: Firmware, order: Order, b: Bank, list: seq<nat>, i: nat, low: nat)
    requires i <= |list| && Names(list, |b.res|) && Ascending(order, list)
    requires i < |list| ==> low <= order(list[i])
    ensures var b1 := OnSweep(fw, b, list, i).0;
            b.log <= b1.log && OnsAscend(order, b1.log, |b.log|, low)
    decreases |list| - i
  {
    if i < |list| {
      var (b1, ok) := PowerOn(fw, b, list[i]);
      if ok { OnOrder(fw, order, b1, list, i + 1, order(list[i])); }
    }
  }

  lemma {:induction false} OffOrder(fw: Firmware, order: Order, b: Bank, list: seq<nat>, k: nat, high: nat)
    requires k <= |list| && Names(list, |b.res|) && Ascending(order, list)
    requires k > 0 ==> order(list[k - 1]) <= high
    ensures var b1 := OffSweep(fw, b, list, k).0;
            b.log <= b1.log && OffsDescend(order, b1.log, |b.log|, high)
    decreases k
  {
    if k > 0 {
      var (b1, ok) := PowerOff(fw, b, list[k - 1]);
      if ok { OffOrder(fw, order, b1, list, k - 1, order(list[k - 1])); }
    }
  }
}
