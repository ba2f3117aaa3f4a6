/**
  Shared ACPI power resources: reference counts, the hardware state behind
  them, and the two list sweeps with their rollbacks (drivers/acpi/power.c).

  Firmware is an arbitrary environment.  Every control method evaluation is
  appended to a log, and its outcome is looked up at the log's length, so one
  `Firmware` value fixes an outcome for every evaluation of a run and all
  `Firmware` values together give every possible pattern of failures.
  */
module PowerResources {

  datatype Resource = Resource(refCount: nat, wakeupEnabled: bool, on: bool)

  /** A method of device `d`: `_PSx` for a state, `_PSC`, or `_DSW` falling back to `_PSW`. */
  datatype Method = Ps(d: nat, state: nat) | Psc(d: nat) | SleepWake(d: nat, enable: bool)

  /** One observable action: a counter store or a control method evaluation. */
  datatype Act =
    | Count(r: nat, n: nat)
    | EvalOn(r: nat, ok: bool)
    | EvalOff(r: nat, ok: bool)
    | EvalSta(r: nat, ok: bool)
    | EvalMethod(m: Method, ok: bool)

  datatype Firmware = Firmware(succeeds: nat -> bool, value: nat -> nat)

  datatype Bank = Bank(res: seq<Resource>, log: seq<Act>)

  /** Every resource a list names exists. */
  predicate Names(list: seq<nat>, n: nat) {
    forall i :: 0 <= i < |list| ==> list[i] < n
  }

  /** No evaluation ever fails. */
  ghost predicate Reliable(fw: Firmware) {
    forall i :: fw.succeeds(i)
  }

  /** No evaluation from position `n` of the log on fails. */
  ghost predicate ReliableFrom(fw: Firmware, n: nat) {
    forall i :: n <= i ==> fw.succeeds(i)
  }

  ghost predicate Logged(log: seq<Act>, from: nat, a: Act) {
    exists i :: from <= i < |log| && log[i] == a
  }

  lemma LoggedSplit(l0: seq<Act>, l1: seq<Act>, l2: seq<Act>, a: Act)
    requires l0 <= l1 <= l2
    ensures Logged(l2, |l0|, a) <==> Logged(l1, |l0|, a) || Logged(l2, |l1|, a)
  {
    if Logged(l1, |l0|, a) {
      var i :| |l0| <= i < |l1| && l1[i] == a;
      assert l2[i] == a;
    }
    if Logged(l2, |l0|, a) {
      var i :| |l0| <= i < |l2| && l2[i] == a;
      assert i < |l1| ==> l1[i] == a;
    }
  }

  /** From position `from` on, `r` neither reaches count zero nor has `_OFF` evaluated. */
  ghost predicate Steady(log: seq<Act>, from: nat, r: nat) {
    forall i :: from <= i < |log| ==> log[i] != Count(r, 0) && !(log[i].EvalOff? && log[i].r == r)
  }

  /** A counted resource is powered. */
  predicate Live(b: Bank, r: nat)
    requires r < |b.res|
  {
    b.res[r].refCount > 0 ==> b.res[r].on
  }

  /** An uncounted resource is not powered. */
  predicate Dark(b: Bank, r: nat)
    requires r < |b.res|
  {
    b.res[r].refCount == 0 ==> !b.res[r].on
  }

  /** Occurrences of `r` among `list[lo..hi]`. */
  function Occ(list: seq<nat>, lo: nat, hi: nat, r: nat): nat
    requires lo <= hi <= |list|
    decreases hi - lo
  {
    if lo == hi then 0 else (if list[lo] == r then 1 else 0) + Occ(list, lo + 1, hi, r)
  }

  lemma {:induction false} OccSplit(list: seq<nat>, lo: nat, mid: nat, hi: nat, r: nat)
    requires lo <= mid <= hi <= |list|
    ensures Occ(list, lo, hi, r) == Occ(list, lo, mid, r) + Occ(list, mid, hi, r)
    decreases mid - lo
  {
    if lo < mid { OccSplit(list, lo + 1, mid, hi, r); }
  }

  /** A resource occurs in a list exactly when its occurrence count is positive. */
  lemma {:induction false} OccPositive(list: seq<nat>, lo: nat, r: nat)
    requires lo <= |list|
    ensures Occ(list, lo, |list|, r) > 0 <==> r in list[lo..]
    decreases |list| - lo
  {
    if lo < |list| {
      OccPositive(list, lo + 1, r);
      assert list[lo..] == [list[lo]] + list[lo + 1..];
    }
  }

  // ------------------------------------------------------------ one resource

  function PowerOn(fw: Firmware, b: Bank, r: nat): (Bank, bool)
    requires r < |b.res|
  {
    var x := b.res[r];
    if x.refCount > 0 then
      (Bank(b.res[r := x.(refCount := x.refCount + 1)], b.log + [Count(r, x.refCount + 1)]), true)
    else if fw.succeeds(|b.log| + 1) then
      (Bank(b.res[r := x.(refCount := 1, on := true)], b.log + [Count(r, 1), EvalOn(r, true)]), true)
    else
      (b.(log := b.log + [Count(r, 1), EvalOn(r, false), Count(r, 0)]), false)
  }

  function PowerOff(fw: Firmware, b: Bank, r: nat): (Bank, bool)
    requires r < |b.res|
  {
    var x := b.res[r];
    if x.refCount == 0 then
      (b, true)
    else if x.refCount > 1 then
      (Bank(b.res[r := x.(refCount := x.refCount - 1)], b.log + [Count(r, x.refCount - 1)]), true)
    else if fw.succeeds(|b.log| + 1) then
      (Bank(b.res[r := x.(refCount := 0, on := false)], b.log + [Count(r, 0), EvalOff(r, true)]), true)
    else
      (b.(log := b.log + [Count(r, 0), EvalOff(r, false), Count(r, 1)]), false)
  }

  // -------------------------------------------------------------- the sweeps

  /** Takes `list[i..]` in order up to the first failure; the index tells where it stopped. */
  function OnSweep(fw: Firmware, b: Bank, list: seq<nat>, i: nat): (o: (Bank, nat))
    requires i <= |list| && Names(list, |b.res|)
    ensures |o.0.res| == |b.res| && i <= o.1 <= |list|
    decreases |list| - i
  {
    if i == |list| then (b, i)
    else
      var (b1, ok) := PowerOn(fw, b, list[i]);
      if ok then OnSweep(fw, b1, list, i + 1) else (b1, i)
  }

  /** Drops `list[..k]` from the back, ignoring failures: the rollback of a power-on. */
  function DropBack(fw: Firmware, b: Bank, list: seq<nat>, k: nat): (b1: Bank)
    requires k <= |list| && Names(list, |b.res|)
    ensures |b1.res| == |b.res|
    decreases k
  {
    if k == 0 then b else DropBack(fw, PowerOff(fw, b, list[k - 1]).0, list, k - 1)
  }

  /** Drops `list[..k]` from the back up to the first failure; entries from the index on were dropped. */
  function OffSweep(fw: Firmware, b: Bank, list: seq<nat>, k: nat): (o: (Bank, nat))
    requires k <= |list| && Names(list, |b.res|)
    ensures |o.0.res| == |b.res| && o.1 <= k
    decreases k
  {
    if k == 0 then (b, 0)
    else
      var (b1, ok) := PowerOff(fw, b, list[k - 1]);
      if ok then OffSweep(fw, b1, list, k - 1) else (b1, k)
  }

  /** Takes `list[i..]` in order, ignoring failures: the rollback of a power-off. */
  function TakeBack(fw: Firmware, b: Bank, list: seq<nat>, i: nat): (b1: Bank)
    requires i <= |list| && Names(list, |b.res|)
    ensures |b1.res| == |b.res|
    decreases |list| - i
  {
    if i == |list| then b else TakeBack(fw, PowerOn(fw, b, list[i]).0, list, i + 1)
  }

  function OnList(fw: Firmware, b: Bank, list: seq<nat>): (o: (Bank, bool))
    requires Names(list, |b.res|)
    ensures |o.0.res| == |b.res|
  {
    var (b1, k) := OnSweep(fw, b, list, 0);
    if k == |list| then (b1, true) else (DropBack(fw, b1, list, k), false)
  }

  function OffList(fw: Firmware, b: Bank, list: seq<nat>): (o: (Bank, bool))
    requires Names(list, |b.res|)
    ensures |o.0.res| == |b.res|
  {
    var (b1, k) := OffSweep(fw, b, list, |list|);
    if k == 0 then (b1, true) else (TakeBack(fw, b1, list, k), false)
  }

  /** Takes the list of a new state and only then drops the list of the old one, whose failure is ignored. */
  function Exchange(fw: Firmware, b: Bank, take: seq<nat>, drop: seq<nat>): (o: (Bank, bool))
    requires Names(take, |b.res|) && Names(drop, |b.res|)
    ensures |o.0.res| == |b.res|
  {
    var (b1, ok) := OnList(fw, b, take);
    if ok then (OffList(fw, b1, drop).0, true) else (b1, false)
  }

  // ------------------------------------------------------- laws of the sweeps

  /** What every step keeps: the set of resources and the past actions. */
  predicate Extends(b: Bank, b1: Bank) {
    |b1.res| == |b.res| && b.log <= b1.log
  }

  /** What every step keeps of one resource: its wakeup mark, and power exactly while it is counted. */
  predicate Sound(b: Bank, b1: Bank, r: nat)
    requires r < |b.res| && Extends(b, b1)
  {
    && b1.res[r].wakeupEnabled == b.res[r].wakeupEnabled
    && (Live(b, r) ==> Live(b1, r))
    && (Dark(b, r) ==> Dark(b1, r))
  }

  function Monus(a: nat, b: nat): nat {
    if a >= b then a - b else 0
  }

  lemma {:induction false} OnSweepLaw(fw: Firmware, b: Bank, list: seq<nat>, i: nat, r: nat)
    requires i <= |list| && Names(list, |b.res|) && r < |b.res|
    ensures var (b1, k) := OnSweep(fw, b, list, i);
            && Extends(b, b1)
            && Sound(b, b1, r)
            && b1.res[r].refCount == b.res[r].refCount + Occ(list, i, k, r)
            && (b.res[r].refCount > 0 ==> Steady(b1.log, |b.log|, r))
    decreases |list| - i
  {
    if i < |list| {
      var (b1, ok) := PowerOn(fw, b, list[i]);
      if ok { OnSweepLaw(fw, b1, list, i + 1, r); }
    }
  }

  lemma {:induction false} DropBackLaw(fw: Firmware, b: Bank, list: seq<nat>, k: nat, r: nat)
    requires k <= |list| && Names(list, |b.res|) && r < |b.res|
    ensures var b1 := DropBack(fw, b, list, k);
            && Extends(b, b1)
            && Sound(b, b1, r)
            && b1.res[r].refCount >= Monus(b.res[r].refCount, Occ(list, 0, k, r))
            && (b.res[r].refCount > Occ(list, 0, k, r) ==> Steady(b1.log, |b.log|, r))
    decreases k
  {
    if k > 0 {
      DropBackLaw(fw, PowerOff(fw, b, list[k - 1]).0, list, k - 1, r);
      OccLast(list, k, r);
    }
  }

  lemma {:induction false} OffSweepLaw(fw: Firmware, b: Bank, list: seq<nat>, k: nat, r: nat)
    requires k <= |list| && Names(list, |b.res|) && r < |b.res|
    ensures var (b1, j) := OffSweep(fw, b, list, k);
            && Extends(b, b1)
            && Sound(b, b1, r)
            && b1.res[r].refCount == Monus(b.res[r].refCount, Occ(list, j, k, r))
            && (b.res[r].refCount > Occ(list, 0, k, r) ==> Steady(b1.log, |b.log|, r))
    decreases k
  {
    if k > 0 {
      var (b1, ok) := PowerOff(fw, b, list[k - 1]);
      OccLast(list, k, r);
      if ok {
        OffSweepLaw(fw, b1, list, k - 1, r);
        OccSplit(list, OffSweep(fw, b1, list, k - 1).1, k - 1, k, r);
      }
    }
  }

  lemma {:induction false} TakeBackLaw(fw: Firmware, b: Bank, list: seq<nat>, i: nat, r: nat)
    requires i <= |list| && Names(list, |b.res|) && r < |b.res|
    ensures var b1 := TakeBack(fw, b, list, i);
            && Extends(b, b1)
            && Sound(b, b1, r)
            && b1.res[r].refCount >= b.res[r].refCount
            && (b.res[r].refCount > 0 ==> Steady(b1.log, |b.log|, r))
    decreases |list| - i
  {
    if i < |list| { TakeBackLaw(fw, PowerOn(fw, b, list[i]).0, list, i + 1, r); }
  }

  lemma OccLast(list: seq<nat>, k: nat, r: nat)
    requires 0 < k <= |list|
    ensures Occ(list, k - 1, k, r) == if list[k - 1] == r then 1 else 0
    ensures Occ(list, 0, k, r) == Occ(list, 0, k - 1, r) + if list[k - 1] == r then 1 else 0
  {
    OccSplit(list, 0, k - 1, k, r);
    assert Occ(list, k, k, r) == 0;
  }

  // --------------------------------------------------------- whole list calls

  /** Taking a list: all of it, or, when some `_ON` fails, at least what was held before. */
  lemma OnListLaw(fw: Firmware, b: Bank, list: seq<nat>, r: nat)
    requires Names(list, |b.res|) && r < |b.res|
    ensures var (b1, ok) := OnList(fw, b, list);
            && Extends(b, b1)
            && Sound(b, b1, r)
            && b1.res[r].refCount >= b.res[r].refCount
            && (ok ==> b1.res[r].refCount == b.res[r].refCount + Occ(list, 0, |list|, r))
  {
    OnSweepLaw(fw, b, list, 0, r);
    var (b1, k) := OnSweep(fw, b, list, 0);
    DropBackLaw(fw, b1, list, k, r);
  }

  /** Dropping a list: all of it, or, when some `_OFF` fails, no more than that. */
  lemma OffListLaw(fw: Firmware, b: Bank, list: seq<nat>, r: nat)
    requires Names(list, |b.res|) && r < |b.res|
    ensures var (b1, ok) := OffList(fw, b, list);
            && Extends(b, b1)
            && Sound(b, b1, r)
            && b1.res[r].refCount >= Monus(b.res[r].refCount, Occ(list, 0, |list|, r))
            && (ok ==> b1.res[r].refCount == Monus(b.res[r].refCount, Occ(list, 0, |list|, r)))
  {
    OffSweepLaw(fw, b, list, |list|, r);
    var (b1, k) := OffSweep(fw, b, list, |list|);
    OccSplit(list, 0, k, |list|, r);
    TakeBackLaw(fw, b1, list, k, r);
  }

  /** An exchange moves at most the difference of the lists; on failure nothing held before is given up. */
  lemma ExchangeLaw(fw: Firmware, b: Bank, take: seq<nat>, drop: seq<nat>, r: nat)
    requires Names(take, |b.res|) && Names(drop, |b.res|) && r < |b.res|
    ensures var (b1, ok) := Exchange(fw, b, take, drop);
            var n, t, f := b.res[r].refCount, Occ(take, 0, |take|, r), Occ(drop, 0, |drop|, r);
            && Extends(b, b1)
            && Sound(b, b1, r)
            && b1.res[r].refCount >= if ok then n + t - f else n
  {
    OnListLaw(fw, b, take, r);
    var (b1, ok) := OnList(fw, b, take);
    if ok { OffListLaw(fw, b1, drop, r); }
  }

  lemma {:induction false} OnSweepReliable(fw: Firmware, b: Bank, list: seq<nat>, i: nat)
    requires i <= |list| && Names(list, |b.res|) && ReliableFrom(fw, |b.log|)
    ensures OnSweep(fw, b, list, i).1 == |list| && |b.log| <= |OnSweep(fw, b, list, i).0.log|
    decreases |list| - i
  {
    if i < |list| { OnSweepReliable(fw, PowerOn(fw, b, list[i]).0, list, i + 1); }
  }

  lemma {:induction false} OffSweepReliable(fw: Firmware, b: Bank, list: seq<nat>, k: nat)
    requires k <= |list| && Names(list, |b.res|) && Reliable(fw)
    ensures OffSweep(fw, b, list, k).1 == 0
    decreases k
  {
    if k > 0 { OffSweepReliable(fw, PowerOff(fw, b, list[k - 1]).0, list, k - 1); }
  }

  /** When both of its halves succeed, an exchange moves exactly the difference. */
  lemma ExchangeExact(fw: Firmware, b: Bank, take: seq<nat>, drop: seq<nat>, r: nat, b1: Bank, b2: Bank)
    requires Names(take, |b.res|) && Names(drop, |b.res|) && r < |b.res| == |b1.res| == |b2.res|
    requires OnList(fw, b, take) == (b1, true) && OffList(fw, b1, drop) == (b2, true)
    requires b.res[r].refCount >= Occ(drop, 0, |drop|, r)
    ensures Exchange(fw, b, take, drop) == (b2, true)
    ensures b2.res[r].refCount == b.res[r].refCount + Occ(take, 0, |take|, r) - Occ(drop, 0, |drop|, r)
  {
    OnListTakes(fw, b, take, r);
    OffListDrops(fw, b1, drop, r);
  }

  lemma OnListTakes(fw: Firmware, b: Bank, list: seq<nat>, r: nat)
    requires Names(list, |b.res|) && r < |b.res| && OnList(fw, b, list).1
    ensures OnList(fw, b, list).0.res[r].refCount == b.res[r].refCount + Occ(list, 0, |list|, r)
  {
    OnListLaw(fw, b, list, r);
  }

  lemma OffListDrops(fw: Firmware, b: Bank, list: seq<nat>, r: nat)
    requires Names(list, |b.res|) && r < |b.res| && OffList(fw, b, list).1 && b.res[r].refCount >= Occ(list, 0, |list|, r)
    ensures OffList(fw, b, list).0.res[r].refCount == b.res[r].refCount - Occ(list, 0, |list|, r)
  {
    OffListLaw(fw, b, list, r);
  }

  /** With reliable firmware both halves succeed. */
  lemma ReliableExchange(fw: Firmware, b: Bank, take: seq<nat>, drop: seq<nat>, r: nat)
    requires Names(take, |b.res|) && Names(drop, |b.res|) && r < |b.res| && Reliable(fw)
    requires b.res[r].refCount >= Occ(drop, 0, |drop|, r)
    ensures Exchange(fw, b, take, drop).1
    ensures Exchange(fw, b, take, drop).0.res[r].refCount
         == b.res[r].refCount + Occ(take, 0, |take|, r) - Occ(drop, 0, |drop|, r)
  {
    OnSweepReliable(fw, b, take, 0);
    var b1 := OnList(fw, b, take).0;
    OffSweepReliable(fw, b1, drop, |drop|);
    ExchangeExact(fw, b, take, drop, r, b1, OffList(fw, b1, drop).0);
  }

  // -------------------------------------------------------------- no glitches

  lemma SteadyChain(l0: seq<Act>, l1: seq<Act>, l2: seq<Act>, r: nat)
    requires l0 <= l1 <= l2 && Steady(l1, |l0|, r) && Steady(l2, |l1|, r)
    ensures Steady(l2, |l0|, r)
  {
  }

  lemma OnListSteady(fw: Firmware, b: Bank, list: seq<nat>, r: nat)
    requires Names(list, |b.res|) && r < |b.res| && b.res[r].refCount > 0
    ensures var b1 := OnList(fw, b, list).0;
            Extends(b, b1) && Steady(b1.log, |b.log|, r)
  {
    OnSweepLaw(fw, b, list, 0, r);
    var (b1, k) := OnSweep(fw, b, list, 0);
    DropBackLaw(fw, b1, list, k, r);
    SteadyChain(b.log, b1.log, DropBack(fw, b1, list, k).log, r);
  }

  lemma OffListSteady(fw: Firmware, b: Bank, list: seq<nat>, r: nat)
    requires Names(list, |b.res|) && r < |b.res| && b.res[r].refCount > Occ(list, 0, |list|, r)
    ensures var b1 := OffList(fw, b, list).0;
            Extends(b, b1) && Steady(b1.log, |b.log|, r)
  {
    OffSweepLaw(fw, b, list, |list|, r);
    var (b1, k) := OffSweep(fw, b, list, |list|);
    OccSplit(list, 0, k, |list|, r);
    TakeBackLaw(fw, b1, list, k, r);
    SteadyChain(b.log, b1.log, TakeBack(fw, b1, list, k).log, r);
  }

  /** No glitch: a resource in use before the exchange and still in use after it is never off during it, whatever fails. */
  lemma ExchangeSteady(fw: Firmware, b: Bank, take: seq<nat>, drop: seq<nat>, r: nat)
    requires Names(take, |b.res|) && Names(drop, |b.res|) && r < |b.res|
    requires b.res[r].refCount > 0 && b.res[r].refCount + Occ(take, 0, |take|, r) > Occ(drop, 0, |drop|, r)
    ensures var b1 := Exchange(fw, b, take, drop).0;
            Extends(b, b1) && Steady(b1.log, |b.log|, r)
  {
    OnListSteady(fw, b, take, r);
    OnListLaw(fw, b, take, r);
    var (b1, ok) := OnList(fw, b, take);
    if ok {
      OffListSteady(fw, b1, drop, r);
      SteadyChain(b.log, b1.log, OffList(fw, b1, drop).0.log, r);
    }
  }

  // ---------------------------------------------------------- exact rollbacks

  lemma {:induction false} OnSweepNoOff(fw: Firmware, b: Bank, list: seq<nat>, i: nat, r: nat)
    requires i <= |list| && Names(list, |b.res|)
    ensures var b1 := OnSweep(fw, b, list, i).0;
            b.log <= b1.log && !Logged(b1.log, |b.log|, EvalOff(r, false))
    decreases |list| - i
  {
    if i < |list| {
      var (b1, ok) := PowerOn(fw, b, list[i]);
      if ok { OnSweepNoOff(fw, b1, list, i + 1, r); }
    }
  }

  lemma {:induction false} OffSweepNoOn(fw: Firmware, b: Bank, list: seq<nat>, k: nat, r: nat)
    requires k <= |list| && Names(list, |b.res|)
    ensures var b1 := OffSweep(fw, b, list, k).0;
            b.log <= b1.log && !Logged(b1.log, |b.log|, EvalOn(r, false))
    decreases k
  {
    if k > 0 {
      var (b1, ok) := PowerOff(fw, b, list[k - 1]);
      if ok { OffSweepNoOn(fw, b1, list, k - 1, r); }
    }
  }

  /** Dropping what is held is exact unless an `_OFF` of the resource fails. */
  lemma {:induction false} DropBackExact(fw: Firmware, b: Bank, list: seq<nat>, k: nat, r: nat)
    requires k <= |list| && Names(list, |b.res|) && r < |b.res|
    requires b.res[r].refCount >= Occ(list, 0, k, r)
    ensures var b1 := DropBack(fw, b, list, k);
            && Extends(b, b1)
            && b1.res[r].refCount >= b.res[r].refCount - Occ(list, 0, k, r)
            && (b1.res[r].refCount == b.res[r].refCount - Occ(list, 0, k, r)
                <==> !Logged(b1.log, |b.log|, EvalOff(r, false)))
    decreases k
  {
    if k > 0 {
      var (b1, ok) := PowerOff(fw, b, list[k - 1]);
      OccLast(list, k, r);
      DropBackExact(fw, b1, list, k - 1, r);
      LoggedSplit(b.log, b1.log, DropBack(fw, b1, list, k - 1).log, EvalOff(r, false));
      assert !ok ==> b1.log[|b.log| + 1] == EvalOff(list[k - 1], false);
    }
  }

  /** Taking back is exact unless an `_ON` of the resource fails. */
  lemma {:induction false} TakeBackExact(fw: Firmware, b: Bank, list: seq<nat>, i: nat, r: nat)
    requires i <= |list| && Names(list, |b.res|) && r < |b.res|
    ensures var b1 := TakeBack(fw, b, list, i);
            && Extends(b, b1)
            && b1.res[r].refCount <= b.res[r].refCount + Occ(list, i, |list|, r)
            && (b1.res[r].refCount == b.res[r].refCount + Occ(list, i, |list|, r)
                <==> !Logged(b1.log, |b.log|, EvalOn(r, false)))
    decreases |list| - i
  {
    if i < |list| {
      var (b1, ok) := PowerOn(fw, b, list[i]);
      TakeBackExact(fw, b1, list, i + 1, r);
      LoggedSplit(b.log, b1.log, TakeBack(fw, b1, list, i + 1).log, EvalOn(r, false));
      assert !ok ==> b1.log[|b.log| + 1] == EvalOn(list[i], false);
    }
  }

  predicate SameCounts(b: Bank, b1: Bank) {
    |b1.res| == |b.res| && forall r :: 0 <= r < |b.res| ==> b1.res[r].refCount == b.res[r].refCount
  }

  /** A failed power-on restores every count exactly when no `_OFF` of its rollback fails. */
  lemma OnListRollback(fw: Firmware, b: Bank, list: seq<nat>)
    requires Names(list, |b.res|) && !OnList(fw, b, list).1
    ensures var b1 := OnList(fw, b, list).0;
            SameCounts(b, b1)
            <==> forall r :: 0 <= r < |b.res| ==> !Logged(b1.log, |b.log|, EvalOff(r, false))
  {
    var (b1, k) := OnSweep(fw, b, list, 0);
    var b2 := DropBack(fw, b1, list, k);
    forall r | 0 <= r < |b.res|
      ensures b2.res[r].refCount == b.res[r].refCount <==> !Logged(b2.log, |b.log|, EvalOff(r, false))
    {
      OnSweepLaw(fw, b, list, 0, r);
      OnSweepNoOff(fw, b, list, 0, r);
      DropBackExact(fw, b1, list, k, r);
      LoggedSplit(b.log, b1.log, b2.log, EvalOff(r, false));
    }
  }

  /** Each resource was held at least as often as `list[from..]` names it. */
  predicate Held(b: Bank, list: seq<nat>, from: nat)
    requires from <= |list|
  {
    forall r :: 0 <= r < |b.res| ==> b.res[r].refCount >= Occ(list, from, |list|, r)
  }

  /**
    A failed power-off has dropped `list[k..]`.  If those entries were held, it
    restores every count exactly when no `_ON` of its rollback fails; if no
    such `_ON` fails, exactly when those entries were held.
    */
  lemma OffListRollback(fw: Firmware, b: Bank, list: seq<nat>)
    requires Names(list, |b.res|) && !OffList(fw, b, list).1
    ensures var b1 := OffList(fw, b, list).0;
            var noFail := forall r :: 0 <= r < |b.res| ==> !Logged(b1.log, |b.log|, EvalOn(r, false));
            var held := Held(b, list, OffSweep(fw, b, list, |list|).1);
            && (held ==> (SameCounts(b, b1) <==> noFail))
            && (noFail ==> (SameCounts(b, b1) <==> held))
            && (Held(b, list, 0) ==> held)
  {
    var (b1, k) := OffSweep(fw, b, list, |list|);
    var b2 := TakeBack(fw, b1, list, k);
    forall r | 0 <= r < |b.res|
      ensures var n, occ := b.res[r].refCount, Occ(list, k, |list|, r);
              && Occ(list, 0, |list|, r) >= occ
              && (b2.res[r].refCount == Monus(n, occ) + occ <==> !Logged(b2.log, |b.log|, EvalOn(r, false)))
    {
      OffSweepLaw(fw, b, list, |list|, r);
      OffSweepNoOn(fw, b, list, |list|, r);
      TakeBackExact(fw, b1, list, k, r);
      OccSplit(list, 0, k, |list|, r);
      LoggedSplit(b.log, b1.log, b2.log, EvalOn(r, false));
    }
  }
}
