/**
  The calls drivers make (drivers/acpi/device_pm.c) from a cold start: runs of
  them that break the ledger, and, for platforms whose devices depend on one
  resource each, exactly when there is such a run.
  */
module PowerCalls {
  import opened Wrappers
  import opened PowerResources
  import opened DevicePower
  import opened PowerLedger
  import opened PowerResume
  import opened PowerGround
  import opened PowerSteady
  import opened PowerShelter

  // ------------------------------------------------------------------ causality

  /** Two firmwares give the same answers before position `n`. */
  ghost predicate Agree(f: Firmware, g: Firmware, n: nat) {
    forall i :: 0 <= i < n ==> f.succeeds(i) == g.succeeds(i)
  }

  lemma {:induction false} OnSweepCausal(f: Firmware, g: Firmware, b: Bank, list: seq<nat>, i: nat, n: nat)
    requires i <= |list| && Names(list, |b.res|) && Agree(f, g, n)
    ensures |b.log| <= |OnSweep(f, b, list, i).0.log|
    ensures |OnSweep(f, b, list, i).0.log| <= n ==> OnSweep(g, b, list, i) == OnSweep(f, b, list, i)
    decreases |list| - i
  {
    if i < |list| {
      var (b1, ok) := PowerOn(f, b, list[i]);
      if ok { OnSweepCausal(f, g, b1, list, i + 1, n); }
    }
  }

  lemma {:induction false} DropBackCausal(f: Firmware, g: Firmware, b: Bank, list: seq<nat>, k: nat, n: nat)
    requires k <= |list| && Names(list, |b.res|) && Agree(f, g, n)
    ensures |b.log| <= |DropBack(f, b, list, k).log|
    ensures |DropBack(f, b, list, k).log| <= n ==> DropBack(g, b, list, k) == DropBack(f, b, list, k)
    decreases k
  {
    if k > 0 { DropBackCausal(f, g, PowerOff(f, b, list[k - 1]).0, list, k - 1, n); }
  }

  lemma {:induction false} OffSweepCausal(f: Firmware, g: Firmware, b: Bank, list: seq<nat>, k: nat, n: nat)
    requires k <= |list| && Names(list, |b.res|) && Agree(f, g, n)
    ensures |b.log| <= |OffSweep(f, b, list, k).0.log|
    ensures |OffSweep(f, b, list, k).0.log| <= n ==> OffSweep(g, b, list, k) == OffSweep(f, b, list, k)
    decreases k
  {
    if k > 0 {
      var (b1, ok) := PowerOff(f, b, list[k - 1]);
      if ok { OffSweepCausal(f, g, b1, list, k - 1, n); }
    }
  }

  lemma {:induction false} TakeBackCausal(f: Firmware, g: Firmware, b: Bank, list: seq<nat>, i: nat, n: nat)
    requires i <= |list| && Names(list, |b.res|) && Agree(f, g, n)
    ensures |b.log| <= |TakeBack(f, b, list, i).log|
    ensures |TakeBack(f, b, list, i).log| <= n ==> TakeBack(g, b, list, i) == TakeBack(f, b, list, i)
    decreases |list| - i
  {
    if i < |list| { TakeBackCausal(f, g, PowerOn(f, b, list[i]).0, list, i + 1, n); }
  }

  lemma OnListCausal(f: Firmware, g: Firmware, b: Bank, list: seq<nat>, n: nat)
    requires Names(list, |b.res|) && Agree(f, g, n)
    ensures |b.log| <= |OnList(f, b, list).0.log|
    ensures |OnList(f, b, list).0.log| <= n ==> OnList(g, b, list) == OnList(f, b, list)
  {
    var (b1, k) := OnSweep(f, b, list, 0);
    OnSweepCausal(f, g, b, list, 0, n);
    DropBackCausal(f, g, b1, list, k, n);
  }

  lemma OffListCausal(f: Firmware, g: Firmware, b: Bank, list: seq<nat>, n: nat)
    requires Names(list, |b.res|) && Agree(f, g, n)
    ensures |b.log| <= |OffList(f, b, list).0.log|
    ensures |OffList(f, b, list).0.log| <= n ==> OffList(g, b, list) == OffList(f, b, list)
  {
    var (b1, k) := OffSweep(f, b, list, |list|);
    OffSweepCausal(f, g, b, list, |list|, n);
    TakeBackCausal(f, g, b1, list, k, n);
  }

  lemma ExchangeCausal(f: Firmware, g: Firmware, b: Bank, take: seq<nat>, drop: seq<nat>, n: nat)
    requires Names(take, |b.res|) && Names(drop, |b.res|) && Agree(f, g, n)
    ensures |b.log| <= |Exchange(f, b, take, drop).0.log|
    ensures |Exchange(f, b, take, drop).0.log| <= n ==> Exchange(g, b, take, drop) == Exchange(f, b, take, drop)
  {
    OnListCausal(f, g, b, take, n);
    OffListCausal(f, g, OnList(f, b, take).0, drop, n);
  }

  lemma TransitionCausal(f: Firmware, g: Firmware, p: Platform, d: nat, state: int, n: nat)
    requires Good(p) && d < |p.devs| && Agree(f, g, n)
    ensures |p.bank.log| <= |Transition(f, p, d, state).0.bank.log|
    ensures |Transition(f, p, d, state).0.bank.log| <= n ==> Transition(g, p, d, state) == Transition(f, p, d, state)
  {
    var dev := p.devs[d];
    if D0 <= state <= D3_COLD { ExchangeCausal(f, g, p.bank, ListOf(dev.cfg, state), ListOf(dev.cfg, dev.state), n); }
  }

  lemma SettleCausal(f: Firmware, g: Firmware, p: Platform, d: nat, state: nat, n: nat)
    requires Good(p) && d < |p.devs| && state <= D3_COLD && Agree(f, g, n)
    ensures |p.bank.log| <= |Settle(f, p, d, state).0.bank.log|
    ensures |Settle(f, p, d, state).0.bank.log| <= n ==> Settle(g, p, d, state) == Settle(f, p, d, state)
  {
  }

  lemma EnterCausal(f: Firmware, g: Firmware, p: Platform, d: nat, state: nat, n: nat)
    requires Good(p) && d < |p.devs| && state <= D3_COLD && Agree(f, g, n)
    ensures |p.bank.log| <= |Enter(f, p, d, state).0.bank.log|
    ensures |Enter(f, p, d, state).0.bank.log| <= n ==> Enter(g, p, d, state) == Enter(f, p, d, state)
  {
    TransitionCausal(f, g, p, d, state, n);
    var p1 := if p.devs[d].cfg.powerResources then Transition(f, p, d, state).0 else p;
    SettleCausal(f, g, p1, d, state, n);
  }

  /** A call depends only on the answers it gets. */
  lemma SetPowerCausal(f: Firmware, g: Firmware, p: Platform, d: nat, target: int, n: nat)
    requires Good(p) && d < |p.devs| && Agree(f, g, n)
    ensures |p.bank.log| <= |SetPower(f, p, d, target).0.bank.log|
    ensures |SetPower(f, p, d, target).0.bank.log| <= n ==> SetPower(g, p, d, target) == SetPower(f, p, d, target)
  {
    if Objection(p, d, target).None? {
      var state := FirstState(p.devs[d].cfg, target);
      EnterCausal(f, g, p, d, state, n);
      TransitionCausal(f, g, Enter(f, p, d, state).0, d, D3_COLD, n);
    }
  }

  // ---------------------------------------------------------------- one failure

  lemma SetSafe(fw: Firmware, p: Platform, d: nat, target: int)
    requires Good(p) && Safe(p) && d < |p.devs|
    ensures Safe(SetPower(fw, p, d, target).0)
  {
    var p1 := SetPower(fw, p, d, target).0;
    forall r | 0 <= r < |p.bank.res| ensures Slack(p1, r) >= 0 && Live(p1.bank, r) {
      assert Slack(p, r) >= 0 && Live(p.bank, r);
      SetPowerLaw(fw, p, d, target, r);
    }
  }

  /** Entries already in use are taken without an evaluation. */
  lemma {:induction false} TakesCounted(fw: Firmware, b: Bank, list: seq<nat>, i: nat, j: nat) returns (b1: Bank)
    requires i <= j < |list| && Names(list, |b.res|) && b.res[list[j]].refCount == 0
    requires forall k :: i <= k < j ==> b.res[list[k]].refCount > 0
    ensures |b1.res| == |b.res| && |b1.log| == |b.log| + (j - i) && b1.res[list[j]] == b.res[list[j]]
    ensures OnSweep(fw, b, list, i) == OnSweep(fw, b1, list, j)
    decreases j - i
  {
    if i == j {
      b1 := b;
    } else {
      var b0 := PowerOn(fw, b, list[i]).0;
      b1 := TakesCounted(fw, b0, list, i + 1, j);
    }
  }

  lemma {:induction false} DropBackLowers(fw: Firmware, b: Bank, list: seq<nat>, k: nat, r: nat)
    requires k <= |list| && Names(list, |b.res|) && r < |b.res|
    ensures DropBack(fw, b, list, k).res[r].refCount <= b.res[r].refCount && |b.log| <= |DropBack(fw, b, list, k).log|
    decreases k
  {
    if k > 0 { DropBackLowers(fw, PowerOff(fw, b, list[k - 1]).0, list, k - 1, r); }
  }

  /** The first entry that is off fails to go on. */
  lemma ListFailsAt(fw: Firmware, b: Bank, list: seq<nat>, j: nat)
    requires j < |list| && Names(list, |b.res|) && b.res[list[j]].refCount == 0
    requires (forall k :: 0 <= k < j ==> b.res[list[k]].refCount > 0) && !fw.succeeds(|b.log| + j + 1)
    ensures var (b1, ok) := OnList(fw, b, list);
            !ok && b1.res[list[j]].refCount == 0 && |b1.log| >= |b.log| + j + 3
  {
    var b0 := TakesCounted(fw, b, list, 0, j);
    var b2 := PowerOn(fw, b0, list[j]).0;
    assert OnSweep(fw, b0, list, j) == (b2, j);
    DropBackLowers(fw, b2, list, j, list[j]);
  }

  /** Setting a cold device to D0 when that happens: it becomes unknown, and the resource that failed is not counted. */
  lemma SetFailsAt(fw: Firmware, p: Platform, q: nat, j: nat)
    requires Good(p) && q < |p.devs| && p.devs[q].state == D3_COLD && Objection(p, q, D0).None?
    requires var list := p.devs[q].cfg.lists[D0];
             && j < |list| && Names(list, |p.bank.res|) && p.bank.res[list[j]].refCount == 0
             && (forall k :: 0 <= k < j ==> p.bank.res[list[k]].refCount > 0) && !fw.succeeds(|p.bank.log| + j + 1)
    ensures var p1 := SetPower(fw, p, q, D0).0;
            && p1.devs == p.devs[q := p.devs[q].(state := UNKNOWN)]
            && p1.bank.res[p.devs[q].cfg.lists[D0][j]].refCount == 0 && |p1.bank.log| >= |p.bank.log| + j + 3
  {
    ListFailsAt(fw, p.bank, p.devs[q].cfg.lists[D0], j);
  }

  lemma FirstOff(b: Bank, list: seq<nat>, x: nat) returns (j: nat)
    requires Names(list, |b.res|) && x in list && b.res[x].refCount == 0
    ensures j < |list| && b.res[list[j]].refCount == 0 && forall k :: 0 <= k < j ==> b.res[list[k]].refCount > 0
  {
    j := 0;
    while b.res[list[j]].refCount > 0
      invariant j < |list| && forall k :: 0 <= k < j ==> b.res[list[k]].refCount > 0
      invariant exists i :: j <= i < |list| && list[i] == x
      decreases |list| - j
    {
      var i :| j <= i < |list| && list[i] == x;
      assert i != j;
      j := j + 1;
    }
  }

  /** A root that can be powered up and down. */
  predicate Root(devs: seq<Device>, q: nat) {
    && q < |devs| && devs[q].cfg.parent == None && devs[q].cfg.manageable
    && |devs[q].cfg.valid| == 5 && devs[q].cfg.valid[D0] && devs[q].cfg.valid[D3_COLD]
  }

  lemma NotCounted(p: Platform, r: nat)
    requires Good(p) && r < |p.bank.res| && p.bank.res[r].refCount == 0
    ensures Slack(p, r) <= 0
  {
  }

  // ------------------------------------------------------------- breaking runs

  lemma RunTwo(fw: Firmware, p: Platform, es: seq<Event>)
    requires Good(p) && |es| == 2
    ensures Run(fw, p, es) == Step(fw, Step(fw, p, es[0]), es[1])
  {
    assert es[1..] == [es[1]] && es[1..][1..] == [];
    assert Run(fw, p, es) == Run(fw, Step(fw, p, es[0]), [es[1]]);
  }

  lemma RunSplit(fw: Firmware, p: Platform, e: Event, es: seq<Event>)
    requires Good(p)
    ensures Run(fw, p, [e] + es) == Run(fw, Step(fw, p, e), es)
  {
    assert ([e] + es)[1..] == es;
  }

  /** A child without power resources: its _PSC may report D0 at any time. */
  lemma LoneChildBreaks(devs: seq<Device>, n: nat, d: nat, q: nat) returns (fw: Firmware, es: seq<Event>)
    requires Described(devs, n) && Pair(devs, d, q) && Root(devs, q) && !devs[d].cfg.powerResources
    ensures Calls(es) && Good(Cold(devs, n)) && !Safe(Run(fw, Cold(devs, n), es))
  {
    fw, es := Firmware(i => i != 1, _ => D0), [DoSet(q, D0), DoGet(d)];
    var p0 := Cold(devs, n);
    ColdIsEven(devs, n);
    assert Names(p0.devs[q].cfg.lists[D0], n);
    SetFailsAt(fw, p0, q, 0);
    var p1 := Step(fw, p0, es[0]);
    NotCounted(p1, Key(devs, q));
    ReadBreaks(fw, p1, d, q, Key(devs, q));
    RunTwo(fw, p0, es);
  }

  /** One call without failures. */
  lemma Reliably(fw: Firmware, p: Platform, d: nat, target: nat, j: nat, x: nat)
    requires Good(p) && Safe(p) && Reliable(fw) && d < |p.devs| && j < |p.devs| && d != j && x < |p.bank.res|
    requires Objection(p, d, target).None? && p.devs[d].state <= D3_COLD && p.devs[d].cfg.manageable && p.devs[d].cfg.powerResources
    ensures var p1 := SetPower(fw, p, d, target).0;
            && Safe(p1) && p1.devs[d] == p.devs[d].(state := target) && p1.devs[j] == p.devs[j]
            && p1.bank.res[x].refCount == p.bank.res[x].refCount - Uses(p.devs[d], x) + Uses(p1.devs[d], x)
  {
    SetPowerReaches(fw, p, d, target, x);
    SetPowerKeeps(fw, p, d, target, j);
    SetSafe(fw, p, d, target);
  }

  /** The platform after both have been powered up and the parent down again, all without failures. */
  lemma ParentDownAgain(fw: Firmware, p: Platform, d: nat, q: nat, x: nat) returns (p1: Platform, p2: Platform, p3: Platform)
    requires Good(p) && Safe(p) && Reliable(fw) && Pair(p.devs, d, q) && Root(p.devs, q) && d != q
    requires p.devs[d].cfg.powerResources && p.devs[d].cfg.valid[D0] && p.devs[q].state == p.devs[d].state == D3_COLD
    requires x !in p.devs[d].cfg.lists[D0] && x < |p.bank.res| && p.bank.res[x].refCount == 0
    ensures Good(p1) && Good(p2) && Good(p3) && Same(p, p3) && |p1.devs| == |p2.devs| == |p.devs|
    ensures p1 == SetPower(fw, p, q, D0).0 && p2 == SetPower(fw, p1, d, D0).0 && p3 == SetPower(fw, p2, q, D3_COLD).0
    ensures Safe(p3) && p3.devs[q].state == D3_COLD && p3.devs[d].state == D0 && p3.bank.res[x].refCount == 0
  {
    p1 := SetPower(fw, p, q, D0).0;
    Reliably(fw, p, q, D0, d, x);
    p2 := SetPower(fw, p1, d, D0).0;
    Reliably(fw, p1, d, D0, q, x);
    UsesListed(p2.devs[d], x);
    p3 := SetPower(fw, p2, q, D3_COLD).0;
    Reliably(fw, p2, q, D3_COLD, d, x);
  }

  /** The last two calls: the parent fails to go up again, and the child is read. */
  lemma FailThenRead(fw: Firmware, p: Platform, d: nat, q: nat, j: nat)
    requires Good(p) && Safe(p) && d < |p.devs| && q < |p.devs| && d != q && p.devs[d].cfg.parent == Some(q)
    requires CanReportD0(p.devs[d].cfg) && p.devs[d].cfg.powerResources && p.devs[d].state == D0
    requires p.devs[q].state == D3_COLD && Objection(p, q, D0).None? && Agreeable(fw, |p.bank.log| + j + 2)
    requires var list := p.devs[q].cfg.lists[D0];
             && j < |list| && Names(list, |p.bank.res|) && p.bank.res[list[j]].refCount == 0
             && (forall k :: 0 <= k < j ==> p.bank.res[list[k]].refCount > 0) && !fw.succeeds(|p.bank.log| + j + 1)
    ensures !Safe(Step(fw, Step(fw, p, DoSet(q, D0)), DoGet(d)))
  {
    var x := p.devs[q].cfg.lists[D0][j];
    SetFailsAt(fw, p, q, j);
    SetSafe(fw, p, q, D0);
    var p1 := Step(fw, p, DoSet(q, D0));
    ListOn(p1, d);
    NotCounted(p1, x);
    ReadBreaks(fw, p1, d, q, x);
  }

  /** Three steps known one by one, and two more. */
  lemma RunVia(fw: Firmware, p: Platform, p1: Platform, p2: Platform, p3: Platform, es: seq<Event>)
    requires Good(p) && Good(p1) && Good(p2) && Good(p3) && |es| == 5
    requires Step(fw, p, es[0]) == p1 && Step(fw, p1, es[1]) == p2 && Step(fw, p2, es[2]) == p3
    ensures Run(fw, p, es) == Step(fw, Step(fw, p3, es[3]), es[4])
  {
    assert es == [es[0]] + es[1..] && es[1..] == [es[1]] + es[2..] && es[2..] == [es[2]] + es[3..];
    RunSplit(fw, p, es[0], es[1..]);
    RunSplit(fw, p1, es[1], es[2..]);
    RunSplit(fw, p2, es[2], es[3..]);
    RunTwo(fw, p3, es[3..]);
  }

  /** Firmware that fails once, later, takes the same three steps. */
  lemma SameThree(f: Firmware, g: Firmware, p: Platform, p1: Platform, p2: Platform, p3: Platform, d: nat, q: nat)
    requires Good(p) && Good(p1) && Good(p2) && d < |p.devs| == |p1.devs| == |p2.devs| && q < |p.devs|
    requires p1 == SetPower(f, p, q, D0).0 && p2 == SetPower(f, p1, d, D0).0 && p3 == SetPower(f, p2, q, D3_COLD).0
    requires Agree(f, g, |p3.bank.log|)
    ensures p1 == SetPower(g, p, q, D0).0 && p2 == SetPower(g, p1, d, D0).0 && p3 == SetPower(g, p2, q, D3_COLD).0
  {
    SetPowerCausal(f, g, p2, q, D3_COLD, |p3.bank.log|);
    SetPowerCausal(f, g, p1, d, D0, |p3.bank.log|);
    SetPowerCausal(f, g, p, q, D0, |p3.bank.log|);
  }

  lemma SameRun(f: Firmware, g: Firmware, p: Platform, p1: Platform, p2: Platform, p3: Platform, d: nat, q: nat, es: seq<Event>)
    requires Good(p) && Good(p1) && Good(p2) && Good(p3) && d < |p.devs| == |p1.devs| == |p2.devs| && q < |p.devs|
    requires p1 == SetPower(f, p, q, D0).0 && p2 == SetPower(f, p1, d, D0).0 && p3 == SetPower(f, p2, q, D3_COLD).0
    requires Agree(f, g, |p3.bank.log|)
    requires |es| == 5 && es[0] == DoSet(q, D0) && es[1] == DoSet(d, D0) && es[2] == DoSet(q, D3_COLD)
    ensures Run(g, p, es) == Step(g, Step(g, p3, es[3]), es[4])
  {
    SameThree(f, g, p, p1, p2, p3, d, q);
    RunVia(g, p, p1, p2, p3, es);
  }

  /** Firmware that fails just once: at the first `_ON` of the parent's next power-up. */
  lemma FailingOnce(p: Platform, d: nat, q: nat, x: nat) returns (fw: Firmware)
    requires Good(p) && Safe(p) && Pair(p.devs, d, q) && Root(p.devs, q) && d != q && p.devs[q].state == D3_COLD
    requires p.devs[d].state == D0 && p.devs[d].cfg.powerResources
    requires x in p.devs[q].cfg.lists[D0] && x < |p.bank.res| && p.bank.res[x].refCount == 0
    ensures (forall i :: 0 <= i < |p.bank.log| ==> fw.succeeds(i)) && !Safe(Step(fw, Step(fw, p, DoSet(q, D0)), DoGet(d)))
  {
    assert Names(p.devs[q].cfg.lists[D0], |p.bank.res|);
    var j := FirstOff(p.bank, p.devs[q].cfg.lists[D0], x);
    var m := |p.bank.log|;
    fw := Firmware(i => i != m + j + 1, _ => D0);
    FailThenRead(fw, p, d, q, j);
  }

  /** A parent that needs in D0 a resource its child does not: the child is up, the parent goes down and fails to come up again. */
  lemma MissingBreaks(devs: seq<Device>, n: nat, d: nat, q: nat, x: nat) returns (fw: Firmware, es: seq<Event>)
    requires Described(devs, n) && Pair(devs, d, q) && Root(devs, q) && d != q
    requires devs[d].cfg.powerResources && devs[d].cfg.valid[D0]
    requires x in devs[q].cfg.lists[D0] && x !in devs[d].cfg.lists[D0]
    ensures Calls(es) && Good(Cold(devs, n)) && !Safe(Run(fw, Cold(devs, n), es))
  {
    ColdIsEven(devs, n);
    assert Names(devs[q].cfg.lists[D0], n);
    es := DownAndUpAgain(d, q);
    fw := MissingRun(Cold(devs, n), d, q, x, es);
  }

  lemma DownAndUpAgain(d: nat, q: nat) returns (es: seq<Event>)
    ensures Calls(es) && |es| == 5 && es[0] == DoSet(q, D0) && es[1] == DoSet(d, D0) && es[2] == DoSet(q, D3_COLD)
    ensures es[3] == DoSet(q, D0) && es[4] == DoGet(d)
  {
    es := [DoSet(q, D0), DoSet(d, D0), DoSet(q, D3_COLD), DoSet(q, D0), DoGet(d)];
  }

  lemma MissingRun(p: Platform, d: nat, q: nat, x: nat, es: seq<Event>) returns (fw: Firmware)
    requires |es| == 5 && es[0] == DoSet(q, D0) && es[1] == DoSet(d, D0) && es[2] == DoSet(q, D3_COLD)
    requires es[3] == DoSet(q, D0) && es[4] == DoGet(d)
    requires Good(p) && Safe(p) && Pair(p.devs, d, q) && Root(p.devs, q) && d != q
    requires p.devs[d].cfg.powerResources && p.devs[d].cfg.valid[D0] && p.devs[q].state == p.devs[d].state == D3_COLD
    requires x in p.devs[q].cfg.lists[D0] && x !in p.devs[d].cfg.lists[D0] && x < |p.bank.res| && p.bank.res[x].refCount == 0
    ensures !Safe(Run(fw, p, es))
  {
    var f := Firmware(_ => true, _ => D0);
    var p1, p2, p3 := ParentDownAgain(f, p, d, q, x);
    fw := FailingOnce(p3, d, q, x);
    SameRun(f, fw, p, p1, p2, p3, d, q, es);
  }

  // ---------------------------------------------------------------- an outsider

  lemma SetFirstOnFails(fw: Firmware, p: Platform, q: nat)
    requires Good(p) && Even(p) && q < |p.devs| && p.devs[q].state == D3_COLD && p.devs[q].cfg.lists[D0] != []
    requires Objection(p, q, D0).None? && p.bank.res[p.devs[q].cfg.lists[D0][0]].refCount == 0 && !fw.succeeds(|p.bank.log| + 1)
    ensures var p1 := Step(fw, p, DoSet(q, D0));
            && p1.bank.res == p.bank.res && |p1.bank.log| == |p.bank.log| + 3
            && p1.devs == p.devs[q := p.devs[q].(state := UNKNOWN)] && Even(p1)
  {
    FirstOnFails(fw, p, q);
    assert Step(fw, p, DoSet(q, D0)) == Step(fw, p, DoTransition(q, D0));
  }

  /** Powering up a cold device without failures, by a call. */
  lemma SetsUp(fw: Firmware, p: Platform, d: nat)
    requires Good(p) && Even(p) && Safe(p) && d < |p.devs| && p.devs[d].state == D3_COLD && p.devs[d].cfg.manageable
    requires Objection(p, d, D0).None? && ReliableFrom(fw, |p.bank.log|)
    ensures var p1 := Step(fw, p, DoSet(d, D0));
            && p1.devs == p.devs[d := p.devs[d].(state := D0)] && |p.bank.log| <= |p1.bank.log|
            && Even(p1) && Safe(p1)
  {
    PowersUp(fw, p, d);
    var p0 := if p.devs[d].cfg.powerResources then Transition(fw, p, d, D0).0 else p;
    var p1 := Step(fw, p, DoSet(d, D0));
    assert p1 == Settle(fw, p0, d, D0).0;
    forall r | 0 <= r < |p.bank.res| ensures Slack(p1, r) == 0 && Live(p1.bank, r) {
      assert Slack(p0, r) == 0 && Live(p0.bank, r);
      SettleLaw(fw, p0, d, D0, r);
    }
  }

  /** Nobody but `q` is unknown, and the books are even. */
  predicate Waiting(p: Platform, devs: seq<Device>, n: nat, q: nat)
  {
    && Good(p) && Even(p) && Safe(p) && |p.bank.res| == n && |p.devs| == |devs| && q < |devs|
    && p.devs[q].state == UNKNOWN && forall i :: 0 <= i < |devs| ==> p.devs[i].cfg == devs[i].cfg
  }

  lemma UpWhileWaiting(fw: Firmware, p: Platform, devs: seq<Device>, n: nat, q: nat, e: nat)
    requires Waiting(p, devs, n, q) && e < |devs| && e != q && p.devs[e].state == D3_COLD && devs[e].cfg.manageable
    requires Objection(p, e, D0).None? && ReliableFrom(fw, |p.bank.log|)
    ensures var p1 := Step(fw, p, DoSet(e, D0));
            Waiting(p1, devs, n, q) && p1.devs == p.devs[e := p.devs[e].(state := D0)] && |p.bank.log| <= |p1.bank.log|
  {
    SetsUp(fw, p, e);
  }

  lemma OutsiderReads(fw: Firmware, p: Platform, devs: seq<Device>, n: nat, d: nat, q: nat, e: nat)
    requires Described(devs, n) && Pair(devs, d, q) && Waiting(p, devs, n, q) && e < |devs| && p.devs[e].state == D0
    requires devs[d].cfg.powerResources && (forall y :: y in devs[d].cfg.lists[D0] ==> y in devs[e].cfg.lists[D0])
    requires Agreeable(fw, |p.bank.log|)
    ensures !Safe(Step(fw, p, DoGet(d)))
  {
    var list := p.devs[d].cfg.lists[D0];
    forall j | 0 <= j < |list| ensures p.bank.res[list[j]].on {
      assert list[j] in devs[d].cfg.lists[D0];
      InUseIsOn(p, e, list[j]);
    }
    var x := Key(devs, q);
    assert Names(p.devs[q].cfg.lists[D0], n);
    assert Slack(p, x) == 0;
    ReadBreaks(fw, p, d, q, x);
  }

  /** A device outside the family that can power all the child needs while the parent is unknown. */
  predicate Outsider(devs: seq<Device>, d: nat, q: nat, e: nat)
    requires d < |devs| && Listed(devs)
  {
    && e < |devs| && e != q && devs[e].cfg.parent != Some(q) && devs[e].cfg.manageable
    && |devs[e].cfg.valid| == 5 && devs[e].cfg.valid[D0]
    && (devs[e].cfg.parent.Some? ==> Root(devs, devs[e].cfg.parent.value) && devs[e].cfg.parent.value != e)
    && forall y :: y in devs[d].cfg.lists[D0] ==> y in devs[e].cfg.lists[D0]
  }

  /** The parent fails to go up from a cold start. */
  lemma ParentFails(fw: Firmware, devs: seq<Device>, n: nat, q: nat) returns (p1: Platform)
    requires Described(devs, n) && Root(devs, q) && devs[q].cfg.lists[D0] != [] && !fw.succeeds(1)
    ensures Good(Cold(devs, n)) && p1 == Step(fw, Cold(devs, n), DoSet(q, D0)) && |p1.bank.log| == 3
    ensures Waiting(p1, devs, n, q) && forall i :: 0 <= i < |devs| && i != q ==> p1.devs[i] == devs[i].(state := D3_COLD)
  {
    var p0 := Cold(devs, n);
    ColdIsEven(devs, n);
    assert Names(p0.devs[q].cfg.lists[D0], n);
    SetFirstOnFails(fw, p0, q);
    p1 := Step(fw, p0, DoSet(q, D0));
  }

  lemma RunThree(fw: Firmware, p: Platform, p1: Platform, es: seq<Event>)
    requires Good(p) && Good(p1) && |es| == 3 && Step(fw, p, es[0]) == p1
    ensures Run(fw, p, es) == Step(fw, Step(fw, p1, es[1]), es[2])
  {
    assert es == [es[0]] + es[1..];
    RunSplit(fw, p, es[0], es[1..]);
    RunTwo(fw, p1, es[1..]);
  }

  lemma RunFour(fw: Firmware, p: Platform, p1: Platform, p2: Platform, es: seq<Event>)
    requires Good(p) && Good(p1) && Good(p2) && |es| == 4
    requires Step(fw, p, es[0]) == p1 && Step(fw, p1, es[1]) == p2
    ensures Run(fw, p, es) == Step(fw, Step(fw, p2, es[2]), es[3])
  {
    assert es == [es[0]] + es[1..];
    RunSplit(fw, p, es[0], es[1..]);
    RunThree(fw, p1, p2, es[1..]);
  }

  /** While the parent is unknown the outsider, whose own parent, if any, is up, goes up and the child is read. */
  lemma OutsiderUpThenRead(fw: Firmware, p: Platform, devs: seq<Device>, n: nat, d: nat, q: nat, e: nat)
    requires Described(devs, n) && Pair(devs, d, q) && Outsider(devs, d, q, e)
    requires Waiting(p, devs, n, q) && p.devs[e].state == D3_COLD
    requires devs[e].cfg.parent.Some? ==> p.devs[devs[e].cfg.parent.value].state == D0
    requires devs[d].cfg.powerResources && Agreeable(fw, |p.bank.log|)
    ensures !Safe(Step(fw, Step(fw, p, DoSet(e, D0)), DoGet(d)))
  {
    UpWhileWaiting(fw, p, devs, n, q, e);
    OutsiderReads(fw, Step(fw, p, DoSet(e, D0)), devs, n, d, q, e);
  }

  lemma RootOutsiderBreaks(fw: Firmware, devs: seq<Device>, n: nat, d: nat, q: nat, e: nat, es: seq<Event>)
    requires Described(devs, n) && Pair(devs, d, q) && Root(devs, q) && devs[d].cfg.powerResources && Outsider(devs, d, q, e)
    requires devs[e].cfg.parent == None && !fw.succeeds(1) && Agreeable(fw, 2)
    requires |es| == 3 && es[0] == DoSet(q, D0) && es[1] == DoSet(e, D0) && es[2] == DoGet(d)
    ensures Good(Cold(devs, n)) && !Safe(Run(fw, Cold(devs, n), es))
  {
    var p1 := ParentFails(fw, devs, n, q);
    OutsiderUpThenRead(fw, p1, devs, n, d, q, e);
    RunThree(fw, Cold(devs, n), p1, es);
  }

  lemma ChildOutsiderBreaks(fw: Firmware, devs: seq<Device>, n: nat, d: nat, q: nat, e: nat, r: nat, es: seq<Event>)
    requires Described(devs, n) && Pair(devs, d, q) && Root(devs, q) && devs[d].cfg.powerResources && Outsider(devs, d, q, e)
    requires devs[e].cfg.parent == Some(r) && !fw.succeeds(1) && Agreeable(fw, 2)
    requires |es| == 4 && es[0] == DoSet(q, D0) && es[1] == DoSet(r, D0) && es[2] == DoSet(e, D0) && es[3] == DoGet(d)
    ensures Good(Cold(devs, n)) && !Safe(Run(fw, Cold(devs, n), es))
  {
    var p1 := ParentFails(fw, devs, n, q);
    UpWhileWaiting(fw, p1, devs, n, q, r);
    var p2 := Step(fw, p1, es[1]);
    OutsiderUpThenRead(fw, p2, devs, n, d, q, e);
    RunFour(fw, Cold(devs, n), p1, p2, es);
  }

  /** Calls that put devices into D0 one after the other and then ask for the state of `d`. */
  lemma UpAndRead(up: seq<nat>, d: nat) returns (es: seq<Event>)
    ensures Calls(es) && |es| == |up| + 1 && es[|up|] == DoGet(d)
    ensures forall i :: 0 <= i < |up| ==> es[i] == DoSet(up[i], D0)
  {
    es := seq(|up|, i requires 0 <= i < |up| => DoSet(up[i], D0)) + [DoGet(d)];
  }

  lemma OutsiderBreaks(devs: seq<Device>, n: nat, d: nat, q: nat, e: nat) returns (fw: Firmware, es: seq<Event>)
    requires Described(devs, n) && Pair(devs, d, q) && Root(devs, q) && devs[d].cfg.powerResources && Outsider(devs, d, q, e)
    ensures Calls(es) && Good(Cold(devs, n)) && !Safe(Run(fw, Cold(devs, n), es))
  {
    fw := Firmware(i => i != 1, _ => D0);
    if devs[e].cfg.parent == None {
      es := UpAndRead([q, e], d);
      RootOutsiderBreaks(fw, devs, n, d, q, e, es);
    } else {
      var r := devs[e].cfg.parent.value;
      es := UpAndRead([q, r, e], d);
      ChildOutsiderBreaks(fw, devs, n, d, q, e, r, es);
    }
  }

  // ---------------------------------------------------------- an exact condition

  /** One resource per device: only D0 needs it, no wakeup resources, families of two generations. */
  predicate Plain(c: Config)
    requires |c.lists| == 4 && |c.valid| == 5
  {
    && c.manageable && c.valid[D0] && c.valid[D3_COLD] && c.wakeList == []
    && c.lists[1] == [] && c.lists[2] == [] && c.lists[3] == []
    && (c.lists[D0] != [] ==> OnlyOf(c.lists[D0], c.lists[D0][0]))
  }

  predicate Simple(devs: seq<Device>, n: nat)
    requires Described(devs, n)
  {
    && (forall d :: 0 <= d < |devs| ==> Plain(devs[d].cfg))
    && (forall d :: 0 <= d < |devs| && devs[d].cfg.parent.Some? ==> devs[devs[d].cfg.parent.value].cfg.parent == None)
  }

  lemma ColdIsCalm(devs: seq<Device>, n: nat)
    requires Described(devs, n)
    ensures Good(Cold(devs, n)) && Calm(Cold(devs, n)) && (Sheltered(devs) ==> Sheltered(Cold(devs, n).devs))
  {
    var p := Cold(devs, n);
    ColdIsEven(devs, n);
    SamePairs(devs, p.devs);
    forall d: nat, q: nat | Pair(p.devs, d, q) ensures Quiet(p, q, Key(p.devs, q)) {
      assert Names(p.devs[q].cfg.lists[D0], n);
    }
  }

  lemma PlainLists(c: Config, x: nat)
    requires |c.lists| == 4 && |c.valid| == 5 && Plain(c)
    ensures x !in c.lists[D0] ==> NeedsNot(c, x)
    ensures OnlyOf(c.lists[D0], x) ==> forall s :: 0 <= s < 4 ==> OnlyOf(c.lists[s], x)
    ensures forall s :: 1 <= s < 4 ==> x !in c.lists[s]
  {
    assert forall s :: 1 <= s < 4 ==> c.lists[s] == [];
  }

  lemma SimpleOwn(devs: seq<Device>, n: nat, q: nat, x: nat)
    requires Described(devs, n) && Simple(devs, n) && q < |devs| && OnlyOf(devs[q].cfg.lists[D0], x)
    requires forall e :: 0 <= e < |devs| && e != q && devs[e].cfg.parent != Some(q) ==> x !in devs[e].cfg.lists[D0]
    ensures Own(devs, q, x)
  {
    forall e | 0 <= e < |devs|
      ensures x !in devs[e].cfg.wakeList && (x !in devs[e].cfg.lists[D0] ==> NeedsNot(devs[e].cfg, x))
      ensures forall s :: 1 <= s < 4 ==> x !in devs[e].cfg.lists[s]
    {
      assert Plain(devs[e].cfg);
      PlainLists(devs[e].cfg, x);
    }
    assert Plain(devs[q].cfg);
    PlainLists(devs[q].cfg, x);
  }

  /** On a simple platform every failure to shelter a parent is a run of calls that breaks the ledger. */
  lemma UnshelteredBreaks(devs: seq<Device>, n: nat) returns (fw: Firmware, es: seq<Event>)
    requires Described(devs, n) && Simple(devs, n) && !Sheltered(devs)
    ensures Calls(es) && Good(Cold(devs, n)) && !Safe(Run(fw, Cold(devs, n), es))
  {
    var d: nat, q: nat :| Pair(devs, d, q) && !(Own(devs, q, Key(devs, q)) && Key(devs, q) in devs[d].cfg.lists[D0]);
    var x := Key(devs, q);
    assert Plain(devs[q].cfg) && Plain(devs[d].cfg);
    assert Root(devs, q) && d != q;
    if !devs[d].cfg.powerResources {
      fw, es := LoneChildBreaks(devs, n, d, q);
    } else if x !in devs[d].cfg.lists[D0] {
      fw, es := MissingBreaks(devs, n, d, q, x);
    } else {
      if forall e :: 0 <= e < |devs| && e != q && devs[e].cfg.parent != Some(q) ==> x !in devs[e].cfg.lists[D0] {
        SimpleOwn(devs, n, q, x);
      }
      var e :| 0 <= e < |devs| && e != q && devs[e].cfg.parent != Some(q) && x in devs[e].cfg.lists[D0];
      assert Plain(devs[e].cfg);
      assert forall y :: y in devs[d].cfg.lists[D0] ==> y == x;
      if devs[e].cfg.parent.Some? { assert Plain(devs[devs[e].cfg.parent.value].cfg); }
      fw, es := OutsiderBreaks(devs, n, d, q, e);
    }
  }

  /** Every run of calls from a cold start is safe, whatever fails. */
  ghost predicate SafeForCalls(devs: seq<Device>, n: nat)
    requires Described(devs, n)
  {
    forall fw, es {:trigger Run(fw, Cold(devs, n), es)} ::
      Calls(es) ==> Good(Cold(devs, n)) && Safe(Run(fw, Cold(devs, n), es))
  }

  /** Sheltered devices are safe for all calls, on every platform. */
  lemma ShelteredIsSafe(devs: seq<Device>, n: nat)
    requires Described(devs, n) && Sheltered(devs)
    ensures SafeForCalls(devs, n)
  {
    ColdIsCalm(devs, n);
    forall fw, es | Calls(es) ensures Safe(Run(fw, Cold(devs, n), es)) { ShelteredRun(fw, Cold(devs, n), es); }
  }

  /**
    On a simple platform, drivers' calls from a cold start can break the ledger
    exactly when some parent that may be promoted is not sheltered: some child
    that may promote it does not need its resource in D0, or some device
    outside its family does.
    */
  lemma SafeForCallsExactlyWhenSheltered(devs: seq<Device>, n: nat)
    requires Described(devs, n) && Simple(devs, n)
    ensures Sheltered(devs) <==> SafeForCalls(devs, n)
  {
    if Sheltered(devs) {
      ShelteredIsSafe(devs, n);
    } else {
      var fw, es := UnshelteredBreaks(devs, n);
      ColdIsEven(devs, n);
    }
  }

  /** A parent and a child on one resource: not grounded, and yet safe for all calls. */
  lemma ShelteredNotGrounded(devs: seq<Device>)
    requires Described(devs, 1) && Simple(devs, 1) && |devs| == 2
    requires devs[0].cfg.lists[D0] == [0] && devs[1].cfg.lists[D0] == [0] && devs[0].cfg.parent == None && devs[1].cfg.parent == Some(0)
    ensures !Grounded(devs) && Sheltered(devs) && SafeForCalls(devs, 1)
  {
    assert CanReportD0(devs[1].cfg);
    assert Plain(devs[0].cfg) && Plain(devs[1].cfg);
    forall d: nat, q: nat | Pair(devs, d, q) ensures Own(devs, q, Key(devs, q)) && Key(devs, q) in devs[d].cfg.lists[D0] {
      assert d == 1 && q == 0;
      assert forall s :: 0 <= s < 4 ==> OnlyOf(devs[0].cfg.lists[s], 0);
    }
    ShelteredIsSafe(devs, 1);
  }
}
