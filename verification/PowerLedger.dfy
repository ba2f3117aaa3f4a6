/**
  The reference ledger of shared power resources over whole runs
  (drivers/acpi/power.c and drivers/acpi/device_pm.c).

  The slack of a resource is its reference count less what is accounted for:
  one for a wakeup mark, and one for each occurrence in the list of the
  current D-state of each device in D0..D3hot.  The ledger says that no slack
  is negative.
  */
module PowerLedger {
  import opened Wrappers
  import opened PowerResources
  import opened DevicePower

  function Uses(dev: Device, r: nat): nat
    requires |dev.cfg.lists| == 4
  {
    var list := ListOf(dev.cfg, dev.state);
    Occ(list, 0, |list|, r)
  }

  predicate Listed(devs: seq<Device>) {
    forall d :: 0 <= d < |devs| ==> |devs[d].cfg.lists| == 4
  }

  function Total(devs: seq<Device>, r: nat): nat
    requires Listed(devs)
  {
    if devs == [] then 0 else Uses(devs[0], r) + Total(devs[1..], r)
  }

  function Reserve(b: Bank, r: nat): int
    requires r < |b.res|
  {
    b.res[r].refCount - if b.res[r].wakeupEnabled then 1 else 0
  }

  function Slack(p: Platform, r: nat): int
    requires Good(p) && r < |p.bank.res|
  {
    Reserve(p.bank, r) - Total(p.devs, r)
  }

  /** The ledger: every use is counted, and what is counted is powered. */
  predicate Safe(p: Platform)
    requires Good(p)
  {
    forall r :: 0 <= r < |p.bank.res| ==> Slack(p, r) >= 0 && Live(p.bank, r)
  }

  lemma {:induction false} TotalUpdate(devs: seq<Device>, d: nat, dev: Device, r: nat)
    requires Listed(devs) && d < |devs| && |dev.cfg.lists| == 4
    ensures Total(devs[d := dev], r) == Total(devs, r) - Uses(devs[d], r) + Uses(dev, r)
    ensures Total(devs, r) >= Uses(devs[d], r)
  {
    if d == 0 {
      assert devs[0 := dev][1..] == devs[1..];
    } else {
      assert devs[d := dev][1..] == devs[1..][d - 1 := dev];
      TotalUpdate(devs[1..], d - 1, dev, r);
    }
  }

  // -------------------------------------------------------------- single steps

  /** One step, one resource: slack never shrinks, and with reliable firmware grows by exactly `gain`. */
  ghost predicate Fair(fw: Firmware, p: Platform, p1: Platform, r: nat, gain: nat)
    requires Good(p) && Good(p1) && Same(p, p1) && r < |p.bank.res|
  {
    && Live(p1.bank, r)
    && Slack(p1, r) >= Slack(p, r)
    && (Reliable(fw) ==> Slack(p1, r) == Slack(p, r) + gain)
  }

  /** What a new bank and a new recorded state of one device do to the slack. */
  lemma SlackAfter(p: Platform, b: Bank, d: nat, s: nat, r: nat)
    requires Good(p) && d < |p.devs| && |b.res| == |p.bank.res| && r < |b.res|
    ensures var p1 := WithState(WithBank(p, b), d, s);
            && Good(p1) && Same(p, p1)
            && Slack(p1, r) - Reserve(b, r) + Uses(p1.devs[d], r) == Slack(p, r) - Reserve(p.bank, r) + Uses(p.devs[d], r)
    ensures Slack(p, r) <= Reserve(p.bank, r) - Uses(p.devs[d], r)
  {
    TotalUpdate(p.devs, d, p.devs[d].(state := s), r);
  }

  lemma TransitionLaw(fw: Firmware, p: Platform, d: nat, state: int, r: nat)
    requires Good(p) && d < |p.devs| && r < |p.bank.res|
    requires Slack(p, r) >= 0 && Live(p.bank, r)
    ensures var (p1, st) := Transition(fw, p, d, state);
            && Fair(fw, p, p1, r, 0)
            && (st == Ok && p.devs[d].cfg.manageable ==> p1.devs[d].state == state)
            && p1.devs == p.devs[d := p.devs[d].(state := p1.devs[d].state)]
  {
    var dev := p.devs[d];
    if D0 <= state <= D3_COLD && dev.state != state && dev.cfg.manageable && dev.state <= D3_COLD {
      var (b1, ok) := Exchange(fw, p.bank, ListOf(dev.cfg, state), ListOf(dev.cfg, dev.state));
      ExchangeLaw(fw, p.bank, ListOf(dev.cfg, state), ListOf(dev.cfg, dev.state), r);
      TotalAtLeast(p.devs, d, r);
      if Reliable(fw) { ReliableExchange(fw, p.bank, ListOf(dev.cfg, state), ListOf(dev.cfg, dev.state), r); }
      SlackAfter(p, b1, d, if ok then state else UNKNOWN, r);
    }
  }

  lemma {:induction false} EnableSweepLaw(fw: Firmware, b: Bank, list: seq<nat>, i: nat, r: nat)
    requires i <= |list| && Names(list, |b.res|) && r < |b.res|
    ensures var b1 := EnableSweep(fw, b, list, i).0;
            Reserve(b1, r) == Reserve(b, r) && (Live(b, r) ==> Live(b1, r))
    decreases |list| - i
  {
    if i < |list| {
      if b.res[list[i]].wakeupEnabled {
        EnableSweepLaw(fw, b, list, i + 1, r);
      } else {
        var (b1, ok) := PowerOn(fw, b, list[i]);
        if ok { EnableSweepLaw(fw, Mark(b1, list[i], true), list, i + 1, r); }
      }
    }
  }

  lemma {:induction false} DisableSweepLaw(fw: Firmware, b: Bank, list: seq<nat>, i: nat, r: nat)
    requires i <= |list| && Names(list, |b.res|) && r < |b.res| && Reserve(b, r) >= 0
    ensures var b1 := DisableSweep(fw, b, list, i).0;
            Reserve(b1, r) == Reserve(b, r) && (Live(b, r) ==> Live(b1, r))
    decreases |list| - i
  {
    if i < |list| {
      if !b.res[list[i]].wakeupEnabled {
        DisableSweepLaw(fw, b, list, i + 1, r);
      } else {
        var (b1, ok) := PowerOff(fw, b, list[i]);
        if ok { DisableSweepLaw(fw, Mark(b1, list[i], false), list, i + 1, r); }
      }
    }
  }

  lemma {:induction false} WakeInitSweepLaw(fw: Firmware, b: Bank, list: seq<nat>, i: nat, r: nat)
    requires i <= |list| && Names(list, |b.res|) && r < |b.res|
    ensures var b1 := WakeInitSweep(fw, b, list, i).0;
            Reserve(b1, r) >= Reserve(b, r) && (Live(b, r) ==> Live(b1, r))
    decreases |list| - i
  {
    if i < |list| && fw.succeeds(|b.log|) {
      var q := list[i];
      var b1 := b.(log := b.log + [EvalSta(q, true)]);
      if !b.res[q].on {
        WakeInitSweepLaw(fw, b1, list, i + 1, r);
      } else {
        var n := b.res[q].refCount + 1;
        WakeInitSweepLaw(fw, Bank(b1.res[q := b.res[q].(refCount := n, wakeupEnabled := true)],
                                  b1.log + [Count(q, n)]), list, i + 1, r);
      }
    }
  }

  /** With reliable firmware, each entry found on is counted, but its mark accounts for one of them only. */
  lemma {:induction false} WakeInitGain(fw: Firmware, b: Bank, list: seq<nat>, i: nat, r: nat)
    requires i <= |list| && Names(list, |b.res|) && r < |b.res| && Reliable(fw)
    ensures Reserve(WakeInitSweep(fw, b, list, i).0, r) == Reserve(b, r) + WakeSurplus(b.res[r], Occ(list, i, |list|, r))
    decreases |list| - i
  {
    if i < |list| {
      var q := list[i];
      var b1 := b.(log := b.log + [EvalSta(q, true)]);
      if !b.res[q].on {
        WakeInitGain(fw, b1, list, i + 1, r);
      } else {
        var n := b.res[q].refCount + 1;
        WakeInitGain(fw, Bank(b1.res[q := b.res[q].(refCount := n, wakeupEnabled := true)],
                              b1.log + [Count(q, n)]), list, i + 1, r);
      }
    }
  }

  /** References that listing a resource `n` times for wakeup takes beyond the one its mark stands for. */
  function WakeSurplus(x: Resource, n: nat): nat {
    if x.on && n > 0 then (if x.wakeupEnabled then n else n - 1) else 0
  }

  /** Uses of a resource depend only on configurations and recorded states. */
  lemma {:induction false} TotalSame(devs: seq<Device>, devs1: seq<Device>, r: nat)
    requires Listed(devs) && Listed(devs1) && |devs| == |devs1|
    requires forall d :: 0 <= d < |devs| ==> devs1[d].cfg == devs[d].cfg && devs1[d].state == devs[d].state
    ensures Total(devs1, r) == Total(devs, r)
  {
    if devs != [] { TotalSame(devs[1..], devs1[1..], r); }
  }

  lemma EnableWakeupLaw(fw: Firmware, p: Platform, d: nat, r: nat)
    requires Good(p) && d < |p.devs| && r < |p.bank.res| && Live(p.bank, r)
    ensures Fair(fw, p, EnableWakeup(fw, p, d).0, r, 0)
  {
    EnableSweepLaw(fw, p.bank, p.devs[d].cfg.wakeList, 0, r);
    TotalSame(p.devs, EnableWakeup(fw, p, d).0.devs, r);
  }

  lemma DisableWakeupLaw(fw: Firmware, p: Platform, d: nat, r: nat)
    requires Good(p) && d < |p.devs| && r < |p.bank.res| && Live(p.bank, r) && Slack(p, r) >= 0
    ensures Fair(fw, p, DisableWakeup(fw, p, d).0, r, 0)
  {
    DisableSweepLaw(fw, Evaluate(fw, p.bank, SleepWake(d, false)).0, p.devs[d].cfg.wakeList, 0, r);
    TotalSame(p.devs, DisableWakeup(fw, p, d).0.devs, r);
  }

  // ---------------------------------------------------------------- promotion

  /** A device that can be found in D0 by its own evidence. */
  predicate CanReportD0(c: Config)
    requires |c.lists| == 4
  {
    c.manageable && if c.powerResources then c.lists[D0] != [] else c.explicitGet
  }

  /**
    No parent that reading a child's state may promote to D0 needs resources
    in D0: promotion records the state without taking the list.
    */
  predicate Grounded(devs: seq<Device>)
    requires Listed(devs)
  {
    forall d :: 0 <= d < |devs| && CanReportD0(devs[d].cfg) && devs[d].cfg.parent.Some? ==>
                  var q := devs[d].cfg.parent.value;
                  q < |devs| && devs[q].cfg.lists[D0] == []
  }

  /** Reading the state of `d` promotes no parent that needs resources in D0. */
  predicate Harmless(fw: Firmware, p: Platform, d: nat)
    requires Good(p) && d < |p.devs|
  {
    var c := p.devs[d].cfg;
    c.manageable && c.parent.Some? && p.devs[c.parent.value].state == UNKNOWN && GetPower(fw, p, d).1 == Some(D0) ==>
      p.devs[c.parent.value].cfg.lists[D0] == []
  }

  lemma OnlyReporters(fw: Firmware, p: Platform, d: nat)
    requires Good(p) && d < |p.devs| && p.devs[d].cfg.manageable && GetPower(fw, p, d).1 == Some(D0)
    ensures CanReportD0(p.devs[d].cfg)
  {
  }

  lemma GroundedIsHarmless(fw: Firmware, p: Platform, d: nat)
    requires Good(p) && Grounded(p.devs) && d < |p.devs|
    ensures Harmless(fw, p, d)
  {
    if p.devs[d].cfg.manageable && GetPower(fw, p, d).1 == Some(D0) { OnlyReporters(fw, p, d); }
  }

  lemma GetPowerLaw(fw: Firmware, p: Platform, d: nat, r: nat)
    requires Good(p) && d < |p.devs| && Harmless(fw, p, d) && r < |p.bank.res| && Live(p.bank, r)
    ensures var (p1, seen) := GetPower(fw, p, d);
            && Fair(fw, p, p1, r, 0)
            && p1.bank.res == p.bank.res
            && Uses(p1.devs[d], r) == Uses(p.devs[d], r)
            && (seen.Some? && p.devs[d].cfg.manageable && p.devs[d].cfg.powerResources ==> seen.value <= D3_COLD)
  {
    var (p1, seen) := GetPower(fw, p, d);
    var c := p.devs[d].cfg;
    if p1.devs != p.devs {
      SlackAfter(p, p1.bank, c.parent.value, D0, r);
    } else {
      assert p1 == WithBank(p, p1.bank);
    }
  }

  // -------------------------------------------------------------- device_pm.c

  /** Recording a state that needs the same resources changes no slack. */
  lemma RecordLaw(p: Platform, b: Bank, d: nat, s: nat, r: nat)
    requires Good(p) && d < |p.devs| && b.res == p.bank.res && r < |b.res|
    requires ListOf(p.devs[d].cfg, s) == ListOf(p.devs[d].cfg, p.devs[d].state)
    ensures var p1 := WithState(WithBank(p, b), d, s);
            Good(p1) && Same(p, p1) && Slack(p1, r) == Slack(p, r)
  {
    SlackAfter(p, b, d, s, r);
  }

  /** A device without power resources needs none in any state. */
  lemma Unlisted(p: Platform, d: nat, s: nat)
    requires Good(p) && d < |p.devs| && !(p.devs[d].cfg.manageable && p.devs[d].cfg.powerResources)
    ensures ListOf(p.devs[d].cfg, s) == []
  {
  }

  lemma SettleLaw(fw: Firmware, p: Platform, d: nat, state: nat, r: nat)
    requires Good(p) && d < |p.devs| && r < |p.bank.res| && state <= D3_COLD
    ensures var (p1, st) := Settle(fw, p, d, state);
            && p1.bank.res == p.bank.res
            && (Reliable(fw) ==> st == Ok)
            && Slack(p1, r) == Slack(p, r) + (if st == Ok then Uses(p.devs[d], r) - Uses(p1.devs[d], r) else 0)
            && (st == Ok ==> p1.devs[d] == p.devs[d].(state := state))
  {
    var (p1, ok) := ExplicitSet(fw, p, d, state);
    SlackAfter(p, p1.bank, d, state, r);
  }

  lemma EnterLaw(fw: Firmware, p: Platform, d: nat, state: nat, r: nat)
    requires Good(p) && d < |p.devs| && r < |p.bank.res| && state <= D3_COLD
    requires Slack(p, r) >= 0 && Live(p.bank, r)
    ensures Fair(fw, p, Enter(fw, p, d, state).0, r, 0)
  {
    var c := p.devs[d].cfg;
    var (p1, st) := if c.powerResources then Transition(fw, p, d, state) else (p, Ok);
    if c.powerResources { TransitionLaw(fw, p, d, state, r); }
    if st == Ok {
      SettleLaw(fw, p1, d, state, r);
      if !(c.manageable && c.powerResources) { Unlisted(p, d, state); Unlisted(p, d, p1.devs[d].state); }
    }
  }

  lemma CutPowerLaw(fw: Firmware, p: Platform, d: nat, r: nat)
    requires Good(p) && d < |p.devs| && r < |p.bank.res|
    requires Slack(p, r) >= 0 && Live(p.bank, r)
    ensures Fair(fw, p, CutPower(fw, p, d).0, r, 0)
  {
    TransitionLaw(fw, p, d, D3_COLD, r);
    var (p1, st) := Transition(fw, p, d, D3_COLD);
    if st == Ok { RecordLaw(p1, p1.bank, d, D3_COLD, r); }
  }

  lemma SetPowerLaw(fw: Firmware, p: Platform, d: nat, target: int, r: nat)
    requires Good(p) && d < |p.devs| && r < |p.bank.res|
    requires Slack(p, r) >= 0 && Live(p.bank, r)
    ensures Fair(fw, p, SetPower(fw, p, d, target).0, r, 0)
  {
    if Objection(p, d, target).None? {
      var state := FirstState(p.devs[d].cfg, target);
      var (p1, st) := Enter(fw, p, d, state);
      EnterLaw(fw, p, d, state, r);
      if st == Ok && state != target { CutPowerLaw(fw, p1, d, r); }
    }
  }

  /** Taking the list of a state for a device that holds nothing, and settling in it. */
  lemma TakeLaw(fw: Firmware, p: Platform, d: nat, state: nat, r: nat)
    requires Good(p) && d < |p.devs| && r < |p.bank.res| && state < D3_COLD
    requires Uses(p.devs[d], r) == 0 && Live(p.bank, r)
    ensures var (b, ok) := OnList(fw, p.bank, p.devs[d].cfg.lists[state]);
            var p1 := WithBank(p, b);
            && Good(p1) && Same(p, p1)
            && Fair(fw, p, if ok then Settle(fw, p1, d, state).0 else p1, r, 0)
  {
    var list := p.devs[d].cfg.lists[state];
    var (b, ok) := OnList(fw, p.bank, list);
    OnListLaw(fw, p.bank, list, r);
    if Reliable(fw) { OnSweepReliable(fw, p.bank, list, 0); }
    assert b.res[r].refCount >= p.bank.res[r].refCount;
    assert ok ==> b.res[r].refCount == p.bank.res[r].refCount + Occ(list, 0, |list|, r);
    SettleLaw(fw, WithBank(p, b), d, state, r);
  }

  /** Initialisation forgets the old state, so the references of its list stay behind as slack. */
  lemma InitPowerLaw(fw: Firmware, p: Platform, d: nat, r: nat)
    requires Good(p) && d < |p.devs| && Harmless(fw, WithState(p, d, UNKNOWN), d) && r < |p.bank.res|
    requires Slack(p, r) >= 0 && Live(p.bank, r)
    ensures Fair(fw, p, InitPower(fw, p, d).0, r, Uses(p.devs[d], r))
  {
    var c := p.devs[d].cfg;
    var p0 := WithState(p, d, UNKNOWN);
    SlackAfter(p, p.bank, d, UNKNOWN, r);
    GetPowerLaw(fw, p0, d, r);
    var (p1, seen) := GetPower(fw, p0, d);
    if seen.Some? {
      var state := seen.value;
      if state < D3_COLD && c.powerResources {
        TakeLaw(fw, p1, d, state, r);
      } else {
        if !(c.manageable && c.powerResources) { Unlisted(p, d, if state == UNKNOWN then D0 else state); }
        SlackAfter(p1, p1.bank, d, if state == UNKNOWN then D0 else state, r);
      }
    }
  }

  lemma UpdatePowerLaw(fw: Firmware, p: Platform, d: nat, r: nat)
    requires Good(p) && d < |p.devs| && Harmless(fw, p, d) && r < |p.bank.res|
    requires Slack(p, r) >= 0 && Live(p.bank, r)
    ensures Fair(fw, p, UpdatePower(fw, p, d).0, r, 0)
  {
    GetPowerLaw(fw, p, d, r);
    var (p1, seen) := GetPower(fw, p, d);
    if seen.Some? {
      if seen.value == UNKNOWN {
        SetPowerLaw(fw, p1, d, D0, r);
      } else if p.devs[d].cfg.powerResources {
        TransitionLaw(fw, p1, d, seen.value, r);
        var (p2, st) := Transition(fw, p1, d, seen.value);
        if st == Ok { RecordLaw(p2, p2.bank, d, seen.value, r); }
      } else {
        RecordLaw(p1, p1.bank, d, seen.value, r);
      }
    }
  }

  // --------------------------------------------------------------- whole runs

  /** Steps that account for every reference they take or leave. */
  predicate Exact(p: Platform, e: Event)
    requires Good(p)
  {
    match e
    case DoInit(d) => d < |p.devs| ==> ListOf(p.devs[d].cfg, p.devs[d].state) == []
    case DoWakeupInit(d) =>
      d < |p.devs| ==>
        var list := p.devs[d].cfg.wakeList;
        forall r :: 0 <= r < |p.bank.res| ==> WakeSurplus(p.bank.res[r], Occ(list, 0, |list|, r)) == 0
    case _ => true
  }

  predicate ExactRun(fw: Firmware, p: Platform, es: seq<Event>)
    requires Good(p)
    decreases |es|
  {
    es == [] || (Exact(p, es[0]) && ExactRun(fw, Step(fw, p, es[0]), es[1..]))
  }

  lemma StepLaw(fw: Firmware, p: Platform, e: Event, r: nat)
    requires Good(p) && Grounded(p.devs) && r < |p.bank.res|
    requires Slack(p, r) >= 0 && Live(p.bank, r)
    ensures var p1 := Step(fw, p, e);
            && Live(p1.bank, r)
            && Slack(p1, r) >= Slack(p, r)
            && (Reliable(fw) && Exact(p, e) ==> Slack(p1, r) == Slack(p, r))
  {
    if e.d < |p.devs| {
      match e
      case DoTransition(d, state) => TransitionLaw(fw, p, d, state, r);
      case DoSet(d, state) => SetPowerLaw(fw, p, d, state, r);
      case DoInit(d) =>
        GroundedIsHarmless(fw, WithState(p, d, UNKNOWN), d);
        InitPowerLaw(fw, p, d, r);
      case DoUpdate(d) =>
        GroundedIsHarmless(fw, p, d);
        UpdatePowerLaw(fw, p, d, r);
      case DoGet(d) =>
        GroundedIsHarmless(fw, p, d);
        GetPowerLaw(fw, p, d, r);
      case DoEnableWakeup(d) => EnableWakeupLaw(fw, p, d, r);
      case DoDisableWakeup(d) => DisableWakeupLaw(fw, p, d, r);
      case DoWakeupInit(d) =>
        WakeInitSweepLaw(fw, p.bank, p.devs[d].cfg.wakeList, 0, r);
        if Reliable(fw) { WakeInitGain(fw, p.bank, p.devs[d].cfg.wakeList, 0, r); }
    }
  }

  /** With reliable firmware, a step leaves every slack alone exactly when it accounts for what it takes and leaves. */
  lemma StepExact(fw: Firmware, p: Platform, e: Event)
    requires Good(p) && Grounded(p.devs) && Safe(p) && Reliable(fw)
    ensures (forall r :: 0 <= r < |p.bank.res| ==> Slack(Step(fw, p, e), r) == Slack(p, r)) <==> Exact(p, e)
  {
    forall r | 0 <= r < |p.bank.res|
      ensures Exact(p, e) ==> Slack(Step(fw, p, e), r) == Slack(p, r)
    {
      StepLaw(fw, p, e, r);
    }
    if !Exact(p, e) {
      var r := Inexact(fw, p, e);
      assert Slack(Step(fw, p, e), r) != Slack(p, r);
    }
  }

  lemma Inexact(fw: Firmware, p: Platform, e: Event) returns (r: nat)
    requires Good(p) && Grounded(p.devs) && Safe(p) && Reliable(fw) && !Exact(p, e)
    ensures r < |p.bank.res| && Slack(Step(fw, p, e), r) > Slack(p, r)
  {
    var dev := p.devs[e.d];
    if e.DoInit? {
      var list := ListOf(dev.cfg, dev.state);
      r := list[0];
      assert list[0..] == list;
      OccPositive(list, 0, r);
      assert Slack(p, r) >= 0;
      GroundedIsHarmless(fw, WithState(p, e.d, UNKNOWN), e.d);
      InitPowerLaw(fw, p, e.d, r);
    } else {
      var list := dev.cfg.wakeList;
      r :| 0 <= r < |p.bank.res| && WakeSurplus(p.bank.res[r], Occ(list, 0, |list|, r)) != 0;
      WakeInitGain(fw, p.bank, list, 0, r);
    }
  }

  /**
    Over every run, whatever fails: the slack of no resource ever shrinks, so
    the ledger and the powering of counted resources hold in every reachable
    state; and over a run without failures whose steps are exact, every slack
    is what it was.
    */
  lemma {:induction false} RunLaw(fw: Firmware, p: Platform, es: seq<Event>, r: nat)
    requires Good(p) && Grounded(p.devs) && r < |p.bank.res|
    requires Slack(p, r) >= 0 && Live(p.bank, r)
    ensures var p1 := Run(fw, p, es);
            && Live(p1.bank, r)
            && Slack(p1, r) >= Slack(p, r)
            && (Reliable(fw) && ExactRun(fw, p, es) ==> Slack(p1, r) == Slack(p, r))
    decreases |es|
  {
    if es != [] {
      StepLaw(fw, p, es[0], r);
      RunLaw(fw, Step(fw, p, es[0]), es[1..], r);
    }
  }

  lemma RunSafe(fw: Firmware, p: Platform, es: seq<Event>)
    requires Good(p) && Grounded(p.devs) && Safe(p)
    ensures Safe(Run(fw, p, es))
  {
    forall r | 0 <= r < |p.bank.res|
      ensures Slack(Run(fw, p, es), r) >= 0 && Live(Run(fw, p, es).bank, r)
    {
      RunLaw(fw, p, es, r);
    }
  }

  lemma StepSafe(fw: Firmware, p: Platform, e: Event)
    requires Good(p) && Grounded(p.devs) && Safe(p)
    ensures Safe(Step(fw, p, e))
  {
    forall r | 0 <= r < |p.bank.res|
      ensures Slack(Step(fw, p, e), r) >= 0 && Live(Step(fw, p, e).bank, r)
    {
      assert Slack(p, r) >= 0 && Live(p.bank, r);
      StepLaw(fw, p, e, r);
    }
  }

  lemma {:induction false} TotalAtLeast(devs: seq<Device>, d: nat, r: nat)
    requires Listed(devs) && d < |devs|
    ensures Total(devs, r) >= Uses(devs[d], r)
  {
    TotalUpdate(devs, d, devs[d], r);
  }

  /** A resource in a list is used. */
  lemma UsesListed(dev: Device, r: nat)
    requires |dev.cfg.lists| == 4
    ensures r in ListOf(dev.cfg, dev.state) <==> Uses(dev, r) > 0
  {
    var list := ListOf(dev.cfg, dev.state);
    OccPositive(list, 0, r);
    assert list[0..] == list;
  }

  lemma CountedUse(p: Platform, d: nat, r: nat)
    requires Good(p) && d < |p.devs| && r < |p.bank.res| && Slack(p, r) >= 0
    requires r in ListOf(p.devs[d].cfg, p.devs[d].state)
    ensures p.bank.res[r].refCount > 0
  {
    UsesListed(p.devs[d], r);
    TotalAtLeast(p.devs, d, r);
  }

  lemma InUseIsOn(p: Platform, d: nat, r: nat)
    requires Good(p) && Safe(p) && d < |p.devs| && r in ListOf(p.devs[d].cfg, p.devs[d].state)
    ensures r < |p.bank.res| && p.bank.res[r].refCount > 0 && p.bank.res[r].on
  {
    assert Names(ListOf(p.devs[d].cfg, p.devs[d].state), |p.bank.res|);
    assert Slack(p, r) >= 0 && Live(p.bank, r);
    CountedUse(p, d, r);
  }

  /** Never off while in use: after any run, every resource of a device's current D-state is on. */
  lemma NeverOffWhileInUse(fw: Firmware, p: Platform, es: seq<Event>, d: nat, r: nat)
    requires Good(p) && Grounded(p.devs) && Safe(p) && d < |p.devs|
    requires r in ListOf(Run(fw, p, es).devs[d].cfg, Run(fw, p, es).devs[d].state)
    ensures r < |p.bank.res| && Run(fw, p, es).bank.res[r].on
  {
    RunSafe(fw, p, es);
    InUseIsOn(Run(fw, p, es), d, r);
  }

  /** No glitch: a resource needed both before and after a transition, or needed by someone else, never goes off during it. */
  lemma NoGlitch(fw: Firmware, p: Platform, d: nat, state: int, r: nat)
    requires Good(p) && Safe(p) && d < |p.devs| && r < |p.bank.res| && D0 <= state <= D3_COLD
    requires var c := p.devs[d].cfg;
             || (r in ListOf(c, state) && r in ListOf(c, p.devs[d].state))
             || p.bank.res[r].wakeupEnabled
             || Total(p.devs, r) > Uses(p.devs[d], r)
    ensures var b1 := Transition(fw, p, d, state).0.bank;
            p.bank.log <= b1.log && Steady(b1.log, |p.bank.log|, r)
  {
    var c := p.devs[d].cfg;
    var take, drop := ListOf(c, state), ListOf(c, p.devs[d].state);
    assert take[0..] == take && drop[0..] == drop;
    OccPositive(take, 0, r);
    OccPositive(drop, 0, r);
    TotalAtLeast(p.devs, d, r);
    assert Slack(p, r) >= 0;
    ExchangeSteady(fw, p.bank, take, drop, r);
  }

  /** The devices other than `d`, and all wakeup marks, are as they were. */
  predicate OthersSame(p: Platform, p1: Platform, d: nat) {
    && Same(p, p1)
    && (forall i :: 0 <= i < |p.devs| && i != d ==> p1.devs[i].state == p.devs[i].state)
    && (forall r :: 0 <= r < |p.bank.res| ==> p1.bank.res[r].wakeupEnabled == p.bank.res[r].wakeupEnabled)
  }

  /** Exact conservation: references taken for a device are given back to the last one. */
  lemma Conservation(fw: Firmware, p: Platform, es: seq<Event>, d: nat, r: nat)
    requires Good(p) && Grounded(p.devs) && Safe(p) && d < |p.devs| && r < |p.bank.res|
    requires Reliable(fw) && ExactRun(fw, p, es)
    requires OthersSame(p, Run(fw, p, es), d)
    ensures var p1 := Run(fw, p, es);
            p1.bank.res[r].refCount - Uses(p1.devs[d], r) == p.bank.res[r].refCount - Uses(p.devs[d], r)
  {
    var p1 := Run(fw, p, es);
    RunLaw(fw, p, es, r);
    TotalUpdate(p.devs, d, p1.devs[d], r);
    TotalSame(p.devs[d := p1.devs[d]], p1.devs, r);
  }

  lemma ReliableTransition(fw: Firmware, p: Platform, d: nat, state: nat, r: nat)
    requires Good(p) && Reliable(fw) && d < |p.devs| && r < |p.bank.res| && state <= D3_COLD
    requires p.devs[d].cfg.manageable && p.devs[d].state <= D3_COLD
    requires p.bank.res[r].refCount >= Uses(p.devs[d], r)
    ensures var (p1, st) := Transition(fw, p, d, state);
            && st == Ok && p1.devs[d].state == state
            && p1.bank.res[r].refCount == p.bank.res[r].refCount - Uses(p.devs[d], r) + Uses(p1.devs[d], r)
  {
    var c := p.devs[d].cfg;
    ReliableExchange(fw, p.bank, ListOf(c, state), ListOf(c, p.devs[d].state), r);
  }

  /** With reliable firmware a change of state that meets no objection arrives, and moves each count by exactly the difference of the lists. */
  lemma SetPowerReaches(fw: Firmware, p: Platform, d: nat, target: int, r: nat)
    requires Good(p) && Safe(p) && Reliable(fw) && d < |p.devs| && r < |p.bank.res|
    requires Objection(p, d, target).None? && p.devs[d].state <= D3_COLD
    requires p.devs[d].cfg.manageable && p.devs[d].cfg.powerResources
    ensures var (p1, st) := SetPower(fw, p, d, target);
            && st == Ok && p1.devs[d] == p.devs[d].(state := target)
            && p1.bank.res[r].refCount == p.bank.res[r].refCount - Uses(p.devs[d], r) + Uses(p1.devs[d], r)
  {
    var c := p.devs[d].cfg;
    var state := FirstState(c, target);
    TotalAtLeast(p.devs, d, r);
    assert Slack(p, r) >= 0;
    ReliableTransition(fw, p, d, state, r);
    var p1 := Transition(fw, p, d, state).0;
    SettleLaw(fw, p1, d, state, r);
    var p2 := Settle(fw, p1, d, state).0;
    assert Enter(fw, p, d, state) == (p2, Ok);
    if state != target {
      ReliableTransition(fw, p2, d, D3_COLD, r);
    }
  }

  /** Powering a device down, through D3hot when D3cold is accessible, gives back exactly the list it held. */
  lemma ReturnToCold(fw: Firmware, p: Platform, d: nat, r: nat)
    requires Good(p) && Safe(p) && Reliable(fw) && d < |p.devs| && r < |p.bank.res|
    requires var dev := p.devs[d];
             && dev.cfg.manageable && dev.cfg.powerResources && dev.cfg.valid[D3_COLD] && dev.state < D3_COLD
             && (dev.cfg.parent.Some? ==> p.devs[dev.cfg.parent.value].state <= D3_COLD)
    ensures var (p1, st) := SetPower(fw, p, d, D3_COLD);
            && st == Ok && p1.devs[d].state == D3_COLD
            && p1.bank.res[r].refCount == p.bank.res[r].refCount - Uses(p.devs[d], r)
  {
    SetPowerReaches(fw, p, d, D3_COLD, r);
  }
}
