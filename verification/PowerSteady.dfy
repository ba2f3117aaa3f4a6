/**
  No glitches over whole runs: while a device stays where it is, nothing that
  other devices or wakeup steps do ever turns one of its resources off, not
  even for a moment (drivers/acpi/power.c, drivers/acpi/device_pm.c).
  */
module PowerSteady {
  import opened PowerResources
  import opened DevicePower
  import opened PowerLedger
  import opened PowerSteps

  /** Device `j`, which is not `d`, uses `r`, and the books of `r` are in order. */
  predicate Needed(p: Platform, d: nat, j: nat, r: nat)
    requires Good(p)
  {
    && d < |p.devs| && j < |p.devs| && d != j && r < |p.bank.res|
    && Uses(p.devs[j], r) > 0 && Slack(p, r) >= 0 && Live(p.bank, r)
  }

  /** The log has grown, and `r` has not been off meanwhile. */
  ghost predicate Smooth(b: Bank, b1: Bank, r: nat) {
    b.log <= b1.log && Steady(b1.log, |b.log|, r)
  }

  lemma SmoothChain(b: Bank, b1: Bank, b2: Bank, r: nat)
    requires Smooth(b, b1, r) && Smooth(b1, b2, r)
    ensures Smooth(b, b2, r)
  {
    SteadyChain(b.log, b1.log, b2.log, r);
  }

  lemma NeededReserve(p: Platform, d: nat, j: nat, r: nat)
    requires Good(p) && Needed(p, d, j, r)
    ensures Reserve(p.bank, r) > Uses(p.devs[d], r)
  {
    var gone := p.devs[d].(state := UNKNOWN);
    TotalUpdate(p.devs, d, gone, r);
    TotalAtLeast(p.devs[d := gone], j, r);
  }

  // -------------------------------------------------------------------- sweeps

  lemma {:induction false} EnableSweepSteady(fw: Firmware, b: Bank, list: seq<nat>, i: nat, r: nat)
    requires i <= |list| && Names(list, |b.res|) && r < |b.res| && b.res[r].refCount > 0
    ensures Smooth(b, EnableSweep(fw, b, list, i).0, r)
    decreases |list| - i
  {
    if i < |list| {
      if b.res[list[i]].wakeupEnabled {
        EnableSweepSteady(fw, b, list, i + 1, r);
      } else {
        var (b1, ok) := PowerOn(fw, b, list[i]);
        if ok { EnableSweepSteady(fw, Mark(b1, list[i], true), list, i + 1, r); }
      }
    }
  }

  lemma {:induction false} DisableSweepSteady(fw: Firmware, b: Bank, list: seq<nat>, i: nat, r: nat)
    requires i <= |list| && Names(list, |b.res|) && r < |b.res| && Reserve(b, r) > 0
    ensures Smooth(b, DisableSweep(fw, b, list, i).0, r)
    decreases |list| - i
  {
    if i < |list| {
      if !b.res[list[i]].wakeupEnabled {
        DisableSweepSteady(fw, b, list, i + 1, r);
      } else {
        var (b1, ok) := PowerOff(fw, b, list[i]);
        if ok { DisableSweepSteady(fw, Mark(b1, list[i], false), list, i + 1, r); }
      }
    }
  }

  lemma {:induction false} WakeInitSweepSteady(fw: Firmware, b: Bank, list: seq<nat>, i: nat, r: nat)
    requires i <= |list| && Names(list, |b.res|) && r < |b.res|
    ensures Smooth(b, WakeInitSweep(fw, b, list, i).0, r)
    decreases |list| - i
  {
    if i < |list| && fw.succeeds(|b.log|) {
      var q := list[i];
      var b1 := b.(log := b.log + [EvalSta(q, true)]);
      if !b.res[q].on {
        WakeInitSweepSteady(fw, b1, list, i + 1, r);
      } else {
        var n := b.res[q].refCount + 1;
        WakeInitSweepSteady(fw, Bank(b1.res[q := b.res[q].(refCount := n, wakeupEnabled := true)],
                                     b1.log + [Count(q, n)]), list, i + 1, r);
      }
    }
  }

  lemma {:induction false} ListStateSteady(fw: Firmware, b: Bank, list: seq<nat>, i: nat, cur: bool, r: nat)
    requires i <= |list| && Names(list, |b.res|)
    ensures Smooth(b, ListState(fw, b, list, i, cur).0, r)
    decreases |list| - i
  {
    if i < |list| && fw.succeeds(|b.log|) && b.res[list[i]].on {
      ListStateSteady(fw, b.(log := b.log + [EvalSta(list[i], true)]), list, i + 1, true, r);
    }
  }

  lemma {:induction false} InferredStateSteady(fw: Firmware, b: Bank, lists: seq<seq<nat>>, i: nat, r: nat)
    requires i <= |lists| == 4 && forall s :: 0 <= s < 4 ==> Names(lists[s], |b.res|)
    ensures Smooth(b, InferredState(fw, b, lists, i).0, r)
    decreases 4 - i
  {
    if i < 4 {
      if lists[i] == [] {
        InferredStateSteady(fw, b, lists, i + 1, r);
      } else {
        var b1 := ListState(fw, b, lists[i], 0, false).0;
        ListStateSteady(fw, b, lists[i], 0, false, r);
        InferredStateSteady(fw, b1, lists, i + 1, r);
        SmoothChain(b, b1, InferredState(fw, b1, lists, i + 1).0, r);
      }
    }
  }

  // --------------------------------------------------------------------- steps

  lemma GetPowerSteady(fw: Firmware, p: Platform, d: nat, r: nat)
    requires Good(p) && d < |p.devs|
    ensures Smooth(p.bank, GetPower(fw, p, d).0.bank, r)
  {
    var c := p.devs[d].cfg;
    if c.powerResources { InferredStateSteady(fw, p.bank, c.lists, 0, r); }
  }

  lemma TransitionSteady(fw: Firmware, p: Platform, d: nat, state: int, j: nat, r: nat)
    requires Good(p) && Needed(p, d, j, r)
    ensures Smooth(p.bank, Transition(fw, p, d, state).0.bank, r)
  {
    var dev := p.devs[d];
    if D0 <= state <= D3_COLD && dev.state != state && dev.cfg.manageable && dev.state <= D3_COLD {
      NeededReserve(p, d, j, r);
      ExchangeSteady(fw, p.bank, ListOf(dev.cfg, state), ListOf(dev.cfg, dev.state), r);
    }
  }

  lemma SettleSteady(fw: Firmware, p: Platform, d: nat, state: nat, r: nat)
    requires Good(p) && d < |p.devs| && state <= D3_COLD
    ensures Smooth(p.bank, Settle(fw, p, d, state).0.bank, r)
  {
  }

  lemma EnterSteady(fw: Firmware, p: Platform, d: nat, state: nat, j: nat, r: nat)
    requires Good(p) && Needed(p, d, j, r) && state <= D3_COLD
    ensures var p1 := Enter(fw, p, d, state).0;
            Smooth(p.bank, p1.bank, r) && Needed(p1, d, j, r)
  {
    EnterLaw(fw, p, d, state, r);
    EnterOutcome(fw, p, d, state);
    if p.devs[d].cfg.powerResources {
      TransitionSteady(fw, p, d, state, j, r);
      var (p1, st) := Transition(fw, p, d, state);
      if st == Ok {
        SettleSteady(fw, p1, d, state, r);
        SmoothChain(p.bank, p1.bank, Settle(fw, p1, d, state).0.bank, r);
      }
    } else {
      SettleSteady(fw, p, d, state, r);
    }
  }

  lemma SetPowerSteady(fw: Firmware, p: Platform, d: nat, target: int, j: nat, r: nat)
    requires Good(p) && Needed(p, d, j, r)
    ensures Smooth(p.bank, SetPower(fw, p, d, target).0.bank, r)
  {
    if Objection(p, d, target).None? {
      var state := FirstState(p.devs[d].cfg, target);
      var (p1, st) := Enter(fw, p, d, state);
      EnterSteady(fw, p, d, state, j, r);
      if st == Ok && state != target {
        TransitionSteady(fw, p1, d, D3_COLD, j, r);
        SmoothChain(p.bank, p1.bank, CutPower(fw, p1, d).0.bank, r);
      }
    }
  }

  /** A device whose state is known keeps it through a step of another one. */
  lemma GetPowerKeeps(fw: Firmware, p: Platform, d: nat, j: nat)
    requires Good(p) && d < |p.devs| && j < |p.devs| && p.devs[j].state != UNKNOWN
    ensures GetPower(fw, p, d).0.devs[j] == p.devs[j]
  {
  }

  lemma UsedIsKnown(p: Platform, j: nat, r: nat)
    requires Good(p) && j < |p.devs| && Uses(p.devs[j], r) > 0
    ensures p.devs[j].state < D3_COLD
  {
  }

  lemma InitPowerSteady(fw: Firmware, p: Platform, d: nat, j: nat, r: nat)
    requires Good(p) && Needed(p, d, j, r)
    ensures Smooth(p.bank, InitPower(fw, p, d).0.bank, r)
  {
    var c, p0 := p.devs[d].cfg, WithState(p, d, UNKNOWN);
    GetPowerSteady(fw, p0, d, r);
    NeededReserve(p, d, j, r);
    var (p1, seen) := GetPower(fw, p0, d);
    assert p1.bank.res == p.bank.res;
    if seen.Some? && seen.value < D3_COLD && c.powerResources {
      var list := c.lists[seen.value];
      OnListSteady(fw, p1.bank, list, r);
      var (b2, ok) := OnList(fw, p1.bank, list);
      SmoothChain(p.bank, p1.bank, b2, r);
      if ok {
        var p2 := WithBank(p1, b2);
        SettleSteady(fw, p2, d, seen.value, r);
        SmoothChain(p.bank, b2, Settle(fw, p2, d, seen.value).0.bank, r);
      }
    }
  }

  lemma UpdatePowerSteady(fw: Firmware, p: Platform, d: nat, j: nat, r: nat)
    requires Good(p) && Grounded(p.devs) && Needed(p, d, j, r)
    ensures Smooth(p.bank, UpdatePower(fw, p, d).0.bank, r)
  {
    UsedIsKnown(p, j, r);
    GetPowerKeeps(fw, p, d, j);
    GroundedIsHarmless(fw, p, d);
    GetPowerLaw(fw, p, d, r);
    GetPowerSteady(fw, p, d, r);
    var (p1, seen) := GetPower(fw, p, d);
    assert Needed(p1, d, j, r);
    if seen.Some? {
      if seen.value == UNKNOWN {
        SetPowerSteady(fw, p1, d, D0, j, r);
        SmoothChain(p.bank, p1.bank, SetPower(fw, p1, d, D0).0.bank, r);
      } else if p.devs[d].cfg.powerResources {
        TransitionSteady(fw, p1, d, seen.value, j, r);
        SmoothChain(p.bank, p1.bank, Transition(fw, p1, d, seen.value).0.bank, r);
      }
    }
  }

  lemma WakeupSteady(fw: Firmware, p: Platform, d: nat, j: nat, r: nat)
    requires Good(p) && Needed(p, d, j, r)
    ensures Smooth(p.bank, EnableWakeup(fw, p, d).0.bank, r)
    ensures Smooth(p.bank, DisableWakeup(fw, p, d).0.bank, r)
  {
    NeededReserve(p, d, j, r);
    EnableSweepSteady(fw, p.bank, p.devs[d].cfg.wakeList, 0, r);
    DisableSweepSteady(fw, Evaluate(fw, p.bank, SleepWake(d, false)).0, p.devs[d].cfg.wakeList, 0, r);
  }

  /** Whatever step another device makes and whatever fails in it, a resource in use is not off for a moment. */
  lemma StepSteady(fw: Firmware, p: Platform, e: Event, j: nat, r: nat)
    requires Good(p) && Grounded(p.devs) && j != e.d && (e.d < |p.devs| ==> Needed(p, e.d, j, r))
    ensures Smooth(p.bank, Step(fw, p, e).bank, r)
  {
    if e.d < |p.devs| {
      match e
      case DoTransition(d, state) => TransitionSteady(fw, p, d, state, j, r);
      case DoSet(d, state) => SetPowerSteady(fw, p, d, state, j, r);
      case DoInit(d) => InitPowerSteady(fw, p, d, j, r);
      case DoUpdate(d) => UpdatePowerSteady(fw, p, d, j, r);
      case DoGet(d) => GetPowerSteady(fw, p, d, r);
      case DoEnableWakeup(d) => WakeupSteady(fw, p, d, j, r);
      case DoDisableWakeup(d) => WakeupSteady(fw, p, d, j, r);
      case DoWakeupInit(d) => WakeInitSweepSteady(fw, p.bank, p.devs[d].cfg.wakeList, 0, r);
    }
  }

  lemma TransitionKeeps(fw: Firmware, p: Platform, d: nat, state: int, j: nat)
    requires Good(p) && d < |p.devs| && j < |p.devs| && j != d
    ensures Transition(fw, p, d, state).0.devs[j] == p.devs[j]
  {
  }

  lemma AdoptKeeps(fw: Firmware, p: Platform, d: nat, state: nat, j: nat)
    requires Good(p) && d < |p.devs| && j < |p.devs| && j != d
    ensures Adopt(fw, p, d, state).0.devs[j] == p.devs[j]
  {
  }

  lemma InitPowerKeeps(fw: Firmware, p: Platform, d: nat, j: nat)
    requires Good(p) && d < |p.devs| && j < |p.devs| && j != d && p.devs[j].state != UNKNOWN
    ensures InitPower(fw, p, d).0.devs[j] == p.devs[j]
  {
    GetPowerKeeps(fw, WithState(p, d, UNKNOWN), d, j);
    var (p1, seen) := GetPower(fw, WithState(p, d, UNKNOWN), d);
    if seen.Some? { AdoptKeeps(fw, p1, d, seen.value, j); }
  }

  lemma UpdatePowerKeeps(fw: Firmware, p: Platform, d: nat, j: nat)
    requires Good(p) && d < |p.devs| && j < |p.devs| && j != d && p.devs[j].state != UNKNOWN
    ensures UpdatePower(fw, p, d).0.devs[j] == p.devs[j]
  {
    GetPowerKeeps(fw, p, d, j);
    var (p1, seen) := GetPower(fw, p, d);
    if seen.Some? {
      if seen.value == UNKNOWN {
        SetPowerKeeps(fw, p1, d, D0, j);
      } else {
        TransitionKeeps(fw, p1, d, seen.value, j);
      }
    }
  }

  lemma SetPowerKeeps(fw: Firmware, p: Platform, d: nat, target: int, j: nat)
    requires Good(p) && d < |p.devs| && j < |p.devs| && j != d
    ensures SetPower(fw, p, d, target).0.devs[j] == p.devs[j]
  {
    SetPowerOutcome(fw, p, d, target);
  }

  lemma WakeupKeeps(fw: Firmware, p: Platform, d: nat, j: nat)
    requires Good(p) && d < |p.devs| && j < |p.devs| && j != d
    ensures EnableWakeup(fw, p, d).0.devs[j] == p.devs[j] && DisableWakeup(fw, p, d).0.devs[j] == p.devs[j]
  {
  }

  lemma StepKeeps(fw: Firmware, p: Platform, e: Event, j: nat)
    requires Good(p) && j < |p.devs| && j != e.d && p.devs[j].state != UNKNOWN
    ensures Step(fw, p, e).devs[j] == p.devs[j]
  {
    if e.d < |p.devs| {
      match e
      case DoTransition(d, state) => TransitionKeeps(fw, p, d, state, j);
      case DoSet(d, state) => SetPowerKeeps(fw, p, d, state, j);
      case DoInit(d) => InitPowerKeeps(fw, p, d, j);
      case DoUpdate(d) => UpdatePowerKeeps(fw, p, d, j);
      case DoGet(d) => GetPowerKeeps(fw, p, d, j);
      case DoEnableWakeup(d) => WakeupKeeps(fw, p, d, j);
      case DoDisableWakeup(d) => WakeupKeeps(fw, p, d, j);
      case DoWakeupInit(d) =>
    }
  }

  /**
    Over every run whose steps are other devices' steps, whatever fails: the
    device keeps its state, and no resource of that state ever reaches count
    zero or has `_OFF` evaluated.
    */
  lemma {:induction false} RunSteady(fw: Firmware, p: Platform, es: seq<Event>, j: nat, r: nat)
    requires Good(p) && Grounded(p.devs) && j < |p.devs| && r in ListOf(p.devs[j].cfg, p.devs[j].state)
    requires r < |p.bank.res| && Slack(p, r) >= 0 && Live(p.bank, r)
    requires forall i :: 0 <= i < |es| ==> es[i].d != j
    ensures var p1 := Run(fw, p, es);
            Smooth(p.bank, p1.bank, r) && p1.devs[j] == p.devs[j]
    decreases |es|
  {
    if es != [] {
      assert es[0].d != j;
      var p1 := Step(fw, p, es[0]);
      UsesListed(p.devs[j], r);
      StepSteady(fw, p, es[0], j, r);
      StepLaw(fw, p, es[0], r);
      StepKeeps(fw, p, es[0], j);
      RunSteady(fw, p1, es[1..], j, r);
      SmoothChain(p.bank, p1.bank, Run(fw, p1, es[1..]).bank, r);
    }
  }
}
