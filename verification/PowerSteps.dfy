/**
  What single steps of drivers/acpi/power.c and drivers/acpi/device_pm.c
  promise beyond the ledger: which states a change of state can end in, that
  power comes before the device's own methods, and what a wakeup bracket gives
  back.
  */
module PowerSteps {
  import opened PowerResources
  import opened DevicePower
  import opened PowerLedger
  import opened PowerResume

  // ----------------------------------------------------------- changes of state

  /** Only the recorded state of `d` may differ. */
  predicate OnlyState(p: Platform, p1: Platform, d: nat)
    requires d < |p.devs|
  {
    |p1.devs| == |p.devs| && p1.devs == p.devs[d := p.devs[d].(state := p1.devs[d].state)]
  }

  lemma EnterOutcome(fw: Firmware, p: Platform, d: nat, state: nat)
    requires Good(p) && d < |p.devs| && state <= D3_COLD
    ensures var (p1, st) := Enter(fw, p, d, state);
            && OnlyState(p, p1, d)
            && (if st == Ok then p1.devs[d].state == state
                else p1.devs[d].state in {p.devs[d].state, UNKNOWN, state})
  {
  }

  /**
    Whatever fails: success records the target, failure leaves the old state,
    the state passed on the way, or the unknown one, and no other device's
    record changes.
    */
  lemma SetPowerOutcome(fw: Firmware, p: Platform, d: nat, target: int)
    requires Good(p) && d < |p.devs|
    ensures var (p1, st) := SetPower(fw, p, d, target);
            && OnlyState(p, p1, d)
            && (st == Ok ==> p1.devs[d].state == target)
            && (st != Ok ==> p1.devs[d].state in {p.devs[d].state, UNKNOWN, FirstState(p.devs[d].cfg, target)})
  {
    if Objection(p, d, target).None? {
      EnterOutcome(fw, p, d, FirstState(p.devs[d].cfg, target));
    } else {
      assert p.devs[d := p.devs[d].(state := p.devs[d].state)] == p.devs;
    }
  }

  /**
    Power before methods: whatever fails, when a device's own method is
    evaluated on the way into a state, it is the last evaluation, and every
    resource of that state is on.
    */
  lemma PoweredBeforeMethod(fw: Firmware, p: Platform, d: nat, state: nat, r: nat)
    requires Good(p) && Safe(p) && d < |p.devs| && state <= D3_COLD && r in ListOf(p.devs[d].cfg, state)
    ensures r < |p.bank.res|
    ensures var (p1, st) := Transition(fw, p, d, state);
            var p2 := Enter(fw, p, d, state).0;
            && p2.bank.res == p1.bank.res
            && (st != Ok ==> p2.bank.log == p1.bank.log)
            && (st == Ok ==>
                  && p1.bank.res[r].on
                  && p2.bank.log == p1.bank.log
                     + if p.devs[d].cfg.explicitSet[state] then [EvalMethod(Ps(d, state), fw.succeeds(|p1.bank.log|))] else [])
  {
    assert Names(ListOf(p.devs[d].cfg, state), |p.bank.res|);
    assert Slack(p, r) >= 0 && Live(p.bank, r);
    TransitionLaw(fw, p, d, state, r);
    var (p1, st) := Transition(fw, p, d, state);
    if st == Ok { CountedUse(p1, d, r); }
  }

  // ------------------------------------------------------------ wakeup brackets

  lemma {:induction false} EnableSweepMarks(fw: Firmware, b: Bank, list: seq<nat>, i: nat, r: nat)
    requires i <= |list| && Names(list, |b.res|) && r < |b.res| && Reliable(fw)
    ensures var (b1, k) := EnableSweep(fw, b, list, i);
            && k == |list|
            && (b1.res[r].wakeupEnabled <==> b.res[r].wakeupEnabled || Occ(list, i, |list|, r) > 0)
    decreases |list| - i
  {
    if i < |list| {
      if b.res[list[i]].wakeupEnabled {
        EnableSweepMarks(fw, b, list, i + 1, r);
      } else {
        EnableSweepMarks(fw, Mark(PowerOn(fw, b, list[i]).0, list[i], true), list, i + 1, r);
      }
    }
  }

  lemma {:induction false} DisableSweepMarks(fw: Firmware, b: Bank, list: seq<nat>, i: nat, r: nat)
    requires i <= |list| && Names(list, |b.res|) && r < |b.res| && Reliable(fw)
    ensures var (b1, k) := DisableSweep(fw, b, list, i);
            && k == |list|
            && (b1.res[r].wakeupEnabled <==> b.res[r].wakeupEnabled && Occ(list, i, |list|, r) == 0)
    decreases |list| - i
  {
    if i < |list| {
      if !b.res[list[i]].wakeupEnabled {
        DisableSweepMarks(fw, b, list, i + 1, r);
      } else {
        DisableSweepMarks(fw, Mark(PowerOff(fw, b, list[i]).0, list[i], false), list, i + 1, r);
      }
    }
  }

  /** The platform after wakeup of `d` has been enabled and disabled again. */
  function Bracket(fw: Firmware, p: Platform, d: nat): Platform
    requires Good(p) && d < |p.devs|
  {
    DisableWakeup(fw, EnableWakeup(fw, p, d).0, d).0
  }

  lemma EnabledMarks(fw: Firmware, p: Platform, d: nat, r: nat)
    requires Good(p) && d < |p.devs| && Reliable(fw) && r < |p.bank.res|
    requires p.devs[d].wakeValid && p.devs[d].prepareCount == 0
    ensures var (p1, st) := EnableWakeup(fw, p, d);
            var list := p.devs[d].cfg.wakeList;
            && st == Ok && p1.devs == p.devs[d := p.devs[d].(prepareCount := 1)]
            && Reserve(p1.bank, r) == Reserve(p.bank, r)
            && (p1.bank.res[r].wakeupEnabled <==> p.bank.res[r].wakeupEnabled || Occ(list, 0, |list|, r) > 0)
  {
    EnableSweepMarks(fw, p.bank, p.devs[d].cfg.wakeList, 0, r);
    EnableSweepLaw(fw, p.bank, p.devs[d].cfg.wakeList, 0, r);
  }

  lemma DisabledMarks(fw: Firmware, p: Platform, d: nat, r: nat)
    requires Good(p) && d < |p.devs| && Reliable(fw) && r < |p.bank.res| && Reserve(p.bank, r) >= 0
    requires p.devs[d].wakeValid && p.devs[d].prepareCount == 1
    ensures var (p1, st) := DisableWakeup(fw, p, d);
            var list := p.devs[d].cfg.wakeList;
            && st == Ok && p1.devs == p.devs[d := p.devs[d].(prepareCount := 0)]
            && Reserve(p1.bank, r) == Reserve(p.bank, r)
            && (p1.bank.res[r].wakeupEnabled <==> p.bank.res[r].wakeupEnabled && Occ(list, 0, |list|, r) == 0)
  {
    var b := Evaluate(fw, p.bank, SleepWake(d, false)).0;
    DisableSweepMarks(fw, b, p.devs[d].cfg.wakeList, 0, r);
    DisableSweepLaw(fw, b, p.devs[d].cfg.wakeList, 0, r);
  }

  /** A bracket leaves the devices alone, and of a listed resource it also gives up the reference of a mark set before it. */
  lemma BracketLaw(fw: Firmware, p: Platform, d: nat, r: nat)
    requires Good(p) && d < |p.devs| && Reliable(fw) && r < |p.bank.res| && Reserve(p.bank, r) >= 0
    requires p.devs[d].wakeValid && p.devs[d].prepareCount == 0
    ensures var b1, list := Bracket(fw, p, d).bank, p.devs[d].cfg.wakeList;
            var x, x1, listed := p.bank.res[r], b1.res[r], Occ(list, 0, |list|, r) > 0;
            && Bracket(fw, p, d).devs == p.devs
            && x1.refCount == x.refCount - (if listed && x.wakeupEnabled then 1 else 0)
            && (x1.wakeupEnabled <==> x.wakeupEnabled && !listed)
  {
    EnabledMarks(fw, p, d, r);
    var p1 := EnableWakeup(fw, p, d).0;
    DisabledMarks(fw, p1, d, r);
    assert p.devs[d := p.devs[d].(prepareCount := 0)] == p.devs;
  }

  predicate SameHolds(b: Bank, b1: Bank) {
    && |b1.res| == |b.res|
    && forall r :: 0 <= r < |b.res| ==>
                     b1.res[r].refCount == b.res[r].refCount && b1.res[r].wakeupEnabled == b.res[r].wakeupEnabled
  }

  /** A mark is the resource's, not the device's: a bracket gives back what it took exactly when it found no mark. */
  lemma BracketRestores(fw: Firmware, p: Platform, d: nat)
    requires Good(p) && Safe(p) && d < |p.devs| && Reliable(fw)
    requires p.devs[d].wakeValid && p.devs[d].prepareCount == 0
    ensures var list := p.devs[d].cfg.wakeList;
            SameHolds(p.bank, Bracket(fw, p, d).bank)
            <==> forall i :: 0 <= i < |list| ==> !p.bank.res[list[i]].wakeupEnabled
  {
    var b1, list := Bracket(fw, p, d).bank, p.devs[d].cfg.wakeList;
    assert list[0..] == list;
    forall r | 0 <= r < |p.bank.res|
      ensures b1.res[r].refCount == p.bank.res[r].refCount && b1.res[r].wakeupEnabled == p.bank.res[r].wakeupEnabled
              <==> !(r in list && p.bank.res[r].wakeupEnabled)
    {
      assert Slack(p, r) >= 0;
      BracketLaw(fw, p, d, r);
      OccPositive(list, 0, r);
    }
  }
}
