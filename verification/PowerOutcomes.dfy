/**
  What a change of power state does, told without the functions that make it:
  which requests are refused, where the others end, and what is evaluated on
  the way (drivers/acpi/power.c, drivers/acpi/device_pm.c:157-235).
  */
module PowerOutcomes {
  import opened Wrappers
  import opened PowerResources
  import opened DevicePower
  import opened PowerLedger
  import opened PowerSteps

  // ---------------------------------------------------------------- single calls

  /** `_ON` is evaluated exactly for the first reference, and its failure is all that makes the call fail. */
  lemma OnCall(fw: Firmware, b: Bank, r: nat)
    requires r < |b.res|
    ensures var (b1, ok) := PowerOn(fw, b, r);
            var x := b.res[r];
            && b.log <= b1.log
            && ((exists v :: Logged(b1.log, |b.log|, EvalOn(r, v))) <==> x.refCount == 0)
            && (ok <==> !Logged(b1.log, |b.log|, EvalOn(r, false)))
            && b1.res == if ok then b.res[r := Resource(x.refCount + 1, x.wakeupEnabled, x.on || x.refCount == 0)] else b.res
  {
    var (b1, ok) := PowerOn(fw, b, r);
    if b.res[r].refCount == 0 {
      assert b1.log[|b.log| + 1] == EvalOn(r, ok);
      assert Logged(b1.log, |b.log|, EvalOn(r, ok));
    }
  }

  /** `_OFF` is evaluated exactly for the last reference; without references nothing happens. */
  lemma OffCall(fw: Firmware, b: Bank, r: nat)
    requires r < |b.res|
    ensures var (b1, ok) := PowerOff(fw, b, r);
            var x := b.res[r];
            && b.log <= b1.log && (x.refCount == 0 ==> b1 == b)
            && ((exists v :: Logged(b1.log, |b.log|, EvalOff(r, v))) <==> x.refCount == 1)
            && (ok <==> !Logged(b1.log, |b.log|, EvalOff(r, false)))
            && b1.res == if ok && x.refCount > 0
                         then b.res[r := Resource(x.refCount - 1, x.wakeupEnabled, x.on && x.refCount > 1)] else b.res
  {
    var (b1, ok) := PowerOff(fw, b, r);
    if b.res[r].refCount == 1 {
      assert b1.log[|b.log| + 1] == EvalOff(r, ok);
      assert Logged(b1.log, |b.log|, EvalOff(r, ok));
    }
  }

  // ------------------------------------------------------------------- transitions

  lemma {:induction false} OnSweepStops(fw: Firmware, b: Bank, list: seq<nat>, i: nat)
    requires i <= |list| && Names(list, |b.res|)
    ensures var (b1, k) := OnSweep(fw, b, list, i);
            && b.log <= b1.log
            && (k < |list| <==> exists r :: Logged(b1.log, |b.log|, EvalOn(r, false)))
            && (k < |list| ==> Logged(b1.log, |b.log|, EvalOn(list[k], false)))
    decreases |list| - i
  {
    if i < |list| {
      OnCall(fw, b, list[i]);
      var (b1, ok) := PowerOn(fw, b, list[i]);
      if ok {
        OnSweepStops(fw, b1, list, i + 1);
        var (b2, k) := OnSweep(fw, b1, list, i + 1);
        forall r ensures Logged(b2.log, |b.log|, EvalOn(r, false)) <==> Logged(b2.log, |b1.log|, EvalOn(r, false)) {
          LoggedSplit(b.log, b1.log, b2.log, EvalOn(r, false));
        }
      }
    }
  }

  lemma {:induction false} DropBackTurnsNothingOn(fw: Firmware, b: Bank, list: seq<nat>, k: nat, r: nat)
    requires k <= |list| && Names(list, |b.res|)
    ensures var b1 := DropBack(fw, b, list, k);
            b.log <= b1.log && !Logged(b1.log, |b.log|, EvalOn(r, false))
    decreases k
  {
    if k > 0 {
      var b1 := PowerOff(fw, b, list[k - 1]).0;
      DropBackTurnsNothingOn(fw, b1, list, k - 1, r);
      LoggedSplit(b.log, b1.log, DropBack(fw, b1, list, k - 1).log, EvalOn(r, false));
    }
  }

  /** Turning a list on fails exactly when an `_ON` fails. */
  lemma OnListFails(fw: Firmware, b: Bank, list: seq<nat>)
    requires Names(list, |b.res|)
    ensures var (b1, ok) := OnList(fw, b, list);
            b.log <= b1.log && (!ok <==> exists r :: Logged(b1.log, |b.log|, EvalOn(r, false)))
  {
    OnSweepStops(fw, b, list, 0);
    var (b1, k) := OnSweep(fw, b, list, 0);
    var b2 := OnList(fw, b, list).0;
    if k < |list| {
      DropBackTurnsNothingOn(fw, b1, list, k, list[k]);
      LoggedSplit(b.log, b1.log, b2.log, EvalOn(list[k], false));
    }
  }

  /**
    A transition is refused without effect for a bad target or from an unknown
    state; otherwise it succeeds exactly when no `_ON` of the new state's list
    fails, whatever happens while the old list is dropped.
    */
  lemma TransitionOutcome(fw: Firmware, p: Platform, d: nat, target: int)
    requires Good(p) && d < |p.devs|
    ensures var (p1, st) := Transition(fw, p, d, target);
            var dev := p.devs[d];
            && (!(0 <= target <= 4) ==> p1 == p && st == EInval)
            && (0 <= target <= 4 && (dev.state == target || !dev.cfg.manageable) ==> p1 == p && st == Ok)
            && (0 <= target <= 4 && dev.state != target && dev.cfg.manageable && dev.state > 4 ==> p1 == p && st == ENodev)
            && (0 <= target <= 4 && dev.state != target && dev.cfg.manageable && dev.state <= 4 ==>
                  var taken := if target < 4 then OnList(fw, p.bank, dev.cfg.lists[target]).0 else p.bank;
                  var failed := exists r :: Logged(taken.log, |p.bank.log|, EvalOn(r, false));
                  && st == (if failed then ENodev else Ok)
                  && p1.devs == p.devs[d := dev.(state := if failed then 255 else target)]
                  && (failed ==> p1.bank == taken)
                  && (!failed ==> p1.bank == if dev.state < 4 then OffList(fw, taken, dev.cfg.lists[dev.state]).0 else taken))
  {
    var dev := p.devs[d];
    if 0 <= target <= 4 && dev.state != target && dev.cfg.manageable && dev.state <= 4 {
      OnListFails(fw, p.bank, ListOf(dev.cfg, target));
      var taken := OnList(fw, p.bank, ListOf(dev.cfg, target)).0;
      assert OffList(fw, taken, []).0 == taken;
    }
  }

  // -------------------------------------------------------------- changes of state

  /**
    The device lacks the state, the state is shallower than its parent's, or it
    leads out of D3 (or the unknown) neither to D0 nor from D3hot to D3cold.
    */
  predicate Barred(p: Platform, d: nat, target: nat)
    requires Good(p) && d < |p.devs| && target <= 4
  {
    var dev := p.devs[d];
    || !dev.cfg.valid[target]
    || (dev.cfg.parent.Some? && target < p.devs[dev.cfg.parent.value].state)
    || (dev.state >= 3 && target != 0 && !(dev.state == 3 && target == 4))
  }

  /** A device that holds resources and does not know for which state. */
  predicate Adrift(dev: Device) {
    dev.state > 4 && dev.cfg.manageable && dev.cfg.powerResources
  }

  /** Refusals, whatever the firmware: nothing changes and nothing is evaluated. */
  lemma SetPowerRefuses(fw: Firmware, p: Platform, d: nat, target: int)
    requires Good(p) && d < |p.devs|
    ensures !(0 <= target <= 4) ==> SetPower(fw, p, d, target) == (p, EInval)
    ensures target == p.devs[d].state <= 4 ==> SetPower(fw, p, d, target) == (p, Ok)
    ensures 0 <= target <= 4 && target != p.devs[d].state && (Barred(p, d, target) || Adrift(p.devs[d])) ==>
              SetPower(fw, p, d, target) == (p, ENodev)
  {
  }

  /** A device without resources of its own has nothing to take or drop. */
  lemma NothingListed(p: Platform, d: nat, state: nat)
    requires Good(p) && d < |p.devs| && !(p.devs[d].cfg.manageable && p.devs[d].cfg.powerResources)
    ensures ListOf(p.devs[d].cfg, state) == []
  {
    assert GoodConfig(p.devs[d].cfg, |p.bank.res|, |p.devs|);
  }

  lemma SetsWithoutResources(fw: Firmware, p: Platform, d: nat, target: nat)
    requires Good(p) && Reliable(fw) && d < |p.devs| && !(p.devs[d].cfg.manageable && p.devs[d].cfg.powerResources)
    requires target <= 4 && target != p.devs[d].state && !Barred(p, d, target)
    ensures var (p1, st) := SetPower(fw, p, d, target);
            st == Ok && p1.devs[d].state == target && p1.bank.res == p.bank.res
  {
    var first := FirstState(p.devs[d].cfg, target);
    var p1 := Enter(fw, p, d, first).0;
    NothingListed(p, d, p.devs[d].state);
    NothingListed(p, d, first);
    NothingListed(p1, d, 4);
    NothingListed(p1, d, p1.devs[d].state);
  }

  /** Every other request arrives when no evaluation fails, and moves each count by the difference of the lists. */
  lemma SetPowerArrives(fw: Firmware, p: Platform, d: nat, target: nat, r: nat)
    requires Good(p) && Safe(p) && Reliable(fw) && d < |p.devs| && r < |p.bank.res|
    requires target <= 4 && target != p.devs[d].state && !Barred(p, d, target) && !Adrift(p.devs[d])
    ensures var (p1, st) := SetPower(fw, p, d, target);
            && st == Ok && p1.devs == p.devs[d := p.devs[d].(state := target)]
            && p1.bank.res[r].refCount == p.bank.res[r].refCount - Uses(p.devs[d], r) + Uses(p1.devs[d], r)
  {
    SetPowerOutcome(fw, p, d, target);
    if p.devs[d].cfg.manageable && p.devs[d].cfg.powerResources {
      SetPowerReaches(fw, p, d, target, r);
    } else {
      SetsWithoutResources(fw, p, d, target);
      NothingListed(p, d, p.devs[d].state);
      NothingListed(p, d, target);
    }
  }

  /**
    With reliable firmware the result of a request is known beforehand: it is
    refused exactly when it is no D-state, barred, or made of a device adrift.
    */
  lemma SetPowerSucceedsExactlyWhen(fw: Firmware, p: Platform, d: nat, target: int)
    requires Good(p) && Safe(p) && Reliable(fw) && d < |p.devs|
    ensures SetPower(fw, p, d, target).1 == Ok
            <==> 0 <= target <= 4 && (target == p.devs[d].state || (!Barred(p, d, target) && !Adrift(p.devs[d])))
    ensures SetPower(fw, p, d, target).1 == Ok ==> SetPower(fw, p, d, target).0.devs[d].state == target
  {
    SetPowerRefuses(fw, p, d, target);
    SetPowerOutcome(fw, p, d, target);
    if 0 <= target <= 4 && target != p.devs[d].state && !Barred(p, d, target) && !Adrift(p.devs[d]) {
      if p.devs[d].cfg.manageable && p.devs[d].cfg.powerResources {
        Arrives(fw, p, d, target);
      } else {
        SetsWithoutResources(fw, p, d, target);
      }
    }
  }

  lemma Arrives(fw: Firmware, p: Platform, d: nat, target: nat)
    requires Good(p) && Reliable(fw) && d < |p.devs| && p.devs[d].cfg.manageable && p.devs[d].cfg.powerResources
    requires target <= 4 && target != p.devs[d].state <= 4 && !Barred(p, d, target)
    ensures SetPower(fw, p, d, target).1 == Ok
  {
    var c, first := p.devs[d].cfg, FirstState(p.devs[d].cfg, target);
    OnSweepReliable(fw, p.bank, ListOf(c, first), 0);
    var p1 := Enter(fw, p, d, first).0;
    OnSweepReliable(fw, p1.bank, [], 0);
  }

  // ------------------------------------------------------------ D3cold through D3hot

  /** From position `from` on, only entries of `list` are dropped and nothing else happens. */
  predicate OnlyDrops(log: seq<Act>, from: nat, list: seq<nat>) {
    forall i :: from <= i < |log| ==> (log[i].Count? || log[i].EvalOff?) && log[i].r in list
  }

  lemma {:induction false} OffSweepDrops(fw: Firmware, b: Bank, list: seq<nat>, k: nat)
    requires k <= |list| && Names(list, |b.res|)
    ensures var b1 := OffSweep(fw, b, list, k).0;
            b.log <= b1.log && OnlyDrops(b1.log, |b.log|, list)
    decreases k
  {
    if k > 0 {
      var (b1, ok) := PowerOff(fw, b, list[k - 1]);
      assert OnlyDrops(b1.log, |b.log|, list);
      if ok { OffSweepDrops(fw, b1, list, k - 1); }
    }
  }

  /** Cutting the power of a device in D3hot. */
  lemma CutDrops(fw: Firmware, p: Platform, d: nat)
    requires Good(p) && Reliable(fw) && d < |p.devs| && p.devs[d].state == 3
    ensures var (p1, st) := CutPower(fw, p, d);
            st == Ok && p.bank.log <= p1.bank.log && OnlyDrops(p1.bank.log, |p.bank.log|, p.devs[d].cfg.lists[3])
  {
    var list := p.devs[d].cfg.lists[3];
    assert OnList(fw, p.bank, []) == (p.bank, true);
    OffSweepReliable(fw, p.bank, list, |list|);
    OffSweepDrops(fw, p.bank, list, |list|);
  }

  /** The device with the resources of D3hot applied. */
  function Warm(fw: Firmware, p: Platform, d: nat): (p1: Platform)
    requires Good(p) && d < |p.devs|
    ensures Same(p, p1) && Good(p1)
  {
    if p.devs[d].cfg.powerResources then Transition(fw, p, d, 3).0 else p
  }

  /** Power that D3hot needs is applied before `_PS3`. */
  lemma WarmIsPowered(fw: Firmware, p: Platform, d: nat)
    requires Good(p) && Safe(p) && Reliable(fw) && d < |p.devs| && p.devs[d].state <= 4
    ensures forall i :: 0 <= i < |p.devs[d].cfg.lists[3]| ==> Warm(fw, p, d).bank.res[p.devs[d].cfg.lists[3][i]].on
  {
    var c, p1 := p.devs[d].cfg, Warm(fw, p, d);
    assert GoodConfig(c, |p.bank.res|, |p.devs|);
    forall i | 0 <= i < |c.lists[3]| ensures p1.bank.res[c.lists[3][i]].on {
      var r := c.lists[3][i];
      assert Names(c.lists[3], |p.bank.res|) && Slack(p, r) >= 0 && Live(p.bank, r);
      TransitionLaw(fw, p, d, 3, r);
      TotalAtLeast(p.devs, d, r);
      ReliableTransition(fw, p, d, 3, r);
      CountedUse(p1, d, r);
    }
  }

  /**
    Where D3cold is accessible it is entered through D3hot: first all that
    D3hot needs is on, then `_PS3` is evaluated, if there is one, and only then
    is the list of D3hot dropped, with nothing else in between or afterwards.
    */
  lemma ColdThroughHot(fw: Firmware, p: Platform, d: nat)
    requires Good(p) && Safe(p) && Reliable(fw) && d < |p.devs|
    requires p.devs[d].cfg.coldAccessible && p.devs[d].state < 4 && !Barred(p, d, 4)
    ensures var (p1, st) := SetPower(fw, p, d, 4);
            var c, warm := p.devs[d].cfg, Warm(fw, p, d);
            var before := warm.bank.log + if c.explicitSet[3] then [EvalMethod(Ps(d, 3), true)] else [];
            && st == Ok && p1.devs[d].state == 4
            && (forall i :: 0 <= i < |c.lists[3]| ==> warm.bank.res[c.lists[3][i]].on)
            && before <= p1.bank.log && OnlyDrops(p1.bank.log, |before|, c.lists[3])
  {
    WarmIsPowered(fw, p, d);
    SetPowerSucceedsExactlyWhen(fw, p, d, 4);
    HotFirst(fw, p, d);
    CutDrops(fw, Enter(fw, p, d, 3).0, d);
  }

  lemma HotFirst(fw: Firmware, p: Platform, d: nat)
    requires Good(p) && Reliable(fw) && d < |p.devs|
    requires p.devs[d].cfg.coldAccessible && p.devs[d].state < 4 && !Barred(p, d, 4)
    ensures var (hot, st) := Enter(fw, p, d, 3);
            && st == Ok && hot.devs[d].state == 3 && hot.devs[d].cfg == p.devs[d].cfg
            && hot.bank.log == Warm(fw, p, d).bank.log + (if p.devs[d].cfg.explicitSet[3] then [EvalMethod(Ps(d, 3), true)] else [])
            && SetPower(fw, p, d, 4).0 == CutPower(fw, hot, d).0
  {
    OnSweepReliable(fw, p.bank, ListOf(p.devs[d].cfg, 3), 0);
    EnterOutcome(fw, p, d, 3);
  }
}
