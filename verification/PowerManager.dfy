/**
  The in-place form of drivers/acpi/power.c and drivers/acpi/device_pm.c: one
  object holding the resources and devices, updated statement by statement and
  loop by loop, each method proved equal to its specification function.
  */
module PowerManager {
  import opened Wrappers
  import R = PowerResources
  import D = DevicePower
  import L = PowerLedger
  import PowerResume
  import PowerOutcomes
  import PowerReadings

  function Lowest(level: nat -> nat, list: seq<nat>, n: nat): nat
    requires n <= |list|
  {
    if n == 0 then 5
    else
      var low := Lowest(level, list, n - 1);
      if low > level(list[n - 1]) then level(list[n - 1]) else low
  }

  /** The level of a wakeup list is the least of 5 and the levels of its resources. */
  lemma {:induction false} LowestIsLeast(level: nat -> nat, list: seq<nat>, n: nat)
    requires n <= |list|
    ensures var low := Lowest(level, list, n);
            && low <= 5 && (forall k :: 0 <= k < n ==> low <= level(list[k]))
            && (low == 5 || exists k :: 0 <= k < n && low == level(list[k]))
  {
    if n > 0 { LowestIsLeast(level, list, n - 1); }
  }

  class Manager {
    const fw: R.Firmware
    const systemLevel: nat -> nat    // deepest system state each resource stays available in
    var res: seq<R.Resource>
    var log: seq<R.Act>
    var devs: seq<D.Device>

    function Bank(): R.Bank
      reads this
    {
      R.Bank(res, log)
    }

    function View(): D.Platform
      reads this
    {
      D.Platform(Bank(), devs)
    }

    /** The ledger holds, and no parent that may be promoted needs resources in D0. */
    ghost predicate Sound()
      reads this
    {
      D.Good(View()) && L.Grounded(devs) && L.Safe(View())
    }

    constructor (fw: R.Firmware, systemLevel: nat -> nat, p: D.Platform)
      ensures this.fw == fw && this.systemLevel == systemLevel && View() == p
    {
      this.fw, this.systemLevel := fw, systemLevel;
      res, log, devs := p.bank.res, p.bank.log, p.devs;
    }

    // ------------------------------------------------------------------ power.c

    method SetCount(r: nat, n: nat)
      requires r < |res|
      modifies this`res, this`log
      ensures res == old(res)[r := old(res)[r].(refCount := n)] && log == old(log) + [R.Count(r, n)]
    {
      res := res[r := res[r].(refCount := n)];
      log := log + [R.Count(r, n)];
    }

    method PowerOn(r: nat) returns (ok: bool)
      requires r < |res|
      modifies this`res, this`log
      ensures (Bank(), ok) == R.PowerOn(fw, old(Bank()), r)
    {
      ok := true;
      SetCount(r, res[r].refCount + 1);
      if res[r].refCount == 1 {
        ok := fw.succeeds(|log|);
        log := log + [R.EvalOn(r, ok)];
        if ok {
          res := res[r := res[r].(on := true)];
        } else {
          SetCount(r, res[r].refCount - 1);
          assert res == old(res);
        }
      }
      assert Bank() == R.PowerOn(fw, old(Bank()), r).0;
    }

    method PowerOff(r: nat) returns (ok: bool)
      requires r < |res|
      modifies this`res, this`log
      ensures (Bank(), ok) == R.PowerOff(fw, old(Bank()), r)
    {
      ok := true;
      if res[r].refCount == 0 { return; }
      SetCount(r, res[r].refCount - 1);
      if res[r].refCount == 0 {
        ok := fw.succeeds(|log|);
        log := log + [R.EvalOff(r, ok)];
        if ok {
          res := res[r := res[r].(on := false)];
        } else {
          SetCount(r, res[r].refCount + 1);
          assert res == old(res);
        }
      }
      assert Bank() == R.PowerOff(fw, old(Bank()), r).0;
    }

    /** Turns `list[k..]` on again, ignoring failures. */
    method TakeBack(list: seq<nat>, k: nat)
      requires k <= |list| && R.Names(list, |res|)
      modifies this`res, this`log
      ensures Bank() == R.TakeBack(fw, old(Bank()), list, k)
    {
      for i := k to |list|
        invariant |res| == |old(res)|
        invariant R.TakeBack(fw, Bank(), list, i) == R.TakeBack(fw, old(Bank()), list, k)
      {
        var _ := PowerOn(list[i]);
      }
    }

    /** Turns `list[..k]` off again, from the back, ignoring failures. */
    method DropBack(list: seq<nat>, k: nat)
      requires k <= |list| && R.Names(list, |res|)
      modifies this`res, this`log
      ensures Bank() == R.DropBack(fw, old(Bank()), list, k)
    {
      var i := k;
      while i > 0
        invariant 0 <= i <= k && |res| == |old(res)|
        invariant R.DropBack(fw, Bank(), list, i) == R.DropBack(fw, old(Bank()), list, k)
      {
        var _ := PowerOff(list[i - 1]);
        i := i - 1;
      }
    }

    method OffList(list: seq<nat>) returns (ok: bool)
      requires R.Names(list, |res|)
      modifies this`res, this`log
      ensures (Bank(), ok) == R.OffList(fw, old(Bank()), list)
    {
      var k := |list|;
      while k > 0
        invariant 0 <= k <= |list| && |res| == |old(res)|
        invariant R.OffSweep(fw, Bank(), list, k) == R.OffSweep(fw, old(Bank()), list, |list|)
      {
        ok := PowerOff(list[k - 1]);
        if !ok {
          assert R.OffSweep(fw, old(Bank()), list, |list|) == (Bank(), k);
          TakeBack(list, k);
          return;
        }
        k := k - 1;
      }
      ok := true;
    }

    method OnList(list: seq<nat>) returns (ok: bool)
      requires R.Names(list, |res|)
      modifies this`res, this`log
      ensures (Bank(), ok) == R.OnList(fw, old(Bank()), list)
    {
      var k := 0;
      while k < |list|
        invariant k <= |list| && |res| == |old(res)|
        invariant R.OnSweep(fw, Bank(), list, k) == R.OnSweep(fw, old(Bank()), list, 0)
      {
        ok := PowerOn(list[k]);
        if !ok {
          assert R.OnSweep(fw, old(Bank()), list, 0) == (Bank(), k);
          DropBack(list, k);
          return;
        }
        k := k + 1;
      }
      ok := true;
    }

    method Transition(d: nat, state: int) returns (st: D.Status)
      requires D.Good(View()) && d < |devs|
      modifies this
      ensures (View(), st) == D.Transition(fw, old(View()), d, state)
    {
      var dev := devs[d];
      if state < D.D0 || state > D.D3_COLD { return D.EInval; }
      if dev.state == state || !dev.cfg.manageable { return D.Ok; }
      if dev.state > D.D3_COLD { return D.ENodev; }
      var ok := true;
      if state < D.D3_COLD {
        ok := OnList(dev.cfg.lists[state]);
      }
      if ok && dev.state < D.D3_COLD {
        var _ := OffList(dev.cfg.lists[dev.state]);
      }
      devs := devs[d := dev.(state := if ok then state else D.UNKNOWN)];
      st := if ok then D.Ok else D.ENodev;
    }

    method Evaluate(m: R.Method) returns (ok: bool)
      modifies this`log
      ensures (Bank(), ok) == D.Evaluate(fw, old(Bank()), m)
    {
      ok := fw.succeeds(|log|);
      log := log + [R.EvalMethod(m, ok)];
    }

    method EnableWakeup(d: nat) returns (st: D.Status)
      requires D.Good(View()) && d < |devs|
      modifies this
      ensures (View(), st) == D.EnableWakeup(fw, old(View()), d)
    {
      var dev := devs[d];
      if !dev.wakeValid { return D.EInval; }
      devs := devs[d := dev.(prepareCount := dev.prepareCount + 1)];
      if dev.prepareCount > 0 { return D.Ok; }
      var list, i := dev.cfg.wakeList, 0;
      while i < |list|
        invariant i <= |list| && |res| == |old(res)|
        invariant devs == old(devs)[d := dev.(prepareCount := 1)]
        invariant D.EnableSweep(fw, Bank(), list, i) == D.EnableSweep(fw, old(Bank()), list, 0)
      {
        var r := list[i];
        if !res[r].wakeupEnabled {
          var ok := PowerOn(r);
          if !ok {
            devs := devs[d := devs[d].(wakeValid := false)];
            assert devs == old(devs)[d := dev.(prepareCount := 1, wakeValid := false)];
            return D.ENodev;
          }
          res := res[r := res[r].(wakeupEnabled := true)];
        }
        i := i + 1;
      }
      var ok := Evaluate(R.SleepWake(d, true));
      if !ok {
        devs := devs[d := devs[d].(wakeValid := false, prepareCount := 0)];
        assert devs == old(devs)[d := dev.(prepareCount := 0, wakeValid := false)];
        return D.ENodev;
      }
      st := D.Ok;
    }

    method DisableWakeup(d: nat) returns (st: D.Status)
      requires D.Good(View()) && d < |devs|
      modifies this
      ensures (View(), st) == D.DisableWakeup(fw, old(View()), d)
    {
      var dev := devs[d];
      if !dev.wakeValid { return D.EInval; }
      var count := dev.prepareCount - 1;
      if count > 0 {
        devs := devs[d := dev.(prepareCount := count)];
        return D.Ok;
      }
      devs := devs[d := dev.(prepareCount := 0)];
      var ok := Evaluate(R.SleepWake(d, false));
      if !ok {
        devs := devs[d := devs[d].(wakeValid := false)];
        assert devs == old(devs)[d := dev.(prepareCount := 0, wakeValid := false)];
        return D.ENodev;
      }
      ghost var b := Bank();
      var list, i := dev.cfg.wakeList, 0;
      while i < |list|
        invariant i <= |list| && |res| == |old(res)|
        invariant devs == old(devs)[d := dev.(prepareCount := 0)]
        invariant D.DisableSweep(fw, Bank(), list, i) == D.DisableSweep(fw, b, list, 0)
      {
        var r := list[i];
        if res[r].wakeupEnabled {
          var done := PowerOff(r);
          if !done {
            devs := devs[d := devs[d].(wakeValid := false)];
            assert devs == old(devs)[d := dev.(prepareCount := 0, wakeValid := false)];
            return D.ENodev;
          }
          res := res[r := res[r].(wakeupEnabled := false)];
        }
        i := i + 1;
      }
      st := D.Ok;
    }

    /** Also the lowest system level of the list. */
    method WakeupListInit(list: seq<nat>) returns (st: D.Status, level: nat)
      requires R.Names(list, |res|)
      modifies this`res, this`log
      ensures Bank() == D.WakeInitSweep(fw, old(Bank()), list, 0).0
      ensures st == D.Ok <==> D.WakeInitSweep(fw, old(Bank()), list, 0).1 == |list|
      ensures st == D.Ok ==> level == Lowest(systemLevel, list, |list|)
    {
      level := 5;
      for i := 0 to |list|
        invariant |res| == |old(res)|
        invariant D.WakeInitSweep(fw, Bank(), list, i) == D.WakeInitSweep(fw, old(Bank()), list, 0)
        invariant level == Lowest(systemLevel, list, i)
      {
        var r := list[i];
        var ok := fw.succeeds(|log|);
        log := log + [R.EvalSta(r, ok)];
        if !ok { return D.ENodev, level; }
        if res[r].on {
          ghost var was := res;
          SetCount(r, res[r].refCount + 1);
          res := res[r := res[r].(wakeupEnabled := true)];
          assert res == was[r := was[r].(refCount := was[r].refCount + 1, wakeupEnabled := true)];
        }
        if level > systemLevel(r) { level := systemLevel(r); }
      }
      st := D.Ok;
    }

    method ListState(list: seq<nat>) returns (on: Option<bool>)
      requires R.Names(list, |res|)
      modifies this`log
      ensures (Bank(), on) == D.ListState(fw, old(Bank()), list, 0, false)
    {
      var cur := false;
      for i := 0 to |list|
        invariant D.ListState(fw, Bank(), list, i, cur) == D.ListState(fw, old(Bank()), list, 0, false)
      {
        var ok := fw.succeeds(|log|);
        log := log + [R.EvalSta(list[i], ok)];
        if !ok { return None; }
        cur := res[list[i]].on;
        if !cur { return Some(cur); }
      }
      on := Some(cur);
    }

    method InferredState(lists: seq<seq<nat>>) returns (state: Option<nat>)
      requires |lists| == 4 && forall s :: 0 <= s < 4 ==> R.Names(lists[s], |res|)
      modifies this`log
      ensures (Bank(), state) == D.InferredState(fw, old(Bank()), lists, 0)
    {
      for i := 0 to 4
        invariant D.InferredState(fw, Bank(), lists, i) == D.InferredState(fw, old(Bank()), lists, 0)
      {
        if lists[i] != [] {
          var on := ListState(lists[i]);
          if on.None? { return None; }
          if on.value { return Some(i); }
        }
      }
      state := Some(D.D3_COLD);
    }

    /** Every resource in turn; only hardware is changed. */
    method Resume()
      modifies this`res, this`log
      ensures Bank() == PowerResume.Resume(fw, old(Bank()), 0)
    {
      for i := 0 to |res|
        invariant |res| == |old(res)|
        invariant PowerResume.Resume(fw, Bank(), i) == PowerResume.Resume(fw, old(Bank()), 0)
      {
        ghost var was := res;
        var ok := fw.succeeds(|log|);
        log := log + [R.EvalSta(i, ok)];
        if ok {
          if !res[i].on && res[i].refCount > 0 {
            var done := fw.succeeds(|log|);
            log := log + [R.EvalOn(i, done)];
            if done { res := res[i := res[i].(on := true)]; }
            assert res == was[i := was[i].(on := if done then true else was[i].on)];
          } else if res[i].on && res[i].refCount == 0 {
            var done := fw.succeeds(|log|);
            log := log + [R.EvalOff(i, done)];
            if done { res := res[i := res[i].(on := false)]; }
            assert res == was[i := was[i].(on := if done then false else was[i].on)];
          }
        }
      }
    }

    // -------------------------------------------------------------- device_pm.c

    method GetPower(d: nat) returns (state: Option<nat>)
      requires D.Good(View()) && d < |devs|
      modifies this`log, this`devs
      ensures (View(), state) == D.GetPower(fw, old(View()), d)
    {
      var c := devs[d].cfg;
      if !c.manageable {
        return Some(if c.parent.Some? then devs[c.parent.value].state else D.D0);
      }
      var result := D.UNKNOWN;
      if c.powerResources {
        var inferred := InferredState(c.lists);
        if inferred.None? { return None; }
        result := inferred.value;
      }
      if c.explicitGet {
        var psc := fw.value(|log|);
        var ok := Evaluate(R.Psc(d));
        if !ok { return None; }
        if psc > result && psc < D.D3_COLD {
          result := psc;
        } else if result == D.UNKNOWN {
          result := if psc > 2 then D.D3_COLD else psc;
        }
      }
      if c.parent.Some? && devs[c.parent.value].state == D.UNKNOWN && result == D.D0 {
        devs := devs[c.parent.value := devs[c.parent.value].(state := D.D0)];
      }
      state := Some(result);
    }

    method ExplicitSet(d: nat, state: nat) returns (ok: bool)
      requires D.Good(View()) && d < |devs| && state <= D.D3_COLD
      modifies this`log
      ensures (View(), ok) == D.ExplicitSet(fw, old(View()), d, state)
    {
      ok := true;
      if devs[d].cfg.explicitSet[state] {
        ok := Evaluate(R.Ps(d, state));
      }
    }

    /** Applies power, evaluates _PSx and records the state. */
    method Enter(d: nat, state: nat) returns (st: D.Status)
      requires D.Good(View()) && d < |devs| && state <= D.D3_COLD
      modifies this
      ensures (View(), st) == D.Enter(fw, old(View()), d, state)
    {
      if devs[d].cfg.powerResources {
        st := Transition(d, state);
        if st != D.Ok { return; }
      }
      var ok := ExplicitSet(d, state);
      if !ok { return D.ENodev; }
      devs := devs[d := devs[d].(state := state)];
      st := D.Ok;
    }

    method SetPower(d: nat, target: int) returns (st: D.Status)
      requires D.Good(View()) && d < |devs|
      modifies this
      ensures (View(), st) == D.SetPower(fw, old(View()), d, target)
      ensures !(0 <= target <= 4) ==> st == D.EInval && View() == old(View())
      ensures 0 <= target <= 4 && target != old(devs[d].state)
              && (PowerOutcomes.Barred(old(View()), d, target) || PowerOutcomes.Adrift(old(devs[d]))) ==>
                st == D.ENodev && View() == old(View())
    {
      PowerOutcomes.SetPowerRefuses(fw, View(), d, target);
      var dev := devs[d];
      var c := dev.cfg;
      var state, cut := target, false;
      if target < D.D0 || target > D.D3_COLD { return D.EInval; }
      if target == dev.state { return D.Ok; }
      if !c.valid[target] { return D.ENodev; }
      if c.parent.Some? && target < devs[c.parent.value].state { return D.ENodev; }
      if target == D.D3_COLD && c.coldAccessible {
        state, cut := D.D3_HOT, true;
      }
      if state < dev.state && state != D.D0 && dev.state >= D.D3_HOT { return D.ENodev; }
      assert D.Objection(View(), d, target) == None && state == D.FirstState(c, target);
      st := Enter(d, state);
      if st == D.Ok && cut {
        st := Transition(d, D.D3_COLD);
        if st == D.Ok { devs := devs[d := devs[d].(state := D.D3_COLD)]; }
      }
    }

    method InitPower(d: nat) returns (st: D.Status)
      requires D.Good(View()) && d < |devs|
      modifies this
      ensures (View(), st) == D.InitPower(fw, old(View()), d)
      ensures old(devs[d].cfg.parent) != Some(d) ==>
                var seen := D.GetPower(fw, D.WithState(old(View()), d, 255), d).1;
                && |devs| == |old(devs)| && (st == D.Ok || st == D.ENodev) && (st == D.Ok ==> seen.Some?)
                && devs[d].state == if st == D.Ok then PowerReadings.Assumed(seen.value) else 255
    {
      if devs[d].cfg.parent != Some(d) { PowerReadings.InitPowerRecords(fw, View(), d); }
      var c := devs[d].cfg;
      devs := devs[d := devs[d].(state := D.UNKNOWN)];
      var seen := GetPower(d);
      if seen.None? { return D.ENodev; }
      var state := seen.value;
      if state < D.D3_COLD && c.powerResources {
        var ok := OnList(c.lists[state]);
        if !ok { return D.ENodev; }
        ok := ExplicitSet(d, state);
        if !ok { return D.ENodev; }
      } else if state == D.UNKNOWN {
        state := D.D0;
      }
      devs := devs[d := devs[d].(state := state)];
      st := D.Ok;
    }

    method UpdatePower(d: nat) returns (st: D.Status)
      requires D.Good(View()) && d < |devs|
      modifies this
      ensures (View(), st) == D.UpdatePower(fw, old(View()), d)
      ensures var seen := D.GetPower(fw, old(View()), d).1;
              && |devs| == |old(devs)|
              && (st == D.Ok ==> seen.Some? && devs[d].state == PowerReadings.Assumed(seen.value))
    {
      PowerReadings.UpdatePowerRecords(fw, View(), d);
      var seen := GetPower(d);
      if seen.None? { return D.ENodev; }
      if seen.value == D.UNKNOWN {
        st := SetPower(d, D.D0);
        return;
      }
      if devs[d].cfg.powerResources {
        st := Transition(d, seen.value);
        if st != D.Ok { return; }
      }
      devs := devs[d := devs[d].(state := seen.value)];
      st := D.Ok;
    }

    // --------------------------------------------------------------------- runs

    /** Any one step, in place: the ledger is kept. */
    method Do(e: D.Event)
      requires D.Good(View())
      modifies this
      ensures View() == D.Step(fw, old(View()), e)
      ensures old(Sound()) ==> Sound()
    {
      if Sound() { L.StepSafe(fw, View(), e); }
      if e.d >= |devs| { return; }
      match e
      case DoTransition(d, state) => var _ := Transition(d, state);
      case DoSet(d, state) => var _ := SetPower(d, state);
      case DoInit(d) => var _ := InitPower(d);
      case DoUpdate(d) => var _ := UpdatePower(d);
      case DoGet(d) => var _ := GetPower(d);
      case DoEnableWakeup(d) => var _ := EnableWakeup(d);
      case DoDisableWakeup(d) => var _ := DisableWakeup(d);
      case DoWakeupInit(d) =>
        var _, _ := WakeupListInit(devs[d].cfg.wakeList);
    }

    /** Any run, in place: the ledger holds at its end. */
    method Perform(es: seq<D.Event>)
      requires D.Good(View())
      modifies this
      ensures View() == D.Run(fw, old(View()), es)
      ensures old(Sound()) ==> Sound()
    {
      for i := 0 to |es|
        invariant D.Good(View()) && (old(Sound()) ==> Sound())
        invariant D.Run(fw, View(), es[i..]) == D.Run(fw, old(View()), es)
      {
        assert es[i..][1..] == es[i + 1..];
        Do(es[i]);
      }
    }
  }
}
