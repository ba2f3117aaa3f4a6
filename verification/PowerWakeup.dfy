/**
  Enabling and disabling wakeup of a device, told by what is left behind: the
  marks, the method evaluated, the prepare count and its nesting
  (drivers/acpi/power.c:555-759).
  */
module PowerWakeup {
  import opened Wrappers
  import opened PowerResources
  import opened DevicePower
  import opened PowerLedger
  import opened PowerSteps

  /** Every resource of the list has the given mark. */
  predicate Marked(b: Bank, list: seq<nat>, wake: bool)
    requires Names(list, |b.res|)
  {
    forall i :: 0 <= i < |list| ==> b.res[list[i]].wakeupEnabled == wake
  }

  lemma {:induction false} EnableSweepAll(fw: Firmware, b: Bank, list: seq<nat>, i: nat)
    requires i <= |list| && Names(list, |b.res|) && (forall j :: 0 <= j < i ==> b.res[list[j]].wakeupEnabled)
    ensures var (b1, k) := EnableSweep(fw, b, list, i);
            && b.log <= b1.log && k <= |list| && (k == |list| ==> Marked(b1, list, true))
            && (k < |list| ==> Logged(b1.log, |b.log|, EvalOn(list[k], false)))
            && (k == |list| ==> forall r :: !Logged(b1.log, |b.log|, EvalOn(r, false)))
    decreases |list| - i
  {
    if i < |list| {
      if b.res[list[i]].wakeupEnabled {
        EnableSweepAll(fw, b, list, i + 1);
      } else {
        var (b1, ok) := PowerOn(fw, b, list[i]);
        if ok {
          var b2 := Mark(b1, list[i], true);
          EnableSweepAll(fw, b2, list, i + 1);
          var (b3, k) := EnableSweep(fw, b2, list, i + 1);
          forall r ensures Logged(b3.log, |b.log|, EvalOn(r, false)) <==> Logged(b3.log, |b2.log|, EvalOn(r, false)) {
            LoggedSplit(b.log, b2.log, b3.log, EvalOn(r, false));
          }
        } else {
          assert b1.log[|b.log| + 1] == EvalOn(list[i], false);
        }
      }
    }
  }

  lemma {:induction false} DisableSweepAll(fw: Firmware, b: Bank, list: seq<nat>, i: nat)
    requires i <= |list| && Names(list, |b.res|) && (forall j :: 0 <= j < i ==> !b.res[list[j]].wakeupEnabled)
    ensures var (b1, k) := DisableSweep(fw, b, list, i);
            && b.log <= b1.log && k <= |list| && (k == |list| ==> Marked(b1, list, false))
            && (k < |list| ==> Logged(b1.log, |b.log|, EvalOff(list[k], false)))
            && (k == |list| ==> forall r :: !Logged(b1.log, |b.log|, EvalOff(r, false)))
    decreases |list| - i
  {
    if i < |list| {
      if !b.res[list[i]].wakeupEnabled {
        DisableSweepAll(fw, b, list, i + 1);
      } else {
        var (b1, ok) := PowerOff(fw, b, list[i]);
        if ok {
          var b2 := Mark(b1, list[i], false);
          DisableSweepAll(fw, b2, list, i + 1);
          var (b3, k) := DisableSweep(fw, b2, list, i + 1);
          forall r ensures Logged(b3.log, |b.log|, EvalOff(r, false)) <==> Logged(b3.log, |b2.log|, EvalOff(r, false)) {
            LoggedSplit(b.log, b2.log, b3.log, EvalOff(r, false));
          }
        } else {
          assert b1.log[|b.log| + 1] == EvalOff(list[i], false);
        }
      }
    }
  }

  /**
    Enabling a device that is not yet prepared, whatever fails: success marks
    every listed resource and then evaluates `_DSW`; if a resource does not go
    on, `_DSW` is not evaluated and the device stays counted as prepared; if
    `_DSW` fails, it does not.  Either failure invalidates wakeup.
    */
  lemma EnableOutcome(fw: Firmware, p: Platform, d: nat)
    requires Good(p) && d < |p.devs| && p.devs[d].wakeValid && p.devs[d].prepareCount == 0
    ensures var (p1, st) := EnableWakeup(fw, p, d);
            var dev, log, list := p.devs[d], p1.bank.log, p.devs[d].cfg.wakeList;
            var failed := exists r :: Logged(log, |p.bank.log|, EvalOn(r, false));
            && p.bank.log <= log && (st == Ok || st == ENodev)
            && (failed ==> st == ENodev && p1.devs == p.devs[d := dev.(prepareCount := 1, wakeValid := false)])
            && (!failed ==>
                  && |log| > |p.bank.log| && Names(list, |p1.bank.res|) && Marked(p1.bank, list, true)
                  && log[|log| - 1] == EvalMethod(SleepWake(d, true), st == Ok)
                  && p1.devs == p.devs[d := if st == Ok then dev.(prepareCount := 1) else dev.(wakeValid := false)])
  {
    var list := p.devs[d].cfg.wakeList;
    EnableSweepAll(fw, p.bank, list, 0);
    var (b1, k) := EnableSweep(fw, p.bank, list, 0);
    if k == |list| {
      var b2 := Evaluate(fw, b1, SleepWake(d, true)).0;
      forall r ensures !Logged(b2.log, |p.bank.log|, EvalOn(r, false)) {
        LoggedSplit(p.bank.log, b1.log, b2.log, EvalOn(r, false));
      }
    }
  }

  /**
    Disabling a device for the last time, whatever fails: `_DSW` is evaluated
    first, and only its success lets resources go; success leaves no listed
    resource marked.  Any failure invalidates wakeup.
    */
  lemma DisableOutcome(fw: Firmware, p: Platform, d: nat)
    requires Good(p) && d < |p.devs| && p.devs[d].wakeValid && p.devs[d].prepareCount <= 1
    ensures var (p1, st) := DisableWakeup(fw, p, d);
            var dev, log, list := p.devs[d], p1.bank.log, p.devs[d].cfg.wakeList;
            var off := exists r :: Logged(log, |p.bank.log| + 1, EvalOff(r, false));
            && p.bank.log < log && log[|p.bank.log|].EvalMethod? && log[|p.bank.log|].m == SleepWake(d, false)
            && (st == Ok <==> log[|p.bank.log|].ok && !off) && (st == Ok || st == ENodev)
            && (!log[|p.bank.log|].ok ==> p1.bank.res == p.bank.res && |log| == |p.bank.log| + 1)
            && (st == Ok ==> Names(list, |p1.bank.res|) && Marked(p1.bank, list, false))
            && p1.devs == p.devs[d := if st == Ok then dev.(prepareCount := 0) else dev.(prepareCount := 0, wakeValid := false)]
  {
    var list, b1 := p.devs[d].cfg.wakeList, Evaluate(fw, p.bank, SleepWake(d, false)).0;
    assert b1.log[|p.bank.log|] == EvalMethod(SleepWake(d, false), fw.succeeds(|p.bank.log|));
    DisableSweepAll(fw, b1, list, 0);
  }

  /** Inner calls only count: nothing is evaluated, and a device whose wakeup is invalid is refused. */
  lemma InnerCalls(fw: Firmware, p: Platform, d: nat)
    requires Good(p) && d < |p.devs|
    ensures !p.devs[d].wakeValid ==> EnableWakeup(fw, p, d) == (p, EInval) && DisableWakeup(fw, p, d) == (p, EInval)
    ensures p.devs[d].wakeValid && p.devs[d].prepareCount > 0 ==>
              EnableWakeup(fw, p, d) == (p.(devs := p.devs[d := p.devs[d].(prepareCount := p.devs[d].prepareCount + 1)]), Ok)
    ensures p.devs[d].wakeValid && p.devs[d].prepareCount > 1 ==>
              DisableWakeup(fw, p, d) == (p.(devs := p.devs[d := p.devs[d].(prepareCount := p.devs[d].prepareCount - 1)]), Ok)
  {
  }

  // --------------------------------------------------------------------- nesting

  function Enables(fw: Firmware, p: Platform, d: nat, n: nat): (p1: Platform)
    requires Good(p) && d < |p.devs|
    ensures Same(p, p1) && Good(p1)
  {
    if n == 0 then p else EnableWakeup(fw, Enables(fw, p, d, n - 1), d).0
  }

  function Disables(fw: Firmware, p: Platform, d: nat, n: nat): (p1: Platform)
    requires Good(p) && d < |p.devs|
    ensures Same(p, p1) && Good(p1)
    decreases n
  {
    if n == 0 then p else Disables(fw, DisableWakeup(fw, p, d).0, d, n - 1)
  }

  /** `p` with another prepare count of `d`. */
  function Prepared(p: Platform, d: nat, n: nat): (p1: Platform)
    requires Good(p) && d < |p.devs|
    ensures Same(p, p1) && Good(p1)
  {
    p.(devs := p.devs[d := p.devs[d].(prepareCount := n)])
  }

  lemma PreparedTwice(p: Platform, d: nat, m: nat, n: nat)
    requires Good(p) && d < |p.devs|
    ensures Prepared(Prepared(p, d, m), d, n) == Prepared(p, d, n)
    ensures Prepared(p, d, p.devs[d].prepareCount) == p
  {
    var dev := p.devs[d];
    assert p.devs[d := dev.(prepareCount := m)][d := dev.(prepareCount := n)] == p.devs[d := dev.(prepareCount := n)];
    assert p.devs[d := dev] == p.devs;
  }

  /** Of nested calls only the first enables: the rest raise the count. */
  lemma {:induction false} EnablesCount(fw: Firmware, p: Platform, d: nat, n: nat)
    requires Good(p) && d < |p.devs| && n > 0
    requires EnableWakeup(fw, p, d).1 == Ok && p.devs[d].wakeValid && p.devs[d].prepareCount == 0
    ensures Enables(fw, p, d, n) == Prepared(EnableWakeup(fw, p, d).0, d, n)
    decreases n
  {
    var first := EnableWakeup(fw, p, d).0;
    EnableOutcome(fw, p, d);
    assert Enables(fw, p, d, 0) == p;
    if n == 1 {
      PreparedTwice(first, d, 1, 1);
    } else {
      EnablesCount(fw, p, d, n - 1);
      InnerCalls(fw, Prepared(first, d, n - 1), d);
      PreparedTwice(first, d, n - 1, n);
    }
  }

  /** Of nested calls only the last disables: the others lower the count. */
  lemma {:induction false} DisablesCount(fw: Firmware, p: Platform, d: nat, n: nat)
    requires Good(p) && d < |p.devs| && n > 0 && p.devs[d].wakeValid
    ensures Disables(fw, Prepared(p, d, n), d, n) == DisableWakeup(fw, Prepared(p, d, 1), d).0
    decreases n
  {
    if n == 1 {
      assert Disables(fw, DisableWakeup(fw, Prepared(p, d, 1), d).0, d, 0) == DisableWakeup(fw, Prepared(p, d, 1), d).0;
    } else {
      InnerCalls(fw, Prepared(p, d, n), d);
      PreparedTwice(p, d, n, n - 1);
      DisablesCount(fw, p, d, n - 1);
    }
  }

  /**
    Nesting: after a first enable that succeeds, any number of enables followed
    by as many disables leave exactly what one of each leaves.
    */
  lemma NestedBracket(fw: Firmware, p: Platform, d: nat, n: nat)
    requires Good(p) && d < |p.devs| && n > 0
    requires EnableWakeup(fw, p, d).1 == Ok && p.devs[d].prepareCount == 0
    ensures Disables(fw, Enables(fw, p, d, n), d, n) == Bracket(fw, p, d)
  {
    InnerCalls(fw, p, d);
    EnableOutcome(fw, p, d);
    EnablesCount(fw, p, d, n);
    var first := EnableWakeup(fw, p, d).0;
    DisablesCount(fw, first, d, n);
    PreparedTwice(first, d, 1, 1);
  }

  // -------------------------------------------------------------- initialisation

  /** Initialising a wakeup list goes through it exactly when no `_STA` fails. */
  lemma {:induction false} WakeInitFails(fw: Firmware, b: Bank, list: seq<nat>, i: nat)
    requires i <= |list| && Names(list, |b.res|)
    ensures var (b1, k) := WakeInitSweep(fw, b, list, i);
            && b.log <= b1.log && k <= |list|
            && (k < |list| <==> exists r :: Logged(b1.log, |b.log|, EvalSta(r, false)))
    decreases |list| - i
  {
    if i < |list| {
      var r, ok := list[i], fw.succeeds(|b.log|);
      var b1 := b.(log := b.log + [EvalSta(r, ok)]);
      assert b1.log[|b.log|] == EvalSta(r, ok);
      if ok {
        var n := b.res[r].refCount + 1;
        var b2 := if b.res[r].on then Bank(b1.res[r := b.res[r].(refCount := n, wakeupEnabled := true)], b1.log + [Count(r, n)]) else b1;
        WakeInitFails(fw, b2, list, i + 1);
        var b3 := WakeInitSweep(fw, b2, list, i + 1).0;
        forall x ensures Logged(b3.log, |b.log|, EvalSta(x, false)) <==> Logged(b3.log, |b2.log|, EvalSta(x, false)) {
          LoggedSplit(b.log, b2.log, b3.log, EvalSta(x, false));
        }
      } else {
        assert Logged(b1.log, |b.log|, EvalSta(r, false));
      }
    }
  }
}
