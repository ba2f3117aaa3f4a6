/**
  Where promotion of a parent can do no harm although the parent needs
  resources (drivers/acpi/device_pm.c:118-125, 178): a parent that depends on a
  single resource which only it and its children use.  While the parent is
  unknown that resource is off, its children cannot be powered up, and so none
  of them is ever found in D0.
  */
module PowerShelter {
  import opened Wrappers
  import opened PowerResources
  import opened DevicePower
  import opened PowerLedger
  import opened PowerResume
  import opened PowerSteps
  import opened PowerSteady

  /** What drivers and the core call once a device has been enumerated; a bare transition is not among it. */
  predicate Call(e: Event) {
    !e.DoTransition? && !e.DoInit? && !e.DoWakeupInit?
  }

  predicate Calls(es: seq<Event>) {
    forall i :: 0 <= i < |es| ==> Call(es[i])
  }

  // -------------------------------------------------------- what is left alone

  lemma {:induction false} OnSweepSkips(fw: Firmware, b: Bank, list: seq<nat>, i: nat, r: nat)
    requires i <= |list| && Names(list, |b.res|) && r < |b.res| && r !in list
    ensures OnSweep(fw, b, list, i).0.res[r] == b.res[r]
    decreases |list| - i
  {
    if i < |list| {
      var (b1, ok) := PowerOn(fw, b, list[i]);
      if ok { OnSweepSkips(fw, b1, list, i + 1, r); }
    }
  }

  lemma {:induction false} DropBackSkips(fw: Firmware, b: Bank, list: seq<nat>, k: nat, r: nat)
    requires k <= |list| && Names(list, |b.res|) && r < |b.res| && r !in list
    ensures DropBack(fw, b, list, k).res[r] == b.res[r]
    decreases k
  {
    if k > 0 { DropBackSkips(fw, PowerOff(fw, b, list[k - 1]).0, list, k - 1, r); }
  }

  lemma {:induction false} OffSweepSkips(fw: Firmware, b: Bank, list: seq<nat>, k: nat, r: nat)
    requires k <= |list| && Names(list, |b.res|) && r < |b.res| && r !in list
    ensures OffSweep(fw, b, list, k).0.res[r] == b.res[r]
    decreases k
  {
    if k > 0 {
      var (b1, ok) := PowerOff(fw, b, list[k - 1]);
      if ok { OffSweepSkips(fw, b1, list, k - 1, r); }
    }
  }

  lemma {:induction false} TakeBackSkips(fw: Firmware, b: Bank, list: seq<nat>, i: nat, r: nat)
    requires i <= |list| && Names(list, |b.res|) && r < |b.res| && r !in list
    ensures TakeBack(fw, b, list, i).res[r] == b.res[r]
    decreases |list| - i
  {
    if i < |list| { TakeBackSkips(fw, PowerOn(fw, b, list[i]).0, list, i + 1, r); }
  }

  lemma ExchangeSkips(fw: Firmware, b: Bank, take: seq<nat>, drop: seq<nat>, r: nat)
    requires Names(take, |b.res|) && Names(drop, |b.res|) && r < |b.res| && r !in take && r !in drop
    ensures Exchange(fw, b, take, drop).0.res[r] == b.res[r]
  {
    OnSweepSkips(fw, b, take, 0, r);
    var (b0, k) := OnSweep(fw, b, take, 0);
    DropBackSkips(fw, b0, take, k, r);
    var (b1, ok) := OnList(fw, b, take);
    if ok {
      OffSweepSkips(fw, b1, drop, |drop|, r);
      var (b2, j) := OffSweep(fw, b1, drop, |drop|);
      TakeBackSkips(fw, b2, drop, j, r);
    }
  }

  lemma TransitionSkips(fw: Firmware, p: Platform, d: nat, state: int, r: nat)
    requires Good(p) && d < |p.devs| && r < |p.bank.res|
    requires r !in ListOf(p.devs[d].cfg, p.devs[d].state) && (state >= 0 ==> r !in ListOf(p.devs[d].cfg, state))
    ensures Transition(fw, p, d, state).0.bank.res[r] == p.bank.res[r]
  {
    var dev := p.devs[d];
    if D0 <= state <= D3_COLD { ExchangeSkips(fw, p.bank, ListOf(dev.cfg, state), ListOf(dev.cfg, dev.state), r); }
  }

  /** No D-state of the device needs `r`. */
  predicate NeedsNot(c: Config, r: nat)
    requires |c.lists| == 4
  {
    forall s :: 0 <= s < 4 ==> r !in c.lists[s]
  }

  lemma EnterSkips(fw: Firmware, p: Platform, d: nat, state: nat, r: nat)
    requires Good(p) && d < |p.devs| && state <= D3_COLD && r < |p.bank.res| && NeedsNot(p.devs[d].cfg, r)
    ensures Enter(fw, p, d, state).0.bank.res[r] == p.bank.res[r]
  {
    TransitionSkips(fw, p, d, state, r);
  }

  lemma SetPowerSkips(fw: Firmware, p: Platform, d: nat, target: int, r: nat)
    requires Good(p) && d < |p.devs| && r < |p.bank.res| && NeedsNot(p.devs[d].cfg, r)
    ensures SetPower(fw, p, d, target).0.bank.res[r] == p.bank.res[r]
  {
    if Objection(p, d, target).None? {
      var state := FirstState(p.devs[d].cfg, target);
      var (p1, st) := Enter(fw, p, d, state);
      EnterSkips(fw, p, d, state, r);
      TransitionSkips(fw, p1, d, D3_COLD, r);
    }
  }

  lemma {:induction false} EnableSweepSkips(fw: Firmware, b: Bank, list: seq<nat>, i: nat, r: nat)
    requires i <= |list| && Names(list, |b.res|) && r < |b.res| && r !in list
    ensures EnableSweep(fw, b, list, i).0.res[r] == b.res[r]
    decreases |list| - i
  {
    if i < |list| {
      if b.res[list[i]].wakeupEnabled {
        EnableSweepSkips(fw, b, list, i + 1, r);
      } else {
        var (b1, ok) := PowerOn(fw, b, list[i]);
        if ok { EnableSweepSkips(fw, Mark(b1, list[i], true), list, i + 1, r); }
      }
    }
  }

  lemma {:induction false} DisableSweepSkips(fw: Firmware, b: Bank, list: seq<nat>, i: nat, r: nat)
    requires i <= |list| && Names(list, |b.res|) && r < |b.res| && r !in list
    ensures DisableSweep(fw, b, list, i).0.res[r] == b.res[r]
    decreases |list| - i
  {
    if i < |list| {
      if !b.res[list[i]].wakeupEnabled {
        DisableSweepSkips(fw, b, list, i + 1, r);
      } else {
        var (b1, ok) := PowerOff(fw, b, list[i]);
        if ok { DisableSweepSkips(fw, Mark(b1, list[i], false), list, i + 1, r); }
      }
    }
  }

  lemma WakeupSkips(fw: Firmware, p: Platform, d: nat, r: nat)
    requires Good(p) && d < |p.devs| && r < |p.bank.res| && r !in p.devs[d].cfg.wakeList
    ensures EnableWakeup(fw, p, d).0.bank.res[r] == p.bank.res[r]
    ensures DisableWakeup(fw, p, d).0.bank.res[r] == p.bank.res[r]
  {
    EnableSweepSkips(fw, p.bank, p.devs[d].cfg.wakeList, 0, r);
    DisableSweepSkips(fw, Evaluate(fw, p.bank, SleepWake(d, false)).0, p.devs[d].cfg.wakeList, 0, r);
  }

  // ------------------------------------------------------- off when not counted

  lemma TransitionDark(fw: Firmware, p: Platform, d: nat, state: int, r: nat)
    requires Good(p) && d < |p.devs| && r < |p.bank.res| && Dark(p.bank, r)
    ensures Dark(Transition(fw, p, d, state).0.bank, r)
  {
    var dev := p.devs[d];
    if D0 <= state <= D3_COLD { ExchangeLaw(fw, p.bank, ListOf(dev.cfg, state), ListOf(dev.cfg, dev.state), r); }
  }

  lemma SetPowerDark(fw: Firmware, p: Platform, d: nat, target: int, r: nat)
    requires Good(p) && d < |p.devs| && r < |p.bank.res| && Dark(p.bank, r)
    ensures Dark(SetPower(fw, p, d, target).0.bank, r)
  {
    if Objection(p, d, target).None? {
      var state := FirstState(p.devs[d].cfg, target);
      TransitionDark(fw, p, d, state, r);
      var (p1, st) := Enter(fw, p, d, state);
      assert Dark(p1.bank, r);
      TransitionDark(fw, p1, d, D3_COLD, r);
    }
  }

  lemma UpdatePowerDark(fw: Firmware, p: Platform, d: nat, r: nat)
    requires Good(p) && d < |p.devs| && r < |p.bank.res| && Dark(p.bank, r)
    ensures Dark(UpdatePower(fw, p, d).0.bank, r)
  {
    var (p1, seen) := GetPower(fw, p, d);
    assert p1.bank.res == p.bank.res;
    if seen.Some? {
      if seen.value == UNKNOWN { SetPowerDark(fw, p1, d, D0, r); } else { TransitionDark(fw, p1, d, seen.value, r); }
    }
  }

  // ------------------------------------------------------------- failing parents

  /** Every entry is `x`. */
  predicate OnlyOf(list: seq<nat>, x: nat) {
    forall i :: 0 <= i < |list| ==> list[i] == x
  }

  lemma {:induction false} CountedTakesAll(fw: Firmware, b: Bank, list: seq<nat>, i: nat, x: nat)
    requires i <= |list| && Names(list, |b.res|) && x < |b.res| && OnlyOf(list, x) && b.res[x].refCount > 0
    ensures OnSweep(fw, b, list, i).1 == |list|
    decreases |list| - i
  {
    if i < |list| { CountedTakesAll(fw, PowerOn(fw, b, list[i]).0, list, i + 1, x); }
  }

  /** A list of one resource can fail only at its first entry. */
  lemma FailsDry(fw: Firmware, b: Bank, list: seq<nat>, x: nat)
    requires Names(list, |b.res|) && x < |b.res| && OnlyOf(list, x) && !OnList(fw, b, list).1
    ensures OnList(fw, b, list).0.res[x].refCount == 0
  {
    var (b1, ok) := PowerOn(fw, b, list[0]);
    if ok { CountedTakesAll(fw, b1, list, 1, x); }
  }

  /** A device all of whose lists name `x` alone becomes unknown only with `x` off. */
  lemma TransitionDry(fw: Firmware, p: Platform, q: nat, state: int, x: nat)
    requires Good(p) && q < |p.devs| && x < |p.bank.res| && p.devs[q].state != UNKNOWN
    requires forall s :: 0 <= s < 4 ==> OnlyOf(p.devs[q].cfg.lists[s], x)
    ensures var p1 := Transition(fw, p, q, state).0;
            p1.devs[q].state == UNKNOWN ==> p1.bank.res[x].refCount == 0
  {
    var dev := p.devs[q];
    if D0 <= state <= D3_COLD && !OnList(fw, p.bank, ListOf(dev.cfg, state)).1 {
      FailsDry(fw, p.bank, ListOf(dev.cfg, state), x);
    }
  }

  lemma CutNeverFails(fw: Firmware, p: Platform, q: nat)
    requires Good(p) && q < |p.devs| && p.devs[q].state != UNKNOWN
    ensures CutPower(fw, p, q).0.devs[q].state != UNKNOWN
  {
    assert OnList(fw, p.bank, []) == (p.bank, true);
  }

  lemma EnterDry(fw: Firmware, p: Platform, q: nat, state: nat, x: nat)
    requires Good(p) && q < |p.devs| && x < |p.bank.res| && p.devs[q].state != UNKNOWN && state <= D3_COLD
    requires forall s :: 0 <= s < 4 ==> OnlyOf(p.devs[q].cfg.lists[s], x)
    ensures var (p1, st) := Enter(fw, p, q, state);
            p1.devs[q].state == UNKNOWN ==> st != Ok && p1.bank.res[x].refCount == 0
  {
    TransitionDry(fw, p, q, state, x);
  }

  lemma SetPowerDry(fw: Firmware, p: Platform, q: nat, target: int, x: nat)
    requires Good(p) && q < |p.devs| && x < |p.bank.res| && p.devs[q].state != UNKNOWN
    requires forall s :: 0 <= s < 4 ==> OnlyOf(p.devs[q].cfg.lists[s], x)
    ensures var p1 := SetPower(fw, p, q, target).0;
            p1.devs[q].state == UNKNOWN ==> p1.bank.res[x].refCount == 0
  {
    if Objection(p, q, target).None? {
      var state := FirstState(p.devs[q].cfg, target);
      EnterDry(fw, p, q, state, x);
      var (p1, st) := Enter(fw, p, q, state);
      if st == Ok { CutNeverFails(fw, p1, q); }
    }
  }

  /** An unknown device with power resources cannot be set to any state. */
  lemma UnknownIsStuck(fw: Firmware, p: Platform, q: nat, target: int)
    requires Good(p) && q < |p.devs| && p.devs[q].state == UNKNOWN && p.devs[q].cfg.manageable && p.devs[q].cfg.powerResources
    ensures SetPower(fw, p, q, target).0 == p
  {
  }

  /** No child of an unknown device can be set to another state. */
  lemma ChildIsStuck(fw: Firmware, p: Platform, c: nat, target: int, q: nat)
    requires Good(p) && c < |p.devs| && q < |p.devs| && p.devs[c].cfg.parent == Some(q) && p.devs[q].state == UNKNOWN
    ensures SetPower(fw, p, c, target).0 == p
  {
  }

  // ------------------------------------------------------------------ sheltered

  /** Reading the state of `d` may promote `q`, which needs something in D0. */
  predicate Pair(devs: seq<Device>, d: nat, q: nat)
    requires Listed(devs)
  {
    d < |devs| && q < |devs| && devs[d].cfg.parent == Some(q) && CanReportD0(devs[d].cfg) && devs[q].cfg.lists[D0] != []
  }

  /** The resource `q` stands on. */
  function Key(devs: seq<Device>, q: nat): nat
    requires Listed(devs) && q < |devs| && devs[q].cfg.lists[D0] != []
  {
    devs[q].cfg.lists[D0][0]
  }

  /** All of `q` stands on one resource, only its family uses it, and only as inference can see. */
  predicate Own(devs: seq<Device>, q: nat, x: nat)
    requires Listed(devs) && q < |devs|
  {
    && (forall s :: 0 <= s < 4 ==> OnlyOf(devs[q].cfg.lists[s], x))
    && (forall e :: 0 <= e < |devs| ==> x !in devs[e].cfg.wakeList)
    && (forall e :: 0 <= e < |devs| && e != q && devs[e].cfg.parent != Some(q) ==> NeedsNot(devs[e].cfg, x))
    && (forall e :: 0 <= e < |devs| && devs[e].cfg.parent == Some(q) && devs[e].cfg.explicitGet ==>
          forall s :: 1 <= s < 4 ==> x !in devs[e].cfg.lists[s])
  }

  /** Every parent that may be promoted stands on its own resource, which every child that may promote it needs in D0, too. */
  ghost predicate Sheltered(devs: seq<Device>)
    requires Listed(devs)
  {
    forall d: nat, q: nat :: Pair(devs, d, q) ==> Own(devs, q, Key(devs, q)) && Key(devs, q) in devs[d].cfg.lists[D0]
  }

  /** While the parent is unknown its resource is off. */
  predicate Quiet(p: Platform, q: nat, x: nat) {
    q < |p.devs| && x < |p.bank.res| && Dark(p.bank, x) && (p.devs[q].state == UNKNOWN ==> p.bank.res[x].refCount == 0)
  }

  /** A device is not found in a state that needs a resource which is off. */
  lemma ObserveAvoids(fw: Firmware, b: Bank, c: Config, d: nat, x: nat)
    requires |c.lists| == 4 && (forall s :: 0 <= s < 4 ==> Names(c.lists[s], |b.res|)) && x < |b.res| && !b.res[x].on
    requires c.explicitGet ==> forall s :: 1 <= s < 4 ==> x !in c.lists[s]
    requires c.powerResources && Observe(fw, b, c, d).1.Some?
    ensures x !in ListOf(c, Observe(fw, b, c, d).1.value)
  {
    InferredIsPowered(fw, b, c.lists, 0);
  }

  lemma ShelteredIsHarmless(fw: Firmware, p: Platform, d: nat)
    requires Good(p) && d < |p.devs| && Sheltered(p.devs)
    requires forall c: nat, q: nat :: Pair(p.devs, c, q) ==> Quiet(p, q, Key(p.devs, q))
    ensures Harmless(fw, p, d)
  {
    var c := p.devs[d].cfg;
    if c.manageable && c.parent.Some? && p.devs[c.parent.value].state == UNKNOWN && GetPower(fw, p, d).1 == Some(D0)
       && p.devs[c.parent.value].cfg.lists[D0] != [] {
      OnlyReporters(fw, p, d);
      var q := c.parent.value;
      assert Pair(p.devs, d, q);
      var x := Key(p.devs, q);
      assert Quiet(p, q, x) && x in c.lists[D0];
      ObserveAvoids(fw, p.bank, c, d, x);
      assert false;
    }
  }

  lemma GetPowerPromotes(fw: Firmware, p: Platform, d: nat)
    requires Good(p) && d < |p.devs| && Harmless(fw, p, d)
    ensures var p1 := GetPower(fw, p, d).0;
            && p1.bank.res == p.bank.res
            && forall q :: 0 <= q < |p.devs| && p.devs[q].cfg.lists[D0] != [] ==> p1.devs[q] == p.devs[q]
  {
  }

  lemma SetQuiet(fw: Firmware, p: Platform, c: nat, target: int, q: nat, x: nat)
    requires Good(p) && c < |p.devs| && Quiet(p, q, x) && Own(p.devs, q, x) && p.devs[q].cfg.lists[D0] != []
    ensures Quiet(SetPower(fw, p, c, target).0, q, x)
  {
    SetPowerDark(fw, p, c, target, x);
    if c == q {
      if p.devs[q].state == UNKNOWN { UnknownIsStuck(fw, p, q, target); } else { SetPowerDry(fw, p, q, target, x); }
    } else {
      SetPowerKeeps(fw, p, c, target, q);
      if p.devs[c].cfg.parent != Some(q) {
        SetPowerSkips(fw, p, c, target, x);
      } else if p.devs[q].state == UNKNOWN {
        ChildIsStuck(fw, p, c, target, q);
      }
    }
  }

  lemma UpdateOwnQuiet(fw: Firmware, p: Platform, q: nat, x: nat)
    requires Good(p) && Quiet(p, q, x) && Harmless(fw, p, q) && Own(p.devs, q, x) && p.devs[q].cfg.lists[D0] != []
    ensures Quiet(UpdatePower(fw, p, q).0, q, x)
  {
    UpdatePowerDark(fw, p, q, x);
    GetPowerPromotes(fw, p, q);
    var (p1, seen) := GetPower(fw, p, q);
    if seen.Some? && p.devs[q].state != UNKNOWN {
      TransitionDry(fw, p1, q, seen.value, x);
    }
  }

  lemma UpdateOtherQuiet(fw: Firmware, p: Platform, c: nat, q: nat, x: nat)
    requires Good(p) && c < |p.devs| && c != q && Harmless(fw, p, c) && Quiet(p, q, x) && Own(p.devs, q, x)
    requires p.devs[q].cfg.lists[D0] != [] && Slack(p, x) >= 0
    ensures Quiet(UpdatePower(fw, p, c).0, q, x)
  {
    UpdatePowerDark(fw, p, c, x);
    GetPowerPromotes(fw, p, c);
    var (p1, seen) := GetPower(fw, p, c);
    if seen.Some? {
      if seen.value == UNKNOWN {
        SetQuiet(fw, p1, c, D0, q, x);
      } else {
        TransitionKeeps(fw, p1, c, seen.value, q);
        if p.devs[q].state == UNKNOWN && p.devs[c].cfg.manageable && p.devs[c].cfg.powerResources {
          if p.devs[c].cfg.parent == Some(q) { ObserveAvoids(fw, p.bank, p.devs[c].cfg, c, x); }
          NotHeld(p, c, x);
          KeptLists(fw, p, c);
          TransitionSkips(fw, p1, c, seen.value, x);
        }
      }
    }
  }

  lemma NotHeld(p: Platform, c: nat, x: nat)
    requires Good(p) && c < |p.devs| && x < |p.bank.res| && Slack(p, x) >= 0 && p.bank.res[x].refCount == 0
    ensures x !in ListOf(p.devs[c].cfg, p.devs[c].state)
  {
    UsesListed(p.devs[c], x);
    TotalAtLeast(p.devs, c, x);
  }

  /** Reading a state leaves the device's own needs alone. */
  lemma KeptLists(fw: Firmware, p: Platform, c: nat)
    requires Good(p) && c < |p.devs| && Harmless(fw, p, c)
    ensures var p1 := GetPower(fw, p, c).0;
            p1.devs[c].cfg == p.devs[c].cfg && ListOf(p1.devs[c].cfg, p1.devs[c].state) == ListOf(p.devs[c].cfg, p.devs[c].state)
  {
  }

  lemma WakeupQuiet(fw: Firmware, p: Platform, d: nat, q: nat, x: nat)
    requires Good(p) && d < |p.devs| && Quiet(p, q, x) && x !in p.devs[d].cfg.wakeList
    ensures Quiet(EnableWakeup(fw, p, d).0, q, x) && Quiet(DisableWakeup(fw, p, d).0, q, x)
  {
    WakeupSkips(fw, p, d, x);
    assert EnableWakeup(fw, p, d).0.devs[q].state == p.devs[q].state;
    assert DisableWakeup(fw, p, d).0.devs[q].state == p.devs[q].state;
  }

  lemma UpdateQuiet(fw: Firmware, p: Platform, c: nat, q: nat, x: nat)
    requires Good(p) && c < |p.devs| && Harmless(fw, p, c) && Quiet(p, q, x) && Own(p.devs, q, x)
    requires p.devs[q].cfg.lists[D0] != [] && Slack(p, x) >= 0
    ensures Quiet(UpdatePower(fw, p, c).0, q, x)
  {
    if c == q { UpdateOwnQuiet(fw, p, q, x); } else { UpdateOtherQuiet(fw, p, c, q, x); }
  }

  lemma GetQuiet(fw: Firmware, p: Platform, c: nat, q: nat, x: nat)
    requires Good(p) && c < |p.devs| && Harmless(fw, p, c) && Quiet(p, q, x) && p.devs[q].cfg.lists[D0] != []
    ensures Quiet(GetPower(fw, p, c).0, q, x)
  {
    GetPowerPromotes(fw, p, c);
  }

  lemma StepQuiet(fw: Firmware, p: Platform, e: Event, q: nat, x: nat)
    requires Good(p) && Call(e) && (e.d < |p.devs| ==> Harmless(fw, p, e.d))
    requires Quiet(p, q, x) && Own(p.devs, q, x) && p.devs[q].cfg.lists[D0] != [] && Slack(p, x) >= 0
    ensures Quiet(Step(fw, p, e), q, x)
  {
    if e.d < |p.devs| {
      match e
      case DoSet(d, state) => SetQuiet(fw, p, d, state, q, x);
      case DoUpdate(d) => UpdateQuiet(fw, p, d, q, x);
      case DoGet(d) => GetQuiet(fw, p, d, q, x);
      case DoEnableWakeup(d) => WakeupQuiet(fw, p, d, q, x);
      case DoDisableWakeup(d) => WakeupQuiet(fw, p, d, q, x);
    }
  }

  lemma StepSlack(fw: Firmware, p: Platform, e: Event, r: nat)
    requires Good(p) && Call(e) && (e.d < |p.devs| ==> Harmless(fw, p, e.d))
    requires r < |p.bank.res| && Slack(p, r) >= 0 && Live(p.bank, r)
    ensures Slack(Step(fw, p, e), r) >= 0 && Live(Step(fw, p, e).bank, r)
  {
    if e.d < |p.devs| {
      match e
      case DoSet(d, state) => SetPowerLaw(fw, p, d, state, r);
      case DoUpdate(d) => UpdatePowerLaw(fw, p, d, r);
      case DoGet(d) => GetPowerLaw(fw, p, d, r);
      case DoEnableWakeup(d) => EnableWakeupLaw(fw, p, d, r);
      case DoDisableWakeup(d) => DisableWakeupLaw(fw, p, d, r);
    }
  }

  /** The ledger holds, and the resource of every unknown parent is off. */
  ghost predicate Calm(p: Platform)
    requires Good(p)
  {
    Safe(p) && forall d: nat, q: nat :: Pair(p.devs, d, q) ==> Quiet(p, q, Key(p.devs, q))
  }

  lemma SamePairs(devs: seq<Device>, devs1: seq<Device>)
    requires Listed(devs) && Listed(devs1) && |devs| == |devs1|
    requires forall d :: 0 <= d < |devs| ==> devs1[d].cfg == devs[d].cfg
    ensures forall d: nat, q: nat :: Pair(devs1, d, q) <==> Pair(devs, d, q)
    ensures forall q :: 0 <= q < |devs| && devs[q].cfg.lists[D0] != [] ==> Key(devs1, q) == Key(devs, q)
    ensures Sheltered(devs) ==> Sheltered(devs1)
  {
    if Sheltered(devs) {
      forall d: nat, q: nat | Pair(devs1, d, q) ensures Own(devs1, q, Key(devs1, q)) && Key(devs1, q) in devs1[d].cfg.lists[D0] {
        assert Pair(devs, d, q);
        assert Own(devs, q, Key(devs, q));
      }
    }
  }

  lemma StepCalm(fw: Firmware, p: Platform, e: Event)
    requires Good(p) && Sheltered(p.devs) && Calm(p) && Call(e)
    ensures Calm(Step(fw, p, e)) && Sheltered(Step(fw, p, e).devs)
  {
    var p1 := Step(fw, p, e);
    SamePairs(p.devs, p1.devs);
    if e.d < |p.devs| { ShelteredIsHarmless(fw, p, e.d); }
    forall r | 0 <= r < |p.bank.res| ensures Slack(p1, r) >= 0 && Live(p1.bank, r) {
      assert Slack(p, r) >= 0 && Live(p.bank, r);
      StepSlack(fw, p, e, r);
    }
    forall d: nat, q: nat | Pair(p1.devs, d, q) ensures Quiet(p1, q, Key(p1.devs, q)) {
      assert Pair(p.devs, d, q);
      var x := Key(p.devs, q);
      assert Quiet(p, q, x) && Own(p.devs, q, x);
      assert Slack(p, x) >= 0;
      StepQuiet(fw, p, e, q, x);
    }
  }

  /** Over sheltered devices the ledger survives every run of calls, whatever fails. */
  lemma {:induction false} ShelteredRun(fw: Firmware, p: Platform, es: seq<Event>)
    requires Good(p) && Sheltered(p.devs) && Calm(p) && Calls(es)
    ensures Calm(Run(fw, p, es)) && Safe(Run(fw, p, es))
    decreases |es|
  {
    if es != [] {
      assert Call(es[0]);
      StepCalm(fw, p, es[0]);
      ShelteredRun(fw, Step(fw, p, es[0]), es[1..]);
    }
  }
}
