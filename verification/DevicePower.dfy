/**
  Devices moving between D-states over shared power resources: the transition,
  the wakeup bracket, state inference and resume of drivers/acpi/power.c, and
  the driving steps of drivers/acpi/device_pm.c.
  */
module DevicePower {
  import opened Wrappers
  import opened PowerResources

  const D0: nat := 0
  const D3_HOT: nat := 3
  const D3_COLD: nat := 4
  const UNKNOWN: nat := 255

  datatype Status = Ok | EInval | ENodev

  /** What enumeration found out about a device; it does not change afterwards. */
  datatype Config = Config(
    lists: seq<seq<nat>>,      // resources of D0..D3hot
    valid: seq<bool>,          // D0..D3cold
    explicitSet: seq<bool>,    // D0..D3cold has a _PSx method
    coldAccessible: bool,
    manageable: bool,
    powerResources: bool,
    explicitGet: bool,         // has _PSC
    parent: Option<nat>,
    wakeList: seq<nat>)

  datatype Device = Device(cfg: Config, state: nat, wakeValid: bool, prepareCount: nat)

  datatype Platform = Platform(bank: Bank, devs: seq<Device>)

  /**
    Shape of an enumerated device.  Only enumeration of _PRx fills a list, and
    it marks the device as having power resources; a device that ends up not
    power manageable has had its lists freed (drivers/acpi/scan.c:1282-1325,
    713-727, 1377-1380).
    */
  predicate GoodConfig(c: Config, nres: nat, ndev: nat) {
    && |c.lists| == 4 && |c.valid| == 5 && |c.explicitSet| == 5
    && (forall s :: 0 <= s < 4 ==> Names(c.lists[s], nres))
    && (forall s :: 0 <= s < 4 && c.lists[s] != [] ==> c.manageable && c.powerResources)
    && Names(c.wakeList, nres)
    && (c.parent.Some? ==> c.parent.value < ndev)
  }

  predicate Good(p: Platform) {
    forall d :: 0 <= d < |p.devs| ==> GoodConfig(p.devs[d].cfg, |p.bank.res|, |p.devs|)
  }

  /** Only counters, hardware, the log and the devices' dynamic fields differ. */
  predicate Same(p: Platform, p1: Platform) {
    && |p1.bank.res| == |p.bank.res| && |p1.devs| == |p.devs|
    && forall d :: 0 <= d < |p.devs| ==> p1.devs[d].cfg == p.devs[d].cfg
  }

  function WithBank(p: Platform, b: Bank): Platform {
    p.(bank := b)
  }

  function WithState(p: Platform, d: nat, s: nat): Platform
    requires d < |p.devs|
  {
    p.(devs := p.devs[d := p.devs[d].(state := s)])
  }

  // --------------------------------------------------------------- transitions

  /** Resources a D-state needs; D3cold and the unknown state need none. */
  function ListOf(c: Config, state: nat): seq<nat>
    requires |c.lists| == 4
  {
    if state < D3_COLD then c.lists[state] else []
  }

  function Transition(fw: Firmware, p: Platform, d: nat, state: int): (o: (Platform, Status))
    requires Good(p) && d < |p.devs|
    ensures Same(p, o.0) && Good(o.0)
  {
    var dev := p.devs[d];
    if state < D0 || state > D3_COLD then (p, EInval)
    else if dev.state == state || !dev.cfg.manageable then (p, Ok)
    else if dev.state > D3_COLD then (p, ENodev)
    else
      var (b1, ok) := Exchange(fw, p.bank, ListOf(dev.cfg, state), ListOf(dev.cfg, dev.state));
      if ok then (WithState(WithBank(p, b1), d, state), Ok)
      else (WithState(WithBank(p, b1), d, UNKNOWN), ENodev)
  }

  // ------------------------------------------------------------------- wakeup

  /** Takes every wakeup resource not yet marked, up to the first failure. */
  function EnableSweep(fw: Firmware, b: Bank, list: seq<nat>, i: nat): (o: (Bank, nat))
    requires i <= |list| && Names(list, |b.res|)
    ensures |o.0.res| == |b.res|
    decreases |list| - i
  {
    if i == |list| then (b, i)
    else if b.res[list[i]].wakeupEnabled then EnableSweep(fw, b, list, i + 1)
    else
      var (b1, ok) := PowerOn(fw, b, list[i]);
      if ok then EnableSweep(fw, Mark(b1, list[i], true), list, i + 1) else (b1, i)
  }

  /** Drops every marked wakeup resource, up to the first failure. */
  function DisableSweep(fw: Firmware, b: Bank, list: seq<nat>, i: nat): (o: (Bank, nat))
    requires i <= |list| && Names(list, |b.res|)
    ensures |o.0.res| == |b.res|
    decreases |list| - i
  {
    if i == |list| then (b, i)
    else if !b.res[list[i]].wakeupEnabled then DisableSweep(fw, b, list, i + 1)
    else
      var (b1, ok) := PowerOff(fw, b, list[i]);
      if ok then DisableSweep(fw, Mark(b1, list[i], false), list, i + 1) else (b1, i)
  }

  function Mark(b: Bank, r: nat, wake: bool): Bank
    requires r < |b.res|
  {
    b.(res := b.res[r := b.res[r].(wakeupEnabled := wake)])
  }

  /** Counts every wakeup resource found on, up to the first failing `_STA`. */
  function WakeInitSweep(fw: Firmware, b: Bank, list: seq<nat>, i: nat): (o: (Bank, nat))
    requires i <= |list| && Names(list, |b.res|)
    ensures |o.0.res| == |b.res|
    decreases |list| - i
  {
    if i == |list| then (b, i)
    else
      var r := list[i];
      var ok := fw.succeeds(|b.log|);
      var b1 := b.(log := b.log + [EvalSta(r, ok)]);
      if !ok then (b1, i)
      else if !b.res[r].on then WakeInitSweep(fw, b1, list, i + 1)
      else
        var n := b.res[r].refCount + 1;
        WakeInitSweep(fw, Bank(b1.res[r := b.res[r].(refCount := n, wakeupEnabled := true)],
                               b1.log + [Count(r, n)]), list, i + 1)
  }

  /** One evaluation of a device method. */
  function Evaluate(fw: Firmware, b: Bank, m: Method): (Bank, bool) {
    var ok := fw.succeeds(|b.log|);
    (b.(log := b.log + [EvalMethod(m, ok)]), ok)
  }

  function EnableWakeup(fw: Firmware, p: Platform, d: nat): (o: (Platform, Status))
    requires Good(p) && d < |p.devs|
    ensures Same(p, o.0) && Good(o.0)
  {
    var dev := p.devs[d];
    if !dev.wakeValid then (p, EInval)
    else if dev.prepareCount > 0 then
      (p.(devs := p.devs[d := dev.(prepareCount := dev.prepareCount + 1)]), Ok)
    else
      var (b1, k) := EnableSweep(fw, p.bank, dev.cfg.wakeList, 0);
      if k < |dev.cfg.wakeList| then
        (Platform(b1, p.devs[d := dev.(prepareCount := 1, wakeValid := false)]), ENodev)
      else
        var (b2, ok) := Evaluate(fw, b1, SleepWake(d, true));
        if ok then (Platform(b2, p.devs[d := dev.(prepareCount := 1)]), Ok)
        else (Platform(b2, p.devs[d := dev.(prepareCount := 0, wakeValid := false)]), ENodev)
  }

  function DisableWakeup(fw: Firmware, p: Platform, d: nat): (o: (Platform, Status))
    requires Good(p) && d < |p.devs|
    ensures Same(p, o.0) && Good(o.0)
  {
    var dev := p.devs[d];
    if !dev.wakeValid then (p, EInval)
    else if dev.prepareCount > 1 then
      (p.(devs := p.devs[d := dev.(prepareCount := dev.prepareCount - 1)]), Ok)
    else
      var (b1, ok) := Evaluate(fw, p.bank, SleepWake(d, false));
      if !ok then (Platform(b1, p.devs[d := dev.(prepareCount := 0, wakeValid := false)]), ENodev)
      else
        var (b2, k) := DisableSweep(fw, b1, dev.cfg.wakeList, 0);
        if k == |dev.cfg.wakeList| then (Platform(b2, p.devs[d := dev.(prepareCount := 0)]), Ok)
        else (Platform(b2, p.devs[d := dev.(prepareCount := 0, wakeValid := false)]), ENodev)
  }

  // ---------------------------------------------------------- state inference

  /** Is every resource of `list[i..]` on?  None when some `_STA` fails; `cur` is the last state read. */
  function ListState(fw: Firmware, b: Bank, list: seq<nat>, i: nat, cur: bool): (o: (Bank, Option<bool>))
    requires i <= |list| && Names(list, |b.res|)
    ensures o.0.res == b.res
    decreases |list| - i
  {
    if i == |list| then (b, Some(cur))
    else
      var ok := fw.succeeds(|b.log|);
      var b1 := b.(log := b.log + [EvalSta(list[i], ok)]);
      if !ok then (b1, None)
      else if !b.res[list[i]].on then (b1, Some(false))
      else ListState(fw, b1, list, i + 1, true)
  }

  function InferredState(fw: Firmware, b: Bank, lists: seq<seq<nat>>, i: nat): (o: (Bank, Option<nat>))
    requires i <= |lists| == 4 && forall s :: 0 <= s < 4 ==> Names(lists[s], |b.res|)
    ensures o.0.res == b.res
    ensures o.1.Some? ==> i <= o.1.value <= D3_COLD
    decreases 4 - i
  {
    if i == 4 then (b, Some(D3_COLD))
    else if lists[i] == [] then InferredState(fw, b, lists, i + 1)
    else
      var (b1, on) := ListState(fw, b, lists[i], 0, false);
      if on.None? then (b1, None)
      else if on.value then (b1, Some(i))
      else InferredState(fw, b1, lists, i + 1)
  }

  /** The device's own evidence for its state: inference corrected by _PSC. */
  function Observe(fw: Firmware, b: Bank, c: Config, d: nat): (o: (Bank, Option<nat>))
    requires |c.lists| == 4 && forall s :: 0 <= s < 4 ==> Names(c.lists[s], |b.res|)
    ensures o.0.res == b.res
    ensures c.powerResources && o.1.Some? ==> o.1.value <= D3_COLD
  {
    var (b1, inferred) := if c.powerResources then InferredState(fw, b, c.lists, 0) else (b, Some(UNKNOWN));
    if inferred.None? || !c.explicitGet then (b1, inferred)
    else
      var psc, result := fw.value(|b1.log|), inferred.value;
      var (b2, ok) := Evaluate(fw, b1, Psc(d));
      if !ok then (b2, None)
      else if psc > result && psc < D3_COLD then (b2, Some(psc))
      else if result == UNKNOWN then (b2, Some(if psc > 2 then D3_COLD else psc))
      else (b2, Some(result))
  }

  /** The observed state; a device found in D0 promotes a parent of unknown state to D0. */
  function GetPower(fw: Firmware, p: Platform, d: nat): (o: (Platform, Option<nat>))
    requires Good(p) && d < |p.devs|
    ensures Same(p, o.0) && Good(o.0)
  {
    var c := p.devs[d].cfg;
    if !c.manageable then (p, Some(if c.parent.Some? then p.devs[c.parent.value].state else D0))
    else
      var (b1, state) := Observe(fw, p.bank, c, d);
      var p1 := WithBank(p, b1);
      if state == Some(D0) && c.parent.Some? && p.devs[c.parent.value].state == UNKNOWN then
        (WithState(p1, c.parent.value, D0), state)
      else (p1, state)
  }

  // -------------------------------------------------------------- device_pm.c

  function ExplicitSet(fw: Firmware, p: Platform, d: nat, state: nat): (o: (Platform, bool))
    requires Good(p) && d < |p.devs| && state <= D3_COLD
    ensures Same(p, o.0) && Good(o.0)
  {
    if p.devs[d].cfg.explicitSet[state] then
      var (b, ok) := Evaluate(fw, p.bank, Ps(d, state));
      (WithBank(p, b), ok)
    else (p, true)
  }

  /** Evaluates _PSx and records the state. */
  function Settle(fw: Firmware, p: Platform, d: nat, state: nat): (o: (Platform, Status))
    requires Good(p) && d < |p.devs| && state <= D3_COLD
    ensures Same(p, o.0) && Good(o.0)
  {
    var (p1, ok) := ExplicitSet(fw, p, d, state);
    if ok then (WithState(p1, d, state), Ok) else (p1, ENodev)
  }

  /** Applies power, then settles the device in its new state. */
  function Enter(fw: Firmware, p: Platform, d: nat, state: nat): (o: (Platform, Status))
    requires Good(p) && d < |p.devs| && state <= D3_COLD
    ensures Same(p, o.0) && Good(o.0)
  {
    var (p1, st) := if p.devs[d].cfg.powerResources then Transition(fw, p, d, state) else (p, Ok);
    if st == Ok then Settle(fw, p1, d, state) else (p1, st)
  }

  /** Removes power from a device in D3hot and records D3cold. */
  function CutPower(fw: Firmware, p: Platform, d: nat): (o: (Platform, Status))
    requires Good(p) && d < |p.devs|
    ensures Same(p, o.0) && Good(o.0)
  {
    var (p1, st) := Transition(fw, p, d, D3_COLD);
    if st == Ok then (WithState(p1, d, D3_COLD), Ok) else (p1, st)
  }

  /** The reason not to start a change of state, if there is one. */
  function Objection(p: Platform, d: nat, target: int): Option<Status>
    requires Good(p) && d < |p.devs|
  {
    var dev := p.devs[d];
    var c := dev.cfg;
    if target < D0 || target > D3_COLD then Some(EInval)
    else if target == dev.state then Some(Ok)
    else if !c.valid[target] then Some(ENodev)
    else if c.parent.Some? && target < p.devs[c.parent.value].state then Some(ENodev)
    else
      var state := FirstState(c, target);
      if state < dev.state && state != D0 && dev.state >= D3_HOT then Some(ENodev) else None
  }

  /** D3cold is entered through D3hot where it is accessible. */
  function FirstState(c: Config, target: int): int {
    if target == D3_COLD && c.coldAccessible then D3_HOT else target
  }

  function SetPower(fw: Firmware, p: Platform, d: nat, target: int): (o: (Platform, Status))
    requires Good(p) && d < |p.devs|
    ensures Same(p, o.0) && Good(o.0)
  {
    var objection := Objection(p, d, target);
    if objection.Some? then (p, objection.value)
    else
      var (p1, st) := Enter(fw, p, d, FirstState(p.devs[d].cfg, target));
      if st == Ok && FirstState(p.devs[d].cfg, target) != target then CutPower(fw, p1, d) else (p1, st)
  }

  /** Takes the list of the state found, evaluates its _PSx and records it. */
  function Adopt(fw: Firmware, p: Platform, d: nat, state: nat): (o: (Platform, Status))
    requires Good(p) && d < |p.devs|
    ensures Same(p, o.0) && Good(o.0)
  {
    var c := p.devs[d].cfg;
    if state < D3_COLD && c.powerResources then
      var (b1, ok) := OnList(fw, p.bank, c.lists[state]);
      var p1 := WithBank(p, b1);
      if ok then Settle(fw, p1, d, state) else (p1, ENodev)
    else (WithState(p, d, if state == UNKNOWN then D0 else state), Ok)
  }

  function InitPower(fw: Firmware, p: Platform, d: nat): (o: (Platform, Status))
    requires Good(p) && d < |p.devs|
    ensures Same(p, o.0) && Good(o.0)
  {
    var (p1, seen) := GetPower(fw, WithState(p, d, UNKNOWN), d);
    if seen.None? then (p1, ENodev) else Adopt(fw, p1, d, seen.value)
  }

  function UpdatePower(fw: Firmware, p: Platform, d: nat): (o: (Platform, Status))
    requires Good(p) && d < |p.devs|
    ensures Same(p, o.0) && Good(o.0)
  {
    var (p1, seen) := GetPower(fw, p, d);
    if seen.None? then (p1, ENodev)
    else if seen.value == UNKNOWN then SetPower(fw, p1, d, D0)
    else if p.devs[d].cfg.powerResources then
      var (p2, st) := Transition(fw, p1, d, seen.value);
      if st == Ok then (WithState(p2, d, seen.value), Ok) else (p2, st)
    else (WithState(p1, d, seen.value), Ok)
  }

  // --------------------------------------------------------------------- runs

  datatype Event =
    | DoTransition(d: nat, state: int)
    | DoSet(d: nat, state: int)
    | DoInit(d: nat)
    | DoUpdate(d: nat)
    | DoGet(d: nat)
    | DoEnableWakeup(d: nat)
    | DoDisableWakeup(d: nat)
    | DoWakeupInit(d: nat)

  function Step(fw: Firmware, p: Platform, e: Event): (p1: Platform)
    requires Good(p)
    ensures Same(p, p1) && Good(p1)
  {
    if e.d >= |p.devs| then p
    else
      match e
      case DoTransition(d, state) => Transition(fw, p, d, state).0
      case DoSet(d, state) => SetPower(fw, p, d, state).0
      case DoInit(d) => InitPower(fw, p, d).0
      case DoUpdate(d) => UpdatePower(fw, p, d).0
      case DoGet(d) => GetPower(fw, p, d).0
      case DoEnableWakeup(d) => EnableWakeup(fw, p, d).0
      case DoDisableWakeup(d) => DisableWakeup(fw, p, d).0
      case DoWakeupInit(d) => WithBank(p, WakeInitSweep(fw, p.bank, p.devs[d].cfg.wakeList, 0).0)
  }

  function Run(fw: Firmware, p: Platform, es: seq<Event>): (p1: Platform)
    requires Good(p)
    ensures Same(p, p1) && Good(p1)
    decreases |es|
  {
    if es == [] then p else Run(fw, Step(fw, p, es[0]), es[1..])
  }
}
