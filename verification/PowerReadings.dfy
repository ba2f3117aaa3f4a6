/**
  Reading, initialising and following the power state of a device, told without
  the functions that do it (drivers/acpi/device_pm.c:71-134, 258-348).
  */
module PowerReadings {
  import opened Wrappers
  import opened PowerResources
  import opened DevicePower
  import opened PowerLedger
  import opened PowerResume
  import opened PowerOutcomes

  // ----------------------------------------------------------- when a read fails

  /** A failed evaluation. */
  predicate Fails(a: Act) {
    match a
    case Count(_, _) => false
    case EvalOn(_, ok) => !ok
    case EvalOff(_, ok) => !ok
    case EvalSta(_, ok) => !ok
    case EvalMethod(_, ok) => !ok
  }

  ghost predicate Failure(log: seq<Act>, from: nat) {
    exists i :: from <= i < |log| && Fails(log[i])
  }

  lemma FailureSplit(l0: seq<Act>, l1: seq<Act>, l2: seq<Act>)
    requires l0 <= l1 <= l2
    ensures Failure(l2, |l0|) <==> Failure(l1, |l0|) || Failure(l2, |l1|)
  {
    if i :| |l0| <= i < |l1| && Fails(l1[i]) { assert Fails(l2[i]); }
    if i :| |l0| <= i < |l2| && Fails(l2[i]) { assert i < |l1| ==> Fails(l1[i]); }
  }

  lemma FailureOne(log: seq<Act>, a: Act)
    ensures Failure(log + [a], |log|) <==> Fails(a)
  {
    assert (log + [a])[|log|] == a;
  }

  lemma {:induction false} ListStateFails(fw: Firmware, b: Bank, list: seq<nat>, i: nat, cur: bool)
    requires i <= |list| && Names(list, |b.res|)
    ensures var (b1, on) := ListState(fw, b, list, i, cur);
            b.log <= b1.log && (on.None? <==> Failure(b1.log, |b.log|))
    decreases |list| - i
  {
    if i < |list| {
      var a := EvalSta(list[i], fw.succeeds(|b.log|));
      var b1 := b.(log := b.log + [a]);
      FailureOne(b.log, a);
      if !Fails(a) && b.res[list[i]].on {
        ListStateFails(fw, b1, list, i + 1, true);
        FailureSplit(b.log, b1.log, ListState(fw, b1, list, i + 1, true).0.log);
      }
    }
  }

  lemma {:induction false} InferredFails(fw: Firmware, b: Bank, lists: seq<seq<nat>>, i: nat)
    requires i <= |lists| == 4 && forall s :: 0 <= s < 4 ==> Names(lists[s], |b.res|)
    ensures var (b1, s) := InferredState(fw, b, lists, i);
            b.log <= b1.log && (s.None? <==> Failure(b1.log, |b.log|))
    decreases 4 - i
  {
    if i < 4 {
      if lists[i] == [] {
        InferredFails(fw, b, lists, i + 1);
      } else {
        ListStateFails(fw, b, lists[i], 0, false);
        var (b1, on) := ListState(fw, b, lists[i], 0, false);
        if on == Some(false) {
          InferredFails(fw, b1, lists, i + 1);
          FailureSplit(b.log, b1.log, InferredState(fw, b1, lists, i + 1).0.log);
        }
      }
    }
  }

  lemma ObserveFails(fw: Firmware, b: Bank, c: Config, d: nat)
    requires |c.lists| == 4 && forall s :: 0 <= s < 4 ==> Names(c.lists[s], |b.res|)
    ensures var (b1, s) := Observe(fw, b, c, d);
            b.log <= b1.log && (s.None? <==> Failure(b1.log, |b.log|))
  {
    var b1 := if c.powerResources then InferredState(fw, b, c.lists, 0).0 else b;
    if c.powerResources { InferredFails(fw, b, c.lists, 0); }
    if c.explicitGet && !Failure(b1.log, |b.log|) {
      var a := EvalMethod(Psc(d), fw.succeeds(|b1.log|));
      FailureOne(b1.log, a);
      FailureSplit(b.log, b1.log, b1.log + [a]);
    }
  }

  /** A read of a manageable device fails exactly when an evaluation does; no read changes a resource. */
  lemma ReadFails(fw: Firmware, p: Platform, d: nat)
    requires Good(p) && d < |p.devs|
    ensures var (p1, s) := GetPower(fw, p, d);
            && p1.bank.res == p.bank.res && p.bank.log <= p1.bank.log
            && (s.None? <==> Failure(p1.bank.log, |p.bank.log|))
  {
    if p.devs[d].cfg.manageable { ObserveFails(fw, p.bank, p.devs[d].cfg, d); }
  }

  // ---------------------------------------------------------------- what is read

  /** The shallowest state whose resources, at least one, are all on; D3cold if there is none. */
  predicate Shallowest(b: Bank, c: Config, s: nat)
    requires |c.lists| == 4 && forall s :: 0 <= s < 4 ==> Names(c.lists[s], |b.res|)
  {
    && s <= 4 && (s < 4 ==> Powered(b, c.lists[s]))
    && forall t :: 0 <= t < s ==> !Powered(b, c.lists[t])
  }

  function Max(a: nat, b: nat): nat {
    if a < b then b else a
  }

  /**
    What the evidence says: the deeper of the state the resources show and the
    one `_PSC` gives, D3cold and beyond apart; without resources `_PSC` alone,
    where anything deeper than D2 is D3cold; without either, unknown.
    */
  predicate Evidence(b: Bank, c: Config, psc: nat, s: nat)
    requires |c.lists| == 4 && forall s :: 0 <= s < 4 ==> Names(c.lists[s], |b.res|)
  {
    if c.powerResources then
      exists i :: 0 <= i <= 4 && Shallowest(b, c, i) && s == if c.explicitGet && psc < 4 then Max(i, psc) else i
    else if c.explicitGet then s == if psc <= 2 then psc else 4
    else s == 255
  }

  lemma ObserveReads(fw: Firmware, b: Bank, c: Config, d: nat)
    requires |c.lists| == 4 && (forall s :: 0 <= s < 4 ==> Names(c.lists[s], |b.res|)) && Observe(fw, b, c, d).1.Some?
    ensures var (b1, s) := Observe(fw, b, c, d);
            && (c.explicitGet ==> |b1.log| > 0 && b1.log[|b1.log| - 1] == EvalMethod(Psc(d), true))
            && Evidence(b, c, if c.explicitGet then fw.value(|b1.log| - 1) else 0, s.value)
  {
    if c.powerResources {
      InferredStateLaw(fw, b, c.lists, 0);
      var i := InferredState(fw, b, c.lists, 0).1.value;
      assert Shallowest(b, c, i);
    }
  }

  /**
    A read that succeeds: an unmanageable device is where its parent is, or in
    D0, and nothing is evaluated; any other is where the evidence says, `_PSC`
    being evaluated last.  A device found in D0 promotes a parent of unknown
    state, and nothing else is recorded.
    */
  lemma ReadOutcome(fw: Firmware, p: Platform, d: nat)
    requires Good(p) && d < |p.devs| && GetPower(fw, p, d).1.Some?
    ensures var (p1, s) := GetPower(fw, p, d);
            var c, log := p.devs[d].cfg, p1.bank.log;
            && (!c.manageable ==>
                  p1 == p && s.value == if c.parent.Some? then p.devs[c.parent.value].state else 0)
            && (c.manageable ==>
                  && (c.explicitGet ==> |log| > 0 && log[|log| - 1] == EvalMethod(Psc(d), true))
                  && GoodConfig(c, |p.bank.res|, |p.devs|)
                  && Evidence(p.bank, c, if c.explicitGet then fw.value(|log| - 1) else 0, s.value)
                  && p1.devs == if s.value == 0 && c.parent.Some? && p.devs[c.parent.value].state == 255
                                then p.devs[c.parent.value := p.devs[c.parent.value].(state := 0)] else p.devs)
  {
    var c := p.devs[d].cfg;
    assert GoodConfig(c, |p.bank.res|, |p.devs|);
    if c.manageable { ObserveReads(fw, p.bank, c, d); }
  }

  lemma ReadAnswers(fw: Firmware, p: Platform, d: nat)
    requires Good(p) && Reliable(fw) && d < |p.devs|
    ensures GetPower(fw, p, d).1.Some?
  {
    var c := p.devs[d].cfg;
    if c.manageable && c.powerResources { InferredStateAnswers(fw, p.bank, c.lists, 0); }
  }

  /** The evidence decides: two states it agrees with are one. */
  lemma EvidenceDecides(b: Bank, c: Config, psc: nat, s: nat, t: nat)
    requires |c.lists| == 4 && (forall s :: 0 <= s < 4 ==> Names(c.lists[s], |b.res|))
    requires Evidence(b, c, psc, s) && Evidence(b, c, psc, t)
    ensures s == t
  {
    if c.powerResources {
      var i :| 0 <= i <= 4 && Shallowest(b, c, i) && s == if c.explicitGet && psc < 4 then Max(i, psc) else i;
      var j :| 0 <= j <= 4 && Shallowest(b, c, j) && t == if c.explicitGet && psc < 4 then Max(j, psc) else j;
      assert i == j;
    }
  }

  // --------------------------------------------------------------- initialisation

  /** The state an initialisation is about to record, once it has read `s`. */
  function Assumed(s: nat): nat {
    if s == 255 then 0 else s
  }

  lemma ReadKeepsSelf(fw: Firmware, p: Platform, d: nat)
    requires Good(p) && d < |p.devs| && p.devs[d].cfg.parent != Some(d)
    ensures GetPower(fw, p, d).0.devs[d] == p.devs[d]
  {
  }

  lemma AdoptRecords(fw: Firmware, p: Platform, d: nat, s: nat)
    requires Good(p) && d < |p.devs|
    ensures var (p1, st) := Adopt(fw, p, d, s);
            && (st == Ok ==> p1.devs == p.devs[d := p.devs[d].(state := Assumed(s))])
            && (st != Ok ==> st == ENodev && p1.devs == p.devs)
  {
  }

  /** Whatever fails: success records the state read, D0 for an unknown one, and failure leaves the device unknown. */
  lemma InitPowerRecords(fw: Firmware, p: Platform, d: nat)
    requires Good(p) && d < |p.devs| && p.devs[d].cfg.parent != Some(d)
    ensures var (p1, st) := InitPower(fw, p, d);
            var (p0, s) := GetPower(fw, WithState(p, d, 255), d);
            && p0.devs[d] == p.devs[d].(state := 255)
            && (st == Ok ==> s.Some? && p1.devs == p0.devs[d := p.devs[d].(state := Assumed(s.value))])
            && (st != Ok ==> st == ENodev && p1.devs == p0.devs)
  {
    ReadKeepsSelf(fw, WithState(p, d, 255), d);
    var (p0, s) := GetPower(fw, WithState(p, d, 255), d);
    if s.Some? { AdoptRecords(fw, p0, d, s.value); }
  }

  lemma AdoptTakes(fw: Firmware, p: Platform, d: nat, s: nat, r: nat)
    requires Good(p) && Reliable(fw) && d < |p.devs| && r < |p.bank.res|
    ensures var (p1, st) := Adopt(fw, p, d, s);
            var c := p.devs[d].cfg;
            var list := if s < 4 && c.powerResources then c.lists[s] else [];
            && st == Ok && p1.devs[d].state == Assumed(s)
            && p1.bank.res[r].refCount == p.bank.res[r].refCount + Occ(list, 0, |list|, r)
            && (s < 4 && c.powerResources && c.explicitSet[s] ==>
                  |p1.bank.log| > 0 && p1.bank.log[|p1.bank.log| - 1] == EvalMethod(Ps(d, s), true))
  {
    var c := p.devs[d].cfg;
    if s < 4 && c.powerResources {
      OnSweepReliable(fw, p.bank, c.lists[s], 0);
      OnListTakes(fw, p.bank, c.lists[s], r);
    }
  }

  /**
    When no evaluation fails, initialisation takes the list of the state read,
    once per entry, evaluates its `_PSx` last, and records it.
    */
  lemma InitPowerTakes(fw: Firmware, p: Platform, d: nat, r: nat)
    requires Good(p) && Reliable(fw) && d < |p.devs| && r < |p.bank.res|
    ensures GetPower(fw, WithState(p, d, 255), d).1.Some?
    ensures var (p1, st) := InitPower(fw, p, d);
            var c, s := p.devs[d].cfg, GetPower(fw, WithState(p, d, 255), d).1.value;
            var list := if s < 4 && c.powerResources then c.lists[s] else [];
            && st == Ok && p1.devs[d].state == Assumed(s)
            && p1.bank.res[r].refCount == p.bank.res[r].refCount + Occ(list, 0, |list|, r)
            && (s < 4 && c.powerResources && c.explicitSet[s] ==>
                  |p1.bank.log| > 0 && p1.bank.log[|p1.bank.log| - 1] == EvalMethod(Ps(d, s), true))
  {
    var q := WithState(p, d, 255);
    ReadAnswers(fw, q, d);
    ReadFails(fw, q, d);
    var (p0, s) := GetPower(fw, q, d);
    AdoptTakes(fw, p0, d, s.value, r);
  }

  // -------------------------------------------------------------------- following

  /** Whatever fails: success records the state read, D0 for an unknown one. */
  lemma UpdatePowerRecords(fw: Firmware, p: Platform, d: nat)
    requires Good(p) && d < |p.devs|
    ensures var (p1, st) := UpdatePower(fw, p, d);
            var s := GetPower(fw, p, d).1;
            && (s.None? ==> p1 == GetPower(fw, p, d).0 && st == ENodev)
            && (s == Some(255) ==> (p1, st) == SetPower(fw, GetPower(fw, p, d).0, d, 0))
            && (st == Ok ==> s.Some? && p1.devs[d].state == Assumed(s.value))
  {
    var (p0, s) := GetPower(fw, p, d);
    if s == Some(255) { PowerSteps.SetPowerOutcome(fw, p0, d, 0); }
  }

  /**
    When no evaluation fails, following a device found in a D-state records
    that state and moves each count by the difference of the lists, unless the
    device is adrift: then nothing but the read happens.
    */
  lemma UpdatePowerFollows(fw: Firmware, p: Platform, d: nat, r: nat)
    requires Good(p) && Safe(p) && Reliable(fw) && d < |p.devs| && p.devs[d].cfg.parent != Some(d) && r < |p.bank.res|
    requires GetPower(fw, p, d).1.Some? && GetPower(fw, p, d).1.value <= 4
    ensures var (p1, st) := UpdatePower(fw, p, d);
            var (p0, s) := GetPower(fw, p, d);
            if Adrift(p.devs[d]) then p1 == p0 && st == ENodev
            else
              && st == Ok && p1.devs == p0.devs[d := p.devs[d].(state := s.value)]
              && p1.bank.res[r].refCount == p.bank.res[r].refCount - Uses(p.devs[d], r) + Uses(p1.devs[d], r)
  {
    var (p0, s) := GetPower(fw, p, d);
    ReadFails(fw, p, d);
    ReadKeepsSelf(fw, p, d);
    if p.devs[d].cfg.manageable && p.devs[d].cfg.powerResources {
      if p.devs[d].state <= 4 {
        assert Slack(p, r) >= 0;
        TotalAtLeast(p.devs, d, r);
        ReliableTransition(fw, p0, d, s.value, r);
      }
    } else {
      NothingListed(p, d, p.devs[d].state);
      NothingListed(p, d, s.value);
    }
  }
}
