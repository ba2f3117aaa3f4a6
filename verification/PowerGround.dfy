/**
  Where the ledger is safe at all: the state promotion of
  drivers/acpi/device_pm.c:118-125 against the resources a parent needs.
  */
module PowerGround {
  import opened Wrappers
  import opened PowerResources
  import opened DevicePower
  import opened PowerLedger
  import opened PowerResume

  predicate Described(devs: seq<Device>, n: nat) {
    Listed(devs) && forall d :: 0 <= d < |devs| ==> GoodConfig(devs[d].cfg, n, |devs|)
  }

  lemma {:induction false} NothingUsed(devs: seq<Device>, r: nat)
    requires Listed(devs) && forall d :: 0 <= d < |devs| ==> devs[d].state >= D3_COLD
    ensures Total(devs, r) == 0
  {
    if devs != [] { NothingUsed(devs[1..], r); }
  }

  /** Firmware that answers from position `n` of the log on and reports D0 for every _PSC. */
  ghost predicate Agreeable(fw: Firmware, n: nat) {
    ReliableFrom(fw, n) && forall i :: fw.value(i) == D0
  }

  lemma ObservesD0(fw: Firmware, b: Bank, c: Config, d: nat)
    requires |c.lists| == 4 && (forall s :: 0 <= s < 4 ==> Names(c.lists[s], |b.res|))
    requires CanReportD0(c) && Agreeable(fw, |b.log|)
    requires c.powerResources ==> Powered(b, c.lists[D0])
    ensures Observe(fw, b, c, d).1 == Some(D0)
  {
    if c.powerResources {
      InferredStateAnswers(fw, b, c.lists, 0);
      InferredStateLaw(fw, b, c.lists, 0);
    }
  }

  predicate Even(p: Platform)
    requires Good(p)
  {
    forall r :: 0 <= r < |p.bank.res| ==> Slack(p, r) == 0
  }

  /** Recording D0 for a device that needs `r` while every reference on `r` is accounted for by others. */
  lemma PromotionBreaks(p: Platform, b: Bank, q: nat, r: nat)
    requires Good(p) && q < |p.devs| && b.res == p.bank.res && p.devs[q].state == UNKNOWN
    requires r in p.devs[q].cfg.lists[D0] && r < |b.res| && Slack(p, r) <= 0
    ensures Good(WithState(WithBank(p, b), q, D0)) && !Safe(WithState(WithBank(p, b), q, D0))
  {
    var p1 := WithState(WithBank(p, b), q, D0);
    UsesListed(p1.devs[q], r);
    SlackAfter(p, b, q, D0, r);
    assert Slack(p1, r) < 0;
  }

  /** Reading the state of a powered child records D0 for a parent that holds nothing. */
  lemma ReadBreaks(fw: Firmware, p: Platform, d: nat, q: nat, r: nat)
    requires Good(p) && d < |p.devs| && q < |p.devs| && p.devs[d].cfg.parent == Some(q)
    requires CanReportD0(p.devs[d].cfg) && Agreeable(fw, |p.bank.log|)
    requires p.devs[d].cfg.powerResources ==> Powered(p.bank, p.devs[d].cfg.lists[D0])
    requires p.devs[q].state == UNKNOWN && r in p.devs[q].cfg.lists[D0] && r < |p.bank.res| && Slack(p, r) <= 0
    ensures !Safe(Step(fw, p, DoGet(d)))
  {
    ObservesD0(fw, p.bank, p.devs[d].cfg, d);
    PromotionBreaks(p, Observe(fw, p.bank, p.devs[d].cfg, d).0, q, r);
  }

  lemma UngroundedPair(devs: seq<Device>, n: nat) returns (d: nat, q: nat)
    requires Described(devs, n) && !Grounded(devs)
    ensures d < |devs| && q < |devs| && devs[d].cfg.parent == Some(q)
    ensures CanReportD0(devs[d].cfg) && devs[q].cfg.lists[D0] != []
  {
    d :| 0 <= d < |devs| && CanReportD0(devs[d].cfg) && devs[d].cfg.parent.Some?
         && devs[devs[d].cfg.parent.value].cfg.lists[D0] != [];
    q := devs[d].cfg.parent.value;
  }

  // --------------------------------------------------- from any safe platform

  /** The platform `devs` describes, over `n` resources that are on but not counted, with every state unknown. */
  function Uncounted(devs: seq<Device>, n: nat): Platform {
    Platform(Bank(seq(n, _ => Resource(0, false, true)), []),
             seq(|devs|, d requires 0 <= d < |devs| => devs[d].(state := UNKNOWN)))
  }

  lemma UncountedIsEven(devs: seq<Device>, n: nat)
    requires Described(devs, n)
    ensures Good(Uncounted(devs, n)) && Safe(Uncounted(devs, n)) && Even(Uncounted(devs, n))
  {
    var p := Uncounted(devs, n);
    forall r | 0 <= r < n ensures Slack(p, r) == 0 { NothingUsed(p.devs, r); }
  }

  /** For every set of devices with such a parent there is a safe platform that one read makes unsafe. */
  lemma UngroundedBreaks(fw: Firmware, devs: seq<Device>, n: nat) returns (d: nat)
    requires Described(devs, n) && !Grounded(devs) && Agreeable(fw, 0)
    ensures var p := Uncounted(devs, n);
            Good(p) && Safe(p) && !Safe(Step(fw, p, DoGet(d)))
  {
    var q;
    d, q := UngroundedPair(devs, n);
    UncountedIsEven(devs, n);
    var r := devs[q].cfg.lists[D0][0];
    assert Names(devs[q].cfg.lists[D0], n);
    assert Slack(Uncounted(devs, n), r) == 0;
    ReadBreaks(fw, Uncounted(devs, n), d, q, r);
  }

  predicate SameConfigs(devs: seq<Device>, devs1: seq<Device>) {
    |devs1| == |devs| && forall d :: 0 <= d < |devs| ==> devs1[d].cfg == devs[d].cfg
  }

  ghost predicate Fits(p: Platform, devs: seq<Device>, n: nat) {
    Good(p) && Safe(p) && |p.bank.res| == n && SameConfigs(devs, p.devs)
  }

  /** Every run from every safe platform over these devices is safe. */
  ghost predicate AlwaysSafe(devs: seq<Device>, n: nat) {
    forall fw, p, es {:trigger Run(fw, p, es)} :: Fits(p, devs, n) ==> Safe(Run(fw, p, es))
  }

  lemma UngroundedRun(devs: seq<Device>, n: nat) returns (fw: Firmware, p: Platform, es: seq<Event>)
    requires Described(devs, n) && !Grounded(devs)
    ensures Fits(p, devs, n) && !Safe(Run(fw, p, es))
  {
    fw, p := Firmware(_ => true, _ => D0), Uncounted(devs, n);
    var d := UngroundedBreaks(fw, devs, n);
    es := [DoGet(d)];
    assert es[1..] == [];
    assert Run(fw, p, es) == Run(fw, Step(fw, p, es[0]), []);
  }

  /**
    The ledger survives every run on a set of devices exactly when no parent
    that may be promoted needs resources in D0.
    */
  lemma SafeExactlyWhenGrounded(devs: seq<Device>, n: nat)
    requires Described(devs, n)
    ensures Grounded(devs) <==> AlwaysSafe(devs, n)
  {
    if Grounded(devs) {
      forall fw, p, es | Fits(p, devs, n)
        ensures Safe(Run(fw, p, es))
      {
        RunSafe(fw, p, es);
      }
    } else {
      var fw, p, es := UngroundedRun(devs, n);
    }
  }

  // ------------------------------------------------------------ from a cold start

  /** The platform `devs` describes before anything has been turned on: all resources off, all devices in D3cold. */
  function Cold(devs: seq<Device>, n: nat): Platform {
    Platform(Bank(seq(n, _ => Resource(0, false, false)), []),
             seq(|devs|, d requires 0 <= d < |devs| => devs[d].(state := D3_COLD)))
  }

  /** No device is its own parent. */
  predicate Tree(devs: seq<Device>) {
    forall d :: 0 <= d < |devs| ==> devs[d].cfg.parent != Some(d)
  }

  lemma ColdIsEven(devs: seq<Device>, n: nat)
    requires Described(devs, n)
    ensures Good(Cold(devs, n)) && Safe(Cold(devs, n)) && Even(Cold(devs, n))
  {
    var p := Cold(devs, n);
    forall r | 0 <= r < n ensures Slack(p, r) == 0 { NothingUsed(p.devs, r); }
  }

  /** Powering up a device whose first `_ON` fails: nothing is taken and its state becomes unknown. */
  lemma FirstOnFails(fw: Firmware, p: Platform, q: nat)
    requires Good(p) && Even(p) && q < |p.devs| && p.devs[q].state == D3_COLD && p.devs[q].cfg.lists[D0] != []
    requires p.bank.res[p.devs[q].cfg.lists[D0][0]].refCount == 0 && !fw.succeeds(|p.bank.log| + 1)
    ensures var p1 := Step(fw, p, DoTransition(q, D0));
            && p1.bank.res == p.bank.res && |p1.bank.log| == |p.bank.log| + 3
            && p1.devs == p.devs[q := p.devs[q].(state := UNKNOWN)] && Even(p1)
  {
    var list := p.devs[q].cfg.lists[D0];
    var b1 := PowerOn(fw, p.bank, list[0]).0;
    assert OnSweep(fw, p.bank, list, 0) == (b1, 0);
    assert Exchange(fw, p.bank, list, []) == (b1, false);
    var p1 := Step(fw, p, DoTransition(q, D0));
    forall r | 0 <= r < |p.bank.res| ensures Slack(p1, r) == 0 { SlackAfter(p, b1, q, UNKNOWN, r); }
  }

  /** Powering up a device from D3cold without failures: its list is taken and on, and the books stay even. */
  lemma PowersUp(fw: Firmware, p: Platform, d: nat)
    requires Good(p) && Even(p) && Safe(p) && d < |p.devs| && p.devs[d].state == D3_COLD && p.devs[d].cfg.manageable
    requires ReliableFrom(fw, |p.bank.log|)
    ensures var p1 := Step(fw, p, DoTransition(d, D0));
            && p1.devs == p.devs[d := p.devs[d].(state := D0)] && |p.bank.log| <= |p1.bank.log|
            && Even(p1) && Safe(p1)
  {
    var list := p.devs[d].cfg.lists[D0];
    OnSweepReliable(fw, p.bank, list, 0);
    var b1 := OnList(fw, p.bank, list).0;
    assert OffList(fw, b1, []) == (b1, true);
    var p1 := Step(fw, p, DoTransition(d, D0));
    forall r | 0 <= r < |p.bank.res| ensures Slack(p1, r) == 0 && Live(p1.bank, r) {
      assert Live(p.bank, r) && Slack(p, r) == 0;
      OnListLaw(fw, p.bank, list, r);
      SlackAfter(p, b1, d, D0, r);
    }
  }

  lemma ListOn(p: Platform, d: nat)
    requires Good(p) && Safe(p) && d < |p.devs| && p.devs[d].state == D0 && p.devs[d].cfg.lists[D0] != []
    ensures Powered(p.bank, p.devs[d].cfg.lists[D0])
  {
    var list := p.devs[d].cfg.lists[D0];
    forall j | 0 <= j < |list| ensures p.bank.res[list[j]].on { InUseIsOn(p, d, list[j]); }
  }

  lemma RunThree(fw: Firmware, p: Platform, a: Event, b: Event, c: Event)
    requires Good(p)
    ensures Run(fw, p, [a, b, c]) == Step(fw, Step(fw, Step(fw, p, a), b), c)
  {
    var es := [a, b, c];
    assert es[1..] == [b, c] && es[1..][1..] == [c] && es[1..][1..][1..] == [];
    assert Run(fw, p, es) == Run(fw, Step(fw, p, a), [b, c]);
    assert Run(fw, Step(fw, p, a), [b, c]) == Run(fw, Step(fw, Step(fw, p, a), b), [c]);
  }

  /**
    If bare transitions are allowed at any time, three steps from a cold start
    with one failing `_ON` are enough: the parent cannot be powered up and
    becomes unknown, the child is powered up, and reading the child's state
    records D0 for the parent.
    */
  lemma ColdRunBreaks(devs: seq<Device>, n: nat) returns (fw: Firmware, es: seq<Event>)
    requires Described(devs, n) && Tree(devs) && !Grounded(devs)
    ensures Good(Cold(devs, n)) && !Safe(Run(fw, Cold(devs, n), es))
  {
    var d, q := UngroundedPair(devs, n);
    fw := Firmware(i => i != 1, _ => D0);
    var p0 := Cold(devs, n);
    ColdIsEven(devs, n);
    assert Names(p0.devs[q].cfg.lists[D0], n);
    FirstOnFails(fw, p0, q);
    var p1 := Step(fw, p0, DoTransition(q, D0));
    assert ReliableFrom(fw, |p1.bank.log|);
    PowersUp(fw, p1, d);
    var p2 := Step(fw, p1, DoTransition(d, D0));
    if p2.devs[d].cfg.powerResources { ListOn(p2, d); }
    var r := devs[q].cfg.lists[D0][0];
    assert Slack(p2, r) == 0;
    ReadBreaks(fw, p2, d, q, r);
    es := [DoTransition(q, D0), DoTransition(d, D0), DoGet(d)];
    RunThree(fw, p0, es[0], es[1], es[2]);
  }

  /** Every run from a cold start of these devices, bare transitions included, is safe. */
  ghost predicate SafeFromCold(devs: seq<Device>, n: nat)
    requires Described(devs, n)
  {
    forall fw, es {:trigger Run(fw, Cold(devs, n), es)} :: Good(Cold(devs, n)) && Safe(Run(fw, Cold(devs, n), es))
  }

  /** A cold start is safe for ever exactly when no parent that may be promoted needs resources in D0. */
  lemma ColdSafeExactlyWhenGrounded(devs: seq<Device>, n: nat)
    requires Described(devs, n) && Tree(devs)
    ensures Grounded(devs) <==> SafeFromCold(devs, n)
  {
    ColdIsEven(devs, n);
    if Grounded(devs) {
      forall fw, es
        ensures Safe(Run(fw, Cold(devs, n), es))
      {
        RunSafe(fw, Cold(devs, n), es);
      }
    } else {
      var fw, es := ColdRunBreaks(devs, n);
    }
  }
}
