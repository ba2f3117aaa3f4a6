/** Resume and state inference against the ledger (drivers/acpi/power.c). */
module PowerResume {
  import opened Wrappers
  import opened PowerResources
  import opened DevicePower
  import opened PowerLedger

  /** What one resource becomes in a resume pass, and what is evaluated for it. */
  function Resumed(fw: Firmware, b: Bank, i: nat): (b1: Bank)
    requires i < |b.res|
    ensures Extends(b, b1)
  {
    var x, ok := b.res[i], fw.succeeds(|b.log|);
    var log := b.log + [EvalSta(i, ok)];
    if !ok || x.on == (x.refCount > 0) then b.(log := log)
    else
      var done := fw.succeeds(|log|);
      var act := if x.refCount > 0 then EvalOn(i, done) else EvalOff(i, done);
      Bank(b.res[i := x.(on := if done then x.refCount > 0 else x.on)], log + [act])
  }

  /** One resume pass: hardware is driven back to what the counts ask for. */
  function Resume(fw: Firmware, b: Bank, i: nat): (b1: Bank)
    requires i <= |b.res|
    ensures Extends(b, b1)
    decreases |b.res| - i
  {
    if i == |b.res| then b else Resume(fw, Resumed(fw, b, i), i + 1)
  }

  predicate Agrees(x: Resource) {
    x.on <==> x.refCount > 0
  }

  ghost predicate Refused(log: seq<Act>, from: nat, r: nat) {
    Logged(log, from, EvalSta(r, false)) || Logged(log, from, EvalOn(r, false)) || Logged(log, from, EvalOff(r, false))
  }

  lemma {:induction false} ResumeKeeps(fw: Firmware, b: Bank, i: nat, r: nat)
    requires i <= |b.res| && r < |b.res|
    ensures var b1 := Resume(fw, b, i);
            && b1.res[r].refCount == b.res[r].refCount
            && b1.res[r].wakeupEnabled == b.res[r].wakeupEnabled
            && (r < i ==> b1.res[r] == b.res[r])
            && (Reliable(fw) && r >= i ==> Agrees(b1.res[r]))
    decreases |b.res| - i
  {
    if i < |b.res| { ResumeKeeps(fw, Resumed(fw, b, i), i + 1, r); }
  }

  lemma RefusedSplit(l0: seq<Act>, l1: seq<Act>, l2: seq<Act>, r: nat)
    requires l0 <= l1 <= l2
    ensures Refused(l2, |l0|, r) <==> Refused(l1, |l0|, r) || Refused(l2, |l1|, r)
  {
    LoggedSplit(l0, l1, l2, EvalSta(r, false));
    LoggedSplit(l0, l1, l2, EvalOn(r, false));
    LoggedSplit(l0, l1, l2, EvalOff(r, false));
  }

  lemma ResumedExact(fw: Firmware, b: Bank, i: nat, r: nat)
    requires i < |b.res| && r < |b.res|
    ensures var b1 := Resumed(fw, b, i);
            && (r != i ==> b1.res[r] == b.res[r] && !Refused(b1.log, |b.log|, r))
            && (r == i ==> (Agrees(b1.res[r]) <==> Agrees(b.res[r]) || !Refused(b1.log, |b.log|, r)))
  {
    var b1 := Resumed(fw, b, i);
    var x, ok := b.res[i], fw.succeeds(|b.log|);
    assert b1.log[|b.log|] == EvalSta(i, ok);
    if ok && x.on != (x.refCount > 0) {
      var done := fw.succeeds(|b.log| + 1);
      assert b1.log[|b.log| + 1] == if x.refCount > 0 then EvalOn(i, done) else EvalOff(i, done);
    }
  }

  /**
    A resume pass makes hardware and count of a resource agree exactly when
    they agreed before or no evaluation for that resource fails.
    */
  lemma {:induction false} ResumeLaw(fw: Firmware, b: Bank, i: nat, r: nat)
    requires i <= |b.res| && r < |b.res|
    ensures var b1 := Resume(fw, b, i);
            && (r < i ==> b1.res[r] == b.res[r] && !Refused(b1.log, |b.log|, r))
            && (r >= i ==> (Agrees(b1.res[r]) <==> Agrees(b.res[r]) || !Refused(b1.log, |b.log|, r)))
    decreases |b.res| - i
  {
    if i < |b.res| {
      var b1 := Resumed(fw, b, i);
      ResumedExact(fw, b, i, r);
      ResumeLaw(fw, b1, i + 1, r);
      RefusedSplit(b.log, b1.log, Resume(fw, b1, i + 1).log, r);
    }
  }

  // ---------------------------------------------------------------- inference

  predicate Powered(b: Bank, list: seq<nat>)
    requires Names(list, |b.res|)
  {
    list != [] && forall j :: 0 <= j < |list| ==> b.res[list[j]].on
  }

  lemma {:induction false} ListStateLaw(fw: Firmware, b: Bank, list: seq<nat>, i: nat, cur: bool)
    requires i <= |list| && Names(list, |b.res|)
    ensures var on := ListState(fw, b, list, i, cur).1;
            && (on.Some? && i < |list| ==> (on.value <==> forall j :: i <= j < |list| ==> b.res[list[j]].on))
            && (on.Some? && i == |list| ==> on.value == cur)
    decreases |list| - i
  {
    if i < |list| && b.res[list[i]].on {
      ListStateLaw(fw, b.(log := b.log + [EvalSta(list[i], true)]), list, i + 1, true);
    }
  }

  lemma WholeListState(fw: Firmware, b: Bank, list: seq<nat>)
    requires list != [] && Names(list, |b.res|) && ListState(fw, b, list, 0, false).1.Some?
    ensures ListState(fw, b, list, 0, false).1.value <==> Powered(b, list)
  {
    ListStateLaw(fw, b, list, 0, false);
  }

  lemma {:induction false} ListStateAnswers(fw: Firmware, b: Bank, list: seq<nat>, i: nat, cur: bool)
    requires i <= |list| && Names(list, |b.res|) && ReliableFrom(fw, |b.log|)
    ensures ListState(fw, b, list, i, cur).1.Some? && |b.log| <= |ListState(fw, b, list, i, cur).0.log|
    decreases |list| - i
  {
    if i < |list| && b.res[list[i]].on {
      ListStateAnswers(fw, b.(log := b.log + [EvalSta(list[i], true)]), list, i + 1, true);
    }
  }

  lemma {:induction false} InferredStateAnswers(fw: Firmware, b: Bank, lists: seq<seq<nat>>, i: nat)
    requires i <= |lists| == 4 && (forall s :: 0 <= s < 4 ==> Names(lists[s], |b.res|)) && ReliableFrom(fw, |b.log|)
    ensures InferredState(fw, b, lists, i).1.Some? && |b.log| <= |InferredState(fw, b, lists, i).0.log|
    decreases 4 - i
  {
    if i < 4 {
      if lists[i] == [] {
        InferredStateAnswers(fw, b, lists, i + 1);
      } else {
        var (b1, on) := ListState(fw, b, lists[i], 0, false);
        ListStateAnswers(fw, b, lists[i], 0, false);
        if on == Some(false) { InferredStateAnswers(fw, b1, lists, i + 1); }
      }
    }
  }

  lemma {:induction false} InferredIsPowered(fw: Firmware, b: Bank, lists: seq<seq<nat>>, i: nat)
    requires i <= |lists| == 4 && forall s :: 0 <= s < 4 ==> Names(lists[s], |b.res|)
    ensures var s := InferredState(fw, b, lists, i).1;
            s.Some? && s.value < D3_COLD ==> Powered(b, lists[s.value])
    decreases 4 - i
  {
    if i < 4 {
      if lists[i] == [] {
        InferredIsPowered(fw, b, lists, i + 1);
      } else {
        var (b1, on) := ListState(fw, b, lists[i], 0, false);
        if on.Some? { WholeListState(fw, b, lists[i]); }
        if on == Some(false) { InferredIsPowered(fw, b1, lists, i + 1); }
      }
    }
  }

  lemma {:induction false} NothingShallower(fw: Firmware, b: Bank, lists: seq<seq<nat>>, i: nat, t: nat)
    requires i <= |lists| == 4 && (forall s :: 0 <= s < 4 ==> Names(lists[s], |b.res|)) && i <= t < 4
    ensures var s := InferredState(fw, b, lists, i).1;
            s.Some? && t < s.value ==> !Powered(b, lists[t])
    decreases 4 - i
  {
    if lists[i] == [] {
      if i < t { NothingShallower(fw, b, lists, i + 1, t); }
    } else {
      var (b1, on) := ListState(fw, b, lists[i], 0, false);
      if on.Some? { WholeListState(fw, b, lists[i]); }
      if on == Some(false) && i < t { NothingShallower(fw, b1, lists, i + 1, t); }
    }
  }

  /** The inferred state is the least one whose nonempty list is all on, D3cold if there is none. */
  lemma InferredStateLaw(fw: Firmware, b: Bank, lists: seq<seq<nat>>, i: nat)
    requires i <= |lists| == 4 && forall s :: 0 <= s < 4 ==> Names(lists[s], |b.res|)
    ensures var s := InferredState(fw, b, lists, i).1;
            && (s.Some? && s.value < D3_COLD ==> Powered(b, lists[s.value]))
            && (s.Some? ==> forall t :: i <= t < s.value ==> !Powered(b, lists[t]))
  {
    InferredIsPowered(fw, b, lists, i);
    var s := InferredState(fw, b, lists, i).1;
    if s.Some? {
      forall t | i <= t < s.value ensures !Powered(b, lists[t]) { NothingShallower(fw, b, lists, i, t); }
    }
  }

  /**
    However sleep left the hardware, after a resume pass without failures
    power follows the counts, and a device recorded in Ds with a nonempty list
    is inferred to be in Ds or a shallower state.
    */
  lemma ResumeThenInfer(fw: Firmware, p: Platform, hw: seq<bool>, d: nat)
    requires Good(p) && Reliable(fw) && |hw| == |p.bank.res| && d < |p.devs|
    requires forall r :: 0 <= r < |p.bank.res| ==> Slack(p, r) >= 0
    requires ListOf(p.devs[d].cfg, p.devs[d].state) != []
    ensures var b := p.bank.(res := seq(|hw|, i requires 0 <= i < |hw| => p.bank.res[i].(on := hw[i])));
            var b1 := Resume(fw, b, 0);
            && (forall r :: 0 <= r < |p.bank.res| ==> Agrees(b1.res[r]) && b1.res[r].refCount == p.bank.res[r].refCount)
            && var s := InferredState(fw, b1, p.devs[d].cfg.lists, 0).1;
               s.Some? && s.value <= p.devs[d].state
  {
    var b := p.bank.(res := seq(|hw|, i requires 0 <= i < |hw| => p.bank.res[i].(on := hw[i])));
    var b1 := Resume(fw, b, 0);
    forall r | 0 <= r < |p.bank.res|
      ensures Agrees(b1.res[r]) && b1.res[r].refCount == p.bank.res[r].refCount
    {
      ResumeKeeps(fw, b, 0, r);
    }
    var list := ListOf(p.devs[d].cfg, p.devs[d].state);
    forall j | 0 <= j < |list|
      ensures b1.res[list[j]].on
    {
      CountedUse(p, d, list[j]);
    }
    InferredStateAnswers(fw, b1, p.devs[d].cfg.lists, 0);
    InferredStateLaw(fw, b1, p.devs[d].cfg.lists, 0);
  }
}
