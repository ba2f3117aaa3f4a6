/**
  Transitions of several devices interleaved resource by resource: the source
  locks one resource at a time (drivers/acpi/power.c:299-307, 346-354), so
  between two counter updates of one transition any updates of others may come,
  wakeup steps included, and any of them may fail.
  */
module PowerInterleave {
  import opened PowerResources
  import opened DevicePower
  import opened PowerLedger
  import opened PowerSteady

  /** How far a device's transition to state `s` has come. */
  datatype Thread =
    | Idle
    | Taking(s: nat, i: nat)      // entries before i of the new list are taken
    | Undoing(s: nat, k: nat)     // an _ON failed; entries before k are still to be given back
    | Dropping(s: nat, k: nat)    // entries from k on of the old list are dropped
    | Retaking(s: nat, i: nat)    // an _OFF failed; entries from i on are still to be taken back

  /** All that one step of a transition works on: the shared resources, the device's state and its thread. */
  datatype Local = Local(b: Bank, state: nat, t: Thread)

  predicate Placed(c: Config, state: nat, t: Thread) {
    && |c.lists| == 4
    && (!t.Idle? ==> t.s <= D3_COLD && state <= D3_COLD)
    && (t.Taking? ==> t.i <= |ListOf(c, t.s)|)
    && (t.Undoing? ==> t.k <= |ListOf(c, t.s)|)
    && (t.Dropping? ==> t.k <= |ListOf(c, state)|)
    && (t.Retaking? ==> t.i <= |ListOf(c, state)|)
  }

  predicate Fits(c: Config, l: Local) {
    Placed(c, l.state, l.t) && forall s :: 0 <= s < 4 ==> Names(c.lists[s], |l.b.res|)
  }

  /** One step of a transition: at most one counter update. */
  function Move(fw: Firmware, c: Config, l: Local): (l1: Local)
    requires Fits(c, l)
    ensures Fits(c, l1) && |l1.b.res| == |l.b.res|
  {
    match l.t
    case Idle => l
    case Taking(s, i) =>
      if i == |ListOf(c, s)| then l.(t := Dropping(s, |ListOf(c, l.state)|))
      else
        var (b1, ok) := PowerOn(fw, l.b, ListOf(c, s)[i]);
        Local(b1, l.state, if ok then Taking(s, i + 1) else Undoing(s, i))
    case Undoing(s, k) =>
      if k == 0 then Local(l.b, UNKNOWN, Idle)
      else Local(PowerOff(fw, l.b, ListOf(c, s)[k - 1]).0, l.state, Undoing(s, k - 1))
    case Dropping(s, k) =>
      if k == 0 then Local(l.b, s, Idle)
      else
        var (b1, ok) := PowerOff(fw, l.b, ListOf(c, l.state)[k - 1]);
        Local(b1, l.state, if ok then Dropping(s, k - 1) else Retaking(s, k))
    case Retaking(s, i) =>
      if i == |ListOf(c, l.state)| then Local(l.b, s, Idle)
      else Local(PowerOn(fw, l.b, ListOf(c, l.state)[i]).0, l.state, Retaking(s, i + 1))
  }

  /** The checks before a transition starts to take resources. */
  predicate Starts(c: Config, state: nat, target: int) {
    D0 <= target <= D3_COLD && state != target && c.manageable && state <= D3_COLD
  }

  function WakeOnStep(fw: Firmware, b: Bank, r: nat): (b1: Bank)
    requires r < |b.res|
    ensures |b1.res| == |b.res|
  {
    if b.res[r].wakeupEnabled then b
    else
      var (b1, ok) := PowerOn(fw, b, r);
      if ok then Mark(b1, r, true) else b1
  }

  function WakeOffStep(fw: Firmware, b: Bank, r: nat): (b1: Bank)
    requires r < |b.res|
    ensures |b1.res| == |b.res|
  {
    if !b.res[r].wakeupEnabled then b
    else
      var (b1, ok) := PowerOff(fw, b, r);
      if ok then Mark(b1, r, false) else b1
  }

  // ---------------------------------------------------------------- the machine

  datatype Machine = Machine(p: Platform, ts: seq<Thread>)

  datatype Action =
    | Begin(d: nat, target: int)
    | Advance(d: nat)
    | WakeOn(r: nat)
    | WakeOff(r: nat)

  predicate WellFormed(m: Machine) {
    && Good(m.p) && |m.ts| == |m.p.devs|
    && forall d :: 0 <= d < |m.ts| ==> Placed(m.p.devs[d].cfg, m.p.devs[d].state, m.ts[d])
  }

  function At(m: Machine, d: nat): Local
    requires d < |m.ts| && d < |m.p.devs|
  {
    Local(m.p.bank, m.p.devs[d].state, m.ts[d])
  }

  function Put(m: Machine, d: nat, l: Local): Machine
    requires d < |m.ts| && d < |m.p.devs|
  {
    Machine(WithState(WithBank(m.p, l.b), d, l.state), m.ts[d := l.t])
  }

  lemma AtFits(m: Machine, d: nat)
    requires WellFormed(m) && d < |m.ts|
    ensures Fits(m.p.devs[d].cfg, At(m, d))
  {
    assert GoodConfig(m.p.devs[d].cfg, |m.p.bank.res|, |m.p.devs|);
  }

  lemma PutWellFormed(m: Machine, d: nat, l: Local)
    requires WellFormed(m) && d < |m.ts| && Fits(m.p.devs[d].cfg, l) && |l.b.res| == |m.p.bank.res|
    ensures WellFormed(Put(m, d, l)) && Same(m.p, Put(m, d, l).p)
  {
    assert GoodConfig(m.p.devs[d].cfg, |m.p.bank.res|, |m.p.devs|);
  }

  /** What device `d`'s thread does next. */
  function Advanced(fw: Firmware, m: Machine, d: nat): (m1: Machine)
    requires WellFormed(m) && d < |m.ts|
    ensures WellFormed(m1) && Same(m.p, m1.p)
  {
    AtFits(m, d);
    var l := Move(fw, m.p.devs[d].cfg, At(m, d));
    PutWellFormed(m, d, l);
    Put(m, d, l)
  }

  function Rewired(m: Machine, b: Bank): (m1: Machine)
    requires WellFormed(m) && |b.res| == |m.p.bank.res|
    ensures WellFormed(m1) && Same(m.p, m1.p)
  {
    m.(p := WithBank(m.p, b))
  }

  function Perform(fw: Firmware, m: Machine, a: Action): (m1: Machine)
    requires WellFormed(m)
    ensures WellFormed(m1) && Same(m.p, m1.p)
  {
    match a
    case Begin(d, target) =>
      if d < |m.ts| && m.ts[d].Idle? && Starts(m.p.devs[d].cfg, m.p.devs[d].state, target)
      then m.(ts := m.ts[d := Taking(target, 0)])
      else m
    case Advance(d) => if d < |m.ts| then Advanced(fw, m, d) else m
    case WakeOn(r) => if r < |m.p.bank.res| then Rewired(m, WakeOnStep(fw, m.p.bank, r)) else m
    case WakeOff(r) => if r < |m.p.bank.res| then Rewired(m, WakeOffStep(fw, m.p.bank, r)) else m
  }

  function Interleave(fw: Firmware, m: Machine, es: seq<Action>): (m1: Machine)
    requires WellFormed(m)
    ensures WellFormed(m1) && Same(m.p, m1.p)
    decreases |es|
  {
    if es == [] then m else Interleave(fw, Perform(fw, m, es[0]), es[1..])
  }

  // ------------------------------------------------------------ claims of threads

  /** References a device and its unfinished transition are entitled to. */
  function Claim(c: Config, state: nat, t: Thread, r: nat): nat
    requires Placed(c, state, t)
  {
    var drop := ListOf(c, state);
    match t
    case Idle => Occ(drop, 0, |drop|, r)
    case Taking(s, i) => Occ(drop, 0, |drop|, r) + Occ(ListOf(c, s), 0, i, r)
    case Undoing(s, k) => Occ(drop, 0, |drop|, r) + Occ(ListOf(c, s), 0, k, r)
    case Dropping(s, k) => Occ(ListOf(c, s), 0, |ListOf(c, s)|, r) + Occ(drop, 0, k, r)
    case Retaking(s, _) => Occ(ListOf(c, s), 0, |ListOf(c, s)|, r)
  }

  /** What the device needs at this moment: the new list once the old one is being dropped. */
  function Needs(c: Config, state: nat, t: Thread): seq<nat>
    requires |c.lists| == 4
  {
    if t.Dropping? || t.Retaking? then ListOf(c, t.s) else ListOf(c, state)
  }

  lemma NeedsClaimed(c: Config, state: nat, t: Thread, r: nat)
    requires Placed(c, state, t) && r in Needs(c, state, t)
    ensures Claim(c, state, t, r) > 0
  {
    var list := Needs(c, state, t);
    OccPositive(list, 0, r);
    assert list[0..] == list;
  }

  function Margin(c: Config, l: Local, r: nat): int
    requires Fits(c, l) && r < |l.b.res|
  {
    Reserve(l.b, r) - Claim(c, l.state, l.t, r)
  }

  predicate Failing(t: Thread) { t.Undoing? || t.Retaking? }

  /** A resource is powered exactly while it is counted. */
  predicate Lit(b: Bank, r: nat)
    requires r < |b.res|
  {
    Live(b, r) && Dark(b, r)
  }

  lemma OccNext(list: seq<nat>, i: nat, r: nat)
    requires i < |list|
    ensures Occ(list, 0, i + 1, r) == Occ(list, 0, i, r) + if list[i] == r then 1 else 0
  {
    OccLast(list, i + 1, r);
  }

  lemma CallOn(fw: Firmware, b: Bank, x: nat, r: nat)
    requires x < |b.res| && r < |b.res|
    ensures var (b1, ok) := PowerOn(fw, b, x);
            && |b1.res| == |b.res|
            && Reserve(b1, r) == Reserve(b, r) + (if ok && x == r then 1 else 0)
            && (Live(b, r) ==> Live(b1, r)) && (Dark(b, r) ==> Dark(b1, r))
            && (Reliable(fw) ==> ok)
            && (b.res[r].refCount > 0 ==> Smooth(b, b1, r))
  {
  }

  lemma CallOff(fw: Firmware, b: Bank, x: nat, r: nat)
    requires x < |b.res| && r < |b.res| && (x == r ==> b.res[r].refCount > 0)
    ensures var (b1, ok) := PowerOff(fw, b, x);
            && |b1.res| == |b.res|
            && Reserve(b1, r) == Reserve(b, r) - (if ok && x == r then 1 else 0)
            && (Live(b, r) ==> Live(b1, r)) && (Dark(b, r) ==> Dark(b1, r))
            && (Reliable(fw) ==> ok)
            && ((x == r ==> b.res[r].refCount > 1) ==> Smooth(b, b1, r))
  {
  }

  /** Each phase keeps what is left over, and no phase disturbs a resource that is needed or left over. */
  ghost predicate Kept(fw: Firmware, c: Config, l: Local, l1: Local, r: nat)
    requires Fits(c, l) && Fits(c, l1) && r < |l.b.res| == |l1.b.res|
  {
    && Margin(c, l1, r) >= Margin(c, l, r)
    && (Live(l.b, r) ==> Live(l1.b, r)) && (Dark(l.b, r) ==> Dark(l1.b, r))
    && (Reliable(fw) && !Failing(l.t) ==> !Failing(l1.t) && Margin(c, l1, r) == Margin(c, l, r))
    && (Margin(c, l, r) > 0 || r in Needs(c, l.state, l.t) ==> Smooth(l.b, l1.b, r))
  }

  lemma MoveTaking(fw: Firmware, c: Config, l: Local, r: nat)
    requires Fits(c, l) && r < |l.b.res| && Margin(c, l, r) >= 0 && l.t.Taking?
    ensures Kept(fw, c, l, Move(fw, c, l), r)
  {
    var take := ListOf(c, l.t.s);
    if r in Needs(c, l.state, l.t) { NeedsClaimed(c, l.state, l.t, r); }
    if l.t.i < |take| {
      CallOn(fw, l.b, take[l.t.i], r);
      OccNext(take, l.t.i, r);
    }
  }

  lemma MoveUndoing(fw: Firmware, c: Config, l: Local, r: nat)
    requires Fits(c, l) && r < |l.b.res| && Margin(c, l, r) >= 0 && l.t.Undoing?
    ensures Kept(fw, c, l, Move(fw, c, l), r)
  {
    var take, k := ListOf(c, l.t.s), l.t.k;
    if r in Needs(c, l.state, l.t) { NeedsClaimed(c, l.state, Idle, r); }
    if k > 0 {
      OccNext(take, k - 1, r);
      CallOff(fw, l.b, take[k - 1], r);
    }
  }

  lemma MoveDropping(fw: Firmware, c: Config, l: Local, r: nat)
    requires Fits(c, l) && r < |l.b.res| && Margin(c, l, r) >= 0 && l.t.Dropping?
    ensures Kept(fw, c, l, Move(fw, c, l), r)
  {
    var drop, k := ListOf(c, l.state), l.t.k;
    if r in Needs(c, l.state, l.t) { NeedsClaimed(c, l.t.s, Idle, r); }
    if k > 0 {
      OccNext(drop, k - 1, r);
      CallOff(fw, l.b, drop[k - 1], r);
    }
  }

  lemma MoveRetaking(fw: Firmware, c: Config, l: Local, r: nat)
    requires Fits(c, l) && r < |l.b.res| && Margin(c, l, r) >= 0 && l.t.Retaking?
    ensures Kept(fw, c, l, Move(fw, c, l), r)
  {
    var drop := ListOf(c, l.state);
    if r in Needs(c, l.state, l.t) { NeedsClaimed(c, l.state, l.t, r); }
    if l.t.i < |drop| { CallOn(fw, l.b, drop[l.t.i], r); }
  }

  lemma MoveLaw(fw: Firmware, c: Config, l: Local, r: nat)
    requires Fits(c, l) && r < |l.b.res| && Margin(c, l, r) >= 0
    ensures Kept(fw, c, l, Move(fw, c, l), r)
  {
    match l.t
    case Idle =>
    case Taking(_, _) => MoveTaking(fw, c, l, r);
    case Undoing(_, _) => MoveUndoing(fw, c, l, r);
    case Dropping(_, _) => MoveDropping(fw, c, l, r);
    case Retaking(_, _) => MoveRetaking(fw, c, l, r);
  }

  lemma WakeLaw(fw: Firmware, b: Bank, x: nat, r: nat, b1: Bank)
    requires x < |b.res| && r < |b.res| && Reserve(b, r) >= 0
    requires b1 == WakeOnStep(fw, b, x) || b1 == WakeOffStep(fw, b, x)
    ensures |b1.res| == |b.res| && Reserve(b1, r) == Reserve(b, r)
    ensures (Live(b, r) ==> Live(b1, r)) && (Dark(b, r) ==> Dark(b1, r))
    ensures Reserve(b, r) > 0 ==> Smooth(b, b1, r)
  {
    CallOn(fw, b, x, r);
    if b.res[x].wakeupEnabled { CallOff(fw, b, x, r); }
  }

  // ------------------------------------------------------------------ the ledger

  function Sum(xs: seq<nat>): nat {
    if xs == [] then 0 else xs[0] + Sum(xs[1..])
  }

  lemma {:induction false} SumUpdate(xs: seq<nat>, d: nat, x: nat)
    requires d < |xs|
    ensures Sum(xs[d := x]) == Sum(xs) - xs[d] + x
    ensures Sum(xs) >= xs[d]
  {
    if d == 0 {
      assert xs[0 := x][1..] == xs[1..];
    } else {
      assert xs[d := x][1..] == xs[1..][d - 1 := x];
      SumUpdate(xs[1..], d - 1, x);
    }
  }

  lemma SumOfTwo(xs: seq<nat>, d: nat, j: nat)
    requires d < |xs| && j < |xs| && d != j
    ensures Sum(xs) >= xs[d] + xs[j]
  {
    SumUpdate(xs, d, 0);
    SumUpdate(xs[d := 0], j, 0);
  }

  function ClaimAt(m: Machine, d: nat, r: nat): nat
    requires WellFormed(m) && d < |m.ts|
  {
    Claim(m.p.devs[d].cfg, m.p.devs[d].state, m.ts[d], r)
  }

  function Claims(m: Machine, r: nat): (xs: seq<nat>)
    requires WellFormed(m)
    ensures |xs| == |m.ts| && forall d :: 0 <= d < |xs| ==> xs[d] == ClaimAt(m, d, r)
  {
    seq(|m.ts|, d requires 0 <= d < |m.ts| => ClaimAt(m, d, r))
  }

  /** References beyond the wakeup mark and all claims. */
  function Spare(m: Machine, r: nat): int
    requires WellFormed(m) && r < |m.p.bank.res|
  {
    Reserve(m.p.bank, r) - Sum(Claims(m, r))
  }

  lemma PutClaims(m: Machine, d: nat, l: Local, r: nat)
    requires WellFormed(m) && d < |m.ts| && Placed(m.p.devs[d].cfg, l.state, l.t) && WellFormed(Put(m, d, l))
    ensures Claims(Put(m, d, l), r) == Claims(m, r)[d := Claim(m.p.devs[d].cfg, l.state, l.t, r)]
  {
  }

  lemma MarginAt(m: Machine, d: nat, r: nat)
    requires WellFormed(m) && d < |m.ts| && r < |m.p.bank.res|
    ensures Fits(m.p.devs[d].cfg, At(m, d)) && Margin(m.p.devs[d].cfg, At(m, d), r) >= Spare(m, r)
  {
    AtFits(m, d);
    SumUpdate(Claims(m, r), d, 0);
  }

  /** No transition is being rolled back. */
  predicate NoRollback(m: Machine) {
    forall d :: 0 <= d < |m.ts| ==> !Failing(m.ts[d])
  }

  lemma AdvanceLaw(fw: Firmware, m: Machine, d: nat, r: nat)
    requires WellFormed(m) && d < |m.ts| && r < |m.p.bank.res| && Spare(m, r) >= 0
    ensures var m1 := Advanced(fw, m, d);
            && Spare(m1, r) >= Spare(m, r)
            && (Live(m.p.bank, r) ==> Live(m1.p.bank, r)) && (Dark(m.p.bank, r) ==> Dark(m1.p.bank, r))
            && (Reliable(fw) && NoRollback(m) ==> NoRollback(m1) && Spare(m1, r) == Spare(m, r))
  {
    MarginAt(m, d, r);
    var c, l := m.p.devs[d].cfg, At(m, d);
    MoveLaw(fw, c, l, r);
    var l1 := Move(fw, c, l);
    PutWellFormed(m, d, l1);
    PutClaims(m, d, l1, r);
    SumUpdate(Claims(m, r), d, Claim(c, l1.state, l1.t, r));
  }

  lemma BeginLaw(fw: Firmware, m: Machine, d: nat, target: int, r: nat)
    requires WellFormed(m) && r < |m.p.bank.res|
    ensures Claims(Perform(fw, m, Begin(d, target)), r) == Claims(m, r)
  {
  }

  lemma RewiredClaims(m: Machine, b: Bank, r: nat)
    requires WellFormed(m) && |b.res| == |m.p.bank.res|
    ensures Claims(Rewired(m, b), r) == Claims(m, r)
  {
  }

  lemma PerformLaw(fw: Firmware, m: Machine, a: Action, r: nat)
    requires WellFormed(m) && r < |m.p.bank.res| && Spare(m, r) >= 0
    ensures var m1 := Perform(fw, m, a);
            && Spare(m1, r) >= Spare(m, r)
            && (Live(m.p.bank, r) ==> Live(m1.p.bank, r)) && (Dark(m.p.bank, r) ==> Dark(m1.p.bank, r))
            && (Reliable(fw) && NoRollback(m) ==> NoRollback(m1) && Spare(m1, r) == Spare(m, r))
  {
    match a
    case Begin(d, target) => BeginLaw(fw, m, d, target, r);
    case Advance(d) =>
      if d < |m.ts| { AdvanceLaw(fw, m, d, r); }
    case WakeOn(x) =>
      if x < |m.p.bank.res| {
        WakeLaw(fw, m.p.bank, x, r, WakeOnStep(fw, m.p.bank, x));
        RewiredClaims(m, WakeOnStep(fw, m.p.bank, x), r);
      }
    case WakeOff(x) =>
      if x < |m.p.bank.res| {
        WakeLaw(fw, m.p.bank, x, r, WakeOffStep(fw, m.p.bank, x));
        RewiredClaims(m, WakeOffStep(fw, m.p.bank, x), r);
      }
  }

  /**
    Over every interleaving and every pattern of failures, each resource stays
    counted for its wakeup mark, for the devices at rest and for all that
    unfinished transitions are entitled to; with reliable firmware the count is
    kept exactly.
    */
  lemma {:induction false} InterleaveLaw(fw: Firmware, m: Machine, es: seq<Action>, r: nat)
    requires WellFormed(m) && r < |m.p.bank.res| && Spare(m, r) >= 0
    ensures var m1 := Interleave(fw, m, es);
            && Spare(m1, r) >= Spare(m, r)
            && (Live(m.p.bank, r) ==> Live(m1.p.bank, r)) && (Dark(m.p.bank, r) ==> Dark(m1.p.bank, r))
            && (Reliable(fw) && NoRollback(m) ==> NoRollback(m1) && Spare(m1, r) == Spare(m, r))
    decreases |es|
  {
    if es != [] {
      PerformLaw(fw, m, es[0], r);
      InterleaveLaw(fw, Perform(fw, m, es[0]), es[1..], r);
    }
  }

  function NeedsAt(m: Machine, d: nat): seq<nat>
    requires WellFormed(m) && d < |m.ts|
  {
    Needs(m.p.devs[d].cfg, m.p.devs[d].state, m.ts[d])
  }

  /** At every moment of every interleaving all that a device needs is on, whether it is at rest or in transition. */
  lemma NeededIsOn(fw: Firmware, m: Machine, es: seq<Action>, d: nat, r: nat)
    requires WellFormed(m) && d < |m.ts| && r < |m.p.bank.res| && Spare(m, r) >= 0 && Live(m.p.bank, r)
    ensures var m1 := Interleave(fw, m, es);
            r in NeedsAt(m1, d) ==> m1.p.bank.res[r].on && m1.p.bank.res[r].refCount > 0
  {
    var m1 := Interleave(fw, m, es);
    InterleaveLaw(fw, m, es, r);
    if r in NeedsAt(m1, d) {
      NeedsClaimed(m1.p.devs[d].cfg, m1.p.devs[d].state, m1.ts[d], r);
      MarginAt(m1, d, r);
    }
  }

  // ------------------------------------------------------------------- no glitch

  /** Whoever advances, what device `j` needs stays on. */
  lemma AdvanceSmooth(fw: Firmware, m: Machine, d: nat, j: nat, r: nat)
    requires WellFormed(m) && d < |m.ts| && j < |m.ts| && r < |m.p.bank.res| && Spare(m, r) >= 0
    requires r in NeedsAt(m, j)
    ensures Smooth(m.p.bank, Advanced(fw, m, d).p.bank, r)
  {
    var c := m.p.devs[d].cfg;
    MarginAt(m, d, r);
    if j != d {
      NeedsClaimed(m.p.devs[j].cfg, m.p.devs[j].state, m.ts[j], r);
      SumOfTwo(Claims(m, r), d, j);
    }
    MoveLaw(fw, c, At(m, d), r);
  }

  /** No step of any transition or of wakeup turns off, even for a moment, a resource that some device needs. */
  lemma PerformSmooth(fw: Firmware, m: Machine, a: Action, j: nat, r: nat)
    requires WellFormed(m) && j < |m.ts| && r < |m.p.bank.res| && Spare(m, r) >= 0
    requires r in NeedsAt(m, j)
    ensures Smooth(m.p.bank, Perform(fw, m, a).p.bank, r)
  {
    NeedsClaimed(m.p.devs[j].cfg, m.p.devs[j].state, m.ts[j], r);
    MarginAt(m, j, r);
    match a
    case Begin(_, _) =>
    case Advance(d) => if d < |m.ts| { AdvanceSmooth(fw, m, d, j, r); }
    case WakeOn(x) => if x < |m.p.bank.res| { WakeLaw(fw, m.p.bank, x, r, WakeOnStep(fw, m.p.bank, x)); }
    case WakeOff(x) => if x < |m.p.bank.res| { WakeLaw(fw, m.p.bank, x, r, WakeOffStep(fw, m.p.bank, x)); }
  }

  /** Device `j` needs `r` before every step. */
  predicate NeedsThroughout(fw: Firmware, m: Machine, es: seq<Action>, j: nat, r: nat)
    requires WellFormed(m) && j < |m.ts|
    decreases |es|
  {
    es == [] || (r in NeedsAt(m, j) && NeedsThroughout(fw, Perform(fw, m, es[0]), es[1..], j, r))
  }

  /** Over every interleaving throughout which a device needs a resource, that resource is never off. */
  lemma {:induction false} InterleaveSmooth(fw: Firmware, m: Machine, es: seq<Action>, j: nat, r: nat)
    requires WellFormed(m) && j < |m.ts| && r < |m.p.bank.res| && Spare(m, r) >= 0
    requires NeedsThroughout(fw, m, es, j, r)
    ensures Smooth(m.p.bank, Interleave(fw, m, es).p.bank, r)
    decreases |es|
  {
    if es != [] {
      var m1 := Perform(fw, m, es[0]);
      PerformSmooth(fw, m, es[0], j, r);
      PerformLaw(fw, m, es[0], r);
      InterleaveSmooth(fw, m1, es[1..], j, r);
      SmoothChain(m.p.bank, m1.p.bank, Interleave(fw, m1, es[1..]).p.bank, r);
    }
  }

  // ------------------------------------------------------------------ coming to rest

  predicate AtRest(m: Machine) {
    forall d :: 0 <= d < |m.ts| ==> m.ts[d].Idle?
  }

  lemma {:induction false} RestTotal(devs: seq<Device>, xs: seq<nat>, r: nat)
    requires Listed(devs) && |xs| == |devs| && forall d :: 0 <= d < |xs| ==> xs[d] == Uses(devs[d], r)
    ensures Sum(xs) == Total(devs, r)
  {
    if devs != [] { RestTotal(devs[1..], xs[1..], r); }
  }

  /** At rest the claims are the uses, so the ledger is the ledger of whole calls. */
  lemma SpareAtRest(m: Machine, r: nat)
    requires WellFormed(m) && AtRest(m) && r < |m.p.bank.res|
    ensures Spare(m, r) == Slack(m.p, r)
  {
    RestTotal(m.p.devs, Claims(m, r), r);
  }

  predicate SameStates(m: Machine, m1: Machine) {
    && |m1.p.devs| == |m.p.devs| && |m1.p.bank.res| == |m.p.bank.res|
    && (forall d :: 0 <= d < |m.p.devs| ==> m1.p.devs[d].cfg == m.p.devs[d].cfg && m1.p.devs[d].state == m.p.devs[d].state)
    && (forall r :: 0 <= r < |m.p.bank.res| ==> m1.p.bank.res[r].wakeupEnabled == m.p.bank.res[r].wakeupEnabled)
  }

  lemma {:induction false} SameTotal(devs: seq<Device>, devs1: seq<Device>, r: nat)
    requires Listed(devs) && |devs1| == |devs|
    requires forall d :: 0 <= d < |devs| ==> devs1[d].cfg == devs[d].cfg && devs1[d].state == devs[d].state
    ensures Listed(devs1) && Total(devs1, r) == Total(devs, r)
  {
    if devs != [] { SameTotal(devs[1..], devs1[1..], r); }
  }

  /**
    With reliable firmware the order does not matter: two interleavings that
    come to rest with the same device states and wakeup marks leave the same
    count on every resource and the same resources powered, however their
    steps were mixed.
    */
  lemma OrderDoesNotMatter(fw: Firmware, m: Machine, es: seq<Action>, fs: seq<Action>, r: nat)
    requires WellFormed(m) && NoRollback(m) && Reliable(fw)
    requires r < |m.p.bank.res| && Spare(m, r) >= 0 && Lit(m.p.bank, r)
    requires AtRest(Interleave(fw, m, es)) && AtRest(Interleave(fw, m, fs))
    requires SameStates(Interleave(fw, m, es), Interleave(fw, m, fs))
    ensures Interleave(fw, m, es).p.bank.res[r].refCount == Interleave(fw, m, fs).p.bank.res[r].refCount
    ensures Interleave(fw, m, es).p.bank.res[r].on == Interleave(fw, m, fs).p.bank.res[r].on
  {
    var m1, m2 := Interleave(fw, m, es), Interleave(fw, m, fs);
    InterleaveLaw(fw, m, es, r);
    InterleaveLaw(fw, m, fs, r);
    SpareAtRest(m1, r);
    SpareAtRest(m2, r);
    SameTotal(m1.p.devs, m2.p.devs, r);
  }

  // ------------------------------------------------------------ alone, it is whole

  function Rank(t: Thread): nat {
    match t
    case Idle => 0
    case Retaking(_, _) => 1
    case Dropping(_, _) => 2
    case Undoing(_, _) => 2
    case Taking(_, _) => 3
  }

  function Left(c: Config, l: Local): nat
    requires Fits(c, l)
  {
    match l.t
    case Idle => 0
    case Taking(s, i) => |ListOf(c, s)| - i
    case Undoing(_, k) => k
    case Dropping(_, k) => k
    case Retaking(_, i) => |ListOf(c, l.state)| - i
  }

  /** Runs a thread to its end with nothing in between. */
  function Finish(fw: Firmware, c: Config, l: Local): Local
    requires Fits(c, l)
    decreases Rank(l.t), Left(c, l)
  {
    if l.t.Idle? then l else Finish(fw, c, Move(fw, c, l))
  }

  lemma {:induction false} FinishUndoing(fw: Firmware, c: Config, l: Local)
    requires Fits(c, l) && l.t.Undoing?
    ensures Finish(fw, c, l) == Local(DropBack(fw, l.b, ListOf(c, l.t.s), l.t.k), UNKNOWN, Idle)
    decreases l.t.k
  {
    if l.t.k > 0 { FinishUndoing(fw, c, Move(fw, c, l)); }
  }

  lemma {:induction false} FinishRetaking(fw: Firmware, c: Config, l: Local)
    requires Fits(c, l) && l.t.Retaking?
    ensures Finish(fw, c, l) == Local(TakeBack(fw, l.b, ListOf(c, l.state), l.t.i), l.t.s, Idle)
    decreases Left(c, l)
  {
    if Left(c, l) > 0 { FinishRetaking(fw, c, Move(fw, c, l)); }
  }

  lemma {:induction false} FinishDropping(fw: Firmware, c: Config, l: Local)
    requires Fits(c, l) && l.t.Dropping?
    ensures var drop := ListOf(c, l.state);
            var (b1, j) := OffSweep(fw, l.b, drop, l.t.k);
            Finish(fw, c, l) == Local(if j == 0 then b1 else TakeBack(fw, b1, drop, j), l.t.s, Idle)
    decreases l.t.k
  {
    if l.t.k > 0 {
      var l1 := Move(fw, c, l);
      if l1.t.Dropping? { FinishDropping(fw, c, l1); } else { FinishRetaking(fw, c, l1); }
    }
  }

  lemma {:induction false} FinishTaking(fw: Firmware, c: Config, l: Local)
    requires Fits(c, l) && l.t.Taking?
    ensures var take := ListOf(c, l.t.s);
            var (b1, k) := OnSweep(fw, l.b, take, l.t.i);
            Finish(fw, c, l) == if k == |take| then Local(OffList(fw, b1, ListOf(c, l.state)).0, l.t.s, Idle)
                                else Local(DropBack(fw, b1, take, k), UNKNOWN, Idle)
    decreases Left(c, l)
  {
    var l1 := Move(fw, c, l);
    if Left(c, l) == 0 {
      FinishDropping(fw, c, l1);
    } else if l1.t.Taking? {
      FinishTaking(fw, c, l1);
    } else {
      FinishUndoing(fw, c, l1);
    }
  }

  function Moves(fw: Firmware, c: Config, l: Local, n: nat): (l1: Local)
    requires Fits(c, l)
    ensures Fits(c, l1) && |l1.b.res| == |l.b.res|
    decreases n
  {
    if n == 0 then l else Moves(fw, c, Move(fw, c, l), n - 1)
  }

  lemma {:induction false} MovesToEnd(fw: Firmware, c: Config, l: Local) returns (n: nat)
    requires Fits(c, l)
    ensures Moves(fw, c, l, n) == Finish(fw, c, l)
    decreases Rank(l.t), Left(c, l)
  {
    if l.t.Idle? {
      n := 0;
    } else {
      var k := MovesToEnd(fw, c, Move(fw, c, l));
      n := k + 1;
    }
  }

  lemma PutBack(m: Machine, d: nat)
    requires d < |m.ts| && d < |m.p.devs|
    ensures Put(m, d, At(m, d)) == m
  {
    assert m.ts[d := m.ts[d]] == m.ts && m.p.devs[d := m.p.devs[d]] == m.p.devs;
  }

  lemma PutTwice(m: Machine, d: nat, l: Local, l1: Local)
    requires d < |m.ts| && d < |m.p.devs|
    ensures Put(Put(m, d, l), d, l1) == Put(m, d, l1)
  {
    var dev := m.p.devs[d];
    assert m.ts[d := l.t][d := l1.t] == m.ts[d := l1.t];
    assert m.p.devs[d := dev.(state := l.state)][d := dev.(state := l1.state)] == m.p.devs[d := dev.(state := l1.state)];
  }

  lemma PutAdvance(fw: Firmware, m: Machine, d: nat, l: Local)
    requires WellFormed(m) && d < |m.ts| && Fits(m.p.devs[d].cfg, l) && |l.b.res| == |m.p.bank.res|
    ensures WellFormed(Put(m, d, l)) && Advanced(fw, Put(m, d, l), d) == Put(m, d, Move(fw, m.p.devs[d].cfg, l))
  {
    PutWellFormed(m, d, l);
    assert At(Put(m, d, l), d) == l;
    PutTwice(m, d, l, Move(fw, m.p.devs[d].cfg, l));
  }

  predicate OnlyAdvances(es: seq<Action>, d: nat) {
    forall i :: 0 <= i < |es| ==> es[i] == Advance(d)
  }

  lemma FirstAdvance(fw: Firmware, m: Machine, d: nat, es: seq<Action>, m1: Machine)
    requires WellFormed(m) && d < |m.ts| && es != [] && OnlyAdvances(es, d) && m1 == Advanced(fw, m, d)
    ensures Interleave(fw, m, es) == Interleave(fw, m1, es[1..]) && OnlyAdvances(es[1..], d)
  {
  }

  /** Advancing one thread moves its device and no other. */
  lemma {:induction false} AdvanceAlone(fw: Firmware, m: Machine, d: nat, c: Config, l: Local, m0: Machine, es: seq<Action>)
    requires WellFormed(m) && d < |m.ts| && c == m.p.devs[d].cfg && Fits(c, l) && |l.b.res| == |m.p.bank.res|
    requires m0 == Put(m, d, l) && WellFormed(m0) && OnlyAdvances(es, d)
    ensures Interleave(fw, m0, es) == Put(m, d, Moves(fw, c, l, |es|))
    decreases |es|
  {
    if es != [] {
      PutAdvance(fw, m, d, l);
      var l1, m1 := Move(fw, c, l), Advanced(fw, m0, d);
      FirstAdvance(fw, m0, d, es, m1);
      AdvanceAlone(fw, m, d, c, l1, m1, es[1..]);
    }
  }

  /** A transition that nothing comes between is the transition of the whole call. */
  lemma AloneIsTransition(fw: Firmware, m: Machine, d: nat, target: int) returns (es: seq<Action>)
    requires WellFormed(m) && d < |m.ts| && m.ts[d].Idle?
    ensures OnlyAdvances(es, d)
    ensures Interleave(fw, Perform(fw, m, Begin(d, target)), es) == Machine(Transition(fw, m.p, d, target).0, m.ts)
  {
    var m1, c := Perform(fw, m, Begin(d, target)), m.p.devs[d].cfg;
    AtFits(m1, d);
    PutBack(m1, d);
    var n := MovesToEnd(fw, c, At(m1, d));
    es := seq(n, _ => Advance(d));
    AdvanceAlone(fw, m1, d, c, At(m1, d), m1, es);
    if Starts(c, m.p.devs[d].state, target) {
      FinishTaking(fw, c, At(m1, d));
      assert m1.ts[d := Idle] == m.ts;
    }
  }

  // ------------------------------------------------------- wakeup, step by step

  /** One resource of a list after the other, from `i` on. */
  predicate InOrder(es: seq<Action>, list: seq<nat>, i: nat, on: bool) {
    i + |es| <= |list| && forall k :: 0 <= k < |es| ==> es[k] == if on then WakeOn(list[i + k]) else WakeOff(list[i + k])
  }

  lemma RewiredTwice(m: Machine, b: Bank, b1: Bank)
    requires WellFormed(m) && |b.res| == |b1.res| == |m.p.bank.res|
    ensures Rewired(Rewired(m, b), b1) == Rewired(m, b1) && Rewired(m, m.p.bank) == m
  {
  }

  /** The sweep that enables a wakeup list is a run of wakeup steps, as long as the sweep gets. */
  lemma {:induction false} EnableIsSteps(fw: Firmware, m: Machine, list: seq<nat>, i: nat) returns (es: seq<Action>)
    requires WellFormed(m) && i <= |list| && Names(list, |m.p.bank.res|)
    ensures InOrder(es, list, i, true)
    ensures Interleave(fw, m, es) == Rewired(m, EnableSweep(fw, m.p.bank, list, i).0)
    decreases |list| - i
  {
    es := [];
    RewiredTwice(m, m.p.bank, m.p.bank);
    if i < |list| {
      var b := WakeOnStep(fw, m.p.bank, list[i]);
      var rest := [];
      if b.res[list[i]].wakeupEnabled {
        rest := EnableIsSteps(fw, Rewired(m, b), list, i + 1);
        RewiredTwice(m, b, EnableSweep(fw, b, list, i + 1).0);
      }
      es := [WakeOn(list[i])] + rest;
      assert es[1..] == rest;
    }
  }

  lemma {:induction false} DisableIsSteps(fw: Firmware, m: Machine, list: seq<nat>, i: nat) returns (es: seq<Action>)
    requires WellFormed(m) && i <= |list| && Names(list, |m.p.bank.res|)
    ensures InOrder(es, list, i, false)
    ensures Interleave(fw, m, es) == Rewired(m, DisableSweep(fw, m.p.bank, list, i).0)
    decreases |list| - i
  {
    es := [];
    RewiredTwice(m, m.p.bank, m.p.bank);
    if i < |list| {
      var b := WakeOffStep(fw, m.p.bank, list[i]);
      var rest := [];
      if !b.res[list[i]].wakeupEnabled {
        rest := DisableIsSteps(fw, Rewired(m, b), list, i + 1);
        RewiredTwice(m, b, DisableSweep(fw, b, list, i + 1).0);
      }
      es := [WakeOff(list[i])] + rest;
      assert es[1..] == rest;
    }
  }
}
