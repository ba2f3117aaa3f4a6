/**
  Bus master arbitration around C3 (drivers/acpi/processor_idle.c:874-893): a
  CPU with both flags set counts itself into the bracket before entering C3 and
  out of it afterwards, each in one locked section.
  */
module C3Arbitration {

  datatype Event = Enter(cpu: nat) | Leave(cpu: nat)

  /** The shared counter, the hardware bit, and the CPUs now between the two sections. */
  datatype State = State(count: int, arbDisable: bool, inside: set<nat>)

  function Step(s: State, online: set<nat>, flagged: set<nat>, e: Event): State {
    match e
    case Enter(cpu) =>
      if cpu !in flagged || cpu in s.inside then s
      else State(s.count + 1, s.arbDisable || s.count + 1 == |online|, s.inside + {cpu})
    case Leave(cpu) =>
      if cpu !in s.inside then s else State(s.count - 1, false, s.inside - {cpu})
  }

  function Run(s: State, online: set<nat>, flagged: set<nat>, es: seq<Event>): State
    decreases |es|
  {
    if es == [] then s else Run(Step(s, online, flagged, es[0]), online, flagged, es[1..])
  }

  predicate Valid(s: State, online: set<nat>, flagged: set<nat>) {
    && s.inside <= flagged
    && s.count == |s.inside|
    && (s.arbDisable <==> s.inside == online)
  }

  lemma SubsetOfEqualSize(a: set<nat>, b: set<nat>)
    requires a <= b
    ensures |a| <= |b| && (|a| == |b| <==> a == b)
  {
    assert b == a + (b - a);
  }

  /**
    For any interleaving: the counter is the number of CPUs inside, and
    arbitration is disabled exactly while every online CPU is inside (so never,
    if some online CPU lacks a flag).
    */
  lemma {:induction false} RunValid(s: State, online: set<nat>, flagged: set<nat>, es: seq<Event>)
    requires flagged <= online && online != {} && Valid(s, online, flagged)
    ensures Valid(Run(s, online, flagged, es), online, flagged)
    ensures flagged != online ==> !Run(s, online, flagged, es).arbDisable
    decreases |es|
  {
    if es != [] {
      var s1 := Step(s, online, flagged, es[0]);
      SubsetOfEqualSize(s1.inside, online);
      RunValid(s1, online, flagged, es[1..]);
    }
  }

  /** The last section `cpu` has passed in a run is the one before C3. */
  predicate Inside(es: seq<Event>, cpu: nat, before: bool) {
    if es == [] then before
    else
      var l := |es| - 1;
      if es[l] == Enter(cpu) then true else if es[l] == Leave(cpu) then false else Inside(es[..l], cpu, before)
  }

  lemma {:induction false} RunSnoc(s: State, online: set<nat>, flagged: set<nat>, es: seq<Event>)
    requires es != []
    ensures Run(s, online, flagged, es) == Step(Run(s, online, flagged, es[..|es| - 1]), online, flagged, es[|es| - 1])
    decreases |es|
  {
    if |es| > 1 {
      RunSnoc(Step(s, online, flagged, es[0]), online, flagged, es[1..]);
      assert es[1..][..|es| - 2] == es[..|es| - 1][1..];
    } else {
      assert es[1..] == [] && es[..0] == [];
    }
  }

  /** Who is inside over a run: exactly the flagged CPUs that entered last. */
  lemma {:induction false} RunInside(s: State, online: set<nat>, flagged: set<nat>, es: seq<Event>, cpu: nat)
    requires s.inside <= flagged
    ensures Run(s, online, flagged, es).inside <= flagged
    ensures cpu in Run(s, online, flagged, es).inside <==> cpu in flagged && Inside(es, cpu, cpu in s.inside)
    decreases |es|
  {
    if es != [] {
      RunInside(s, online, flagged, es[..|es| - 1], cpu);
      RunSnoc(s, online, flagged, es);
    }
  }

  function AllInside(flagged: set<nat>, es: seq<Event>): set<nat> {
    set cpu | cpu in flagged && Inside(es, cpu, false)
  }

  /**
    The counter after any run from a quiet start: how many CPUs are between the
    two sections, and so whether arbitration is disabled, follows from the run.
    */
  lemma CountedByRun(online: set<nat>, flagged: set<nat>, es: seq<Event>)
    requires flagged <= online && online != {}
    ensures var s := Run(State(0, false, {}), online, flagged, es);
            s.count == |AllInside(flagged, es)| && (s.arbDisable <==> AllInside(flagged, es) == online)
  {
    var s0 := State(0, false, {});
    var s := Run(s0, online, flagged, es);
    RunValid(s0, online, flagged, es);
    forall cpu ensures cpu in s.inside <==> cpu in AllInside(flagged, es) { RunInside(s0, online, flagged, es, cpu); }
    assert s.inside == AllInside(flagged, es);
  }

  class Arbiter {
    const online: set<nat>
    const flagged: set<nat>
    var count: int
    var arbDisable: bool
    ghost var inside: set<nat>

    ghost function View(): State
      reads this
    {
      State(count, arbDisable, inside)
    }

    constructor (online: set<nat>, flagged: set<nat>)
      requires flagged <= online && online != {}
      ensures View() == State(0, false, {}) && this.online == online && this.flagged == flagged
      ensures Valid(View(), online, flagged)
    {
      this.online, this.flagged := online, flagged;
      count, arbDisable, inside := 0, false, {};
    }

    method BeforeC3(cpu: nat)
      requires flagged <= online && Valid(View(), online, flagged) && cpu in flagged && cpu !in inside
      modifies this
      ensures View() == Step(old(View()), online, flagged, Enter(cpu)) && Valid(View(), online, flagged)
      ensures inside == old(inside) + {cpu} && count == old(count) + 1
      ensures arbDisable <==> count == |online|
    {
      count := count + 1;
      if count == |online| { arbDisable := true; }
      inside := inside + {cpu};
      SubsetOfEqualSize(inside, online);
    }

    method AfterC3(cpu: nat)
      requires flagged <= online && Valid(View(), online, flagged) && cpu in inside
      modifies this
      ensures View() == Step(old(View()), online, flagged, Leave(cpu)) && Valid(View(), online, flagged)
      ensures inside == old(inside) - {cpu} && count == old(count) - 1
      ensures !arbDisable && count < |online|
    {
      arbDisable := false;
      count := count - 1;
      inside := inside - {cpu};
      SubsetOfEqualSize(inside, online);
    }
  }
}
