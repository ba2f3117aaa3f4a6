/**
  Choosing interrupts for PCI link devices (drivers/acpi/pci_link.c:514-579):
  each new link takes a candidate of least penalty, and the choice is charged.
  */
module IrqBalance {

  const MAX_IRQS: nat := 256
  const PCI_USING: nat := 4096     // PIRQ_PENALTY_PCI_USING

  /** A well-formed candidate list: nonempty, without holes, inside the penalty table. */
  predicate Candidates(possible: seq<nat>) {
    possible != [] && forall i :: 0 <= i < |possible| ==> 0 < possible[i] < MAX_IRQS
  }

  /** `irq` has the least penalty of the candidates. */
  predicate Least(penalty: seq<int>, possible: seq<nat>, irq: nat)
    requires |penalty| == MAX_IRQS && Candidates(possible) && irq < MAX_IRQS
  {
    irq in possible && forall i :: 0 <= i < |possible| ==> penalty[irq] <= penalty[possible[i]]
  }

  /** The reverse scan over the first `i` candidates, from the end, starting with `irq`. */
  function Best(penalty: seq<int>, possible: seq<nat>, i: nat, irq: nat): (best: nat)
    requires |penalty| == MAX_IRQS && Candidates(possible) && i <= |possible| && irq < MAX_IRQS
    ensures best < MAX_IRQS
    decreases i
  {
    if i == 0 then irq
    else Best(penalty, possible, i - 1, if penalty[irq] > penalty[possible[i - 1]] then possible[i - 1] else irq)
  }

  lemma {:induction false} BestIsLeast(penalty: seq<int>, possible: seq<nat>, i: nat, irq: nat)
    requires |penalty| == MAX_IRQS && Candidates(possible) && i <= |possible| && irq in possible
    requires forall j :: i <= j < |possible| ==> penalty[irq] <= penalty[possible[j]]
    ensures Least(penalty, possible, Best(penalty, possible, i, irq))
    ensures Least(penalty, possible, irq) ==> Best(penalty, possible, i, irq) == irq
    decreases i
  {
    if i > 0 {
      BestIsLeast(penalty, possible, i - 1, if penalty[irq] > penalty[possible[i - 1]] then possible[i - 1] else irq);
    }
  }

  /** `irq` is the last candidate of its penalty: every later one is worse. */
  ghost predicate Last(penalty: seq<int>, possible: seq<nat>, irq: nat)
    requires |penalty| == MAX_IRQS && Candidates(possible) && irq < MAX_IRQS
  {
    exists k :: 0 <= k < |possible| && possible[k] == irq && WorseAfter(penalty, possible, k)
  }

  predicate WorseAfter(penalty: seq<int>, possible: seq<nat>, k: nat)
    requires |penalty| == MAX_IRQS && Candidates(possible) && k < |possible|
  {
    forall j :: k < j < |possible| ==> penalty[possible[j]] > penalty[possible[k]]
  }

  /** The scan changes its mind only for the last of the better candidates. */
  lemma {:induction false} BestIsLast(penalty: seq<int>, possible: seq<nat>, i: nat, irq: nat, fixed: bool)
    requires |penalty| == MAX_IRQS && Candidates(possible) && i <= |possible| && irq < MAX_IRQS
    requires forall j :: i <= j < |possible| ==> penalty[irq] <= penalty[possible[j]]
    requires fixed ==> Last(penalty, possible, irq)
    ensures var best := Best(penalty, possible, i, irq);
            (best == irq && !fixed) || Last(penalty, possible, best)
    decreases i
  {
    if i > 0 {
      if penalty[irq] > penalty[possible[i - 1]] {
        assert WorseAfter(penalty, possible, i - 1);
        BestIsLast(penalty, possible, i - 1, possible[i - 1], true);
      } else {
        BestIsLast(penalty, possible, i - 1, irq, fixed);
      }
    }
  }

  /** The table after `irq` has been charged. */
  function Charge(penalty: seq<int>, irq: nat): seq<int>
    requires irq < |penalty|
  {
    penalty[irq := penalty[irq] + PCI_USING]
  }

  /** No two candidates differ by more than `d`. */
  predicate Within(penalty: seq<int>, possible: seq<nat>, d: int)
    requires |penalty| == MAX_IRQS && Candidates(possible)
  {
    forall i, j :: 0 <= i < |possible| && 0 <= j < |possible| ==> penalty[possible[i]] - penalty[possible[j]] <= d
  }

  lemma ChargeKeepsSpread(penalty: seq<int>, possible: seq<nat>, irq: nat, d: int)
    requires |penalty| == MAX_IRQS && Candidates(possible) && irq < MAX_IRQS && Least(penalty, possible, irq)
    requires Within(penalty, possible, d) && d >= PCI_USING
    ensures Within(Charge(penalty, irq), possible, d)
  {
  }

  /** The tables of a run of successful allocations from one candidate list. */
  ghost predicate Allocates(tables: seq<seq<int>>, irqs: seq<nat>, possible: seq<nat>)
    requires Candidates(possible)
  {
    && |tables| == |irqs| + 1
    && (forall k :: 0 <= k < |tables| ==> |tables[k]| == MAX_IRQS)
    && (forall k :: 0 <= k < |irqs| ==>
          irqs[k] < MAX_IRQS && Least(tables[k], possible, irqs[k]) && tables[k + 1] == Charge(tables[k], irqs[k]))
  }

  /** Only the set of candidates matters. */
  lemma LeastOfSame(penalty: seq<int>, p: seq<nat>, q: seq<nat>, irq: nat)
    requires |penalty| == MAX_IRQS && Candidates(p) && Candidates(q) && irq < MAX_IRQS && Least(penalty, p, irq)
    requires forall x :: x in p <==> x in q
    ensures Least(penalty, q, irq)
  {
    forall i | 0 <= i < |q| ensures penalty[irq] <= penalty[q[i]] { assert q[i] in p; }
  }

  function Uses(irqs: seq<nat>, irq: nat): nat {
    if irqs == [] then 0 else Uses(irqs[..|irqs| - 1], irq) + if irqs[|irqs| - 1] == irq then 1 else 0
  }

  /** Over every run the spread of penalties never exceeds the larger of its first value and PCI_USING. */
  lemma {:induction false} SpreadBounded(tables: seq<seq<int>>, irqs: seq<nat>, possible: seq<nat>, d: int)
    requires Candidates(possible) && Allocates(tables, irqs, possible) && d >= PCI_USING && Within(tables[0], possible, d)
    ensures Within(tables[|irqs|], possible, d)
    ensures forall c :: 0 <= c < MAX_IRQS ==> tables[|irqs|][c] == tables[0][c] + PCI_USING * Uses(irqs, c)
    decreases |irqs|
  {
    if irqs != [] {
      var l := |irqs| - 1;
      SpreadBounded(tables[..l + 1], irqs[..l], possible, d);
      ChargeKeepsSpread(tables[l], possible, irqs[l], d);
    }
  }

  /** Candidates that start with equal penalties are used equally often, up to one. */
  lemma EvenUse(tables: seq<seq<int>>, irqs: seq<nat>, possible: seq<nat>, i: nat, j: nat)
    requires Candidates(possible) && Allocates(tables, irqs, possible) && Within(tables[0], possible, 0)
    requires i < |possible| && j < |possible|
    ensures Uses(irqs, possible[i]) <= Uses(irqs, possible[j]) + 1
  {
    SpreadBounded(tables, irqs, possible, PCI_USING);
    var last := tables[|irqs|];
    assert last[possible[i]] - last[possible[j]] <= PCI_USING;
    assert tables[0][possible[i]] - tables[0][possible[j]] <= 0 && tables[0][possible[j]] - tables[0][possible[i]] <= 0;
  }

  datatype Link = Link(active: nat, possible: seq<nat>, initialized: bool, refcnt: nat)

  /** A link after an attempt to program it. */
  function After(link: Link, irq: nat, sets: bool, loses: bool): Link {
    if irq == 0 then link else if sets then link.(active := irq) else if loses then link.(active := 0) else link
  }

  /** A link that has forgotten an active interrupt that is no candidate. */
  function Checked(link: Link): Link {
    if link.active in link.possible then link else link.(active := 0)
  }

  /** The penalty table and the links that draw on it. */
  class Router {
    var penalty: seq<int>
    var links: seq<Link>
    const balance: bool

    predicate Valid()
      reads this
    {
      |penalty| == MAX_IRQS && forall l :: 0 <= l < |links| ==> Candidates(links[l].possible)
    }

    constructor (penalty: seq<int>, links: seq<Link>, balance: bool)
      requires |penalty| == MAX_IRQS && forall l :: 0 <= l < |links| ==> Candidates(links[l].possible)
      ensures Valid() && this.penalty == penalty && this.links == links && this.balance == balance
    {
      this.penalty, this.links, this.balance := penalty, links, balance;
    }

    /** Programs the link; interrupt 0 is refused, and any other failure may lose the active interrupt. */
    method SetLink(l: nat, irq: nat, sets: bool, loses: bool) returns (ok: bool)
      requires l < |links|
      modifies this`links
      ensures ok == (sets && irq != 0)
      ensures links == old(links)[l := After(old(links)[l], irq, sets, loses)]
      ensures |links| == |old(links)| && forall k :: 0 <= k < |links| && k != l ==> links[k] == old(links)[k]
      ensures links[l] == old(links)[l].(active := links[l].active)
      ensures ok ==> links[l].active == irq
      ensures !ok ==> links[l].active == if irq != 0 && loses then 0 else old(links)[l].active
    {
      ok := sets && irq != 0;
      if ok {
        links := links[l := links[l].(active := irq)];
      } else if irq != 0 && loses {
        links := links[l := links[l].(active := 0)];
      }
      assert irq == 0 || !(sets || loses) ==> old(links)[l := old(links)[l]] == old(links);
    }

    /** The choice for a new link: its active interrupt if that is a candidate, else the last one, unless another is better. */
    method Choose(link: Link) returns (irq: nat, active: nat)
      requires |penalty| == MAX_IRQS && Candidates(link.possible)
      ensures link.(active := active) == Checked(link)
      ensures active == if link.active in link.possible then link.active else 0
      ensures irq in link.possible && irq < MAX_IRQS
      ensures balance || link.active !in link.possible ==> Least(penalty, link.possible, irq)
      ensures !balance && link.active in link.possible ==> irq == link.active
      ensures link.active in link.possible && Least(penalty, link.possible, link.active) ==> irq == link.active
      ensures irq == link.active || Last(penalty, link.possible, irq)
    {
      var i := 0;
      active := link.active;
      while i < |link.possible| && link.active != link.possible[i]
        invariant i <= |link.possible| && link.active !in link.possible[..i]
      {
        i := i + 1;
      }
      if i == |link.possible| {
        assert link.possible[..i] == link.possible;
        active := 0;
      }
      irq := if active != 0 then active else link.possible[|link.possible| - 1];
      if balance || active == 0 {
        ghost var first := irq;
        var n := |link.possible|;
        while n > 0
          invariant 0 <= n <= |link.possible| && irq < MAX_IRQS
          invariant Best(penalty, link.possible, n, irq) == Best(penalty, link.possible, |link.possible|, first)
        {
          if penalty[irq] > penalty[link.possible[n - 1]] { irq := link.possible[n - 1]; }
          n := n - 1;
        }
        BestIsLeast(penalty, link.possible, |link.possible|, first);
        assert WorseAfter(penalty, link.possible, |link.possible| - 1);
        BestIsLast(penalty, link.possible, |link.possible|, first, active == 0);
      }
    }

    /** `sets` and `loses` tell how programming the link goes. */
    method Allocate(l: nat, sets: bool, loses: bool) returns (ok: bool, ghost irq: nat)
      requires Valid() && l < |links|
      modifies this
      ensures Valid() && irq < MAX_IRQS
      ensures |links| == |old(links)| && forall k :: 0 <= k < |links| && k != l ==> links[k] == old(links)[k]
      ensures old(links)[l].initialized ==>
                var link := old(links)[l];
                && ok && penalty == old(penalty)
                && (link.refcnt > 0 || link.active == 0 ==> links == old(links))
                && (link.refcnt == 0 && link.active != 0 ==>
                      links[l] == link.(active := if !sets && loses then 0 else link.active))
                && links == old(links)[l := if link.refcnt == 0 then After(link, link.active, sets, loses) else link]
      ensures !old(links)[l].initialized ==>
                var link := old(links)[l];
                && ok == sets
                && irq in link.possible
                && (balance || link.active !in link.possible ==> Least(old(penalty), link.possible, irq))
                && (!balance && link.active in link.possible ==> irq == link.active)
                && (link.active in link.possible && Least(old(penalty), link.possible, link.active) ==> irq == link.active)
                && (irq == link.active || Last(old(penalty), link.possible, irq))
                && penalty == (if sets then Charge(old(penalty), irq) else old(penalty))
                && links == old(links)[l := After(Checked(link), irq, sets, loses).(initialized := sets)]
                && (ok ==> links[l] == link.(active := irq, initialized := true) && penalty == old(penalty)[irq := old(penalty)[irq] + 4096])
                && (!ok ==>
                      && penalty == old(penalty) && !links[l].initialized
                      && links[l].active == if loses || link.active !in link.possible then 0 else link.active)
    {
      irq := 0;
      ok := true;
      if links[l].initialized {
        if links[l].refcnt == 0 { var _ := SetLink(l, links[l].active, sets, loses); }
        return;
      }
      var chosen, active := Choose(links[l]);
      irq := chosen;
      links := links[l := links[l].(active := active)];
      ok := SetLink(l, chosen, sets, loses);
      if ok {
        penalty := penalty[links[l].active := penalty[links[l].active] + PCI_USING];
        links := links[l := links[l].(initialized := true)];
      }
    }

    /** Allocates links that share one set of candidates, in any order, with any failures. */
    method AllocateAll(ls: seq<nat>, sets: nat -> bool, loses: nat -> bool, ghost possible: seq<nat>, ghost d: int)
      requires Valid() && balance && Candidates(possible) && d >= PCI_USING && Within(penalty, possible, d)
      requires forall k :: 0 <= k < |ls| ==> ls[k] < |links| && forall x :: x in links[ls[k]].possible <==> x in possible
      modifies this
      ensures Valid() && Within(penalty, possible, d)
    {
      for k := 0 to |ls|
        invariant Valid() && Within(penalty, possible, d)
        invariant |links| == |old(links)| && forall l :: 0 <= l < |links| ==> links[l].possible == old(links)[l].possible
      {
        ghost var before, link := penalty, links[ls[k]];
        var ok, irq := Allocate(ls[k], sets(k), loses(k));
        if penalty != before {
          LeastOfSame(before, link.possible, possible, irq);
          ChargeKeepsSpread(before, possible, irq, d);
        }
      }
    }
  }
}
