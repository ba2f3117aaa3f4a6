/**
  Coordination domains of processors, for throttling and for performance states
  (drivers/acpi/processor_throttling.c:75-212 and
  drivers/acpi/processor_perflib.c:694-783): processors naming the same domain
  share one CPU mask.
  */
module Coordination {

  /** The domain package of a present processor; num and domain are unsigned 64-bit numbers. */
  datatype Cpu = Absent | Present(domain: nat, num: nat, coord: nat)

  /** An unsigned 64-bit count stored in an int and compared again as an unsigned 64-bit number. */
  function AsInt(num: nat): nat {
    var low := num % 0x1_0000_0000;
    if low < 0x8000_0000 then low else low + 0xFFFF_FFFF_0000_0000
  }

  predicate Peers(cpus: seq<Cpu>, i: nat, j: nat)
    requires i < |cpus| && j < |cpus|
  {
    cpus[i].Present? && cpus[j].Present? && cpus[i].domain == cpus[j].domain
  }

  /** Some processor before `n` makes the domain of `k` a shared one. */
  predicate Led(cpus: seq<Cpu>, n: nat, k: nat)
    requires n <= |cpus| && k < |cpus|
  {
    n > 0 && (Led(cpus, n - 1, k) || (Peers(cpus, n - 1, k) && cpus[n - 1].num > 1))
  }

  lemma {:induction false} LedBy(cpus: seq<Cpu>, n: nat, k: nat, m: nat)
    requires m < n <= |cpus| && k < |cpus| && Peers(cpus, m, k) && cpus[m].num > 1
    ensures Led(cpus, n, k)
  {
    if m < n - 1 { LedBy(cpus, n - 1, k, m); }
  }

  lemma {:induction false} LedWitness(cpus: seq<Cpu>, n: nat, k: nat) returns (m: nat)
    requires n <= |cpus| && k < |cpus| && Led(cpus, n, k)
    ensures m < n && Peers(cpus, m, k) && cpus[m].num > 1
  {
    if Led(cpus, n - 1, k) { m := LedWitness(cpus, n - 1, k); } else { m := n - 1; }
  }

  /** The first processor that makes its domain a shared one: the one whose package the others are checked against. */
  predicate Leader(cpus: seq<Cpu>, i: nat)
    requires i < |cpus|
  {
    cpus[i].Present? && cpus[i].num > 1 && !Led(cpus, i, i)
  }

  /** Every other processor of the domain repeats the leader's count and coordination type. */
  predicate Agreed(cpus: seq<Cpu>, i: nat)
    requires i < |cpus| && cpus[i].Present?
  {
    forall j :: 0 <= j < |cpus| && j != i && Peers(cpus, i, j) ==>
                  cpus[j].num == AsInt(cpus[i].num) && cpus[j].coord == cpus[i].coord
  }

  predicate Consistent(cpus: seq<Cpu>) {
    forall i :: 0 <= i < |cpus| && Leader(cpus, i) ==> Agreed(cpus, i)
  }

  function Domain(cpus: seq<Cpu>, i: nat): set<nat>
    requires i < |cpus|
  {
    set j: nat | j < |cpus| && Peers(cpus, i, j)
  }

  /** The mask of a processor once everything before `n` has been worked through. */
  function Group(cpus: seq<Cpu>, n: nat, k: nat): set<nat>
    requires n <= |cpus| && k < |cpus|
  {
    if Led(cpus, n, k) then Domain(cpus, k) else {k}
  }

  // ---------------------------------------------------------- what masks mean

  /** Masks of present processors form a partition, shared by exactly the processors of a domain some member of which counts more than one. */
  lemma GroupsPartition(cpus: seq<Cpu>, i: nat, j: nat)
    requires i < |cpus| && j < |cpus| && cpus[i].Present? && cpus[j].Present?
    ensures var n := |cpus|;
            && i in Group(cpus, n, i)
            && (forall x :: x in Group(cpus, n, i) ==> x < n && cpus[x].Present?)
            && (Group(cpus, n, i) == Group(cpus, n, j) || Group(cpus, n, i) !! Group(cpus, n, j))
            && (i != j ==> (j in Group(cpus, n, i) <==> Peers(cpus, i, j) && Led(cpus, n, i)))
  {
    if Peers(cpus, i, j) {
      assert Domain(cpus, i) == Domain(cpus, j);
      SameLead(cpus, |cpus|, i, j);
    }
  }

  lemma {:induction false} SameLead(cpus: seq<Cpu>, n: nat, i: nat, j: nat)
    requires n <= |cpus| && i < |cpus| && j < |cpus| && Peers(cpus, i, j)
    ensures Led(cpus, n, i) <==> Led(cpus, n, j)
  {
    if n > 0 { SameLead(cpus, n - 1, i, j); }
  }

  lemma {:induction false} FirstLead(cpus: seq<Cpu>, m: nat) returns (l: nat)
    requires m < |cpus| && cpus[m].Present? && cpus[m].num > 1
    ensures l <= m && Leader(cpus, l) && Peers(cpus, l, m)
    decreases m
  {
    if Led(cpus, m, m) {
      var k := LedWitness(cpus, m, m);
      l := FirstLead(cpus, k);
    } else {
      l := m;
    }
  }

  /** A processor shares its mask exactly with the others of its domain, and only if its own count exceeds one. */
  ghost predicate SharesByCount(cpus: seq<Cpu>) {
    forall i, j :: 0 <= i < |cpus| && 0 <= j < |cpus| && i != j && cpus[i].Present? && cpus[j].Present? ==>
                     (j in Group(cpus, |cpus|, i) <==> Peers(cpus, i, j) && cpus[i].num > 1)
  }

  /** No leader with company has a count that an int truncates to one or less. */
  predicate CountsSurvive(cpus: seq<Cpu>) {
    forall l, j :: 0 <= l < |cpus| && 0 <= j < |cpus| && l != j && Peers(cpus, l, j) && Leader(cpus, l) ==> AsInt(cpus[l].num) > 1
  }

  /** Counts are truncated before they are compared; sharing follows the counts exactly when none shrinks to one or less. */
  lemma SharingFollowsCounts(cpus: seq<Cpu>)
    requires Consistent(cpus)
    ensures SharesByCount(cpus) <==> CountsSurvive(cpus)
    ensures (forall k :: 0 <= k < |cpus| && cpus[k].Present? ==> cpus[k].num < 0x8000_0000) ==> CountsSurvive(cpus)
  {
    if CountsSurvive(cpus) {
      forall i, j | 0 <= i < |cpus| && 0 <= j < |cpus| && i != j && cpus[i].Present? && cpus[j].Present?
        ensures j in Group(cpus, |cpus|, i) <==> Peers(cpus, i, j) && cpus[i].num > 1
      {
        LedByCount(cpus, i, j);
      }
    }
    if SharesByCount(cpus) {
      forall l, j | 0 <= l < |cpus| && 0 <= j < |cpus| && l != j && Peers(cpus, l, j) && Leader(cpus, l)
        ensures AsInt(cpus[l].num) > 1
      {
        assert Agreed(cpus, l);
        assert Peers(cpus, j, l) && l in Domain(cpus, j);
        LedBy(cpus, |cpus|, j, l);
        assert l in Group(cpus, |cpus|, j);
      }
    }
  }

  lemma LedByCount(cpus: seq<Cpu>, i: nat, j: nat)
    requires i < |cpus| && j < |cpus| && i != j && cpus[i].Present? && cpus[j].Present?
    requires Consistent(cpus) && CountsSurvive(cpus)
    ensures j in Group(cpus, |cpus|, i) <==> Peers(cpus, i, j) && cpus[i].num > 1
  {
    if cpus[i].num > 1 { LedBy(cpus, |cpus|, i, i); }
    if Led(cpus, |cpus|, i) {
      var m := LedWitness(cpus, |cpus|, i);
      var l := FirstLead(cpus, m);
      assert Agreed(cpus, l) && Peers(cpus, l, i);
    }
  }

  /** A processor that counts itself alone made to share: the leader's count is one modulo 2^32. */
  lemma TruncatedCount()
    ensures var cpus := [Present(0, 0x1_0000_0001, SW_ALL), Present(0, 1, SW_ALL)];
            Consistent(cpus) && 0 in Group(cpus, 2, 1) && cpus[1].num == 1
  {
    var cpus := [Present(0, 0x1_0000_0001, SW_ALL), Present(0, 1, SW_ALL)];
    LedBy(cpus, 2, 1, 0);
    LedBy(cpus, 1, 1, 0);
  }

  // ------------------------------------------------------------ in-place form

  /** Masks worked out for everything before `n`; later processors not yet covered still have at most themselves. */
  ghost predicate Progress(cpus: seq<Cpu>, masks: seq<set<nat>>, covered: set<nat>, n: nat)
    requires n <= |cpus| == |masks|
  {
    && (forall k :: 0 <= k < |cpus| && cpus[k].Present? ==>
          && (k in covered <==> k < n || Led(cpus, n, k))
          && (k in covered ==> masks[k] == Group(cpus, n, k))
          && (k !in covered ==> masks[k] <= {k}))
    && (forall m :: 0 <= m < n && Leader(cpus, m) ==> Agreed(cpus, m))
  }

  lemma CopiedProgress(cpus: seq<Cpu>, before: seq<set<nat>>, masks: seq<set<nat>>, covered: set<nat>, n: nat)
    requires n < |cpus| == |masks| == |before| && Progress(cpus, before, covered, n) && n !in covered && cpus[n].Present?
    requires cpus[n].num > 1 && Agreed(cpus, n)
    requires forall k :: 0 <= k < |cpus| ==> masks[k] == if Peers(cpus, n, k) then Domain(cpus, n) else before[k]
    ensures Progress(cpus, masks, covered + Domain(cpus, n), n + 1)
  {
    forall k | 0 <= k < |cpus| && Peers(cpus, n, k) ensures Domain(cpus, k) == Domain(cpus, n) { }
  }

  lemma SkippedLed(cpus: seq<Cpu>, n: nat, k: nat)
    requires n < |cpus| && k < |cpus| && (cpus[n].Absent? || Led(cpus, n, n))
    ensures Led(cpus, n + 1, k) <==> Led(cpus, n, k)
  {
    if Peers(cpus, n, k) { SameLead(cpus, n, n, k); }
  }

  lemma SkippedProgress(cpus: seq<Cpu>, masks: seq<set<nat>>, covered: set<nat>, n: nat)
    requires n < |cpus| == |masks| && Progress(cpus, masks, covered, n) && (cpus[n].Absent? || n in covered)
    ensures Progress(cpus, masks, covered, n + 1)
  {
    assert cpus[n].Absent? || Led(cpus, n, n);
    forall k | 0 <= k < |cpus|
      ensures Led(cpus, n + 1, k) <==> Led(cpus, n, k)
      ensures Group(cpus, n + 1, k) == Group(cpus, n, k)
    {
      SkippedLed(cpus, n, k);
    }
    forall m | 0 <= m < n + 1 && Leader(cpus, m) ensures Agreed(cpus, m) {
      assert m < n;
    }
  }

  lemma AloneProgress(cpus: seq<Cpu>, masks: seq<set<nat>>, covered: set<nat>, n: nat)
    requires n < |cpus| == |masks| && Progress(cpus, masks, covered, n) && cpus[n].Present? && n !in covered && cpus[n].num <= 1
    ensures Progress(cpus, masks[n := masks[n] + {n}], covered + {n}, n + 1)
  {
    assert masks[n] + {n} == {n};
  }

  lemma FreshLeader(cpus: seq<Cpu>, masks: seq<set<nat>>, covered: set<nat>, n: nat)
    requires n < |cpus| == |masks| && Progress(cpus, masks, covered, n) && cpus[n].Present? && n !in covered
    ensures masks[n] + {n} == {n} && (cpus[n].num > 1 ==> Leader(cpus, n))
  {
  }

  // ------------------------------------------------------------- shared types

  // Coordination types of a domain, and what performance data record for them.
  const SW_ALL: nat := 0xfc
  const SW_ANY: nat := 0xfd
  const HW_ALL: nat := 0xfe
  const SHARED_HW: nat := 1
  const SHARED_ALL: nat := 2
  const SHARED_ANY: nat := 3

  /** What a leader records for its coordination type; an unknown one changes nothing. */
  function Recorded(coord: nat, was: nat): nat {
    if coord == SW_ALL then SHARED_ALL else if coord == HW_ALL then SHARED_HW else if coord == SW_ANY then SHARED_ANY else was
  }

  /** Shared domains have the type of their coordination recorded, and the types of others are untouched. */
  ghost predicate Typed(cpus: seq<Cpu>, types: seq<nat>, were: seq<nat>, n: nat)
    requires n <= |cpus| == |types| == |were|
  {
    forall k :: 0 <= k < |cpus| ==>
                  if cpus[k].Present? && Led(cpus, n, k) then
                    && (cpus[k].coord == 0xfc ==> types[k] == 2)     // SW_ALL: all of them
                    && (cpus[k].coord == 0xfd ==> types[k] == 3)     // SW_ANY: any of them
                    && (cpus[k].coord == 0xfe ==> types[k] == 1)     // HW_ALL: the hardware
                  else types[k] == were[k]
  }

  lemma TypedSkip(cpus: seq<Cpu>, types: seq<nat>, were: seq<nat>, n: nat)
    requires n < |cpus| == |types| == |were| && Typed(cpus, types, were, n)
    requires cpus[n].Absent? || cpus[n].num <= 1 || Led(cpus, n, n)
    ensures Typed(cpus, types, were, n + 1)
  {
    forall k | 0 <= k < |cpus| ensures Led(cpus, n + 1, k) <==> Led(cpus, n, k) {
      if cpus[n].Absent? || Led(cpus, n, n) { SkippedLed(cpus, n, k); }
    }
  }

  lemma TypedLead(cpus: seq<Cpu>, types: seq<nat>, types': seq<nat>, were: seq<nat>, n: nat)
    requires n < |cpus| == |types| == |types'| == |were| && Typed(cpus, types, were, n)
    requires cpus[n].Present? && cpus[n].num > 1 && Agreed(cpus, n)
    requires forall k :: 0 <= k < |cpus| ==> types'[k] == if Peers(cpus, n, k) then Recorded(cpus[n].coord, types[n]) else types[k]
    ensures Typed(cpus, types', were, n + 1)
  {
  }

  /** The nested loops; on failure the masks are whatever had been reached.  Only P-states record types. */
  method Coordinate(cpus: seq<Cpu>, masks: array<set<nat>>, types: array<nat>, pstates: bool) returns (ok: bool)
    requires masks.Length == types.Length == |cpus|
    requires forall k :: 0 <= k < |cpus| && cpus[k].Present? ==> masks[k] <= {k}
    modifies masks, types
    ensures ok <==> Consistent(cpus)
    ensures ok ==> forall k :: 0 <= k < |cpus| && cpus[k].Present? ==> masks[k] == Group(cpus, |cpus|, k)
    ensures pstates && ok ==> Typed(cpus, types[..], old(types[..]), |cpus|)
    ensures !pstates ==> types[..] == old(types[..])
  {
    var covered: set<nat> := {};
    for i := 0 to |cpus|
      invariant Progress(cpus, masks[..], covered, i)
      invariant if pstates then Typed(cpus, types[..], old(types[..]), i) else types[..] == old(types[..])
    {
      ghost var before, were, had := masks[..], covered, types[..];
      if cpus[i].Absent? || i in covered {
        SkippedProgress(cpus, before, were, i);
        if pstates { TypedSkip(cpus, had, old(types[..]), i); }
      } else {
        FreshLeader(cpus, before, were, i);
        masks[i] := masks[i] + {i};
        covered := covered + {i};
        if cpus[i].num <= 1 {
          AloneProgress(cpus, before, were, i);
          assert masks[..] == before[i := before[i] + {i}];
          if pstates { TypedSkip(cpus, had, old(types[..]), i); }
        } else {
          var agreed;
          agreed, covered := Collect(cpus, masks, i, covered);
          if !agreed { return false; }
          Copy(cpus, masks, i);
          CopiedProgress(cpus, before, masks[..], were, i);
          assert covered == were + Domain(cpus, i);
          if pstates {
            RecordTypes(cpus, types, i);
            TypedLead(cpus, had, types[..], old(types[..]), i);
          }
        }
      }
    }
    return true;
  }

  /** Records the type of a leader and gives it to the others of its domain. */
  method RecordTypes(cpus: seq<Cpu>, types: array<nat>, i: nat)
    requires i < |cpus| == types.Length && cpus[i].Present?
    modifies types
    ensures forall k :: 0 <= k < |cpus| ==>
                          types[k] == if Peers(cpus, i, k) then Recorded(cpus[i].coord, old(types[i])) else old(types[k])
  {
    types[i] := Recorded(cpus[i].coord, types[i]);
    for j := 0 to |cpus|
      invariant types[i] == Recorded(cpus[i].coord, old(types[i]))
      invariant forall k :: 0 <= k < |cpus| && k != i ==> types[k] == if k < j && Peers(cpus, i, k) then types[i] else old(types[k])
    {
      if j != i && cpus[j].Present? && cpus[j].domain == cpus[i].domain {
        types[j] := types[i];
      }
    }
  }

  /** Gathers the domain of `i` into its mask and checks the other packages against it. */
  method Collect(cpus: seq<Cpu>, masks: array<set<nat>>, i: nat, covered: set<nat>) returns (agreed: bool, covered': set<nat>)
    requires i < |cpus| == masks.Length && cpus[i].Present? && masks[i] == {i}
    modifies masks
    ensures agreed <==> Agreed(cpus, i)
    ensures agreed ==> covered' == covered + (Domain(cpus, i) - {i}) && masks[i] == Domain(cpus, i)
    ensures forall k :: 0 <= k < |cpus| && k != i ==> masks[k] == old(masks[k])
  {
    covered' := covered;
    for j := 0 to |cpus|
      invariant forall k :: 0 <= k < |cpus| && k != i ==> masks[k] == old(masks[k])
      invariant forall k :: 0 <= k < j && k != i && Peers(cpus, i, k) ==>
                  cpus[k].num == AsInt(cpus[i].num) && cpus[k].coord == cpus[i].coord
      invariant masks[i] == {i} + set k: nat | k < j && Peers(cpus, i, k)
      invariant covered' == covered + ((set k: nat | k < j && Peers(cpus, i, k)) - {i})
    {
      if j != i && cpus[j].Present? && cpus[j].domain == cpus[i].domain {
        if cpus[j].num != AsInt(cpus[i].num) { assert Peers(cpus, i, j); return false, covered'; }
        if cpus[i].coord != cpus[j].coord { assert Peers(cpus, i, j); return false, covered'; }
        covered' := covered' + {j};
        masks[i] := masks[i] + {j};
      }
    }
    return true, covered';
  }

  /** Gives the mask of `i` to the others of its domain. */
  method Copy(cpus: seq<Cpu>, masks: array<set<nat>>, i: nat)
    requires i < |cpus| == masks.Length && cpus[i].Present?
    modifies masks
    ensures forall k :: 0 <= k < |cpus| ==> masks[k] == if Peers(cpus, i, k) then old(masks[i]) else old(masks[k])
  {
    for j := 0 to |cpus|
      invariant masks[i] == old(masks[i])
      invariant forall k :: 0 <= k < |cpus| ==> masks[k] == if k < j && Peers(cpus, i, k) then old(masks[i]) else old(masks[k])
    {
      if j != i && cpus[j].Present? && cpus[j].domain == cpus[i].domain {
        masks[j] := masks[i];
      }
    }
  }

  /** No coordination: every present processor on its own, with the given type. */
  method Reset(cpus: seq<Cpu>, masks: array<set<nat>>, types: array<nat>, alone: nat)
    requires masks.Length == types.Length == |cpus|
    modifies masks, types
    ensures forall k :: 0 <= k < |cpus| ==> masks[k] == if cpus[k].Present? then {k} else old(masks[k])
    ensures forall k :: 0 <= k < |cpus| ==> types[k] == if cpus[k].Present? then alone else old(types[k])
  {
    for i := 0 to |cpus|
      invariant forall k :: 0 <= k < |cpus| ==> masks[k] == if k < i && cpus[k].Present? then {k} else old(masks[k])
      invariant forall k :: 0 <= k < |cpus| ==> types[k] == if k < i && cpus[k].Present? then alone else old(types[k])
    {
      if cpus[i].Present? {
        masks[i] := {};
        masks[i] := masks[i] + {i};
        types[i] := alone;
      }
    }
  }

  /** T-states: an invalid package of any processor, too, means no coordination. */
  method UpdateTsdCoord(cpus: seq<Cpu>, tsdValid: seq<bool>, masks: array<set<nat>>, types: array<nat>) returns (ok: bool)
    requires masks.Length == types.Length == |cpus| == |tsdValid|
    requires forall k :: 0 <= k < |cpus| && cpus[k].Present? ==> masks[k] <= {k}
    modifies masks, types
    ensures ok <==> Consistent(cpus) && forall k :: 0 <= k < |cpus| && cpus[k].Present? ==> tsdValid[k]
    ensures forall k :: 0 <= k < |cpus| && cpus[k].Present? ==> masks[k] == if ok then Group(cpus, |cpus|, k) else {k}
    ensures if ok then types[..] == old(types[..])
            else forall k :: 0 <= k < |cpus| && cpus[k].Present? ==> types[k] == SW_ALL
  {
    ok := true;
    var i := 0;
    while i < |cpus| && ok
      invariant i <= |cpus|
      invariant ok <==> forall k :: 0 <= k < i && cpus[k].Present? ==> tsdValid[k]
    {
      if cpus[i].Present? && !tsdValid[i] { ok := false; }
      i := i + 1;
    }
    if ok { ok := Coordinate(cpus, masks, types, false); }
    if !ok { Reset(cpus, masks, types, SW_ALL); }
  }

  datatype Status = Ok | EBusy | EInval

  /** `k` is the first processor that already has performance data or was given none. */
  predicate FirstRefused(cpus: seq<Cpu>, busy: seq<bool>, given: seq<bool>, k: nat)
    requires k < |cpus| == |busy| == |given|
  {
    && cpus[k].Present? && (busy[k] || !given[k])
    && forall j :: 0 <= j < k && cpus[j].Present? ==> !busy[j] && given[j]
  }

  /** Looks for a processor that already has performance data or was given none. */
  method CheckInput(cpus: seq<Cpu>, busy: seq<bool>, given: seq<bool>) returns (st: Status)
    requires |cpus| == |busy| == |given|
    ensures st == Ok <==> forall k :: 0 <= k < |cpus| && cpus[k].Present? ==> !busy[k] && given[k]
    ensures st != Ok ==> exists k :: 0 <= k < |cpus| && FirstRefused(cpus, busy, given, k) && st == if busy[k] then EBusy else EInval
  {
    for i := 0 to |cpus|
      invariant forall k :: 0 <= k < i && cpus[k].Present? ==> !busy[k] && given[k]
    {
      if cpus[i].Present? {
        if busy[i] { assert FirstRefused(cpus, busy, given, i); return EBusy; }
        if !given[i] { assert FirstRefused(cpus, busy, given, i); return EInval; }
      }
    }
    return Ok;
  }

  /**
    P-states.  `busy` and `given` tell which processors already have, and were
    given, performance data; `psdValid` whose package could be read.
    */
  method PreregisterPerformance(cpus: seq<Cpu>, busy: seq<bool>, given: seq<bool>, psdValid: seq<bool>,
                                masks: array<set<nat>>, types: array<nat>)
    returns (st: Status, touched: bool)
    requires masks.Length == types.Length == |cpus| == |busy| == |given| == |psdValid|
    requires forall k :: 0 <= k < |cpus| && cpus[k].Present? ==> masks[k] <= {k}
    modifies masks, types
    ensures touched <==> forall k :: 0 <= k < |cpus| && cpus[k].Present? ==> !busy[k] && given[k]
    ensures !touched ==> masks[..] == old(masks[..]) && types[..] == old(types[..])
    ensures !touched ==> exists k :: 0 <= k < |cpus| && FirstRefused(cpus, busy, given, k) && st == if busy[k] then EBusy else EInval
    ensures touched ==> (st == Ok <==> Consistent(cpus) && forall k :: 0 <= k < |cpus| && cpus[k].Present? ==> psdValid[k])
    ensures touched ==> forall k :: 0 <= k < |cpus| && cpus[k].Present? ==>
                                      masks[k] == if st == Ok then Group(cpus, |cpus|, k) else {k}
    ensures touched && st == Ok ==> Typed(cpus, types[..], old(types[..]), |cpus|)
    ensures touched && st != Ok ==> st == EInval && forall k :: 0 <= k < |cpus| && cpus[k].Present? ==> types[k] == SHARED_ALL
  {
    st := CheckInput(cpus, busy, given);
    if st != Ok { return st, false; }
    touched := true;
    var ok := true;
    for i := 0 to |cpus|
      invariant types[..] == old(types[..])
      invariant forall k :: 0 <= k < |cpus| && cpus[k].Present? ==> masks[k] <= {k}
      invariant ok <==> forall k :: 0 <= k < i && cpus[k].Present? ==> psdValid[k]
    {
      if cpus[i].Present? {
        masks[i] := masks[i] + {i};
        if !psdValid[i] { ok := false; }
      }
    }
    if ok { ok := Coordinate(cpus, masks, types, true); }
    if !ok { Reset(cpus, masks, types, SHARED_ALL); }
    st := if ok then Ok else EInval;
  }
}
