/**
  Negotiating control of PCI root features with _OSC (drivers/acpi/pci_root.c).
  A 32-bit mask is the set of its bit positions.  Firmware is a function of the
  words it is given.
  */
module OscNegotiation {
  import opened Wrappers

  type Mask = set<nat>

  /** The answer of _OSC to (query flag, support word, control word); None when the evaluation fails. */
  type Osc = (bool, Mask, Mask) -> Option<Mask>

  /** Firmware that never grants a bit it was not asked for. */
  ghost predicate Honest(osc: Osc) {
    forall query, support, control :: osc(query, support, control).Some? ==> osc(query, support, control).value <= control
  }

  /** Firmware whose evaluation never fails. */
  ghost predicate Willing(osc: Osc) {
    forall query, support, control :: osc(query, support, control).Some?
  }

  datatype Status = Ok | BadType | NoSupport | Failed | Unsettled

  datatype Query = Query(asked: Mask, answer: Mask)

  /** What the negotiation did: its successful queries and the request it sent, if any. */
  datatype Trace = Trace(queries: seq<Query>, request: Option<Mask>)

  class Root {
    const osc: Osc
    const controlBits: Mask      // OSC_PCI_CONTROL_MASKS
    const supportBits: Mask      // OSC_PCI_SUPPORT_MASKS
    var supportSet: Mask
    var controlSet: Mask

    constructor (osc: Osc, controlBits: Mask, supportBits: Mask)
      ensures this.osc == osc && this.controlBits == controlBits && this.supportBits == supportBits
      ensures supportSet == {} && controlSet == {}
    {
      this.osc, this.controlBits, this.supportBits := osc, controlBits, supportBits;
      supportSet, controlSet := {}, {};
    }

    /** The control word a query for `mask` carries. */
    function Asked(mask: Mask): Mask
      reads this
    {
      (mask * controlBits) + controlSet
    }

    /** A query for `control`, or one with the controls already granted. */
    method QueryOsc(support: Mask, control: Option<Mask>) returns (st: Status, answer: Option<Mask>)
      modifies this`supportSet
      ensures var word := (support * supportBits) + old(supportSet);
              var r := osc(true, word, if control.Some? then Asked(control.value) else controlSet);
              && answer.Some? == control.Some?
              && (if r.Some? then st == Ok && supportSet == word && (control.Some? ==> answer == r)
                  else st == Failed && supportSet == old(supportSet) && (control.Some? ==> answer.value == control.value * controlBits))
    {
      var word := (support * supportBits) + supportSet;
      answer := control;
      var asked := controlSet;
      if control.Some? {
        answer := Some(control.value * controlBits);
        asked := answer.value + controlSet;
      }
      var r := osc(true, word, asked);
      if r.None? { return Failed, answer; }
      supportSet := word;
      return Ok, if control.Some? then r else None;
    }

    /** A query for `mask` with the support already announced. */
    method Ask(mask: Mask) returns (st: Status, answer: Mask)
      modifies this`supportSet
      ensures supportSet == old(supportSet)
      ensures var r := osc(true, supportSet, Asked(mask));
              if r.Some? then st == Ok && answer == r.value else st == Failed
    {
      assert (supportSet * supportBits) + supportSet == supportSet;
      var result;
      st, result := QueryOsc(supportSet, Some(mask));
      answer := result.value;
    }

    /** Does the firmware, asked for `mask`, answer exactly `ctrl`? */
    predicate Confirms(mask: Mask, ctrl: Mask)
      reads this
    {
      osc(true, supportSet, Asked(mask)) == Some(ctrl)
    }

    /** The query loop, given up after `patience` queries. */
    method Loop(initial: Mask, patience: nat) returns (st: Status, ctrl: Mask, queries: seq<Query>)
      requires initial <= controlBits && initial != {}
      modifies this`supportSet
      ensures supportSet == old(supportSet) && Trail(queries, Asked(initial))
      ensures st == Ok ==>
                && Settled(queries, initial) && ctrl == queries[|queries| - 1].answer
                && (ctrl != {} ==> Confirms(ctrl, ctrl))
      ensures st != Ok ==> Moving(queries, initial) && ctrl == Kept(queries, initial)
      ensures st == Ok || (st == Failed && osc(true, supportSet, Asked(ctrl)).None?) || (st == Unsettled && |queries| == patience)
    {
      ctrl, queries := initial, [];
      var mask := initial + controlSet;
      assert Asked(mask) == Asked(ctrl);
      while mask != {}
        invariant supportSet == old(supportSet) && |queries| <= patience
        invariant Asked(mask) == Asked(ctrl) && (queries == [] ==> mask != {}) && (queries != [] ==> mask == ctrl)
        invariant Trail(queries, Asked(initial)) && Moving(queries, initial) && ctrl == Kept(queries, initial)
        decreases patience - |queries|
      {
        if |queries| == patience { return Unsettled, ctrl, queries; }
        ghost var before := queries;
        var q := Query(Asked(mask), {});
        var answer;
        st, answer := Ask(mask);
        if st == Failed { return; }
        q := q.(answer := answer);
        queries := queries + [q];
        TrailNext(before, q, initial);
        mask := answer;
        if ctrl == mask { return Ok, ctrl, queries; }
        ctrl := mask;
      }
      st := Ok;
    }

    /**
      The loop's outcome.  Firmware that never grants a bit it was not asked
      for never needs more than a known number of queries: what is asked for
      only shrinks, and asking the same again gets the same answer.
      */
    method Negotiate(initial: Mask, patience: nat) returns (st: Status, ctrl: Mask, queries: seq<Query>)
      requires initial <= controlBits && initial != {}
      modifies this`supportSet
      ensures supportSet == old(supportSet) && Trail(queries, Asked(initial))
      ensures st == Ok || (st == Failed && osc(true, supportSet, Asked(ctrl)).None?) || (st == Unsettled && |queries| == patience)
      ensures st == Ok ==>
                && Settled(queries, initial) && ctrl == queries[|queries| - 1].answer
                && (ctrl != {} ==> Confirms(ctrl, ctrl))
      ensures st != Ok ==> Moving(queries, initial) && ctrl == Kept(queries, initial)
      ensures Honest(osc) ==> Shrinking(queries) && |queries| <= Enough(initial)
      ensures Honest(osc) && patience >= Enough(initial) ==> st != Unsettled
    {
      st, ctrl, queries := Loop(initial, patience);
      if Honest(osc) {
        if st == Ok {
          Narrows(queries[..|queries| - 1], initial);
          ShrinkingNext(queries);
        } else {
          Narrows(queries, initial);
        }
      }
    }

    /** The mask the loop compares the next answer with. */
    function Kept(queries: seq<Query>, initial: Mask): Mask {
      if queries == [] then initial else queries[|queries| - 1].answer
    }

    /** Every answer differed from the mask it was compared with. */
    predicate Moving(queries: seq<Query>, initial: Mask)
      decreases |queries|
    {
      queries == [] ||
      var before := queries[..|queries| - 1];
      Moving(before, initial) && queries[|queries| - 1].answer != Kept(before, initial)
    }

    /** Every answer but the last differed, and the last one repeats what was kept, or grants nothing. */
    predicate Settled(queries: seq<Query>, initial: Mask) {
      queries != [] &&
      var before, answer := queries[..|queries| - 1], queries[|queries| - 1].answer;
      Moving(before, initial) && (answer == Kept(before, initial) || answer == {})
    }

    /** With honest firmware each query narrows what is asked for, or is the last but one. */
    lemma {:induction false} Narrows(queries: seq<Query>, initial: Mask)
      requires Honest(osc) && initial <= controlBits && Trail(queries, Asked(initial)) && Moving(queries, initial)
      ensures Narrowed(queries, Next(queries, Asked(initial)), Confirms(Kept(queries, initial), Kept(queries, initial)), Enough(initial) - 1)
      decreases |queries|
    {
      if queries == [] {
        assert Asked(initial) == initial + controlSet;
      } else {
        var before, q := queries[..|queries| - 1], queries[|queries| - 1];
        Narrows(before, initial);
        assert queries == before + [q];
        assert q.answer <= q.asked && Asked(q.answer) <= q.asked;
        NarrowedNext(before, q, Asked(q.answer), Confirms(q.answer, q.answer), Enough(initial) - 1);
      }
    }

    /** What the loop asks for after some queries, the first of which asks for `first`. */
    function Next(queries: seq<Query>, first: Mask): Mask
      reads this
    {
      if queries == [] then first else Asked(queries[|queries| - 1].answer)
    }

    /** Each query asked for what the loop asks for next and got the firmware's answer. */
    predicate Trail(queries: seq<Query>, first: Mask)
      reads this
      decreases |queries|
    {
      queries == [] ||
      var before, q := queries[..|queries| - 1], queries[|queries| - 1];
      Trail(before, first) && q.asked == Next(before, first) && osc(true, supportSet, q.asked) == Some(q.answer)
    }

    lemma TrailNext(queries: seq<Query>, q: Query, initial: Mask)
      requires Trail(queries, Asked(initial)) && Moving(queries, initial)
      requires q.asked == Asked(Kept(queries, initial)) && osc(true, supportSet, q.asked) == Some(q.answer)
      ensures Trail(queries + [q], Asked(initial)) && (queries + [q])[..|queries|] == queries
      ensures q.answer != Kept(queries, initial) ==> Moving(queries + [q], initial)
    {
      assert (queries + [q])[..|queries|] == queries;
    }

    /** Queries that suffice for honest firmware. */
    function Enough(initial: Mask): nat
      reads this
    {
      |initial + controlSet| + 2
    }

    /**
      Requests control of the bits of `wanted`; `required` must be granted.
      Whatever the firmware does, queries are made until they settle, and then
      a request is sent for what the last one granted, exactly if that includes
      everything required; only a refusal by the firmware, or the end of
      patience, prevents it.
      */
    method ControlSet(wanted: Mask, required: Mask, patience: nat) returns (st: Status, mask: Mask, trace: Trace)
      modifies this
      ensures supportSet == old(supportSet)
      ensures st == BadType <==> !(required <= wanted * controlBits)
      ensures st == BadType ==> trace == Trace([], None)
      ensures st != BadType && wanted * controlBits <= old(controlSet) ==>
                st == Ok && trace == Trace([], None) && mask == (wanted * controlBits) + old(controlSet)
      ensures Honest(osc) ==> Shrinking(trace.queries) && |trace.queries| <= old(Enough(wanted * controlBits))
      ensures Honest(osc) && patience >= old(Enough(wanted * controlBits)) ==> st != Unsettled
      ensures trace.request.Some? ==>
                && trace.queries != []
                && trace.request.value == trace.queries[|trace.queries| - 1].answer
                && required <= trace.request.value
                && (st == Ok || st == Failed)
                && (trace.request.value != {} ==>
                      osc(true, supportSet, (trace.request.value * controlBits) + old(controlSet)) == trace.request)
                && (st == Ok ==> osc(false, supportSet, trace.request.value) == Some(mask) && controlSet == mask)
      ensures st == Ok && !(wanted * controlBits <= old(controlSet)) ==> trace.request.Some?
      ensures st == NoSupport ==>
                trace.request.None? && trace.queries != [] && !(required <= trace.queries[|trace.queries| - 1].answer)
      ensures trace.request.None? || st != Ok ==> controlSet == old(controlSet)
      ensures st != BadType && !(wanted * controlBits <= old(controlSet)) ==>
                && old(Trail(trace.queries, Asked(wanted * controlBits)))
                && (trace.request.None? ==>
                      || (st == NoSupport && Settled(trace.queries, wanted * controlBits))
                      || (st == Failed && osc(true, supportSet, old(Next(trace.queries, Asked(wanted * controlBits)))).None?)
                      || (st == Unsettled && |trace.queries| == patience))
                && (trace.request.Some? ==>
                      && Settled(trace.queries, wanted * controlBits)
                      && (st == Failed <==> osc(false, supportSet, trace.request.value).None?))
      ensures st != BadType && !(wanted * controlBits <= old(controlSet)) && Honest(osc) && Willing(osc)
              && patience >= old(Enough(wanted * controlBits)) ==>
                && trace.queries != []
                && st == if required <= trace.queries[|trace.queries| - 1].answer then Ok else NoSupport
    {
      trace := Trace([], None);
      var ctrl := wanted * controlBits;
      mask := wanted;
      if ctrl * required != required { return BadType, mask, trace; }
      mask := ctrl + controlSet;
      if controlSet * ctrl == ctrl { return Ok, mask, trace; }
      var queries;
      st, ctrl, queries := Negotiate(ctrl, patience);
      trace := Trace(queries, None);
      if st != Ok { return; }
      mask := ctrl;
      if ctrl * required != required { return NoSupport, mask, trace; }
      trace := Trace(queries, Some(ctrl));
      var r := osc(false, supportSet, ctrl);
      if r.None? { return Failed, mask, trace; }
      mask := r.value;
      controlSet := mask;
      st := Ok;
    }
  }

  /** Queries so far only narrowed what is asked for, and each of them narrowed it or got a new answer to it. */
  predicate Narrowed(queries: seq<Query>, asked: Mask, confirmed: bool, bound: nat) {
    && Shrinking(queries)
    && (queries != [] ==> asked <= queries[|queries| - 1].asked)
    && |queries| + |asked| + (if confirmed then 0 else 1) <= bound
  }

  lemma ShrinkingNext(queries: seq<Query>)
    requires queries != [] && Shrinking(queries[..|queries| - 1])
    requires |queries| > 1 ==> queries[|queries| - 1].asked <= queries[|queries| - 2].asked
    ensures Shrinking(queries)
  {
    forall i | 0 < i < |queries| ensures queries[i].asked <= queries[i - 1].asked {
      assert i < |queries| - 1 ==> queries[..|queries| - 1][i] == queries[i] && queries[..|queries| - 1][i - 1] == queries[i - 1];
    }
  }

  lemma NarrowedNext(queries: seq<Query>, q: Query, asked: Mask, confirmed: bool, bound: nat)
    requires Narrowed(queries, q.asked, false, bound) && asked <= q.asked && (asked == q.asked ==> confirmed)
    ensures Narrowed(queries + [q], asked, confirmed, bound)
  {
    Shrinks(asked, q.asked);
  }

  /** Each query asks for no more than the one before. */
  predicate Shrinking(queries: seq<Query>) {
    forall i :: 0 < i < |queries| ==> queries[i].asked <= queries[i - 1].asked
  }

  lemma Shrinks(a: set<nat>, b: set<nat>)
    requires a <= b
    ensures |a| <= |b| && (a != b ==> |a| < |b|)
  {
    assert b == a + (b - a);
  }

  // ------------------------------------------------- firmware that is not honest

  /** Asked for bit 0 it grants bit 1, and the other way round. */
  function Flip(query: bool, support: Mask, control: Mask): Option<Mask> {
    Some(if control == {0} then {1} else {0})
  }

  /** Bit 0, and bit 1 after an odd number of queries. */
  function Flipped(n: nat): Mask {
    if n % 2 == 0 then {0} else {1}
  }

  lemma FlippedOnce(n: nat, controlBits: Mask)
    requires {0, 1} <= controlBits
    ensures Flipped(n) * controlBits == Flipped(n)
    ensures forall support :: Flip(true, support, Flipped(n)) == Some(Flipped(n + 1))
    ensures Flipped(n) != Flipped(n + 1) && Flipped(n) != {}
  {
    assert 0 in {0} && 0 !in {1} && 1 in {1};
  }

  /** The answers of the flipping firmware alternate. */
  lemma {:induction false} FlipAlternates(root: Root, queries: seq<Query>)
    requires root.osc == Flip && {0, 1} <= root.controlBits && root.controlSet == {} && root.Trail(queries, {0})
    ensures root.Kept(queries, {0}) == Flipped(|queries|) == root.Next(queries, {0})
    decreases |queries|
  {
    if queries != [] {
      var l := |queries| - 1;
      FlipAlternates(root, queries[..l]);
      FlippedOnce(l, root.controlBits);
      FlippedOnce(l + 1, root.controlBits);
    }
  }

  /** Without honesty the loop need not end: with the flipping firmware it outlasts every patience. */
  method FlipNeverSettles(controlBits: Mask, patience: nat) returns (st: Status, queries: seq<Query>)
    requires {0, 1} <= controlBits
    ensures st == Unsettled && |queries| == patience
  {
    var root := new Root(Flip, controlBits, {});
    var ctrl;
    st, ctrl, queries := root.Negotiate({0}, patience);
    assert root.Asked({0}) == {0};
    FlipAlternates(root, queries);
    FlippedOnce(|queries|, controlBits);
    assert root.Asked(Flipped(|queries|)) == Flipped(|queries|);
  }
}
