/**
  The duty cycle register behind the throttling states of a processor
  (drivers/acpi/processor_throttling.c): a field of duty_width bits at
  duty_offset, below the enable bit 4, in a port register.  A register value is
  the set of its bit positions, so masking is set algebra.
  */
module DutyCycle {

  type Word = set<nat>

  const ENABLE: nat := 4

  /** Field positions the driver accepts: at least one bit, all below bit 4. */
  predicate Legal(width: nat, offset: nat) {
    1 <= width && offset + width <= ENABLE
  }

  function Pow2(n: nat): nat {
    if n == 0 then 1 else 2 * Pow2(n - 1)
  }

  /** The positions of the field: all ones, shifted to the offset. */
  function FieldMask(width: nat, offset: nat): (s: Word)
    ensures forall i :: i in s <==> offset <= i < offset + width
    decreases width
  {
    if width == 0 then {} else {offset} + FieldMask(width - 1, offset + 1)
  }

  /** A number written into the positions of the field. */
  function Spread(n: nat, width: nat, offset: nat): (s: Word)
    ensures s <= FieldMask(width, offset)
    decreases width
  {
    if width == 0 then {} else (if n % 2 == 1 then {offset} else {}) + Spread(n / 2, width - 1, offset + 1)
  }

  /** The number read from the positions of the field. */
  function Field(v: Word, width: nat, offset: nat): nat
    decreases width
  {
    if width == 0 then 0 else (if offset in v then 1 else 0) + 2 * Field(v, width - 1, offset + 1)
  }

  /** A value whose field positions are those of a number holds that number in its field. */
  lemma {:induction false} FieldOfSpread(v: Word, n: nat, width: nat, offset: nat)
    requires n < Pow2(width) && v * FieldMask(width, offset) == Spread(n, width, offset)
    ensures Field(v, width, offset) == n
    decreases width
  {
    if width > 0 {
      var rest := Spread(n / 2, width - 1, offset + 1);
      assert FieldMask(width, offset) == {offset} + FieldMask(width - 1, offset + 1);
      assert offset in v <==> offset in v * FieldMask(width, offset);
      assert offset !in rest;
      assert v * FieldMask(width - 1, offset + 1) == rest by {
        forall i ensures i in v * FieldMask(width - 1, offset + 1) <==> i in rest {
          if i in FieldMask(width - 1, offset + 1) {
            assert i != offset;
            assert i in v <==> i in v * FieldMask(width, offset);
          }
        }
      }
      FieldOfSpread(v, n / 2, width - 1, offset + 1);
    }
  }

  /** The state a register value stands for: no throttling unless bit 4 is set and the duty value is not zero. */
  function StateOf(width: nat, offset: nat, v: Word): int {
    if ENABLE !in v then 0
    else
      var duty := Field(v, width, offset);
      if duty == 0 then 0 else Pow2(width) - duty
  }

  /** The values written, in order, to move to a state. */
  function Writes(width: nat, offset: nat, state: nat, v: Word): seq<Word>
    requires state < Pow2(width)
  {
    var off := if ENABLE in v then [v - {ENABLE}] else [];
    if state == 0 then off
    else
      var loaded := (v - {ENABLE} - FieldMask(width, offset)) + Spread(Pow2(width) - state, width, offset);
      off + [loaded, loaded + {ENABLE}]
  }

  function Programmed(width: nat, offset: nat, state: nat, v: Word): Word
    requires state < Pow2(width)
  {
    var all := [v] + Writes(width, offset, state, v);
    all[|all| - 1]
  }

  /**
    A set is read back as the same state, keeps every bit outside the field and
    bit 4, and leaves throttling enabled exactly for a nonzero state; state
    zero leaves the field alone, too.
    */
  lemma SetThenGet(width: nat, offset: nat, state: nat, v: Word)
    requires Legal(width, offset) && state < Pow2(width)
    ensures var r, field := Programmed(width, offset, state, v), FieldMask(width, offset);
            && StateOf(width, offset, r) == state
            && r - field - {ENABLE} == v - field - {ENABLE}
            && (ENABLE in r <==> state != 0)
            && (state == 0 ==> r * field == v * field)
  {
    var field := FieldMask(width, offset);
    assert ENABLE !in field;
    if state != 0 {
      var duty := Spread(Pow2(width) - state, width, offset);
      var r := (v - {ENABLE} - field) + duty + {ENABLE};
      assert Programmed(width, offset, state, v) == r;
      assert r * field == duty;
      FieldOfSpread(r, Pow2(width) - state, width, offset);
    }
  }

  lemma {:induction false} FieldBound(v: Word, width: nat, offset: nat)
    ensures Field(v, width, offset) < Pow2(width)
    decreases width
  {
    if width > 0 { FieldBound(v, width - 1, offset + 1); }
  }

  /** Writing the number a field holds puts back the positions it has. */
  lemma {:induction false} SpreadOfField(v: Word, width: nat, offset: nat)
    ensures Spread(Field(v, width, offset), width, offset) == v * FieldMask(width, offset)
    decreases width
  {
    if width > 0 { SpreadOfField(v, width - 1, offset + 1); }
  }

  /** No position is set exactly for zero. */
  lemma {:induction false} SpreadOfZero(n: nat, width: nat, offset: nat)
    requires n < Pow2(width)
    ensures Spread(n, width, offset) == {} <==> n == 0
    decreases width
  {
    if width > 0 {
      SpreadOfZero(n / 2, width - 1, offset + 1);
      if n % 2 == 1 { assert offset in Spread(n, width, offset); }
    }
  }

  /** Every register value stands for a state the field can hold, and for none exactly when disabled or without duty. */
  lemma StateRange(width: nat, offset: nat, v: Word)
    ensures 0 <= StateOf(width, offset, v) < Pow2(width)
    ensures StateOf(width, offset, v) == 0 <==> ENABLE !in v || v * FieldMask(width, offset) == {}
  {
    FieldBound(v, width, offset);
    SpreadOfField(v, width, offset);
    SpreadOfZero(Field(v, width, offset), width, offset);
  }

  lemma Refilled(v: Word, field: Word)
    requires ENABLE in v && ENABLE !in field
    ensures (v - {ENABLE} - field) + v * field + {ENABLE} == v
  {
  }

  lemma ProgrammedAs(width: nat, offset: nat, state: nat, v: Word)
    requires state < Pow2(width)
    ensures Programmed(width, offset, state, v)
            == if state == 0 then v - {ENABLE}
               else (v - {ENABLE} - FieldMask(width, offset)) + Spread(Pow2(width) - state, width, offset) + {ENABLE}
  {
    assert ENABLE !in v ==> v - {ENABLE} == v;
  }

  /** A field filled with the number it holds. */
  lemma DutyOf(width: nat, offset: nat, v: Word, state: nat)
    requires Legal(width, offset) && 0 < state < Pow2(width) && state == StateOf(width, offset, v)
    ensures (v - {ENABLE} - FieldMask(width, offset)) + Spread(Pow2(width) - state, width, offset) + {ENABLE} == v
  {
    assert Pow2(width) - state == Field(v, width, offset);
    SpreadOfField(v, width, offset);
    Refilled(v, FieldMask(width, offset));
  }

  /** Setting the state just read leaves the register as it is, except that an enable bit without a duty value is cleared. */
  lemma GetThenSet(width: nat, offset: nat, v: Word)
    requires Legal(width, offset)
    ensures 0 <= StateOf(width, offset, v) < Pow2(width)
    ensures Programmed(width, offset, StateOf(width, offset, v), v)
            == if StateOf(width, offset, v) == 0 then v - {ENABLE} else v
  {
    var state := StateOf(width, offset, v);
    StateRange(width, offset, v);
    ProgrammedAs(width, offset, state, v);
    if state != 0 { DutyOf(width, offset, v, state); }
  }

  /** The field changes only from one value with bit 4 clear to another. */
  predicate Careful(field: Word, values: seq<Word>) {
    forall i :: 0 < i < |values| ==>
                  values[i - 1] * field == values[i] * field || (ENABLE !in values[i - 1] && ENABLE !in values[i])
  }

  lemma WritesCareful(width: nat, offset: nat, state: nat, v: Word)
    requires Legal(width, offset) && state < Pow2(width)
    ensures Careful(FieldMask(width, offset), [v] + Writes(width, offset, state, v))
  {
    var field := FieldMask(width, offset);
    assert ENABLE !in field;
    assert (v - {ENABLE}) * field == v * field;
    var loaded := (v - {ENABLE} - field) + Spread(Pow2(width) - state, width, offset);
    assert (loaded + {ENABLE}) * field == loaded * field;
  }

  datatype Status = Ok | EInval | ENodev | EPerm

  class Throttling {
    const width: nat              // the driver's two copies of width and offset are equal
    const offset: nat
    const throttles: bool
    var platformLimit: nat
    var state: int
    var port: Word
    ghost var history: seq<Word>  // every value the port has had

    ghost predicate Valid()
      reads this
    {
      Legal(width, offset) && history != [] && history[|history| - 1] == port
    }

    constructor (width: nat, offset: nat, throttles: bool, port: Word)
      requires Legal(width, offset)
      ensures Valid() && this.width == width && this.offset == offset && this.port == port && history == [port]
    {
      this.width, this.offset, this.throttles, this.port := width, offset, throttles, port;
      platformLimit, state, history := 0, 0, [port];
    }

    method Outl(value: Word)
      requires Valid()
      modifies this`port, this`history
      ensures Valid() && port == value && history == old(history) + [value]
    {
      port := value;
      history := history + [value];
    }

    method Get() returns (st: Status)
      modifies this`state
      ensures if throttles then st == Ok && state == StateOf(width, offset, port)
              else st == ENodev && state == old(state)
    {
      if !throttles { return ENodev; }
      var found := 0;
      if ENABLE in port {
        var duty := Field(port, width, offset);
        if duty != 0 { found := Pow2(width) - duty; }
      }
      state := found;
      st := Ok;
    }

    /** Turns throttling off, and for a nonzero state loads the duty value and turns it on again. */
    method Program(target: nat)
      requires Valid() && target < Pow2(width)
      modifies this`port, this`history
      ensures Valid() && history == old(history) + Writes(width, offset, target, old(port))
      ensures port == Programmed(width, offset, target, old(port))
    {
      var value := port;
      if ENABLE in value {
        value := value - {ENABLE};
        Outl(value);
      }
      assert value == old(port) - {ENABLE};
      if target != 0 {
        value := value - FieldMask(width, offset);
        value := value + Spread(Pow2(width) - target, width, offset);
        Outl(value);
        value := value + {ENABLE};
        Outl(value);
      }
      LastWritten(old(history), target);
    }

    lemma LastWritten(was: seq<Word>, target: nat)
      requires Valid() && target < Pow2(width) && was != []
      requires history == was + Writes(width, offset, target, was[|was| - 1])
      ensures port == Programmed(width, offset, target, was[|was| - 1])
    {
      var writes := Writes(width, offset, target, was[|was| - 1]);
      if writes != [] { assert history[|history| - 1] == writes[|writes| - 1]; }
    }

    /** `performed` tells whether the register was programmed. */
    method Set(target: int, force: bool) returns (st: Status, performed: bool)
      requires Valid()
      modifies this`state, this`port, this`history
      ensures Valid()
      ensures st == if target < 0 || target > Pow2(width) - 1 then EInval
                    else if !throttles then ENodev
                    else if !force && target == old(state) then Ok
                    else if target < platformLimit then EPerm
                    else Ok
      ensures performed <==> st == Ok && (force || target != old(state))
      ensures !performed ==> state == old(state) && history == old(history)
      ensures performed ==> state == target && history == old(history) + Writes(width, offset, target, old(port))
      ensures performed ==> port == Programmed(width, offset, target, old(port))
    {
      if target < 0 || target > Pow2(width) - 1 { return EInval, false; }
      if !throttles { return ENodev, false; }
      if !force && target == state { return Ok, false; }
      if target < platformLimit { return EPerm, false; }
      Program(target);
      state := target;
      return Ok, true;
    }
  }
}
