/**
  One embedded controller transaction (drivers/acpi/ec.c): the polling thread,
  the interrupt handler and the restarts, interleaved in any order with any
  status bytes.  Each locked section is one step; the status an advance acts on
  was sampled before the lock was taken, so it is an input of the step.
  */
module EcTransaction {
  import opened Wrappers

  const RESTARTS: nat := 5

  /** The bits of the status register the driver looks at. */
  datatype StatusBits = StatusBits(outputFull: bool, inputFull: bool, sci: bool)

  /** Traffic on the command and data ports. */
  datatype Port = Command(c: Byte) | WriteData(b: Byte) | ReadData(b: Byte)

  datatype Transaction = Transaction(
    command: Byte, wdata: seq<Byte>, rdata: seq<Byte>,
    wi: nat, ri: nat, done: bool, irqCount: nat)

  datatype Return = Success | Timeout

  /** Where the polling thread stands. */
  datatype Phase = Checking | Advancing | Testing | Restarting | Finishing(ret: Return) | Idle(ret: Return)

  datatype Machine = Machine(t: Transaction, log: seq<Port>, repeat: nat, phase: Phase)

  datatype Event =
    | Interrupt(status: StatusBits, input: Byte)
    | Thread(status: StatusBits, input: Byte, expired: bool)

  predicate WellFormed(t: Transaction) {
    t.wi <= |t.wdata| && t.ri <= |t.rdata|
  }

  function Begin(t: Transaction): Transaction {
    t.(wi := 0, ri := 0, done := false, irqCount := 0)
  }

  /** Sends the command; data already read by an abandoned attempt stays in the buffer. */
  function Start(t: Transaction, log: seq<Port>): (Transaction, seq<Port>) {
    (Begin(t), log + [Command(t.command)])
  }

  function Advance(t: Transaction, log: seq<Port>, status: StatusBits, input: Byte, inInterrupt: bool): (o: (Transaction, seq<Port>))
    requires WellFormed(t)
    ensures WellFormed(o.0)
  {
    if |t.wdata| > t.wi then
      if !status.inputFull then (t.(wi := t.wi + 1), log + [WriteData(t.wdata[t.wi])])
      else (CountFalse(t, status, inInterrupt), log)
    else if |t.rdata| > t.ri then
      if status.outputFull then
        (t.(rdata := t.rdata[t.ri := input], ri := t.ri + 1, done := t.done || t.ri + 1 == |t.rdata|), log + [ReadData(input)])
      else (CountFalse(t, status, inInterrupt), log)
    else if !status.inputFull then (t.(done := true), log)
    else (t, log)
  }

  /** A 16-bit count of interrupts that brought nothing. */
  function CountFalse(t: Transaction, status: StatusBits, inInterrupt: bool): Transaction {
    if inInterrupt && !status.sci then t.(irqCount := (t.irqCount + 1) % 0x10000) else t
  }

  function Step(m: Machine, e: Event): (m1: Machine)
    requires WellFormed(m.t)
    ensures WellFormed(m1.t)
  {
    match e
    case Interrupt(status, input) =>
      if m.phase.Idle? then m
      else
        var (t, log) := Advance(m.t, m.log, status, input, true);
        m.(t := t, log := log)
    case Thread(status, input, expired) =>
      match m.phase
      case Checking => m.(phase := if m.t.done then Finishing(Success) else Advancing)
      case Advancing =>
        var (t, log) := Advance(m.t, m.log, status, input, false);
        m.(t := t, log := log, phase := Testing)
      case Testing => m.(phase := if expired then Restarting else Checking)
      case Restarting =>
        var (t, log) := Start(m.t, m.log);
        if m.repeat <= 1 then Machine(t, log, 0, Finishing(Timeout))
        else Machine(t, log, m.repeat - 1, Checking)
      case Finishing(ret) => m.(phase := Idle(ret))
      case Idle(_) => m
  }

  function Run(m: Machine, es: seq<Event>): (m1: Machine)
    requires WellFormed(m.t)
    ensures WellFormed(m1.t)
    decreases |es|
  {
    if es == [] then m else Run(Step(m, es[0]), es[1..])
  }

  lemma {:induction false} RunSnoc(m: Machine, es: seq<Event>, k: nat)
    requires WellFormed(m.t) && k < |es|
    ensures Run(m, es[..k + 1]) == Step(Run(m, es[..k]), es[k])
    decreases k
  {
    if k == 0 {
      assert es[..1][1..] == es[..0];
    } else {
      assert es[..k + 1][1..] == es[1..][..k] && es[..k][1..] == es[1..][..k - 1];
      RunSnoc(Step(m, es[0]), es[1..], k - 1);
    }
  }

  /** A transaction as it enters the polling loop, its first command sent. */
  function Initial(t: Transaction, log: seq<Port>): Machine {
    Machine(Begin(t), log + [Command(t.command)], RESTARTS, Checking)
  }

  // ---------------------------------------------------------------- the trace

  /** Data port traffic since the last command. */
  function SinceCommand(log: seq<Port>): seq<Port> {
    if log == [] then []
    else
      var last := |log| - 1;
      if log[last].Command? then [] else SinceCommand(log[..last]) + [log[last]]
  }

  function Commands(log: seq<Port>): nat {
    if log == [] then 0
    else Commands(log[..|log| - 1]) + if log[|log| - 1].Command? then 1 else 0
  }

  function Writes(bs: seq<Byte>): seq<Port> {
    seq(|bs|, i requires 0 <= i < |bs| => WriteData(bs[i]))
  }

  function Reads(bs: seq<Byte>): seq<Port> {
    seq(|bs|, i requires 0 <= i < |bs| => ReadData(bs[i]))
  }

  /**
    The traffic since the last command is exactly the first wi bytes to write
    followed by the first ri bytes read, and no read precedes the last write.
    */
  ghost predicate Traced(t: Transaction, log: seq<Port>) {
    && WellFormed(t)
    && SinceCommand(log) == Writes(t.wdata[..t.wi]) + Reads(t.rdata[..t.ri])
    && (t.ri > 0 ==> t.wi == |t.wdata|)
    && (t.done ==> t.wi == |t.wdata| && t.ri == |t.rdata|)
  }

  ghost predicate Invariant(m: Machine, before: nat) {
    && Traced(m.t, m.log)
    && m.repeat <= RESTARTS
    && Commands(m.log) == before + 1 + RESTARTS - m.repeat
    && match m.phase
       case Finishing(Success) => m.t.done && m.repeat >= 1
       case Idle(Success) => m.t.done && m.repeat >= 1
       case Finishing(Timeout) => m.repeat == 0
       case Idle(Timeout) => m.repeat == 0
       case _ => m.repeat >= 1
  }

  lemma SinceSnoc(log: seq<Port>, p: Port)
    ensures SinceCommand(log + [p]) == if p.Command? then [] else SinceCommand(log) + [p]
    ensures Commands(log + [p]) == Commands(log) + if p.Command? then 1 else 0
  {
    assert (log + [p])[..|log|] == log;
  }

  lemma StartTraced(t: Transaction, log: seq<Port>)
    requires WellFormed(t)
    ensures Traced(Start(t, log).0, Start(t, log).1)
    ensures Commands(Start(t, log).1) == Commands(log) + 1
  {
    SinceSnoc(log, Command(t.command));
  }

  lemma WritesNext(bs: seq<Byte>, i: nat)
    requires i < |bs|
    ensures Writes(bs[..i + 1]) == Writes(bs[..i]) + [WriteData(bs[i])]
  {
  }

  lemma ReadsNext(bs: seq<Byte>, i: nat, b: Byte)
    requires i < |bs|
    ensures Reads(bs[i := b][..i + 1]) == Reads(bs[..i]) + [ReadData(b)]
  {
  }

  lemma AdvanceTraced(t: Transaction, log: seq<Port>, status: StatusBits, input: Byte, inInterrupt: bool)
    requires Traced(t, log)
    ensures var (t1, log1) := Advance(t, log, status, input, inInterrupt);
            && Traced(t1, log1)
            && Commands(log1) == Commands(log)
            && (t.done ==> t1.done)
            && t1.wdata == t.wdata && t1.command == t.command && |t1.rdata| == |t.rdata|
  {
    if |t.wdata| > t.wi {
      SinceSnoc(log, WriteData(t.wdata[t.wi]));
      WritesNext(t.wdata, t.wi);
      assert t.ri == 0 && Reads(t.rdata[..0]) == [];
    } else if |t.rdata| > t.ri {
      SinceSnoc(log, ReadData(input));
      ReadsNext(t.rdata, t.ri, input);
      var w, r := Writes(t.wdata[..t.wi]), Reads(t.rdata[..t.ri]);
      assert w + r + [ReadData(input)] == w + (r + [ReadData(input)]);
    }
  }

  lemma StepInvariant(m: Machine, e: Event, before: nat)
    requires Invariant(m, before)
    ensures Invariant(Step(m, e), before)
    ensures var t := Step(m, e).t;
            t.wdata == m.t.wdata && t.command == m.t.command && |t.rdata| == |m.t.rdata|
  {
    if !(e.Interrupt? && m.phase.Idle?) {
      AdvanceTraced(m.t, m.log, e.status, e.input, e.Interrupt?);
      StartTraced(m.t, m.log);
    }
  }

  lemma {:induction false} RunInvariant(m: Machine, es: seq<Event>, before: nat)
    requires Invariant(m, before)
    ensures Invariant(Run(m, es), before)
    ensures var t := Run(m, es).t;
            t.wdata == m.t.wdata && t.command == m.t.command && |t.rdata| == |m.t.rdata|
    decreases |es|
  {
    if es != [] {
      StepInvariant(m, es[0], before);
      RunInvariant(Step(m, es[0]), es[1..], before);
    }
  }

  /**
    For every interleaving and all status bytes: the traffic since the last
    command is the data accounted for; a successful return means that the last
    attempt wrote all of wdata and then read all of rdata, with at most five
    commands sent; a timeout means that six were.
    */
  lemma TransactionTrace(t: Transaction, log: seq<Port>, es: seq<Event>)
    requires WellFormed(t)
    ensures var m := Run(Initial(t, log), es);
            && Traced(m.t, m.log)
            && m.t.wdata == t.wdata && |m.t.rdata| == |t.rdata|
            && (m.phase == Idle(Success) ==>
                  && SinceCommand(m.log) == Writes(t.wdata) + Reads(m.t.rdata)
                  && Commands(m.log) - Commands(log) <= 5)
            && (m.phase == Idle(Timeout) ==> Commands(m.log) - Commands(log) == 6)
  {
    StartTraced(t, log);
    RunInvariant(Initial(t, log), es, Commands(log));
    var m := Run(Initial(t, log), es);
    assert m.t.wdata[..|m.t.wdata|] == m.t.wdata && m.t.rdata[..|m.t.rdata|] == m.t.rdata;
  }
}
