/**
  The handshake of an embedded controller transaction, and what it comes to: a
  controller that is ready is served in a known number of steps, and one that
  never answers is given up after six commands (drivers/acpi/ec.c:175-251).
  */
module EcProgress {
  import opened Wrappers
  import opened EcTransaction

  // ---------------------------------------------------------------- the handshake

  /**
    One advance, by what reaches the ports: a byte is written exactly when
    there is one to write and the input buffer is empty, and read exactly when
    all is written, there is one to read and the output buffer is full; the
    transaction is done with the last read, or when nothing is left and the
    input buffer is empty; an interrupt that brought no byte although one was
    wanted is counted unless it announces an event.
    */
  predicate Handshake(t: Transaction, log: seq<Port>, status: StatusBits, input: Byte, inInterrupt: bool,
                      t1: Transaction, log1: seq<Port>)
    requires WellFormed(t)
  {
    var toWrite, toRead := |t.wdata| - t.wi, |t.rdata| - t.ri;
    && log <= log1 && t1.wdata == t.wdata && t1.command == t.command
    && var sent := log1[|log|..];
       && |sent| <= 1
       && (sent != [] && sent[0].WriteData? <==> toWrite > 0 && !status.inputFull)
       && (sent != [] && sent[0].ReadData? <==> toWrite == 0 && toRead > 0 && status.outputFull)
       && (sent != [] ==> !sent[0].Command?)
       && (sent != [] && sent[0].WriteData? ==>
             sent[0].b == t.wdata[t.wi] && t1.wi == t.wi + 1 && t1.ri == t.ri && t1.rdata == t.rdata)
       && (sent != [] && sent[0].ReadData? ==>
             sent[0].b == input && t1.wi == t.wi && t1.ri == t.ri + 1 && t1.rdata == t.rdata[t.ri := input])
       && (sent == [] ==> t1.wi == t.wi && t1.ri == t.ri && t1.rdata == t.rdata)
       && (t1.done <==> || t.done
                        || (toWrite == 0 && toRead == 1 && status.outputFull)
                        || (toWrite == 0 && toRead == 0 && !status.inputFull))
       && t1.irqCount == if inInterrupt && !status.sci && toWrite + toRead > 0 && sent == []
                         then (t.irqCount + 1) % 0x1_0000 else t.irqCount
  }

  lemma AdvanceHandshake(t: Transaction, log: seq<Port>, status: StatusBits, input: Byte, inInterrupt: bool)
    requires WellFormed(t)
    ensures var (t1, log1) := Advance(t, log, status, input, inInterrupt);
            Handshake(t, log, status, input, inInterrupt, t1, log1)
  {
  }

  /** Once the call has returned, neither interrupts nor the thread touch the transaction or the ports. */
  lemma {:induction false} ReturnedIsFinal(m: Machine, es: seq<Event>)
    requires WellFormed(m.t) && m.phase.Idle?
    ensures Run(m, es) == m
    decreases |es|
  {
    if es != [] { ReturnedIsFinal(m, es[1..]); }
  }

  // ----------------------------------------------------------- a controller that is ready

  function Threads(es: seq<Event>): nat {
    if es == [] then 0 else (if es[0].Thread? then 1 else 0) + Threads(es[1..])
  }

  /** The controller takes and gives bytes at once, and time does not run out. */
  predicate Prompt(es: seq<Event>) {
    forall i :: 0 <= i < |es| ==> !es[i].status.inputFull && es[i].status.outputFull && (es[i].Thread? ==> !es[i].expired)
  }

  /** Advances a transaction still needs. */
  function Rounds(t: Transaction): nat
    requires WellFormed(t)
  {
    if t.done then 0
    else (|t.wdata| - t.wi) + (|t.rdata| - t.ri) + if t.ri == |t.rdata| then 1 else 0
  }

  /** On the way to success, or there. */
  predicate Going(m: Machine) {
    && WellFormed(m.t) && m.repeat > 0
    && (m.t.done ==> m.t.wi == |m.t.wdata| && m.t.ri == |m.t.rdata|)
    && match m.phase
       case Checking => true
       case Advancing => true
       case Testing => true
       case Restarting => false
       case Finishing(ret) => ret == Success && m.t.done
       case Idle(ret) => ret == Success && m.t.done
  }

  /** Steps of the thread that suffice. */
  function Budget(m: Machine): nat
    requires WellFormed(m.t)
  {
    var r := Rounds(m.t);
    match m.phase
    case Checking => 3 * r + 2
    case Advancing => if r == 0 then 4 else 3 * r + 1
    case Testing => 3 * r + 3
    case Restarting => 0
    case Finishing(_) => 1
    case Idle(_) => 0
  }

  lemma AdvanceRounds(t: Transaction, log: seq<Port>, status: StatusBits, input: Byte, inInterrupt: bool)
    requires WellFormed(t) && (t.done ==> t.wi == |t.wdata| && t.ri == |t.rdata|) && !status.inputFull && status.outputFull
    ensures var (t1, log1) := Advance(t, log, status, input, inInterrupt);
            && WellFormed(t1) && (t1.done ==> t1.wi == |t1.wdata| && t1.ri == |t1.rdata|)
            && Rounds(t1) == (if Rounds(t) == 0 then 0 else Rounds(t) - 1)
            && (t.done ==> t1.done) && Commands(log1) == Commands(log)
  {
    var (_, log1) := Advance(t, log, status, input, inInterrupt);
    if log1 != log { SinceSnoc(log, log1[|log|]); }
  }

  /** An interrupt of a controller that is ready saves the thread a round, and changes nothing once the call has returned. */
  lemma InterruptRound(m: Machine, e: Event)
    requires Going(m) && e.Interrupt? && !e.status.inputFull && e.status.outputFull
    ensures var m1 := Step(m, e);
            && Going(m1) && m1.phase == m.phase && m1.repeat == m.repeat && Commands(m1.log) == Commands(m.log)
            && Rounds(m1.t) == (if m.phase.Idle? || Rounds(m.t) == 0 then Rounds(m.t) else Rounds(m.t) - 1)
  {
    AdvanceRounds(m.t, m.log, e.status, e.input, true);
  }

  lemma AdvancingRound(m: Machine, e: Event)
    requires Going(m) && e.Thread? && !e.status.inputFull && e.status.outputFull && m.phase == Advancing
    ensures var m1 := Step(m, e);
            && Going(m1) && m1.phase == Testing && m1.repeat == m.repeat && Commands(m1.log) == Commands(m.log)
            && Rounds(m1.t) == (if Rounds(m.t) == 0 then 0 else Rounds(m.t) - 1)
  {
    AdvanceRounds(m.t, m.log, e.status, e.input, false);
  }

  lemma ThreadRound(m: Machine, e: Event)
    requires Going(m) && e.Thread? && !e.status.inputFull && e.status.outputFull && !e.expired
    ensures var m1 := Step(m, e);
            && Going(m1) && m1.repeat == m.repeat && Commands(m1.log) == Commands(m.log)
            && Budget(m1) <= (if Budget(m) > 0 then Budget(m) - 1 else 0)
  {
    if m.phase == Advancing { AdvancingRound(m, e); }
  }

  lemma PromptStep(m: Machine, e: Event)
    requires Going(m) && Prompt([e])
    ensures var m1 := Step(m, e);
            && Going(m1) && m1.repeat == m.repeat && Commands(m1.log) == Commands(m.log)
            && Budget(m1) <= (if e.Thread? && Budget(m) > 0 then Budget(m) - 1 else Budget(m))
  {
    assert !([e][0].status.inputFull);
    if e.Thread? { ThreadRound(m, e); } else { InterruptRound(m, e); }
  }

  lemma {:induction false} PromptRun(m: Machine, es: seq<Event>)
    requires Going(m) && Prompt(es)
    ensures var m1 := Run(m, es);
            && Going(m1) && m1.repeat == m.repeat && Commands(m1.log) == Commands(m.log)
            && Budget(m1) <= (if Threads(es) >= Budget(m) then 0 else Budget(m) - Threads(es))
    decreases |es|
  {
    if es != [] {
      assert Prompt([es[0]]) && Prompt(es[1..]);
      PromptStep(m, es[0]);
      PromptRun(Step(m, es[0]), es[1..]);
    }
  }

  /** Steps of the thread that a transaction needs of a controller that is ready: three for each byte, two to return. */
  function Enough(t: Transaction): nat {
    3 * (|t.wdata| + if t.rdata == [] then 1 else |t.rdata|) + 2
  }

  lemma PromptArrives(t: Transaction, log: seq<Port>, es: seq<Event>)
    requires WellFormed(t) && Prompt(es) && Threads(es) >= Enough(t)
    ensures var m := Run(Initial(t, log), es);
            m.phase == Idle(Success) && Commands(m.log) == Commands(log) + 1
  {
    SinceSnoc(log, Command(t.command));
    PromptRun(Initial(t, log), es);
  }

  /**
    A controller that is ready is served: after a known number of steps of the
    thread, with any interrupts in between, the transaction has returned
    successfully, its bytes written and read after a single command.
    */
  lemma PromptSucceeds(t: Transaction, log: seq<Port>, es: seq<Event>)
    requires WellFormed(t) && Prompt(es) && Threads(es) >= Enough(t)
    ensures var m := Run(Initial(t, log), es);
            && m.phase == Idle(Success) && Commands(m.log) == Commands(log) + 1
            && SinceCommand(m.log) == Writes(t.wdata) + Reads(m.t.rdata)
  {
    PromptArrives(t, log, es);
    TransactionTrace(t, log, es);
  }

  predicate OnlyInterrupts(es: seq<Event>) {
    forall i :: 0 <= i < |es| ==> es[i].Interrupt?
  }

  /** Interrupts of a controller that is ready do the work without the thread: one for each byte. */
  lemma {:induction false} InterruptsFinish(m: Machine, es: seq<Event>)
    requires Going(m) && !m.phase.Idle? && Prompt(es) && OnlyInterrupts(es)
    ensures var m1 := Run(m, es);
            && Going(m1) && m1.phase == m.phase
            && Rounds(m1.t) == (if |es| >= Rounds(m.t) then 0 else Rounds(m.t) - |es|)
            && (m1.t.done <==> |es| >= Rounds(m.t))
    decreases |es|
  {
    if es != [] {
      assert es[0].Interrupt? && !es[0].status.inputFull && es[0].status.outputFull;
      InterruptRound(m, es[0]);
      InterruptsFinish(Step(m, es[0]), es[1..]);
    }
  }

  // -------------------------------------------------------- a time that always runs out

  predicate AlwaysLate(es: seq<Event>) {
    forall i :: 0 <= i < |es| && es[i].Thread? ==> es[i].expired
  }

  function Patience(m: Machine): nat {
    match m.phase
    case Checking => 4 * m.repeat + 1
    case Advancing => 4 * m.repeat
    case Testing => if m.repeat == 0 then 0 else 4 * m.repeat - 1
    case Restarting => if m.repeat == 0 then 0 else 4 * m.repeat - 2
    case Finishing(_) => 1
    case Idle(_) => 0
  }

  predicate Counting(m: Machine) {
    WellFormed(m.t) && (m.repeat > 0 || m.phase.Finishing? || m.phase.Idle?)
  }

  lemma {:induction false} LateRun(m: Machine, es: seq<Event>)
    requires Counting(m) && AlwaysLate(es)
    ensures var m1 := Run(m, es);
            Counting(m1) && Patience(m1) <= if Threads(es) >= Patience(m) then 0 else Patience(m) - Threads(es)
    decreases |es|
  {
    if es != [] {
      assert es[0].Thread? ==> es[0].expired;
      LateRun(Step(m, es[0]), es[1..]);
    }
  }

  /** Whatever the controller does, a thread that always finds its time up returns within 21 steps. */
  lemma LateReturns(t: Transaction, log: seq<Port>, es: seq<Event>)
    requires WellFormed(t) && AlwaysLate(es) && Threads(es) >= 21
    ensures Run(Initial(t, log), es).phase.Idle?
  {
    LateRun(Initial(t, log), es);
  }

  /** The controller never takes and never gives a byte. */
  predicate Dead(es: seq<Event>) {
    forall i :: 0 <= i < |es| ==> es[i].status.inputFull && !es[i].status.outputFull
  }

  function Sends(c: Byte, n: nat): (s: seq<Port>)
    ensures |s| == n
  {
    seq(n, _ => Command(c))
  }

  /** Nothing but commands has been sent. */
  predicate Fruitless(m: Machine, t: Transaction, log: seq<Port>) {
    && WellFormed(m.t) && !m.t.done && m.t.command == t.command && m.t.wdata == t.wdata && |m.t.rdata| == |t.rdata|
    && m.t.wi == m.t.ri == 0 && m.repeat <= 5 && m.log == log + Sends(t.command, 6 - m.repeat)
    && m.phase != Finishing(Success) && m.phase != Idle(Success)
    && (m.phase == Finishing(Timeout) || m.phase == Idle(Timeout) <==> m.repeat == 0)
  }

  lemma FruitlessStep(m: Machine, e: Event, t: Transaction, log: seq<Port>)
    requires Fruitless(m, t, log) && e.status.inputFull && !e.status.outputFull
    ensures Fruitless(Step(m, e), t, log)
  {
    assert m.repeat > 0 ==> Sends(t.command, 7 - m.repeat) == Sends(t.command, 6 - m.repeat) + [Command(t.command)];
  }

  lemma {:induction false} FruitlessRun(m: Machine, es: seq<Event>, t: Transaction, log: seq<Port>)
    requires Fruitless(m, t, log) && Dead(es)
    ensures Fruitless(Run(m, es), t, log)
    decreases |es|
  {
    if es != [] {
      FruitlessStep(m, es[0], t, log);
      FruitlessRun(Step(m, es[0]), es[1..], t, log);
    }
  }

  /** A controller that never answers is given up: the call times out after six commands and not a byte of data. */
  lemma DeadTimesOut(t: Transaction, log: seq<Port>, es: seq<Event>)
    requires WellFormed(t) && Dead(es) && AlwaysLate(es) && Threads(es) >= 21
    ensures var m := Run(Initial(t, log), es);
            m.phase == Idle(Timeout) && m.log == log + Sends(t.command, 6)
  {
    assert Sends(t.command, 1) == [Command(t.command)];
    FruitlessRun(Initial(t, log), es, t, log);
    LateReturns(t, log, es);
    var ret := Run(Initial(t, log), es).phase.ret;
    assert ret == Success || ret == Timeout;
  }
}
