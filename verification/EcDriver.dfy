/**
  The in-place form of the transaction loops of drivers/acpi/ec.c.  The world
  outside (when interrupts arrive, what the ports return, when time runs out)
  is a schedule the loops consume; a schedule that ends early leaves the call
  unfinished.
  */
module EcDriver {
  import opened Wrappers
  import opened EcTransaction
  import opened EcProgress

  datatype Outcome = Unfinished(phase: Phase) | Returned(ret: Return)

  /** A schedule that ends early was not one of a controller that is ready, nor of a thread that is always late. */
  lemma Cut(u: Transaction, log: seq<Port>, es: seq<Event>)
    requires WellFormed(u) && !Run(Initial(u, log), es).phase.Idle?
    ensures Prompt(es) ==> Threads(es) < Enough(u)
    ensures AlwaysLate(es) ==> Threads(es) < 21
  {
    CutPrompt(u, log, es);
    CutLate(u, log, es);
  }

  lemma CutPrompt(u: Transaction, log: seq<Port>, es: seq<Event>)
    requires WellFormed(u) && !Run(Initial(u, log), es).phase.Idle?
    ensures Prompt(es) ==> Threads(es) < Enough(u)
  {
    if Prompt(es) && Threads(es) >= Enough(u) { PromptSucceeds(u, log, es); }
  }

  lemma CutLate(u: Transaction, log: seq<Port>, es: seq<Event>)
    requires WellFormed(u) && !Run(Initial(u, log), es).phase.Idle?
    ensures AlwaysLate(es) ==> Threads(es) < 21
  {
    if AlwaysLate(es) && Threads(es) >= 21 { LateReturns(u, log, es); }
  }

  /** How a call that returns has ended for such controllers. */
  lemma Ended(u: Transaction, log: seq<Port>, es: seq<Event>, n: nat, ret: Return)
    requires WellFormed(u) && n <= |es| && Run(Initial(u, log), es[..n]).phase == Idle(ret)
    ensures Prompt(es) ==> ret == Success && Commands(Run(Initial(u, log), es[..n]).log) == Commands(log) + 1
    ensures Dead(es) ==> ret == Timeout
  {
    if Prompt(es) { EndedPrompt(u, log, es[..n], ret); }
    if Dead(es) { EndedDead(u, log, es[..n], ret); }
  }

  lemma EndedPrompt(u: Transaction, log: seq<Port>, es: seq<Event>, ret: Return)
    requires WellFormed(u) && Prompt(es) && Run(Initial(u, log), es).phase == Idle(ret)
    ensures ret == Success && Commands(Run(Initial(u, log), es).log) == Commands(log) + 1
  {
    SinceSnoc(log, Command(u.command));
    PromptRun(Initial(u, log), es);
  }

  lemma EndedDead(u: Transaction, log: seq<Port>, es: seq<Event>, ret: Return)
    requires WellFormed(u) && Dead(es) && Run(Initial(u, log), es).phase == Idle(ret)
    ensures ret == Timeout
  {
    assert Sends(u.command, 1) == [Command(u.command)];
    FruitlessRun(Initial(u, log), es, u, log);
  }

  class Ec {
    var t: Transaction      // the transaction curr points to
    var live: bool          // curr is set
    var log: seq<Port>
    var next: nat           // position in the schedule

    constructor (t: Transaction)
      ensures this.t == t && !live && log == [] && next == 0
    {
      this.t, live, log, next := t, false, [], 0;
    }

    method StartTransaction()
      modifies this`t, this`log
      ensures (t, log) == Start(old(t), old(log))
    {
      t := t.(irqCount := 0, wi := 0, ri := 0);
      t := t.(done := false);
      log := log + [Command(t.command)];
    }

    method AdvanceTransaction(status: StatusBits, input: Byte, inInterrupt: bool)
      requires WellFormed(t)
      modifies this`t, this`log
      ensures (t, log) == if live then Advance(old(t), old(log), status, input, inInterrupt) else (old(t), old(log))
      ensures WellFormed(t)
      ensures live ==> Handshake(old(t), old(log), status, input, inInterrupt, t, log)
    {
      if !live { return; }
      AdvanceHandshake(t, log, status, input, inInterrupt);
      if |t.wdata| > t.wi {
        if !status.inputFull {
          log := log + [WriteData(t.wdata[t.wi])];
          t := t.(wi := t.wi + 1);
          return;
        }
      } else if |t.rdata| > t.ri {
        if status.outputFull {
          log := log + [ReadData(input)];
          t := t.(rdata := t.rdata[t.ri := input], ri := t.ri + 1);
          if |t.rdata| == t.ri { t := t.(done := true); }
          return;
        }
      } else {
        if |t.wdata| == t.wi && !status.inputFull { t := t.(done := true); }
        return;
      }
      if inInterrupt && !status.sci { t := t.(irqCount := (t.irqCount + 1) % 0x10000); }
    }

    /** The object is where the machine is after the consumed part of the schedule. */
    ghost predicate Reached(m: Machine, es: seq<Event>, repeat: nat, phase: Phase)
      reads this
    {
      && WellFormed(m.t) && next <= |es| && !phase.Idle? && live
      && Run(m, es[..next]) == Machine(t, log, repeat, phase)
    }

    /** Interrupts that arrive before the thread's next step; false when the schedule ends. */
    method Interrupts(es: seq<Event>, ghost m: Machine, ghost repeat: nat, ghost phase: Phase) returns (more: bool)
      requires Reached(m, es, repeat, phase)
      modifies this`t, this`log, this`next
      ensures Reached(m, es, repeat, phase) && old(next) <= next
      ensures if more then next < |es| && es[next].Thread? else next == |es|
    {
      while next < |es| && es[next].Interrupt?
        invariant Reached(m, es, repeat, phase) && old(next) <= next
        decreases |es| - next
      {
        RunSnoc(m, es, next);
        AdvanceTransaction(es[next].status, es[next].input, true);
        next := next + 1;
      }
      more := next < |es|;
    }

    /** Polls the controller once; false when the schedule ends. */
    method PollOnce(es: seq<Event>, ghost m: Machine, ghost repeat: nat) returns (more: bool)
      requires Reached(m, es, repeat, Advancing)
      modifies this`t, this`log, this`next
      ensures Reached(m, es, repeat, if more then Testing else Advancing) && old(next) <= next && (!more ==> next == |es|)
    {
      more := Interrupts(es, m, repeat, Advancing);
      if more {
        RunSnoc(m, es, next);
        AdvanceTransaction(es[next].status, es[next].input, false);
        next := next + 1;
      }
    }

    /** Looks at the time. */
    method TestTime(es: seq<Event>, ghost m: Machine, ghost repeat: nat) returns (more: bool, expired: bool)
      requires Reached(m, es, repeat, Testing)
      modifies this`t, this`log, this`next
      ensures Reached(m, es, repeat, if !more then Testing else if expired then Restarting else Checking) && old(next) <= next
      ensures !more ==> next == |es|
    {
      expired := false;
      more := Interrupts(es, m, repeat, Testing);
      if more {
        RunSnoc(m, es, next);
        expired := es[next].expired;
        next := next + 1;
      }
    }

    /** Waits for the transaction to be done. */
    method TestDone(es: seq<Event>, ghost m: Machine, ghost repeat: nat) returns (more: bool, done: bool)
      requires Reached(m, es, repeat, Checking)
      modifies this`t, this`log, this`next
      ensures Reached(m, es, repeat, if !more then Checking else if done then Finishing(Success) else Advancing)
      ensures if more then old(next) < next else old(next) <= next == |es|
    {
      done := false;
      more := Interrupts(es, m, repeat, Checking);
      if more {
        RunSnoc(m, es, next);
        done := t.done;
        next := next + 1;
      }
    }

    /** One attempt: waits and polls until the transaction is done or its time is up. */
    method Attempt(es: seq<Event>, ghost m: Machine, repeat: nat) returns (phase: Phase, ended: bool)
      requires Reached(m, es, repeat, Checking)
      modifies this`t, this`log, this`next
      ensures Reached(m, es, repeat, phase)
      ensures if ended then next == |es| else phase == Restarting || phase == Finishing(Success)
    {
      phase := Checking;
      while phase == Checking
        invariant Reached(m, es, repeat, phase) && (phase == Checking || phase == Restarting)
        decreases |es| - next, phase == Checking
      {
        var more, done := TestDone(es, m, repeat);
        if !more { return Checking, true; }
        if done { return Finishing(Success), false; }
        more := PollOnce(es, m, repeat);
        if !more { return Advancing, true; }
        var expired;
        more, expired := TestTime(es, m, repeat);
        if !more { return Testing, true; }
        phase := if expired then Restarting else Checking;
      }
      ended := false;
    }

    /** Sends the command again. */
    method Restart(es: seq<Event>, ghost m: Machine, ghost repeat: nat) returns (more: bool)
      requires Reached(m, es, repeat, Restarting) && repeat > 0
      modifies this`t, this`log, this`next
      ensures if more then Reached(m, es, repeat - 1, if repeat == 1 then Finishing(Timeout) else Checking)
              else Reached(m, es, repeat, Restarting) && next == |es|
    {
      more := Interrupts(es, m, repeat, Restarting);
      if more {
        RunSnoc(m, es, next);
        StartTransaction();
        next := next + 1;
      }
    }

    /** Attempts and restarts, until an attempt succeeds or the restarts are used up. */
    method Poll(es: seq<Event>, ghost m: Machine) returns (phase: Phase, ended: bool, left: nat)
      requires Reached(m, es, RESTARTS, Checking)
      modifies this`t, this`log, this`next
      ensures Reached(m, es, left, phase)
      ensures if ended then next == |es| else phase.Finishing?
    {
      var repeat: nat := RESTARTS;
      while repeat > 0
        invariant Reached(m, es, repeat, if repeat == 0 then Finishing(Timeout) else Checking)
      {
        phase, ended := Attempt(es, m, repeat);
        if ended || phase.Finishing? { return phase, ended, repeat; }
        var more := Restart(es, m, repeat);
        if !more { return Restarting, true, repeat; }
        repeat := repeat - 1;
      }
      return Finishing(Timeout), false, 0;
    }

    /**
      A whole transaction.  What its return value is worth follows from the
      trace of the machine; a controller that is ready makes it succeed, and
      one that never answers makes it time out.
      */
    method TransactionUnlocked(u: Transaction, es: seq<Event>) returns (o: Outcome)
      requires WellFormed(u)
      modifies this
      ensures o.Returned? ==> !live && t.wdata == u.wdata && |t.rdata| == |u.rdata|
      ensures o == Returned(Success) ==>
                SinceCommand(log) == Writes(u.wdata) + Reads(t.rdata) && Commands(log) - Commands(old(log)) <= 5
      ensures o == Returned(Timeout) ==> Commands(log) - Commands(old(log)) == 6
      ensures Prompt(es) && Threads(es) >= Enough(u) ==> o == Returned(Success) && Commands(log) == Commands(old(log)) + 1
      ensures Dead(es) && AlwaysLate(es) && Threads(es) >= 21 ==> o == Returned(Timeout)
    {
      ghost var m := Initial(u, log);
      t, live, next := u, true, 0;
      StartTransaction();
      var phase, ended, left := Poll(es, m);
      if ended {
        assert es[..next] == es;
        Cut(u, old(log), es);
        return Unfinished(phase);
      }
      var more := Interrupts(es, m, left, phase);
      if !more {
        assert es[..next] == es;
        Cut(u, old(log), es);
        return Unfinished(phase);
      }
      RunSnoc(m, es, next);
      next := next + 1;
      live := false;
      Ended(u, old(log), es, next, phase.ret);
      TransactionTrace(u, old(log), es[..next]);
      o := Returned(phase.ret);
    }
  }
}
