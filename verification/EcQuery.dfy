/**
  The pending-query protocol of drivers/acpi/ec.c: the flag QUERY_PENDING is
  claimed by whoever decides to query the controller (the interrupt handler,
  which queues work, or a transaction's end, which queries at once) and
  released when the query command is sent.
  */
module EcQuery {

  datatype State = State(
    pending: bool,     // EC_FLAGS_QUERY_PENDING
    queued: nat,       // acpi_ec_gpe_query calls in the work queue
    running: nat,      // acpi_ec_gpe_query calls started, command not yet sent
    direct: nat,       // ec_check_sci_sync calls that claimed the flag, command not yet sent
    sent: nat,         // queries whose command has been sent by the driver
    lost: nat,         // claims whose work could not be queued
    claims: nat)       // successful test-and-sets of the flag

  datatype Event =
    | Sci(executes: bool)     // ec_check_sci sees the SCI bit; can the work be queued?
    | SciSync                 // ec_check_sci_sync sees the SCI bit
    | StartWork
    | SendFromWork
    | SendDirect
    | Resend                  // a restart sends the command of the running transaction again
    | ForeignQuery            // the query command arrives through ec_transaction

  function Claimed(s: State): State {
    s.(pending := true, claims := s.claims + 1)
  }

  function Step(s: State, e: Event): State {
    match e
    case Sci(executes) =>
      if s.pending then s
      else if executes then Claimed(s).(queued := s.queued + 1)
      else Claimed(s).(lost := s.lost + 1)
    case SciSync => if s.pending then s else Claimed(s).(direct := s.direct + 1)
    case StartWork => if s.queued == 0 then s else s.(queued := s.queued - 1, running := s.running + 1)
    case SendFromWork => if s.running == 0 then s else s.(running := s.running - 1, pending := false, sent := s.sent + 1)
    case SendDirect => if s.direct == 0 then s else s.(direct := s.direct - 1, pending := false, sent := s.sent + 1)
    case Resend => s
    case ForeignQuery => s.(pending := false)
  }

  function Run(s: State, es: seq<Event>): State
    decreases |es|
  {
    if es == [] then s else Run(Step(s, es[0]), es[1..])
  }

  predicate DriverOnly(es: seq<Event>) {
    forall i :: 0 <= i < |es| ==> es[i] != ForeignQuery
  }

  /** Queries queued or waiting to send their command. */
  function Waiting(s: State): nat {
    s.queued + s.running + s.direct
  }

  /** At most one query waits, the flag is set exactly while one does or one was lost, and none is forgotten. */
  predicate Orderly(s: State) {
    var open := Waiting(s) + s.lost;
    open <= 1 && (s.pending <==> open == 1) && s.claims == s.sent + open
  }

  /** The protocol before anything has happened. */
  predicate Quiet(s: State) {
    !s.pending && s.queued == s.running == s.direct == s.sent == s.lost == s.claims == 0
  }

  /** Over every run in which only the driver sends the query command: at most one query waits, and the flag is set whenever one does. */
  lemma {:induction false} RunOrderly(s: State, es: seq<Event>)
    requires Orderly(s) && DriverOnly(es)
    ensures Orderly(Run(s, es))
    decreases |es|
  {
    if es != [] {
      assert es[0] != ForeignQuery;
      RunOrderly(Step(s, es[0]), es[1..]);
    }
  }

  /** Event `i` of a run claims the flag, but its work cannot be queued. */
  predicate Loses(s: State, es: seq<Event>, i: nat)
    requires i < |es|
  {
    es[i] == Sci(false) && !Run(s, es[..i]).pending
  }

  /** A lost claim is final: whatever the driver does afterwards, the flag stays set, nothing waits and nothing is sent. */
  lemma {:induction false} LostClaimIsFinal(s: State, es: seq<Event>)
    requires Orderly(s) && s.lost == 1 && DriverOnly(es)
    ensures Run(s, es) == s && s.pending && Waiting(s) == 0
    decreases |es|
  {
    if es != [] {
      assert es[0] != ForeignQuery;
      LostClaimIsFinal(s, es[1..]);
    }
  }

  lemma RunNext(s: State, es: seq<Event>, i: nat)
    requires 0 < i <= |es|
    ensures Run(s, es[..i]) == Run(Step(s, es[0]), es[1..][..i - 1])
  {
    assert es[..i][1..] == es[1..][..i - 1];
  }

  /** A later event loses its claim in the run exactly when it does in the rest of the run. */
  lemma LosesLater(s: State, es: seq<Event>)
    requires es != []
    ensures (exists i :: 0 <= i < |es| && Loses(s, es, i))
            <==> Loses(s, es, 0) || exists i :: 0 <= i < |es[1..]| && Loses(Step(s, es[0]), es[1..], i)
  {
    if i :| 0 < i < |es| && Loses(s, es, i) {
      RunNext(s, es, i);
      assert Loses(Step(s, es[0]), es[1..], i - 1);
    }
    if i :| 0 <= i < |es[1..]| && Loses(Step(s, es[0]), es[1..], i) {
      RunNext(s, es, i + 1);
      assert Loses(s, es, i + 1);
    }
  }

  /** The driver ends up with a lost claim exactly when some event finds the flag clear and its work cannot be queued. */
  lemma {:induction false} LostExactlyWhen(s: State, es: seq<Event>)
    requires Orderly(s) && s.lost == 0 && DriverOnly(es)
    ensures Run(s, es).lost == 1 <==> exists i :: 0 <= i < |es| && Loses(s, es, i)
    decreases |es|
  {
    if es != [] {
      assert es[0] != ForeignQuery;
      var s1 := Step(s, es[0]);
      assert es[..0] == [];
      LosesLater(s, es);
      if s1.lost == 0 {
        LostExactlyWhen(s1, es[1..]);
      } else {
        LostClaimIsFinal(s1, es[1..]);
      }
    }
  }

  /** After a run, an SCI leaves a query waiting exactly when no event of the run found the flag clear and could not queue its work. */
  lemma SciAnswered(s: State, es: seq<Event>)
    requires Orderly(s) && s.lost == 0 && DriverOnly(es)
    ensures Waiting(Step(Run(s, es), Sci(true))) == 1 <==> !exists i :: 0 <= i < |es| && Loses(s, es, i)
  {
    RunOrderly(s, es);
    LostExactlyWhen(s, es);
  }

  /** From a quiet start, one event whose work cannot be queued silences every later one. */
  lemma LostClaim(s: State, es: seq<Event>)
    requires Quiet(s) && DriverOnly(es)
    ensures var s1 := Run(s, [Sci(false)] + es);
            s1.pending && Waiting(s1) == 0 && s1.sent == 0
  {
    var all := [Sci(false)] + es;
    assert all[1..] == es;
    LostClaimIsFinal(Step(s, Sci(false)), es);
  }

  /** A query command from elsewhere keeps the protocol exactly when no driver query was waiting or lost. */
  lemma ForeignQueryKeepsOrder(s: State)
    requires Orderly(s)
    ensures Orderly(Step(s, ForeignQuery)) <==> Waiting(s) + s.lost == 0
  {
  }

  /** Without that restriction two queries can wait at once. */
  lemma TwoQueriesWait(s: State)
    requires Quiet(s)
    ensures Waiting(Run(s, [Sci(true), ForeignQuery, Sci(true)])) == 2
  {
    var es := [Sci(true), ForeignQuery, Sci(true)];
    assert es[1..] == [ForeignQuery, Sci(true)] && es[1..][1..] == [Sci(true)] && es[1..][1..][1..] == [];
    assert Run(Step(Step(Step(s, Sci(true)), ForeignQuery), Sci(true)), []).queued == 2;
  }

  /**
    The driver's functions in place: the flag and the length of the work queue.
    The protocol state is a ghost that every method keeps orderly.
    */
  class Queries {
    var pending: bool
    var work: nat
    ghost var s: State

    ghost predicate Valid()
      reads this
    {
      Orderly(s) && pending == s.pending && work == s.queued
    }

    constructor (start: State)
      requires Orderly(start)
      ensures Valid() && s == start
    {
      pending, work, s := start.pending, start.queued, start;
    }

    method TestAndSetPending() returns (was: bool)
      modifies this`pending
      ensures was == old(pending) && pending
    {
      was := pending;
      pending := true;
    }

    /** The interrupt handler: an SCI leaves exactly one query waiting, unless its own or an earlier claim is lost. */
    method CheckSci(sci: bool, executes: bool) returns (queued: bool)
      requires Valid()
      modifies this
      ensures Valid() && s.sent == old(s.sent)
      ensures queued <==> sci && !old(pending) && executes
      ensures work == old(work) + if queued then 1 else 0
      ensures sci ==> pending && Waiting(s) + s.lost == 1
      ensures !sci || old(pending) ==> s == old(s)
      ensures s.lost == old(s.lost) + if sci && !old(pending) && !executes then 1 else 0
    {
      queued := false;
      if sci {
        var was := TestAndSetPending();
        if !was {
          queued := executes;
          if queued { work := work + 1; }
          s := Step(s, Sci(executes));
        }
      }
    }

    /** SCIs that arrive one after the other; each tells whether its work could be queued. */
    method Arrivals(executes: seq<bool>)
      requires Valid() && pending
      modifies this
      ensures Valid() && pending && work == old(work) && s == old(s)
    {
      for i := 0 to |executes|
        invariant Valid() && pending && work == old(work) && s == old(s)
      {
        var _ := CheckSci(true, executes[i]);
      }
    }

    /**
      The end of a transaction.  It queries exactly when it finds the flag
      clear; SCIs between the claim and the command queue nothing, and the
      command leaves nothing waiting and the flag clear.
      */
    method CheckSciSync(sci: bool, between: seq<bool>) returns (queried: bool)
      requires Valid()
      modifies this
      ensures Valid() && work == old(work) && s.lost == old(s.lost)
      ensures queried <==> sci && !old(pending)
      ensures queried ==> !pending && Waiting(s) == 0 && s.sent == old(s.sent) + 1
      ensures !queried ==> s == old(s)
    {
      queried := false;
      if sci {
        var was := TestAndSetPending();
        if !was {
          s := Step(s, SciSync);
          Arrivals(between);
          pending := false;
          s := Step(s, SendDirect);
          queried := true;
        }
      }
    }

    /**
      A queued query.  SCIs before its command queue nothing; the command
      leaves nothing waiting and the flag clear, so the next SCI is free to
      queue again.
      */
    method GpeQuery(between: seq<bool>)
      requires Valid() && work > 0
      modifies this
      ensures Valid() && !pending && work == 0 && Waiting(s) == 0
      ensures s.sent == old(s.sent) + 1 && s.lost == old(s.lost) && s.claims == old(s.claims)
    {
      work := work - 1;
      s := Step(s, StartWork);
      Arrivals(between);
      pending := false;
      s := Step(s, SendFromWork);
    }
  }
}
