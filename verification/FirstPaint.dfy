/** The gate as src-tauri/src/first_paint.rs writes it: one locked map and a ticket counter beside it. */
module FirstPaint {
  import opened Wrappers
  import P = FirstPaintSpec

  class FirstPaintGate {
    var held: map<P.Label, P.Hold>
    var next: P.Ticket
    ghost var drawn: map<P.Ticket, P.Want>
    ghost var log: seq<P.Sign>
    /** Everything that has happened so far. */
    ghost var past: seq<P.Event>

    ghost function State(): P.Gate
      reads this
    {
      P.Gate(held, next, drawn, log)
    }

    ghost predicate Valid()
      reads this
    {
      State() == P.Run(past)
    }

    constructor ()
      ensures Valid() && past == []
    {
      held, next := map[], 0;
      drawn, log, past := map[], [], [];
    }

    /** Note that `e` has happened. */
    ghost method Happened(e: P.Event)
      requires State() == P.Next(P.Run(past), e)
      modifies this`past
      ensures Valid() && past == old(past) + [e]
    {
      assert (past + [e])[..|past|] == past;
      past := past + [e];
    }

    /** Draw a ticket.  The lock is not held: others may draw and install before this one is used. */
    method Ticket(ghost want: P.Want) returns (t: P.Ticket)
      requires Valid()
      modifies this
      ensures Valid() && past == old(past) + [P.Draws(want)]
      ensures t in drawn && drawn[t] == want && held == old(held)
    {
      t := next;
      next := next + 1;
      drawn := drawn[t := want];
      Happened(P.Draws(want));
    }

    /** `hold_as`, from its lock on. */
    method HoldAs(window: P.Label, manner: P.Reveal, t: P.Ticket)
      requires Valid() && t in drawn && drawn[t] == P.ToHold(window, manner)
      modifies this
      ensures Valid() && past == old(past) + [P.Installs(t)]
    {
      held := held[window := P.Armed(t, manner)];
      log, drawn := log + [P.Installed(window, t)], drawn - {t};
      Happened(P.Installs(t));
    }

    method HoldUnarmed(window: P.Label)
      requires Valid()
      modifies this
      ensures Valid() && past == old(past) + [P.Keeps(window)]
    {
      if window !in held {
        held := held[window := P.Unarmed(P.NotYet)];
        log := log + [P.Created(window)];
      }
      Happened(P.Keeps(window));
    }

    /** `arm`, from its lock on. */
    method Arm(window: P.Label, t: P.Ticket) returns (r: P.Arming)
      requires Valid() && t in drawn && drawn[t] == P.ToArm(window)
      modifies this
      ensures Valid() && past == old(past) + [P.Installs(t)]
      ensures Some(r) == P.InstallAnswer(old(State()), t)
    {
      var painted := window in held && held[window].Unarmed? && held[window].painted != P.NotYet;
      held := held[window := P.Armed(t, P.Placed)];
      log, drawn := log + [P.Installed(window, t)], drawn - {t};
      r := if painted then P.Painted(t) else P.Waiting(t);
      Happened(P.Installs(t));
    }

    /** `arm_adopted`, from its lock on.  A window that is not held stays unheld, and the ticket is lost. */
    method ArmAdopted(window: P.Label, generation: P.Generation, activate: bool, t: P.Ticket)
      returns (r: Option<P.Arming>)
      requires Valid() && t in drawn && drawn[t] == P.ToAdopt(window, generation, activate)
      modifies this
      ensures Valid() && past == old(past) + [P.Installs(t)]
      ensures r == P.InstallAnswer(old(State()), t)
    {
      drawn := drawn - {t};
      if window !in held {
        r := None;
      } else {
        var painted := match held[window] case Unarmed(Numbered(got)) => got == generation case _ => false;
        held := held[window := P.Armed(t, P.Adopted(generation, activate))];
        log := log + [P.Installed(window, t)];
        r := Some(if painted then P.Painted(t) else P.Waiting(t));
      }
      Happened(P.Installs(t));
    }

    /** A paint notice arrives. */
    method Painted(window: P.Label, generation: Option<P.Generation>) returns (r: P.Signal)
      requires Valid()
      modifies this
      ensures Valid() && past == old(past) + [P.Notifies(window, generation)]
      ensures r == P.NotifyAnswer(old(State()), window, generation)
    {
      log := log + [P.Noticed(window, generation)];
      if window !in held {
        r := P.Ignored;
      } else {
        match held[window]
        case Armed(ticket, Adopted(expected, _)) =>
          r := if generation == Some(expected) then P.Release(ticket) else P.Mismatch(expected, generation);
        case Armed(ticket, _) =>
          r := P.Release(ticket);
        case Unarmed(painted) =>
          var kept := painted;
          if generation.Some? {
            kept := P.Numbered(generation.value);
          } else if painted == P.NotYet {
            kept := P.Numberless;
          }
          held := held[window := P.Unarmed(kept)];
          r := P.Recorded;
      }
      Happened(P.Notifies(window, generation));
    }

    method IsWaiting(window: P.Label, ticket: P.Ticket) returns (r: bool)
      ensures r <==> P.IsWaiting(held, window, ticket)
    {
      r := window in held && held[window].Armed? && held[window].ticket == ticket;
    }

    /** A queued show runs; it shows the window if and only if the window is still held with this ticket. */
    method Release(window: P.Label, ticket: P.Ticket) returns (r: Option<P.Reveal>)
      requires Valid()
      modifies this
      ensures Valid() && past == old(past) + [P.Shows(window, ticket)]
      ensures r.Some? <==> P.IsWaiting(old(held), window, ticket)
      ensures r.Some? ==> r.value == old(held)[window].manner && window !in held
    {
      if window in held && held[window].Armed? && held[window].ticket == ticket {
        r := Some(held[window].manner);
        held := held - {window};
        log := log + [P.Shown(window, ticket)];
      } else {
        r := None;
      }
      Happened(P.Shows(window, ticket));
    }

    method Cancel(window: P.Label) returns (was: bool)
      requires Valid()
      modifies this
      ensures Valid() && past == old(past) + [P.Cancels(window)]
      ensures was <==> window in old(held)
    {
      was := window in held;
      held := held - {window};
      log := log + [P.Cancelled(window)];
      Happened(P.Cancels(window));
    }
  }
}
