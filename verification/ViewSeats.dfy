/** The table of pending seats, as src-tauri/src/view_commands.rs changes it under its lock. */
module ViewSeats {
  import opened Wrappers
  import V = ViewSeatsSpec

  class Pending {
    var seats: map<V.RequestId, V.Seat>
    var nextSeat: nat
    /** How many channels were made; each seat holds the sender of one. */
    var channels: nat
    ghost var trips: seq<V.Trip>
    ghost var log: seq<V.Sign>
    /** Everything that has happened so far. */
    ghost var past: seq<V.Event>

    ghost function State(): V.Bridge
      reads this
    {
      V.Bridge(seats, nextSeat, trips, log)
    }

    ghost predicate Valid()
      reads this
    {
      State() == V.Run(past) && channels == |trips|
    }

    constructor ()
      ensures Valid() && past == []
    {
      seats, nextSeat, channels := map[], 0, 0;
      trips, log, past := [], [], [];
    }

    /** Note that `e` has happened. */
    ghost method Happened(e: V.Event)
      requires State() == V.Next(V.Run(past), e) && channels == |trips|
      modifies this`past
      ensures Valid() && past == old(past) + [e]
    {
      assert (past + [e])[..|past|] == past;
      past := past + [e];
    }

    /** `PendingSlot::hold`: the guard of the new trip is given the seat's number. */
    method Hold(req: V.RequestId, target: V.Label) returns (guard: Option<nat>)
      requires Valid()
      modifies this
      ensures Valid() && past == old(past) + [V.Dispatched(req, target)]
      ensures guard == if req in old(seats) then None else Some(old(nextSeat))
      ensures guard.Some? ==> trips == old(trips) + [V.Trip(guard.value, req, target, true, true, None, None, None)]
    {
      if req in seats {
        guard := None;
      } else {
        var seat := nextSeat;
        nextSeat := nextSeat + 1;
        ghost var trip := |trips|;
        seats := seats[req := V.Seat(seat, target, channels)];
        channels := channels + 1;
        trips := trips + [V.Trip(seat, req, target, true, true, None, None, None)];
        log := log + [V.Sent(trip, target)];
        guard := Some(seat);
      }
      Happened(V.Dispatched(req, target));
    }

    /** `settle`, up to where it lets go of the lock. */
    method TakeAnswer(from: V.Label, id: Option<V.RequestId>, value: V.Value) returns (r: V.Verdict)
      requires Valid()
      modifies this
      ensures Valid() && past == old(past) + [V.AnswerIn(from, id, value)]
      ensures r == V.Judge(old(seats), from, id)
    {
      V.RunSound(past);
      if id.None? {
        r := V.NotAnId;
      } else if id.value !in seats {
        r := V.NobodyWaits;
      } else if seats[id.value].target != from {
        r := V.NotYours(seats[id.value].target);
      } else {
        assert V.SeatFits(State(), id.value);
        var i := seats[id.value].trip;
        seats := seats - {id.value};
        trips := trips[i := trips[i].(carried := Some(value))];
        log := log + [V.Taken(i, from, value)];
        r := V.Accepted(i);
      }
      Happened(V.AnswerIn(from, id, value));
    }

    /** Dropping the guard that was given `number` for `req`. */
    method DropGuard(req: V.RequestId, number: nat, ghost trip: nat)
      requires Valid() && trip < |trips| && trips[trip].guarded
      requires trips[trip].req == req && trips[trip].number == number
      modifies this
      ensures Valid() && past == old(past) + [V.GuardDropped(trip)]
    {
      trips := trips[trip := trips[trip].(guarded := false)];
      if req in seats && seats[req].number == number {
        seats := seats - {req};
      }
      Happened(V.GuardDropped(trip));
    }
  }
}
