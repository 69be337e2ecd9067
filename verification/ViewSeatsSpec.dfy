/**
 The pending seats of src-tauri/src/view_commands.rs: a command sent down to a window waits in a seat under its
 request id until that window answers, the deadline passes or the caller goes away.

 Round trips are listed in the order they begin.  A trip's guard and the receiving end of its channel live in the
 caller's future, and its seat holds the sending end.  The guard knows its seat only by the number the seat was given;
 an answer is taken out of the table under the lock and sent after the lock is gone.
 */
module ViewSeatsSpec {
  import opened Wrappers

  type Label = string
  type RequestId = nat
  type Value = nat

  /** `trip` is the round trip whose channel the seat's sender belongs to. */
  datatype Seat = Seat(number: nat, target: Label, trip: nat)
  datatype Outcome = Replied(value: Value) | TimedOut | ChannelClosed

  /**
   `carried` is an answer taken in but not sent yet, `reply` what reached the channel, `outcome` what the caller was
   told.
   */
  datatype Trip = Trip(number: nat, req: RequestId, target: Label, guarded: bool, listening: bool, carried: Option<Value>,
                       reply: Option<Value>, outcome: Option<Outcome>)

  datatype Sign = Sent(trip: nat, target: Label) | Taken(trip: nat, from: Label, value: Value)

  datatype Bridge = Bridge(seats: map<RequestId, Seat>, nextSeat: nat, trips: seq<Trip>, log: seq<Sign>)

  const EMPTY := Bridge(map[], 0, [], [])

  /** Take a seat; a request id that is already running is refused and its waiter left alone. */
  ghost function Hold(b: Bridge, req: RequestId, target: Label): Bridge {
    if req in b.seats then b
    else
      Bridge(b.seats[req := Seat(b.nextSeat, target, |b.trips|)], b.nextSeat + 1,
             b.trips + [Trip(b.nextSeat, req, target, true, true, None, None, None)],
             b.log + [Sent(|b.trips|, target)])
  }

  datatype Verdict = Accepted(trip: nat) | NotAnId | NobodyWaits | NotYours(target: Label)

  /** What an answer from window `from` for `req` is told. */
  function Judge(seats: map<RequestId, Seat>, from: Label, req: Option<RequestId>): Verdict {
    if req.None? then NotAnId
    else if req.value !in seats then NobodyWaits
    else if seats[req.value].target != from then NotYours(seats[req.value].target)
    else Accepted(seats[req.value].trip)
  }

  /** The locked half of `settle`. */
  ghost function Take(b: Bridge, from: Label, req: Option<RequestId>, v: Value): Bridge {
    var verdict := Judge(b.seats, from, req);
    if verdict.Accepted? && verdict.trip < |b.trips| then
      var i := verdict.trip;
      Bridge(b.seats - {req.value}, b.nextSeat, b.trips[i := b.trips[i].(carried := Some(v))], b.log + [Taken(i, from, v)])
    else b
  }

  /** The other half: the answer goes into the channel, unless the caller has gone. */
  ghost function Send(b: Bridge, i: nat): Bridge {
    if i < |b.trips| && b.trips[i].carried.Some? then
      var t := b.trips[i];
      b.(trips := b.trips[i := t.(carried := None, reply := if t.listening then t.carried else t.reply)])
    else b
  }

  /** The caller's future is polled and finds `late` whether the deadline has passed. */
  ghost function Poll(b: Bridge, i: nat, late: bool): Bridge {
    if i < |b.trips| && b.trips[i].guarded && b.trips[i].listening then
      var t := b.trips[i];
      if t.reply.Some? then b.(trips := b.trips[i := t.(listening := false, outcome := Some(Replied(t.reply.value)))])
      else if SenderGone(b, i) then b.(trips := b.trips[i := t.(listening := false, outcome := Some(ChannelClosed))])
      else if late then b.(trips := b.trips[i := t.(listening := false, outcome := Some(TimedOut))])
      else b
    else b
  }

  /** Nobody can send into the channel of `i` any more. */
  ghost predicate SenderGone(b: Bridge, i: nat)
    requires i < |b.trips|
  {
    var t := b.trips[i];
    t.carried.None? && !(t.req in b.seats && b.seats[t.req].trip == i)
  }

  /** The future is dropped, by cancellation or at its end: its channel goes, and its guard. */
  ghost function StopListening(b: Bridge, i: nat): Bridge {
    if i < |b.trips| then b.(trips := b.trips[i := b.trips[i].(listening := false)]) else b
  }

  ghost function DropGuard(b: Bridge, i: nat): Bridge {
    if i < |b.trips| && b.trips[i].guarded then
      var req := b.trips[i].req;
      b.(trips := b.trips[i := b.trips[i].(guarded := false)],
         seats := if req in b.seats && b.seats[req].number == b.trips[i].number then b.seats - {req} else b.seats)
    else b
  }

  datatype Event =
    | Dispatched(req: RequestId, target: Label)
    | AnswerIn(from: Label, id: Option<RequestId>, value: Value)
    | AnswerSent(trip: nat)
    | Polled(trip: nat, late: bool)
    | ChannelDropped(trip: nat)
    | GuardDropped(trip: nat)

  ghost function Next(b: Bridge, e: Event): Bridge {
    match e
    case Dispatched(req, target) => Hold(b, req, target)
    case AnswerIn(from, req, v) => Take(b, from, req, v)
    case AnswerSent(i) => Send(b, i)
    case Polled(i, late) => Poll(b, i, late)
    case ChannelDropped(i) => StopListening(b, i)
    case GuardDropped(i) => DropGuard(b, i)
  }

  ghost function Run(es: seq<Event>): Bridge {
    if es == [] then EMPTY else Next(Run(es[..|es| - 1]), es[|es| - 1])
  }

  // ── Invariants ─────────────────────────────────────────────────────────────

  /** No two round trips were given the same number. */
  ghost predicate NumbersDiffer(b: Bridge) {
    && (forall i :: 0 <= i < |b.trips| ==> b.trips[i].number < b.nextSeat)
    && (forall i, j :: 0 <= i < j < |b.trips| ==> b.trips[i].number != b.trips[j].number)
  }

  /** A seat carries the number of its round trip, whose guard is still there and whose answer is still to come. */
  ghost predicate SeatFits(b: Bridge, req: RequestId)
    requires req in b.seats
  {
    var s := b.seats[req];
    && s.trip < |b.trips| && b.trips[s.trip].guarded && b.trips[s.trip].number == s.number
    && b.trips[s.trip].req == req && b.trips[s.trip].target == s.target
    && b.trips[s.trip].carried.None? && b.trips[s.trip].reply.None?
  }

  ghost predicate Seated(b: Bridge, i: nat)
    requires i < |b.trips|
  {
    b.trips[i].req in b.seats && b.seats[b.trips[i].req].trip == i
  }

  /** What was carried, reached the channel or was told to the caller was taken from the log's only answer for `i`. */
  ghost predicate TripFits(b: Bridge, i: nat)
    requires i < |b.trips|
  {
    var t := b.trips[i];
    && (t.carried.Some? ==> Taken(i, t.target, t.carried.value) in b.log && t.reply.None?)
    && (t.reply.Some? ==> Taken(i, t.target, t.reply.value) in b.log)
    && (t.outcome.Some? && t.outcome.value.Replied? ==> t.reply == Some(t.outcome.value.value))
    && (t.guarded && t.listening && t.reply.None? && t.carried.None? ==> Seated(b, i))
    && t.outcome != Some(ChannelClosed) && (t.outcome.Some? ==> !t.listening)
    && Sent(i, t.target) in b.log
  }

  ghost predicate LogFits(b: Bridge) {
    && (forall k :: 0 <= k < |b.log| ==>
          b.log[k].trip < |b.trips| && (b.log[k].Taken? ==> b.log[k].from == b.trips[b.log[k].trip].target)
          && (b.log[k].Sent? ==> b.log[k].target == b.trips[b.log[k].trip].target))
    && (forall k :: 0 <= k < |b.log| && b.log[k].Taken? ==> !Seated(b, b.log[k].trip))
    && (forall k, m :: 0 <= k < m < |b.log| && b.log[k].Taken? && b.log[m].Taken? ==> b.log[k].trip != b.log[m].trip)
    && (forall k :: 0 <= k < |b.log| && b.log[k].Taken? ==> Foretold(b.log, k))
  }

  /** The window whose answer entry `k` takes is the one the command was sent to before. */
  ghost predicate Foretold(log: seq<Sign>, k: nat)
    requires k < |log| && log[k].Taken?
  {
    exists j :: 0 <= j < k && log[j] == Sent(log[k].trip, log[k].from)
  }

  lemma ForetoldMore(log: seq<Sign>, s: Sign)
    requires forall k :: 0 <= k < |log| && log[k].Taken? ==> Foretold(log, k)
    requires s.Taken? ==> Sent(s.trip, s.from) in log
    ensures forall k :: 0 <= k < |log + [s]| && (log + [s])[k].Taken? ==> Foretold(log + [s], k)
  {
    var more := log + [s];
    forall k | 0 <= k < |more| && more[k].Taken? ensures Foretold(more, k) {
      if k < |log| {
        assert Foretold(log, k);
        var j :| 0 <= j < k && log[j] == Sent(log[k].trip, log[k].from);
        assert more[j] == log[j];
      } else {
        var j :| 0 <= j < |log| && log[j] == Sent(s.trip, s.from);
        assert more[j] == log[j];
      }
    }
  }

  ghost predicate Sound(b: Bridge) {
    && (forall req :: req in b.seats ==> SeatFits(b, req))
    && (forall i :: 0 <= i < |b.trips| ==> TripFits(b, i))
    && LogFits(b) && NumbersDiffer(b)
  }

  lemma HoldLogged(b: Bridge, req: RequestId, target: Label)
    requires Sound(b) && req !in b.seats
    ensures LogFits(Hold(b, req, target))
  {
    ForetoldMore(b.log, Sent(|b.trips|, target));
  }

  lemma HoldSound(b: Bridge, req: RequestId, target: Label)
    requires Sound(b)
    ensures Sound(Hold(b, req, target))
  {
    if req !in b.seats {
      var v := Hold(b, req, target);
      HoldLogged(b, req, target);
      forall r | r in v.seats ensures SeatFits(v, r) {
        assert r != req ==> SeatFits(b, r);
      }
      forall i | 0 <= i < |v.trips| ensures TripFits(v, i) {
        if i < |b.trips| {
          assert TripFits(b, i);
        } else {
          assert v.log[|b.log|] == Sent(i, target);
        }
      }
    }
  }

  lemma TakeLogged(b: Bridge, from: Label, req: RequestId, x: Value)
    requires Sound(b) && Judge(b.seats, from, Some(req)).Accepted?
    ensures LogFits(Take(b, from, Some(req), x))
  {
    var s := b.seats[req].trip;
    assert SeatFits(b, req) && TripFits(b, s);
    ForetoldMore(b.log, Taken(s, from, x));
  }

  lemma TakeSound(b: Bridge, from: Label, req: Option<RequestId>, x: Value)
    requires Sound(b)
    ensures Sound(Take(b, from, req, x))
  {
    var verdict := Judge(b.seats, from, req);
    if verdict.Accepted? {
      var s, v := verdict.trip, Take(b, from, req, x);
      assert SeatFits(b, req.value) && TripFits(b, s);
      TakeLogged(b, from, req.value, x);
      assert v.log[|b.log|] == Taken(s, from, x);
      forall r | r in v.seats ensures SeatFits(v, r) {
        assert SeatFits(b, r) && b.seats[r].trip != s;
      }
      forall i | 0 <= i < |v.trips| ensures TripFits(v, i) {
        assert TripFits(b, i);
      }
    }
  }

  lemma TripSound(b: Bridge, i: nat, t: Trip)
    requires Sound(b) && i < |b.trips|
    requires t.req == b.trips[i].req && t.number == b.trips[i].number && t.target == b.trips[i].target && t.guarded == b.trips[i].guarded
    requires TripFits(b.(trips := b.trips[i := t]), i)
    requires b.trips[i].carried.None? && b.trips[i].reply.None? ==> t.carried.None? && t.reply.None?
    ensures Sound(b.(trips := b.trips[i := t]))
  {
    var v := b.(trips := b.trips[i := t]);
    forall j | 0 <= j < |v.trips| && j != i ensures TripFits(v, j) {
      assert TripFits(b, j);
    }
    forall req | req in v.seats ensures SeatFits(v, req) {
      assert SeatFits(b, req);
    }
  }

  lemma DropGuardSound(b: Bridge, i: nat)
    requires Sound(b)
    ensures Sound(DropGuard(b, i))
  {
    if i < |b.trips| && b.trips[i].guarded {
      var v := DropGuard(b, i);
      forall r | r in b.seats ensures r in v.seats <==> b.seats[r].trip != i {
        ClearsOnlyItsOwn(b, i, r);
      }
      forall req | req in v.seats ensures SeatFits(v, req) {
        assert SeatFits(b, req);
      }
      forall j | 0 <= j < |v.trips| ensures TripFits(v, j) {
        assert TripFits(b, j);
      }
    }
  }

  lemma StepSound(b: Bridge, e: Event)
    requires Sound(b)
    ensures Sound(Next(b, e))
  {
    match e
    case Dispatched(req, target) => HoldSound(b, req, target);
    case AnswerIn(from, req, v) => TakeSound(b, from, req, v);
    case AnswerSent(i) =>
      if i < |b.trips| && b.trips[i].carried.Some? {
        assert TripFits(b, i);
        var t := b.trips[i];
        TripSound(b, i, t.(carried := None, reply := if t.listening then t.carried else t.reply));
      }
    case Polled(i, late) =>
      if i < |b.trips| {
        assert TripFits(b, i);
        if Poll(b, i, late) != b {
          TripSound(b, i, Poll(b, i, late).trips[i]);
        }
      }
    case ChannelDropped(i) =>
      if i < |b.trips| {
        assert TripFits(b, i);
        TripSound(b, i, b.trips[i].(listening := false));
      }
    case GuardDropped(i) => DropGuardSound(b, i);
  }

  lemma {:induction false} RunSound(es: seq<Event>)
    ensures Sound(Run(es)) && LogFits(Run(es))
  {
    if es != [] {
      RunSound(es[..|es| - 1]);
      StepSound(Run(es[..|es| - 1]), es[|es| - 1]);
    }
  }

  // ── What follows for every run ─────────────────────────────────────────────

  /** Each seat gets at most one answer, and only from the window the command was sent to. */
  lemma OneAnswerFromItsWindow(es: seq<Event>, k: nat)
    requires k < |Run(es).log| && Run(es).log[k].Taken?
    ensures var log := Run(es).log;
      && (exists j :: 0 <= j < k && log[j] == Sent(log[k].trip, log[k].from))
      && (forall m :: 0 <= m < |log| && m != k && log[m].Taken? ==> log[m].trip != log[k].trip)
  {
    RunSound(es);
    assert Foretold(Run(es).log, k);
  }

  /**
   What a caller is told is the answer its own window gave to this very round trip; the channel never closes on a
   caller without an answer.
   */
  lemma ToldWhatWasAnswered(es: seq<Event>, i: nat)
    requires i < |Run(es).trips| && Run(es).trips[i].outcome.Some?
    ensures var b := Run(es);
      match b.trips[i].outcome.value
      case Replied(v) => Sent(i, b.trips[i].target) in b.log && Taken(i, b.trips[i].target, v) in b.log
      case TimedOut => true
      case ChannelClosed => false
  {
    RunSound(es);
    assert TripFits(Run(es), i);
  }

  /**
   Every seat has exactly one guard that would clear it, and that guard is live; when no guard is left the table is
   empty.
   */
  lemma NoSeatLeaks(es: seq<Event>)
    ensures var b := Run(es);
      && (forall req :: req in b.seats ==> OneGuard(b, req))
      && ((forall i :: 0 <= i < |b.trips| ==> !b.trips[i].guarded) ==> b.seats == map[])
  {
    RunSound(es);
    var b := Run(es);
    forall req | req in b.seats ensures OneGuard(b, req) {
      assert SeatFits(b, req);
    }
    if b.seats != map[] {
      var req :| req in b.seats;
      assert SeatFits(b, req);
    }
  }

  /** Among all guards ever made, the live guard of the seat's own trip is the only one with the seat's number. */
  ghost predicate OneGuard(b: Bridge, req: RequestId)
    requires req in b.seats
  {
    var s := b.seats[req];
    && s.trip < |b.trips| && b.trips[s.trip].guarded && b.trips[s.trip].req == req
    && forall i :: 0 <= i < |b.trips| ==> (b.trips[i].number == s.number <==> i == s.trip)
  }

  /** A guard clears the seat of its own trip and no other, also when its request id has a newer seat. */
  lemma GuardClearsOnlyItsOwn(es: seq<Event>, i: nat, req: RequestId)
    requires i < |Run(es).trips| && Run(es).trips[i].guarded
    ensures var b := Run(es);
      var v := DropGuard(b, i);
      && (req in v.seats <==> req in b.seats && b.seats[req].trip != i)
      && (req in v.seats ==> v.seats[req] == b.seats[req])
  {
    RunSound(es);
    ClearsOnlyItsOwn(Run(es), i, req);
  }

  lemma ClearsOnlyItsOwn(b: Bridge, i: nat, req: RequestId)
    requires Sound(b) && i < |b.trips| && b.trips[i].guarded
    ensures var v := DropGuard(b, i);
      && (req in v.seats <==> req in b.seats && b.seats[req].trip != i)
      && (req in v.seats ==> v.seats[req] == b.seats[req])
  {
    if req in b.seats {
      assert SeatFits(b, req);
    }
    if b.trips[i].req in b.seats {
      assert SeatFits(b, b.trips[i].req);
    }
  }

  /** An accepted answer reaches a caller that is still listening, deadline or not. */
  lemma AnswerArrives(es: seq<Event>, from: Label, req: RequestId, v: Value, late: bool)
    requires var b := Run(es);
      && Judge(b.seats, from, Some(req)).Accepted? && b.seats[req].trip < |b.trips|
      && b.trips[b.seats[req].trip].listening
    ensures var b := Run(es);
      var i := b.seats[req].trip;
      Poll(Send(Take(b, from, Some(req), v), i), i, late).trips[i].outcome == Some(Replied(v))
  {
    RunSound(es);
    assert SeatFits(Run(es), req);
  }

  lemma StepDeaf(b: Bridge, e: Event, i: nat)
    requires i < |b.trips| && !b.trips[i].listening
    ensures i < |Next(b, e).trips| && !Next(b, e).trips[i].listening
    ensures Next(b, e).trips[i].outcome == b.trips[i].outcome
  {
  }

  lemma {:induction false} DeafForGood(es: seq<Event>, fs: seq<Event>, i: nat)
    requires i < |Run(es).trips| && !Run(es).trips[i].listening
    ensures i < |Run(es + fs).trips| && !Run(es + fs).trips[i].listening
    ensures Run(es + fs).trips[i].outcome == Run(es).trips[i].outcome
    decreases |fs|
  {
    if fs == [] {
      assert es + fs == es;
    } else {
      var n := |fs| - 1;
      DeafForGood(es, fs[..n], i);
      assert (es + fs)[..|es + fs| - 1] == es + fs[..n];
      StepDeaf(Run(es + fs[..n]), fs[n], i);
    }
  }

  /** A caller is told one thing, once: whatever happens later, its outcome stays. */
  lemma OutcomeIsFinal(es: seq<Event>, fs: seq<Event>, i: nat)
    requires i < |Run(es).trips| && Run(es).trips[i].outcome.Some?
    ensures i < |Run(es + fs).trips| && Run(es + fs).trips[i].outcome == Run(es).trips[i].outcome
  {
    RunSound(es);
    assert TripFits(Run(es), i);
    DeafForGood(es, fs, i);
  }

  /** A caller that went away is told nothing any more. */
  lemma CancelledHearsNothing(es: seq<Event>, fs: seq<Event>, i: nat)
    requires i < |Run(es).trips|
    ensures i < |Run(es + [ChannelDropped(i)] + fs).trips|
    ensures Run(es + [ChannelDropped(i)] + fs).trips[i].outcome == Run(es).trips[i].outcome
  {
    assert (es + [ChannelDropped(i)])[..|es|] == es;
    DeafForGood(es + [ChannelDropped(i)], fs, i);
  }

  /** A caller without an answer at its deadline is told so. */
  lemma DeadlineIsTold(es: seq<Event>, i: nat)
    requires var b := Run(es);
      i < |b.trips| && b.trips[i].guarded && b.trips[i].listening && b.trips[i].reply.None?
    ensures Poll(Run(es), i, true).trips[i].outcome == Some(TimedOut)
  {
    RunSound(es);
    assert TripFits(Run(es), i);
  }
}
