/**
 Which round trips are running, which were answered and what their callers are told, as functions of the events: a
 round trip runs from its dispatch until its window answers or its guard is dropped.
 */
module ViewSeatsEffects {
  import opened Wrappers
  import opened ViewSeatsSpec

  datatype Voyage = Voyage(req: RequestId, target: Label)

  /** The round trips begun, the answers taken and the guards dropped. */
  datatype History = History(begun: seq<Voyage>, answers: map<nat, Value>, left: set<nat>)

  ghost predicate IsOpen(h: History, i: nat) {
    i < |h.begun| && i !in h.answers && i !in h.left
  }

  ghost predicate OpenAs(h: History, i: nat, v: Voyage) {
    IsOpen(h, i) && h.begun[i] == v
  }

  /** A round trip under this request id is running. */
  ghost predicate Running(h: History, req: RequestId) {
    exists i: nat :: IsOpen(h, i) && h.begun[i].req == req
  }

  ghost function Tell(h: History, e: Event): History {
    match e
    case Dispatched(req, target) => if Running(h, req) then h else h.(begun := h.begun + [Voyage(req, target)])
    case AnswerIn(from, Some(req), v) =>
      if exists i: nat :: OpenAs(h, i, Voyage(req, from)) then
        var i: nat :| OpenAs(h, i, Voyage(req, from));
        h.(answers := h.answers[i := v])
      else h
    case GuardDropped(i) => if i < |h.begun| then h.(left := h.left + {i}) else h
    case _ => h
  }

  ghost function HistoryOf(es: seq<Event>): History {
    if es == [] then History([], map[], {}) else Tell(HistoryOf(es[..|es| - 1]), es[|es| - 1])
  }

  /** Round trip `i` is as the history says. */
  ghost predicate TripShows(b: Bridge, h: History, i: nat)
    requires i < |b.trips| && |b.trips| == |h.begun|
  {
    && b.trips[i].req == h.begun[i].req && b.trips[i].target == h.begun[i].target
    && (b.trips[i].guarded <==> i !in h.left) && (Seated(b, i) <==> IsOpen(h, i))
    && (b.trips[i].carried.Some? ==> i in h.answers && h.answers[i] == b.trips[i].carried.value)
    && (b.trips[i].reply.Some? ==> i in h.answers && h.answers[i] == b.trips[i].reply.value)
  }

  ghost predicate Shows(b: Bridge, h: History) {
    && |b.trips| == |h.begun|
    && (forall i :: 0 <= i < |b.trips| ==> TripShows(b, h, i))
    && (forall i :: i in h.answers || i in h.left ==> i < |h.begun|)
  }

  /** Two running round trips have different request ids. */
  lemma OpenOnce(b: Bridge, h: History, i: nat, j: nat)
    requires Shows(b, h) && IsOpen(h, i) && IsOpen(h, j) && h.begun[i].req == h.begun[j].req
    ensures i == j
  {
    assert TripShows(b, h, i) && TripShows(b, h, j);
  }

  lemma SeatedIsOpen(b: Bridge, h: History, req: RequestId)
    requires Sound(b) && Shows(b, h)
    ensures req in b.seats <==> Running(h, req)
    ensures req in b.seats ==> OpenAs(h, b.seats[req].trip, Voyage(req, b.seats[req].target))
  {
    if req in b.seats {
      assert SeatFits(b, req) && TripShows(b, h, b.seats[req].trip);
      assert IsOpen(h, b.seats[req].trip) && h.begun[b.seats[req].trip].req == req;
    }
    if Running(h, req) {
      var i: nat :| IsOpen(h, i) && h.begun[i].req == req;
      assert TripShows(b, h, i);
    }
  }

  lemma HoldShows(b: Bridge, h: History, req: RequestId, target: Label)
    requires Sound(b) && Shows(b, h)
    ensures Shows(Hold(b, req, target), Tell(h, Dispatched(req, target)))
  {
    SeatedIsOpen(b, h, req);
    var v, k := Hold(b, req, target), Tell(h, Dispatched(req, target));
    if req !in b.seats {
      forall i | 0 <= i < |v.trips| ensures TripShows(v, k, i) {
        if i < |b.trips| {
          assert TripShows(b, h, i) && TripFits(b, i);
        }
      }
    }
  }

  /** An answer is taken for round trip `i` exactly if `i` runs under this id in the answering window. */
  lemma AcceptedIff(b: Bridge, h: History, from: Label, req: RequestId)
    requires Sound(b) && Shows(b, h)
    ensures Judge(b.seats, from, Some(req)).Accepted? <==> exists i: nat :: OpenAs(h, i, Voyage(req, from))
    ensures forall i: nat :: OpenAs(h, i, Voyage(req, from)) ==> Judge(b.seats, from, Some(req)) == Accepted(i)
  {
    SeatedIsOpen(b, h, req);
    forall i: nat | OpenAs(h, i, Voyage(req, from)) ensures Judge(b.seats, from, Some(req)) == Accepted(i) {
      assert IsOpen(h, i) && h.begun[i].req == req && Running(h, req);
      OpenOnce(b, h, i, b.seats[req].trip);
    }
  }

  lemma TakeShows(b: Bridge, h: History, from: Label, id: Option<RequestId>, x: Value)
    requires Sound(b) && Shows(b, h)
    ensures Shows(Take(b, from, id, x), Tell(h, AnswerIn(from, id, x)))
  {
    if id.Some? {
      AcceptedIff(b, h, from, id.value);
      var verdict := Judge(b.seats, from, id);
      if verdict.Accepted? {
        var i, v := verdict.trip, Take(b, from, id, x);
        assert SeatFits(b, id.value) && TripFits(b, i);
        var k := h.(answers := h.answers[i := x]);
        assert Tell(h, AnswerIn(from, id, x)) == k;
        forall j | 0 <= j < |v.trips| ensures TripShows(v, k, j) {
          assert TripShows(b, h, j) && TripFits(b, j);
        }
      }
    }
  }

  lemma DropShows(b: Bridge, h: History, i: nat)
    requires Sound(b) && Shows(b, h)
    ensures Shows(DropGuard(b, i), Tell(h, GuardDropped(i)))
  {
    if i < |b.trips| {
      assert TripShows(b, h, i);
      var v, k := DropGuard(b, i), Tell(h, GuardDropped(i));
      if b.trips[i].guarded {
        forall r ensures r in v.seats <==> r in b.seats && b.seats[r].trip != i {
          ClearsOnlyItsOwn(b, i, r);
        }
      }
      forall j | 0 <= j < |v.trips| ensures TripShows(v, k, j) {
        assert TripShows(b, h, j);
      }
    }
  }

  lemma QuietShows(b: Bridge, h: History, e: Event)
    requires Shows(b, h) && (e.AnswerSent? || e.Polled? || e.ChannelDropped?)
    ensures Shows(Next(b, e), h)
  {
    var v := Next(b, e);
    forall j | 0 <= j < |v.trips| ensures TripShows(v, h, j) {
      assert TripShows(b, h, j);
    }
  }

  lemma StepShows(b: Bridge, h: History, e: Event)
    requires Sound(b) && Shows(b, h)
    ensures Shows(Next(b, e), Tell(h, e))
  {
    match e
    case Dispatched(req, target) => HoldShows(b, h, req, target);
    case AnswerIn(from, id, x) => TakeShows(b, h, from, id, x);
    case GuardDropped(i) => DropShows(b, h, i);
    case _ => QuietShows(b, h, e);
  }

  /** Over every run the table holds exactly the running round trips, and what is carried or told is what was answered. */
  lemma {:induction false} RunShows(es: seq<Event>)
    ensures Shows(Run(es), HistoryOf(es))
  {
    if es != [] {
      RunShows(es[..|es| - 1]);
      RunSound(es[..|es| - 1]);
      StepShows(Run(es[..|es| - 1]), HistoryOf(es[..|es| - 1]), es[|es| - 1]);
    }
  }

  lemma RunSnoc(es: seq<Event>, e: Event)
    ensures Run(es + [e]) == Next(Run(es), e) && HistoryOf(es + [e]) == Tell(HistoryOf(es), e)
  {
    assert (es + [e])[..|es|] == es;
  }

  // ── Effects ────────────────────────────────────────────────────────────────

  /** A command is sent to its window unless its id is running, and then nothing changes. */
  lemma DispatchTakesEffect(es: seq<Event>, req: RequestId, target: Label)
    ensures var b, v, i := Run(es), Run(es + [Dispatched(req, target)]), |HistoryOf(es).begun|;
      if Running(HistoryOf(es), req) then v == b
      else
        && v.log == b.log + [Sent(i, target)] && |v.trips| == i + 1 && v.trips[i].listening && v.trips[i].outcome.None?
        && OpenAs(HistoryOf(es + [Dispatched(req, target)]), i, Voyage(req, target))
  {
    RunShows(es);
    RunSound(es);
    RunSnoc(es, Dispatched(req, target));
    SeatedIsOpen(Run(es), HistoryOf(es), req);
  }

  /** An answer from the window in which a round trip runs under its id is taken, and for that round trip. */
  lemma AnswerIsTaken(es: seq<Event>, i: nat, from: Label, req: RequestId, x: Value)
    requires OpenAs(HistoryOf(es), i, Voyage(req, from))
    ensures var b, v := Run(es), Run(es + [AnswerIn(from, Some(req), x)]);
      && Judge(b.seats, from, Some(req)) == Accepted(i) && v.log == b.log + [Taken(i, from, x)]
      && i < |b.trips| && v.trips == b.trips[i := b.trips[i].(carried := Some(x))]
      && HistoryOf(es + [AnswerIn(from, Some(req), x)]) == HistoryOf(es).(answers := HistoryOf(es).answers[i := x])
  {
    RunShows(es);
    RunSound(es);
    RunSnoc(es, AnswerIn(from, Some(req), x));
    AnswerTaken(Run(es), HistoryOf(es), i, from, req, x);
  }

  lemma AnswerTaken(b: Bridge, h: History, i: nat, from: Label, req: RequestId, x: Value)
    requires Sound(b) && Shows(b, h) && OpenAs(h, i, Voyage(req, from))
    ensures var v := Take(b, from, Some(req), x);
      && Judge(b.seats, from, Some(req)) == Accepted(i) && v.log == b.log + [Taken(i, from, x)]
      && i < |b.trips| && v.trips == b.trips[i := b.trips[i].(carried := Some(x))]
    ensures Tell(h, AnswerIn(from, Some(req), x)) == h.(answers := h.answers[i := x])
  {
    AcceptedIff(b, h, from, req);
    var j: nat :| OpenAs(h, j, Voyage(req, from)) && Tell(h, AnswerIn(from, Some(req), x)) == h.(answers := h.answers[j := x]);
    OpenOnce(b, h, i, j);
  }

  /** Another window's answer, an answer to nothing that runs and one without an id change nothing. */
  lemma OtherAnswerIsDropped(es: seq<Event>, from: Label, id: Option<RequestId>, x: Value)
    requires id.Some? ==> forall i: nat :: !OpenAs(HistoryOf(es), i, Voyage(id.value, from))
    ensures Run(es + [AnswerIn(from, id, x)]) == Run(es)
  {
    RunShows(es);
    RunSound(es);
    RunSnoc(es, AnswerIn(from, id, x));
    if id.Some? {
      AcceptedIff(Run(es), HistoryOf(es), from, id.value);
    }
  }

  /** What an answer that is not taken is told: that it has no id, that nobody waits, or whose answer is awaited. */
  lemma RefusedAnswerIsTold(es: seq<Event>, from: Label, req: RequestId)
    ensures Judge(Run(es).seats, from, None) == NotAnId
    ensures !Running(HistoryOf(es), req) ==> Judge(Run(es).seats, from, Some(req)) == NobodyWaits
    ensures forall i: nat, target :: OpenAs(HistoryOf(es), i, Voyage(req, target)) && target != from ==>
      Judge(Run(es).seats, from, Some(req)) == NotYours(target)
  {
    var b, h := Run(es), HistoryOf(es);
    RunShows(es);
    RunSound(es);
    SeatedIsOpen(b, h, req);
    forall i: nat, target | OpenAs(h, i, Voyage(req, target)) && target != from
      ensures Judge(b.seats, from, Some(req)) == NotYours(target)
    {
      assert IsOpen(h, i) && h.begun[i].req == req && Running(h, req);
      OpenOnce(b, h, i, b.seats[req].trip);
    }
  }

  /** An answer taken reaches the channel if the caller still listens, and is lost otherwise. */
  lemma SentTakesEffect(es: seq<Event>, i: nat)
    requires i < |Run(es).trips|
    ensures var b, v := Run(es), Run(es + [AnswerSent(i)]);
      v == if b.trips[i].carried.None? then b
           else b.(trips := b.trips[i := b.trips[i].(carried := None, reply := if b.trips[i].listening then b.trips[i].carried
                                                                              else b.trips[i].reply)])
  {
    RunSnoc(es, AnswerSent(i));
  }

  /**
   A caller that is polled is told its answer if there is one, that its time is up if there is none and it is late, and
   otherwise waits on.
   */
  lemma PolledTakesEffect(es: seq<Event>, i: nat, late: bool)
    requires var t := Run(es).trips; i < |t| && t[i].listening && i !in HistoryOf(es).left
    ensures var b, v := Run(es), Run(es + [Polled(i, late)]);
      && v.seats == b.seats && v.log == b.log && i < |v.trips|
      && if b.trips[i].reply.Some? then v.trips[i].outcome == Some(Replied(b.trips[i].reply.value)) && !v.trips[i].listening
         else if late then v.trips[i].outcome == Some(TimedOut) && !v.trips[i].listening
         else v == b
  {
    var b := Run(es);
    RunShows(es);
    RunSound(es);
    assert TripFits(b, i) && TripShows(b, HistoryOf(es), i);
    RunSnoc(es, Polled(i, late));
  }

  /** A dropped guard ends its own round trip and no other. */
  lemma DropTakesEffect(es: seq<Event>, i: nat, j: nat)
    requires i < |Run(es).trips|
    ensures IsOpen(HistoryOf(es + [GuardDropped(i)]), j) <==> IsOpen(HistoryOf(es), j) && j != i
    ensures Run(es + [GuardDropped(i)]).log == Run(es).log
  {
    RunShows(es);
    RunSnoc(es, GuardDropped(i));
  }

  /** The events from a dispatch to the caller's next look, if its window answers `x`. */
  ghost function Journey(i: nat, req: RequestId, target: Label, x: Value, late: bool): seq<Event> {
    [Dispatched(req, target)] + [AnswerIn(target, Some(req), x)] + [AnswerSent(i)] + [Polled(i, late)]
  }

  /** After any run in which its id is not running, a command that is answered in time or late brings its answer back. */
  lemma RoundTrip(es: seq<Event>, req: RequestId, target: Label, x: Value, late: bool)
    requires !Running(HistoryOf(es), req)
    ensures var i := |HistoryOf(es).begun|;
      var v := Run(es + Journey(i, req, target, x, late));
      i < |v.trips| && v.trips[i].outcome == Some(Replied(x)) && !Running(HistoryOf(es + Journey(i, req, target, x, late)), req)
  {
    var i := |HistoryOf(es).begun|;
    var e1 := es + [Dispatched(req, target)];
    var e2 := e1 + [AnswerIn(target, Some(req), x)];
    var e3 := e2 + [AnswerSent(i)];
    assert es + Journey(i, req, target, x, late) == e3 + [Polled(i, late)];
    DispatchTakesEffect(es, req, target);
    RunSnoc(es, Dispatched(req, target));
    RunShows(e1);
    AnswerIsTaken(e1, i, target, req, x);
    SentTakesEffect(e2, i);
    RunSnoc(e2, AnswerSent(i));
    PolledTakesEffect(e3, i, late);
    RunSnoc(e3, Polled(i, late));
    NoLongerRunning(Run(e1), HistoryOf(e1), HistoryOf(e2), i, req);
  }

  lemma NoLongerRunning(b: Bridge, h: History, k: History, i: nat, req: RequestId)
    requires Shows(b, h) && IsOpen(h, i) && h.begun[i].req == req
    requires k.begun == h.begun && k.left == h.left && k.answers.Keys == h.answers.Keys + {i}
    ensures !Running(k, req)
  {
    if Running(k, req) {
      var j: nat :| IsOpen(k, j) && k.begun[j].req == req;
      OpenOnce(b, h, i, j);
    }
  }
}
