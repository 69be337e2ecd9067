/**
 The replay single-flight as src/api/wsTransport.ts runs it: a table changed in place, a counter, and promises that
 are resolved or rejected one by one.
 */
module WsTransports {
  import opened Wrappers
  import opened Frames
  import opened ReplaySpec
  import W = WsReplaySpec

  lemma TellUnion(outcomes: map<W.Waiter, seq<W.Outcome>>, a: set<W.Waiter>, b: set<W.Waiter>, o: W.Outcome)
    requires a !! b
    ensures W.Tell(W.Tell(outcomes, a, o), b, o) == W.Tell(outcomes, a + b, o)
  {
    var one, both := W.Tell(W.Tell(outcomes, a, o), b, o), W.Tell(outcomes, a + b, o);
    assert one.Keys == both.Keys;
    forall x | x in both ensures one[x] == both[x] {
      assert (if x in outcomes then outcomes[x] else []) + [] == if x in outcomes then outcomes[x] else [];
      assert x in a ==> W.Tell(outcomes, a, o)[x] + [] == W.Tell(outcomes, a, o)[x];
    }
  }

  lemma TellNobody(outcomes: map<W.Waiter, seq<W.Outcome>>, o: W.Outcome)
    ensures W.Tell(outcomes, {}, o) == outcomes
  {
    assert forall x :: x in outcomes ==> outcomes[x] + [] == outcomes[x];
  }

  /** Telling one entry's waiters leaves the other entries' waiters to be told. */
  lemma TellOneEntry(outcomes: map<W.Waiter, seq<W.Outcome>>, entries: map<W.AgentId, W.Entry>, agent: W.AgentId,
                     o: W.Outcome)
    requires agent in entries && W.Separate(entries)
    ensures W.Separate(entries - {agent}) && W.DistinctSeq(W.Waiters(entries[agent]))
    ensures var told := W.Tell(outcomes, W.SetOf(W.Waiters(entries[agent])), o);
      W.Tell(told, W.Parked(entries - {agent}), o) == W.Tell(outcomes, W.Parked(entries), o)
  {
    var mine, rest := W.SetOf(W.Waiters(entries[agent])), entries - {agent};
    W.ParkedWithout(entries, agent, rest);
    assert mine <= W.Parked(entries);
    assert mine + W.Parked(rest) == W.Parked(entries);
    TellUnion(outcomes, mine, W.Parked(rest), o);
  }

  class WsTransport {
    var wsReplay: map<W.AgentId, W.Entry>
    var wsGenCounter: nat
    /** Promises are numbered as they are handed out. */
    var promises: W.Waiter
    ghost var log: seq<W.Sign>
    ghost var outcomes: map<W.Waiter, seq<W.Outcome>>
    /** Everything that has happened so far. */
    ghost var past: seq<W.Event>

    ghost function State(): W.Wire
      reads this
    {
      W.Wire(wsReplay, wsGenCounter, promises, log, outcomes)
    }

    ghost predicate Valid()
      reads this
    {
      State() == W.Run(past)
    }

    constructor ()
      ensures Valid() && past == []
    {
      wsReplay, wsGenCounter, promises := map[], 0, 0;
      log, outcomes, past := [], map[], [];
    }

    /** Note that `e` has happened. */
    ghost method Happened(e: W.Event)
      requires State() == W.Next(W.Run(past), e)
      modifies this`past
      ensures Valid() && past == old(past) + [e]
    {
      assert (past + [e])[..|past|] == past;
      past := past + [e];
    }

    /** Settle one promise. */
    method Conclude(x: W.Waiter, o: W.Outcome)
      modifies this`outcomes
      ensures outcomes == W.Tell(old(outcomes), {x}, o)
    {
      outcomes := W.Tell(outcomes, {x}, o);
    }

    method ConcludeAll(ws: seq<W.Waiter>, o: W.Outcome)
      requires W.DistinctSeq(ws)
      modifies this`outcomes
      ensures outcomes == W.Tell(old(outcomes), W.SetOf(ws), o)
    {
      TellNobody(outcomes, o);
      for i := 0 to |ws|
        invariant outcomes == W.Tell(old(outcomes), W.SetOf(ws[..i]), o)
      {
        TellUnion(old(outcomes), W.SetOf(ws[..i]), {ws[i]}, o);
        assert W.SetOf(ws[..i + 1]) == W.SetOf(ws[..i]) + {ws[i]};
        Conclude(ws[i], o);
      }
      assert ws[..|ws|] == ws;
    }

    /** Ask for a replay; `sendOk` says whether the socket takes the Subscribe.  Returns the promise's number. */
    method RequestReplay(agent: W.AgentId, sendOk: bool) returns (x: W.Waiter)
      requires Valid()
      modifies this
      ensures Valid() && past == old(past) + [W.Request(agent, sendOk)] && x == old(promises)
    {
      x := promises;
      promises := promises + 1;
      var entry := if agent in wsReplay then wsReplay[agent] else W.Entry(None, None);
      if entry.inflight.Some? {
        if entry.pending.None? {
          wsGenCounter := wsGenCounter + 1;
          entry := entry.(pending := Some(W.Merged(wsGenCounter, [])));
        }
        var pending := entry.pending.value;
        assert pending.waiters == [] ==> pending.waiters + [x] == [x];
        entry := entry.(pending := Some(pending.(waiters := pending.waiters + [x])));
        wsReplay := wsReplay[agent := entry];
      } else {
        wsGenCounter := wsGenCounter + 1;
        var gen := wsGenCounter;
        if sendOk {
          log := log + [W.Subscribed(agent, gen)];
          wsReplay := wsReplay[agent := entry.(inflight := Some(W.Inflight(gen, false, None, false, 0)))];
          Conclude(x, W.Resolved(gen));
        } else {
          wsReplay := if entry.pending.None? then wsReplay - {agent} else wsReplay[agent := entry];
          Conclude(x, W.Rejected);
        }
      }
      Happened(W.Request(agent, sendOk));
    }

    method ObserveAck(agent: W.AgentId, epoch: Epoch, truncated: bool, continues: bool, replayFrom: nat)
      requires Valid()
      modifies this
      ensures Valid() && past == old(past) + [W.Ack(agent, epoch, truncated, continues, replayFrom)]
    {
      if agent in wsReplay && wsReplay[agent].inflight.Some? {
        var flight := wsReplay[agent].inflight.value;
        flight := flight.(epoch := Some(epoch), truncated := truncated);
        flight := flight.(continuesConversation := continues, replayFrom := replayFrom);
        wsReplay := wsReplay[agent := wsReplay[agent].(inflight := Some(flight))];
      }
      Happened(W.Ack(agent, epoch, truncated, continues, replayFrom));
    }

    /** Emit the boundary, then send the merged request if there is one and wake everyone who waited for it. */
    method SettleReplay(agent: W.AgentId, boundary: Marker, sendOk: bool)
      requires agent in wsReplay && W.DistinctSeq(W.Waiters(wsReplay[agent]))
      modifies this
      ensures State() == W.Settle(old(State()), agent, boundary, sendOk) && past == old(past)
    {
      var pending := wsReplay[agent].pending;
      log := log + [W.Boundary(agent, boundary)];
      if pending.Some? {
        var entry := W.Entry(None, None);
        if sendOk {
          log := log + [W.Subscribed(agent, pending.value.gen)];
          entry := W.Entry(Some(W.Inflight(pending.value.gen, false, None, false, 0)), None);
        }
        wsReplay := wsReplay[agent := entry];
        ConcludeAll(pending.value.waiters, W.Resolved(pending.value.gen));
      } else {
        wsReplay := wsReplay - {agent};
      }
    }

    method ObserveRefused(agent: W.AgentId, sendOk: bool)
      requires Valid()
      modifies this
      ensures Valid() && past == old(past) + [W.Refused(agent, sendOk)]
    {
      W.RunSingleFlight(past);
      if agent in wsReplay && wsReplay[agent].inflight.Some? && wsReplay[agent].inflight.value.epoch.None? {
        var d := wsReplay[agent].inflight.value;
        SettleReplay(agent, Marker(0, d.gen, d.truncated, true, false, d.replayFrom), sendOk);
      }
      Happened(W.Refused(agent, sendOk));
    }

    method ObserveCompleted(agent: W.AgentId, ownEpoch: Option<Epoch>, sendOk: bool)
      requires Valid()
      modifies this
      ensures Valid() && past == old(past) + [W.Completed(agent, ownEpoch, sendOk)]
    {
      W.RunSingleFlight(past);
      if agent in wsReplay && wsReplay[agent].inflight.Some? {
        var d := wsReplay[agent].inflight.value;
        var epoch := if d.epoch.Some? then d.epoch.value else if ownEpoch.Some? then ownEpoch.value else 0;
        SettleReplay(agent, Marker(epoch, d.gen, d.truncated, false, d.continuesConversation, d.replayFrom), sendOk);
      }
      Happened(W.Completed(agent, ownEpoch, sendOk));
    }

    /** Reject everyone merged behind a request of `entries`. */
    method RejectAll(entries: map<W.AgentId, W.Entry>)
      requires W.Separate(entries)
      modifies this`outcomes
      ensures outcomes == W.Tell(old(outcomes), W.Parked(entries), W.Rejected)
    {
      var rest := entries;
      while rest != map[]
        invariant W.Separate(rest)
        invariant W.Tell(outcomes, W.Parked(rest), W.Rejected) == W.Tell(old(outcomes), W.Parked(entries), W.Rejected)
        decreases |rest|
      {
        var agent :| agent in rest;
        TellOneEntry(outcomes, rest, agent, W.Rejected);
        if rest[agent].pending.Some? {
          ConcludeAll(rest[agent].pending.value.waiters, W.Rejected);
        } else {
          TellNobody(outcomes, W.Rejected);
          assert W.SetOf([]) == {};
        }
        rest := rest - {agent};
      }
      assert W.Parked(rest) == {};
      TellNobody(outcomes, W.Rejected);
    }

    /** The socket closed: clear the table first, then reject everyone who was merged behind a request. */
    method RejectAllReplays()
      requires Valid()
      modifies this
      ensures Valid() && past == old(past) + [W.SocketClosed]
    {
      W.RunSingleFlight(past);
      var entries := wsReplay;
      wsReplay := map[];
      log := log + [W.SocketReset];
      RejectAll(entries);
      Happened(W.SocketClosed);
    }
  }
}
