/**
 What each event puts on the wire and tells the waiters after any run, said in terms of the events and of what crossed
 the wire so far: which Subscribe is outstanding, what was acknowledged since it went out, and who asked since.
 */
module WsReplayEffects {
  import opened Wrappers
  import opened Frames
  import opened ReplaySpec
  import W = WsReplaySpec

  type AgentId = W.AgentId

  ghost function Asked(es: seq<W.Event>): nat {
    if es == [] then 0 else Asked(es[..|es| - 1]) + if es[|es| - 1].Request? then 1 else 0
  }

  /** The generation of the Subscribe of `a` that nothing has closed yet. */
  ghost function Open(es: seq<W.Event>, a: AgentId): Option<nat> {
    W.Outstanding(W.Run(es).log, a)
  }

  /** The acknowledgement that came since the outstanding Subscribe of `a` went out. */
  ghost function Heard(es: seq<W.Event>, a: AgentId): Option<W.Event> {
    if es == [] then None
    else
      var front, e := es[..|es| - 1], es[|es| - 1];
      if Open(es, a) != Open(front, a) then None
      else if e.Ack? && e.agent == a && Open(es, a).Some? then Some(e)
      else Heard(front, a)
  }

  /** The requests for `a` made while the outstanding Subscribe was out; requests are numbered in their order. */
  ghost function Behind(es: seq<W.Event>, a: AgentId): set<W.Waiter> {
    if es == [] then {}
    else
      var front, e := es[..|es| - 1], es[|es| - 1];
      if Open(es, a) != Open(front, a) then {}
      else if e.Request? && e.agent == a && Open(es, a).Some? then Behind(front, a) + {Asked(front)}
      else Behind(front, a)
  }

  /** What is known of an outstanding request: its generation and what the acknowledgement said. */
  ghost predicate Remembered(d: W.Inflight, heard: Option<W.Event>) {
    if heard.None? then d == W.Fly(d.gen)
    else
      && heard.value.Ack?
      && d == W.Inflight(d.gen, heard.value.truncated, Some(heard.value.epoch), heard.value.continues, heard.value.replayFrom)
  }

  ghost predicate Explained(w: W.Wire, asked: nat, a: AgentId, heard: Option<W.Event>, behind: set<W.Waiter>) {
    var e := W.EntryOf(w, a);
    && w.nextWaiter == asked
    && (e.inflight.Some? ==> Remembered(e.inflight.value, heard))
    && W.SetOf(W.Waiters(e)) == behind
  }

  /** `before` and `after` a step, the entry of `a` and what the step was to it. */
  lemma StepExplained(w: W.Wire, e: W.Event, a: AgentId, asked: nat, heard: Option<W.Event>, behind: set<W.Waiter>)
    requires Explained(w, asked, a, heard, behind) && W.Matched(w) && W.Numbered(w)
    ensures var v := W.Next(w, e);
      var was, now := W.Outstanding(w.log, a), W.Outstanding(v.log, a);
      Explained(v, asked + (if e.Request? then 1 else 0), a,
                if was != now then None else if e.Ack? && e.agent == a && now.Some? then Some(e) else heard,
                if was != now then {} else if e.Request? && e.agent == a && now.Some? then behind + {asked} else behind)
  {
    W.StepMatched(w, e);
    match e
    case Request(b, ok) => RequestExplained(w, b, ok, a, asked, heard, behind);
    case Refused(b, ok) =>
      if W.EntryOf(w, b).inflight.Some? {
        var d := W.EntryOf(w, b).inflight.value;
        SettleExplained(w, b, Marker(0, d.gen, d.truncated, true, false, d.replayFrom), ok, a, asked, heard, behind);
      }
    case Completed(b, epoch, ok) =>
      if W.EntryOf(w, b).inflight.Some? {
        var d := W.EntryOf(w, b).inflight.value;
        var mark := if d.epoch.Some? then d.epoch.value else if epoch.Some? then epoch.value else 0;
        SettleExplained(w, b, Marker(mark, d.gen, d.truncated, false, d.continuesConversation, d.replayFrom), ok, a,
                        asked, heard, behind);
      }
    case SocketClosed => EntryShown(w, a);
    case Ack(b, epoch, truncated, continues, from) =>
  }

  /** Nobody waits behind nothing. */
  lemma EntryShown(w: W.Wire, a: AgentId)
    requires W.Numbered(w)
    ensures W.EntryOf(w, a).inflight.None? ==> W.Waiters(W.EntryOf(w, a)) == []
  {
    if a in w.entries {
      assert W.EntryFits(w.entries[a], w.log, a, w.genCounter);
    }
  }

  lemma RequestExplained(w: W.Wire, b: AgentId, ok: bool, a: AgentId, asked: nat, heard: Option<W.Event>, behind: set<W.Waiter>)
    requires Explained(w, asked, a, heard, behind) && W.Matched(w) && W.Numbered(w) && W.Matched(W.OnRequest(w, b, ok))
    ensures var v := W.OnRequest(w, b, ok);
      var was, now := W.Outstanding(w.log, a), W.Outstanding(v.log, a);
      Explained(v, asked + 1, a, if was != now then None else heard,
                if was != now then {} else if a == b && now.Some? then behind + {asked} else behind)
  {
    EntryShown(w, a);
    var v, e := W.OnRequest(w, b, ok), W.EntryOf(w, a);
    if a == b && e.inflight.Some? {
      assert W.Waiters(W.EntryOf(v, a)) == W.Waiters(e) + [asked];
    }
  }

  lemma SettleExplained(w: W.Wire, b: AgentId, m: Marker, ok: bool, a: AgentId, asked: nat, heard: Option<W.Event>,
                        behind: set<W.Waiter>)
    requires Explained(w, asked, a, heard, behind) && W.Matched(w) && W.Numbered(w) && W.EntryOf(w, b).inflight.Some?
    requires m.gen == W.EntryOf(w, b).inflight.value.gen
    ensures var v := W.Settle(w, b, m, ok);
      var was, now := W.Outstanding(w.log, a), W.Outstanding(v.log, a);
      Explained(v, asked, a, if was != now then None else heard, if was != now then {} else behind)
  {
    W.SettleMatched(w, b, m, ok);
    if a == b {
      assert W.EntryFits(w.entries[b], w.log, b, w.genCounter);
    } else {
      W.SettleOther(w, b, m, ok, a);
    }
  }

  /** Over every run the single-flight knows what was acknowledged, and who asked, since the outstanding Subscribe. */
  lemma {:induction false} RunExplained(es: seq<W.Event>, a: AgentId)
    ensures Explained(W.Run(es), Asked(es), a, Heard(es, a), Behind(es, a))
  {
    if es != [] {
      var front, e := es[..|es| - 1], es[|es| - 1];
      RunExplained(front, a);
      W.RunMatched(front);
      W.RunSingleFlight(front);
      StepExplained(W.Run(front), e, a, Asked(front), Heard(front, a), Behind(front, a));
    }
  }

  // ── Effects ────────────────────────────────────────────────────────────────

  /** Waiter `x` has been told nothing but `o`. */
  ghost predicate ToldOnly(w: W.Wire, x: W.Waiter, o: W.Outcome) {
    x in w.outcomes && w.outcomes[x] == [o]
  }

  lemma Unsettled(w: W.Wire, x: W.Waiter)
    requires W.Accounted(w) && (x in W.Parked(w.entries) || x >= w.nextWaiter)
    ensures x !in w.outcomes
  {
    assert x in w.outcomes.Keys + W.Parked(w.entries) <==> x in W.Ids(w.nextWaiter);
  }

  /**
   A request behind an outstanding one puts nothing on the wire and is told nothing yet; with nothing outstanding it is
   sent and told its generation, beyond all boundaries of its agent, or rejected if the socket does not take it.
   */
  lemma RequestTakesEffect(es: seq<W.Event>, a: AgentId, ok: bool)
    ensures var w, v, x := W.Run(es), W.Run(es + [W.Request(a, ok)]), Asked(es);
      if Open(es, a).Some? then
        v.log == w.log && v.outcomes == w.outcomes && x !in v.outcomes && x in Behind(es + [W.Request(a, ok)], a)
      else if ok then
        && |v.log| == |w.log| + 1 && v.log[..|w.log|] == w.log && v.log[|w.log|].Subscribed? && v.log[|w.log|].agent == a
        && W.AllBelow(w.log, a, v.log[|w.log|].gen) && ToldOnly(v, x, W.Resolved(v.log[|w.log|].gen))
      else v.log == w.log && ToldOnly(v, x, W.Rejected)
  {
    var w, x := W.Run(es), Asked(es);
    W.RunMatched(es);
    W.RunSingleFlight(es);
    RunExplained(es, a);
    Unsettled(w, x);
    W.RunSnoc(es, W.Request(a, ok));
    W.FirstRequestGoesOut(es, a);
    assert (es + [W.Request(a, ok)])[..|es|] == es;
  }

  /**
   The outstanding Subscribe of `a` is closed by boundary `m`; if others asked meanwhile, the next Subscribe follows
   unless the socket does not take it, and all of them, and nobody else, are told its generation.
   */
  ghost predicate Closes(w: W.Wire, behind: set<W.Waiter>, a: AgentId, m: Marker, ok: bool, v: W.Wire) {
    var n := |w.log|;
    && w.log <= v.log && n < |v.log| && v.log[n] == W.Boundary(a, m)
    && |v.log| == n + (if behind != {} && ok then 2 else 1)
    && (behind == {} ==> v.outcomes == w.outcomes)
    && (behind != {} ==> exists g :: g > m.gen && ServesNext(w, behind, a, ok, v, g))
  }

  ghost predicate ServesNext(w: W.Wire, behind: set<W.Waiter>, a: AgentId, ok: bool, v: W.Wire, g: nat) {
    && (ok ==> |w.log| + 1 < |v.log| && v.log[|w.log| + 1] == W.Subscribed(a, g))
    && (forall x :: x in behind ==> ToldOnly(v, x, W.Resolved(g)))
    && v.outcomes.Keys == w.outcomes.Keys + behind
    && (forall x :: x in w.outcomes ==> v.outcomes[x] == w.outcomes[x])
  }

  lemma SettleServes(w: W.Wire, a: AgentId, m: Marker, ok: bool)
    requires W.Accounted(w) && a in w.entries && w.entries[a].pending.Some?
    ensures var p := w.entries[a].pending.value;
      ServesNext(w, W.SetOf(p.waiters), a, ok, W.Settle(w, a, m, ok), p.gen)
  {
    forall x | x in W.SetOf(w.entries[a].pending.value.waiters) ensures x !in w.outcomes {
      assert x in W.Waiters(w.entries[a]);
      Unsettled(w, x);
    }
  }

  /** What a settled entry must be like: whoever asked meanwhile waits for a later generation. */
  ghost predicate Queued(e: W.Entry, gen: nat) {
    e.pending.Some? ==> gen < e.pending.value.gen && |e.pending.value.waiters| > 0
  }

  lemma SettleClosesEntry(w: W.Wire, a: AgentId, m: Marker, ok: bool)
    requires W.Accounted(w) && a in w.entries && Queued(w.entries[a], m.gen)
    ensures Closes(w, W.SetOf(W.Waiters(w.entries[a])), a, m, ok, W.Settle(w, a, m, ok))
  {
    var p, behind := w.entries[a].pending, W.SetOf(W.Waiters(w.entries[a]));
    if p.Some? {
      assert p.value.waiters[0] in behind;
      SettleServes(w, a, m, ok);
      assert ServesNext(w, behind, a, ok, W.Settle(w, a, m, ok), p.value.gen);
    }
  }

  lemma QueuedBehind(es: seq<W.Event>, a: AgentId, gen: nat)
    requires Open(es, a) == Some(gen)
    ensures a in W.Run(es).entries && Queued(W.Run(es).entries[a], gen)
  {
    var w := W.Run(es);
    W.RunMatched(es);
    W.RunSingleFlight(es);
    RunMergedSome(es);
    assert a in w.entries && W.EntryFits(w.entries[a], w.log, a, w.genCounter);
  }

  lemma SettleCloses(es: seq<W.Event>, a: AgentId, m: Marker, ok: bool)
    requires Open(es, a) == Some(m.gen)
    ensures Closes(W.Run(es), Behind(es, a), a, m, ok, W.Settle(W.Run(es), a, m, ok))
  {
    W.RunSingleFlight(es);
    RunExplained(es, a);
    QueuedBehind(es, a, m.gen);
    SettleClosesEntry(W.Run(es), a, m, ok);
  }

  /** Merged requests are never an empty list. */
  ghost predicate MergedSome(w: W.Wire) {
    forall a :: a in w.entries && w.entries[a].pending.Some? ==> w.entries[a].pending.value.waiters != []
  }

  lemma {:induction false} RunMergedSome(es: seq<W.Event>)
    ensures MergedSome(W.Run(es))
  {
    if es != [] {
      RunMergedSome(es[..|es| - 1]);
    }
  }

  /**
   A refusal closes an outstanding Subscribe that was not acknowledged, with a failed boundary of its generation; with
   nothing outstanding, or after an acknowledgement, it changes nothing.
   */
  lemma RefusedTakesEffect(es: seq<W.Event>, a: AgentId, ok: bool)
    ensures var v := W.Run(es + [W.Refused(a, ok)]);
      if Open(es, a).Some? && Heard(es, a).None? then
        Closes(W.Run(es), Behind(es, a), a, Marker(0, Open(es, a).value, false, true, false, 0), ok, v)
      else v == W.Run(es)
  {
    W.RunMatched(es);
    RunExplained(es, a);
    W.RunSnoc(es, W.Refused(a, ok));
    if Open(es, a).Some? {
      SettleCloses(es, a, Marker(0, Open(es, a).value, false, true, false, 0), ok);
    }
  }

  /** What a successful boundary says: the acknowledgement, or without one the completion's own mark and nothing else. */
  ghost function Success(gen: nat, heard: Option<W.Event>, own: Option<Epoch>): Marker
    requires heard.Some? ==> heard.value.Ack?
  {
    if heard.Some? then
      Marker(heard.value.epoch, gen, heard.value.truncated, false, heard.value.continues, heard.value.replayFrom)
    else Marker(if own.Some? then own.value else 0, gen, false, false, false, 0)
  }

  /** A completion closes the outstanding Subscribe with a success; with nothing outstanding it changes nothing. */
  lemma CompletedTakesEffect(es: seq<W.Event>, a: AgentId, own: Option<Epoch>, ok: bool)
    ensures Heard(es, a).Some? ==> Heard(es, a).value.Ack?
    ensures var v := W.Run(es + [W.Completed(a, own, ok)]);
      if Open(es, a).Some? then Closes(W.Run(es), Behind(es, a), a, Success(Open(es, a).value, Heard(es, a), own), ok, v)
      else v == W.Run(es)
  {
    W.RunMatched(es);
    RunExplained(es, a);
    HeardAcks(es, a);
    W.RunSnoc(es, W.Completed(a, own, ok));
    if Open(es, a).Some? {
      SettleCloses(es, a, Success(Open(es, a).value, Heard(es, a), own), ok);
    }
  }

  lemma {:induction false} HeardAcks(es: seq<W.Event>, a: AgentId)
    ensures Heard(es, a).Some? ==> Heard(es, a).value.Ack?
  {
    if es != [] {
      HeardAcks(es[..|es| - 1], a);
    }
  }

  /** An acknowledgement puts nothing on the wire and tells nobody anything. */
  lemma AckTakesEffect(es: seq<W.Event>, ack: W.Event)
    requires ack.Ack?
    ensures var w, v := W.Run(es), W.Run(es + [ack]);
      v.log == w.log && v.outcomes == w.outcomes && (Open(es, ack.agent).None? ==> v == w)
  {
    W.RunMatched(es);
    W.RunSnoc(es, ack);
  }

  /** A closed socket leaves nothing outstanding, rejects everyone who was told nothing yet, and nobody else. */
  lemma ClosedTakesEffect(es: seq<W.Event>, x: W.Waiter)
    requires x < Asked(es)
    ensures var w, v := W.Run(es), W.Run(es + [W.SocketClosed]);
      && v.log == w.log + [W.SocketReset] && (forall a :: Open(es + [W.SocketClosed], a).None?)
      && (if x in w.outcomes then x in v.outcomes && v.outcomes[x] == w.outcomes[x] else ToldOnly(v, x, W.Rejected))
  {
    var w := W.Run(es);
    W.RunSingleFlight(es);
    RunExplained(es, "");
    W.RunSnoc(es, W.SocketClosed);
    assert x in W.Ids(w.nextWaiter);
    forall a ensures Open(es + [W.SocketClosed], a).None? {
      W.OutstandingSnoc(w.log, W.SocketReset, a);
    }
    if x in W.Parked(w.entries) {
      Unsettled(w, x);
    }
  }
}
