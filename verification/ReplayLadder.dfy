/**
 The re-request ladder: a view that has asked for a replay is never left waiting without a timer, and without a
 success it reaches the failed phase after a bounded number of timer firings and re-requests.
 */
module ReplayLadder {
  import opened Wrappers
  import opened Frames
  import opened ReplaySpec

  // ── A timer is always armed ────────────────────────────────────────────────

  ghost predicate Asked(v: View) { Requested in v.log }

  ghost predicate Timed(v: View) {
    && v.attempts <= LADDER_MAX_ATTEMPTS
    && (v.backoff ==> v.attempts > 0)
    && (v.phase.Buffering? && Asked(v) ==> v.watchdog || v.backoff)
  }

  lemma LadderTimed(v: View)
    requires v.attempts <= LADDER_MAX_ATTEMPTS && (v.backoff ==> v.attempts > 0)
    ensures Timed(Ladder(v))
  {
  }

  lemma FrameTimed(v: View, f: Frame)
    requires Timed(v) && v.last >= -1
    ensures Timed(OnFrame(v, f))
  {
    LadderTimed(Discarded(v));
    if v.phase.Live? && v.epoch == Some(f.epoch) {
      LiveFrameTimed(v.(arrivals := v.arrivals + [f]), f);
    }
  }

  lemma LiveFrameTimed(v: View, f: Frame)
    requires Timed(v) && v.last >= -1 && v.phase.Live?
    ensures Timed(LiveFrame(v, f))
  {
  }

  lemma JudgeTimed(v: View, m: Marker, gen: nat)
    requires Timed(v) && v.last >= -1
    ensures Timed(Judge(v, m, gen))
  {
    LadderTimed(v);
  }

  lemma StepTimed(v: View, e: Event)
    requires Timed(v) && v.last >= -1
    ensures Timed(Next(v, e))
  {
    match e
    case FrameIn(f) => FrameTimed(v, f);
    case MarkerIn(m) =>
      if v.myGen.Some? {
        JudgeTimed(v, m, v.myGen.value);
      }
    case AnswerIn(req, gen) =>
      if v.heldMarker.Some? {
        JudgeTimed(v.(myGen := Some(gen), log := v.log + [Answered(req, gen)], heldMarker := None), v.heldMarker.value, gen);
      }
    case WatchdogFires => LadderTimed(v.(watchdog := false));
    case _ =>
  }

  /** Over every run: a buffering view that has asked for a replay has a watchdog or a backoff armed. */
  lemma {:induction false} RunTimed(es: seq<Event>)
    ensures Timed(Run(FRESH, es))
  {
    if es != [] {
      RunTimed(es[..|es| - 1]);
      StepTimed(Run(FRESH, es[..|es| - 1]), es[|es| - 1]);
    }
  }

  // ── And firing it makes progress ───────────────────────────────────────────

  /** How many more timer firings a waiting view can take. */
  ghost function Rank(v: View): nat
    requires v.attempts <= LADDER_MAX_ATTEMPTS
  {
    if !v.phase.Buffering? then 0
    else 2 * (LADDER_MAX_ATTEMPTS - v.attempts) + (if v.watchdog then 1 else 0) + (if v.backoff then 2 else 0)
  }

  /** How many more requests the ladder can send. */
  ghost function Budget(v: View): nat
    requires v.attempts <= LADDER_MAX_ATTEMPTS
  {
    if !v.phase.Buffering? then 0 else LADDER_MAX_ATTEMPTS - v.attempts + (if v.backoff then 1 else 0)
  }

  /**
   Events that do not end the wait from outside: everything but a disconnect, a mount, and a roster observation that
   misses the agent, shows another incarnation or revives a view that has given up.
   */
  ghost predicate Ordinary(v: View, e: Event) {
    || e.FrameIn? || e.MarkerIn? || e.AnswerIn? || e.BackoffFires? || e.WatchdogFires?
    || (e.Present? && v.phase.Buffering? && !(v.epoch.Some? && e.tag != v.epoch))
  }

  /** A timer that is armed fires while the view waits. */
  ghost predicate Fires(v: View, e: Event) {
    v.phase.Buffering? && ((e.BackoffFires? && v.backoff) || (e.WatchdogFires? && v.watchdog))
  }

  ghost function Requests(log: seq<Output>): nat {
    if log == [] then 0 else Requests(log[..|log| - 1]) + (if log[|log| - 1].Requested? then 1 else 0)
  }

  lemma RequestsSnoc(log: seq<Output>, o: Output)
    ensures Requests(log + [o]) == Requests(log) + if o.Requested? then 1 else 0
  {
    assert (log + [o])[..|log|] == log;
  }

  /** `w` is at most as far from giving up as `v`, and what it asked for came out of the budget. */
  ghost predicate Descends(v: View, w: View) {
    && v.attempts <= LADDER_MAX_ATTEMPTS && w.attempts <= LADDER_MAX_ATTEMPTS
    && (w.phase.Live? || (Rank(w) <= Rank(v) && Requests(w.log) + Budget(w) <= Requests(v.log) + Budget(v)))
  }

  lemma LadderDescends(v: View)
    requires Timed(v) && v.phase.Buffering?
    ensures Descends(v, Ladder(v)) && !Ladder(v).phase.Live?
    ensures v.watchdog && !v.backoff ==> Rank(Ladder(v)) < Rank(v)
  {
    RequestsSnoc(v.log, Announced(Failed, None));
  }

  lemma PushDescends(v: View, f: Frame)
    requires Timed(v) && v.phase.Buffering? && Asked(v)
    ensures Descends(v, PushBuffer(v, f))
  {
    RequestsSnoc(v.log, Overflowed);
    LadderDescends(Discarded(v));
  }

  lemma JudgeDescends(v: View, m: Marker, gen: nat)
    requires Timed(v) && v.phase.Buffering? && v.last >= -1 && Asked(v)
    ensures Descends(v, Judge(v, m, gen))
  {
    LadderDescends(v);
  }

  lemma AnswerDescends(v: View, req: nat, gen: nat)
    requires Timed(v) && v.phase.Buffering? && v.last >= -1 && Asked(v)
    ensures Descends(v, OnAnswer(v, req, gen))
  {
    RequestsSnoc(v.log, Answered(req, gen));
    if v.heldMarker.Some? {
      JudgeDescends(v.(myGen := Some(gen), log := v.log + [Answered(req, gen)], heldMarker := None), v.heldMarker.value, gen);
    }
  }

  lemma BackoffDescends(v: View)
    requires Timed(v) && v.phase.Buffering?
    ensures Descends(v, OnBackoff(v)) && (v.backoff ==> Rank(OnBackoff(v)) < Rank(v))
  {
    RequestsSnoc(v.log, Requested);
  }

  lemma WatchdogDescends(v: View)
    requires Timed(v) && v.phase.Buffering?
    ensures Descends(v, OnWatchdog(v)) && (v.watchdog ==> Rank(OnWatchdog(v)) < Rank(v))
  {
    if v.watchdog {
      FiredDescends(v.(watchdog := false));
    }
  }

  lemma FiredDescends(v: View)
    requires v.attempts <= LADDER_MAX_ATTEMPTS && v.phase.Buffering? && !v.watchdog
    ensures var w := Ladder(v);
      && w.attempts <= LADDER_MAX_ATTEMPTS && !w.phase.Live?
      && Rank(w) <= Rank(v) && Requests(w.log) + Budget(w) <= Requests(v.log) + Budget(v)
  {
    RequestsSnoc(v.log, Announced(Failed, None));
  }

  lemma FrameDescends(v: View, f: Frame)
    requires Timed(v) && v.last >= -1 && v.phase.Buffering? && Asked(v)
    ensures Descends(v, OnFrame(v, f))
  {
    if v.epoch.None? || v.epoch.value == f.epoch {
      PushDescends(v.(arrivals := v.arrivals + [f]), f);
    }
  }

  /** Every ordinary event brings a waiting view no further from the end, and every firing brings it nearer. */
  lemma StepDescends(v: View, e: Event)
    requires Timed(v) && v.last >= -1 && v.phase.Buffering? && Asked(v) && Ordinary(v, e)
    ensures Descends(v, Next(v, e))
    ensures Fires(v, e) ==> Rank(Next(v, e)) < Rank(v)
  {
    match e
    case FrameIn(f) => FrameDescends(v, f);
    case MarkerIn(m) =>
      if v.myGen.Some? {
        JudgeDescends(v, m, v.myGen.value);
      }
    case AnswerIn(req, gen) => AnswerDescends(v, req, gen);
    case BackoffFires => BackoffDescends(v);
    case WatchdogFires => WatchdogDescends(v);
    case _ =>
  }

  lemma {:induction false} AskedStays(v: View, es: seq<Event>)
    requires v.last >= -1 && Asked(v)
    ensures Asked(Run(v, es))
  {
    if es != [] {
      AskedStays(v, es[..|es| - 1]);
      var w := Run(v, es[..|es| - 1]);
      LogGrows(w, es[|es| - 1]);
    }
  }

  lemma LogGrows(v: View, e: Event)
    requires v.last >= -1
    ensures v.log <= Next(v, e).log
  {
    match e
    case FrameIn(f) => FrameGrows(v, f);
    case MarkerIn(m) =>
      if v.myGen.Some? {
        JudgeGrows(v, m, v.myGen.value);
      }
    case AnswerIn(req, gen) =>
      if v.heldMarker.Some? {
        JudgeGrows(v.(myGen := Some(gen), log := v.log + [Answered(req, gen)], heldMarker := None), v.heldMarker.value, gen);
      }
    case _ =>
  }

  lemma FrameGrows(v: View, f: Frame)
    requires v.last >= -1
    ensures v.log <= OnFrame(v, f).log
  {
    LiveFrameGrows(v.(arrivals := v.arrivals + [f]), f);
  }

  lemma LiveFrameGrows(v: View, f: Frame)
    requires v.last >= -1
    ensures v.log <= LiveFrame(v, f).log
  {
  }

  lemma JudgeGrows(v: View, m: Marker, gen: nat)
    requires v.last >= -1
    ensures v.log <= Judge(v, m, gen).log
  {
  }

  lemma {:induction false} TimedRuns(v: View, es: seq<Event>)
    requires v.last >= -1 && Timed(v)
    ensures Timed(Run(v, es))
  {
    if es != [] {
      TimedRuns(v, es[..|es| - 1]);
      StepTimed(Run(v, es[..|es| - 1]), es[|es| - 1]);
    }
  }

  ghost function Firings(v: View, es: seq<Event>): nat
    requires v.last >= -1
  {
    if es == [] then 0
    else
      Firings(v, es[..|es| - 1]) + if Fires(Run(v, es[..|es| - 1]), es[|es| - 1]) then 1 else 0
  }

  ghost predicate AllOrdinary(v: View, es: seq<Event>)
    requires v.last >= -1
  {
    forall i :: 0 <= i < |es| ==> Ordinary(Run(v, es[..i]), es[i])
  }

  /** No prefix of the run has seen a success. */
  ghost predicate NoSuccess(v: View, es: seq<Event>)
    requires v.last >= -1
  {
    forall i :: 0 <= i <= |es| ==> !Run(v, es[..i]).phase.Live?
  }

  /**
   No stuck buffering: as long as no success comes, every firing of a timer uses up rank and every re-request uses
   up budget.
   */
  lemma {:induction false} RunDescends(v: View, es: seq<Event>)
    requires v.last >= -1 && Timed(v) && v.phase.Buffering? && Asked(v)
    requires AllOrdinary(v, es) && NoSuccess(v, es)
    ensures var w := Run(v, es);
      && w.attempts <= LADDER_MAX_ATTEMPTS
      && Rank(w) + Firings(v, es) <= Rank(v)
      && Requests(w.log) + Budget(w) <= Requests(v.log) + Budget(v)
      && (w.phase.Buffering? || w.phase.Failed?)
  {
    if es != [] {
      var front, e := es[..|es| - 1], es[|es| - 1];
      assert forall i :: 0 <= i <= |front| ==> front[..i] == es[..i];
      assert Ordinary(Run(v, es[..|front|]), es[|front|]);
      RunDescends(v, front);
      var w := Run(v, front);
      TimedRuns(v, front);
      AskedStays(v, front);
      assert es[..|es|] == es && !Run(v, es[..|es|]).phase.Live?;
      if w.phase.Buffering? {
        StepDescends(w, e);
        StaysPut(w, e);
      } else {
        FailedStays(w, e);
      }
    }
  }

  lemma StaysPut(v: View, e: Event)
    requires v.last >= -1 && v.phase.Buffering? && Ordinary(v, e)
    ensures !Next(v, e).phase.Detached?
  {
  }

  lemma FailedStays(v: View, e: Event)
    requires v.last >= -1 && v.phase.Failed? && Ordinary(v, e)
    ensures Next(v, e).phase.Failed?
    ensures Requests(Next(v, e).log) == Requests(v.log) && Next(v, e).attempts == v.attempts
  {
  }

  /**
   From any reachable waiting view: without a success seven timer firings end in the failed phase, at most three
   requests are sent on the way there, and until then a timer is armed.
   */
  lemma WaitingEnds(past: seq<Event>, es: seq<Event>)
    requires var v := Run(FRESH, past);
      && v.phase.Buffering? && Asked(v)
      && AllOrdinary(v, es) && NoSuccess(v, es)
    ensures var v := Run(FRESH, past);
      var w := Run(v, es);
      && Firings(v, es) <= 7
      && Requests(w.log) <= Requests(v.log) + 3
      && (w.phase.Buffering? ==> w.watchdog || w.backoff)
      && (Firings(v, es) == 7 ==> w.phase.Failed?)
  {
    var v := Run(FRESH, past);
    RunTimed(past);
    RunDescends(v, es);
    TimedRuns(v, es);
    AskedStays(v, es);
  }
}
