/**
 What each event does to a view after any run, said in terms of the event and of what the log shows so far: the phase
 last announced, the frames received since the view last started anew, the incarnation last flushed.  None of it
 relies on the view's own histories.
 */
module ReplayEffects {
  import opened Wrappers
  import opened Frames
  import opened ReplaySpec
  import opened ReplayLog
  import opened ReplayInvariants
  import opened ReplayLadder
  import opened ReplayFence
  import opened ReplayCatchUp

  // ── The phase is the one announced last ────────────────────────────────────

  ghost function Told(log: seq<Output>): Phase {
    if log == [] then Buffering
    else if log[|log| - 1].Announced? then log[|log| - 1].phase
    else Told(log[..|log| - 1])
  }

  lemma ToldSnoc(log: seq<Output>, o: Output)
    ensures Told(log + [o]) == if o.Announced? then o.phase else Told(log)
  {
    assert (log + [o])[..|log|] == log;
  }

  lemma {:induction false} ToldQuiet(log: seq<Output>, more: seq<Output>)
    requires forall i :: 0 <= i < |more| ==> !more[i].Announced?
    ensures Told(log + more) == Told(log)
    decreases |more|
  {
    if more == [] {
      assert log + more == log;
    } else {
      var n := |more| - 1;
      ToldQuiet(log, more[..n]);
      assert log + more == (log + more[..n]) + [more[n]];
      ToldSnoc(log + more[..n], more[n]);
    }
  }

  ghost predicate InPhase(v: View) { v.phase == Told(v.log) }

  lemma LadderTold(v: View)
    requires InPhase(v)
    ensures InPhase(Ladder(v))
  {
    ToldSnoc(v.log, Announced(Failed, None));
  }

  lemma StartTold(v: View, epoch: Option<Epoch>, resetLadder: bool, newSession: bool)
    ensures InPhase(StartBuffering(v, epoch, resetLadder, newSession))
  {
    ToldSnoc(v.log, Announced(Buffering, None));
    ToldSnoc(v.log + [Announced(Buffering, None)], Requested);
  }

  lemma FillTold(v: View, f: Frame)
    requires InPhase(v)
    ensures InPhase(Fill(v, f))
  {
    var run := Chunks(v.held, f.seqNo + 1, Gap(v.held, f.seqNo + 1));
    assert Fill(v, f).log == v.log + ([Chunk(f)] + ChunkLog(run));
    ToldQuiet(v.log, [Chunk(f)] + ChunkLog(run));
  }

  lemma FrameTold(v: View, f: Frame)
    requires v.last >= -1 && InPhase(v)
    ensures InPhase(OnFrame(v, f))
  {
    var w := v.(arrivals := v.arrivals + [f]);
    if v.phase.Live? {
      if f.seqNo > v.last + 1 {
        var x := w.(held := v.held[f.seqNo := f], heldBytes := v.heldBytes + |f.bytes|);
        HoldCases(w, f);
        StartTold(x, x.epoch, false, false);
      } else if f.seqNo == v.last + 1 {
        FillTold(w, f);
      }
    } else if v.phase.Buffering? {
      var x := w.(buffer := v.buffer + [f], bufferBytes := v.bufferBytes + |f.bytes|);
      ToldSnoc(v.log, Overflowed);
      LadderTold(Discarded(x));
    }
  }

  lemma FlushTold(v: View, m: Marker)
    requires v.last >= -1
    ensures InPhase(Flush(v, m))
  {
    var w := Flush(v, m);
    FlushFlushes(v, m);
    var n := |w.log| - 1;
    assert w.log == w.log[..n] + [w.log[n]];
    ToldSnoc(w.log[..n], w.log[n]);
  }

  lemma JudgeTold(v: View, m: Marker, gen: nat)
    requires v.last >= -1 && InPhase(v)
    ensures InPhase(Judge(v, m, gen))
  {
    LadderTold(v);
    FlushTold(v, m);
  }

  lemma AnswerTold(v: View, req: nat, gen: nat)
    requires v.last >= -1 && InPhase(v)
    ensures InPhase(OnAnswer(v, req, gen))
  {
    ToldSnoc(v.log, Answered(req, gen));
    if v.phase.Buffering? && v.heldMarker.Some? {
      JudgeTold(v.(myGen := Some(gen), log := v.log + [Answered(req, gen)], heldMarker := None),
                v.heldMarker.value, gen);
    }
  }

  lemma StepTold(v: View, e: Event)
    requires v.last >= -1 && InPhase(v)
    ensures InPhase(Next(v, e))
  {
    match e
    case FrameIn(f) => FrameTold(v, f);
    case MarkerIn(m) =>
      if v.myGen.Some? {
        JudgeTold(v, m, v.myGen.value);
      }
    case AnswerIn(req, gen) => AnswerTold(v, req, gen);
    case BackoffFires => ToldSnoc(v.log, Requested);
    case WatchdogFires => LadderTold(v.(watchdog := false));
    case Present(tag) =>
      var newSession := v.epoch.Some? && tag != v.epoch;
      StartTold(v, if newSession then None else v.epoch, true, newSession);
    case Absent => ToldSnoc(v.log, Announced(Detached, None));
    case Disconnected => ToldSnoc(v.log, Announced(Detached, None));
    case Mounted(canAttach) =>
      ToldSnoc(v.log, Requested);
      ToldSnoc(v.log, Announced(Detached, None));
  }

  /** Over every run the consumer knows the phase: it is the one announced last. */
  lemma {:induction false} RunTold(es: seq<Event>)
    ensures Run(FRESH, es).phase == Told(Run(FRESH, es).log)
  {
    if es != [] {
      RunTold(es[..|es| - 1]);
      StepTold(Run(FRESH, es[..|es| - 1]), es[|es| - 1]);
    }
  }

  // ── What has been received ─────────────────────────────────────────────────

  /** Between the two logs the view threw its buffer away or started to buffer anew. */
  ghost predicate StartsAnew(before: seq<Output>, after: seq<Output>) {
    exists i :: |before| <= i < |after| && (after[i].Overflowed? || (after[i].Announced? && after[i].phase.Buffering?))
  }

  ghost predicate Hears(p: Phase) { p.Buffering? || p.Live? }

  ghost function Receives(got: seq<Frame>, before: seq<Output>, e: Event, after: seq<Output>): seq<Frame> {
    if StartsAnew(before, after) then []
    else if e.FrameIn? && Hears(Told(before)) then got + [e.frame]
    else got
  }

  /** The frames that came while the view was told to be buffering or live, since it last started anew. */
  ghost function Received(es: seq<Event>): seq<Frame> {
    if es == [] then []
    else
      var front := es[..|es| - 1];
      Receives(Received(front), Run(FRESH, front).log, es[|es| - 1], Run(FRESH, es).log)
  }

  /** `w` was reached from `v` without starting anew and has the same arrivals. */
  ghost predicate GoesOn(v: View, w: View) {
    !StartsAnew(v.log, w.log) && w.arrivals == v.arrivals
  }

  /** `w` was reached from `v` by starting anew. */
  ghost predicate Anew(v: View, w: View) {
    StartsAnew(v.log, w.log) && w.arrivals == []
  }

  lemma LadderGoesOn(v: View)
    ensures GoesOn(v, Ladder(v))
  {
  }

  lemma StartIsAnew(v: View, epoch: Option<Epoch>, resetLadder: bool, newSession: bool)
    ensures Anew(v, StartBuffering(v, epoch, resetLadder, newSession))
  {
    assert StartBuffering(v, epoch, resetLadder, newSession).log[|v.log|] == Announced(Buffering, None);
  }

  lemma PushArrives(v: View, f: Frame)
    ensures GoesOn(v, PushBuffer(v, f)) || Anew(v, PushBuffer(v, f))
  {
    var w := v.(buffer := v.buffer + [f], bufferBytes := v.bufferBytes + |f.bytes|);
    assert Discarded(w).log[|v.log|] == Overflowed;
    assert Ladder(Discarded(w)).log[|v.log|] == Overflowed;
  }

  lemma LiveArrives(v: View, f: Frame)
    requires v.last >= -1
    ensures GoesOn(v, LiveFrame(v, f)) || Anew(v, LiveFrame(v, f))
  {
    if f.seqNo > v.last + 1 {
      var x := v.(held := v.held[f.seqNo := f], heldBytes := v.heldBytes + |f.bytes|);
      HoldCases(v, f);
      StartIsAnew(x, x.epoch, false, false);
    } else if f.seqNo == v.last + 1 {
      FillFills(v, f);
    }
  }

  lemma FrameArrives(v: View, f: Frame)
    requires v.last >= -1 && InPhase(v)
    ensures OnFrame(v, f).arrivals == Receives(v.arrivals, v.log, FrameIn(f), OnFrame(v, f).log)
  {
    if Hears(v.phase) {
      var w := v.(arrivals := v.arrivals + [f]);
      LiveArrives(w, f);
      PushArrives(w, f);
    }
  }

  lemma FlushGoesOn(v: View, m: Marker)
    requires v.last >= -1
    ensures GoesOn(v, Flush(v, m))
  {
    FlushFlushes(v, m);
  }

  lemma JudgeGoesOn(v: View, m: Marker, gen: nat)
    requires v.last >= -1
    ensures GoesOn(v, Judge(v, m, gen))
  {
    FlushGoesOn(v, m);
    LadderGoesOn(v);
  }

  lemma AnswerGoesOn(v: View, req: nat, gen: nat)
    requires v.last >= -1
    ensures GoesOn(v, OnAnswer(v, req, gen))
  {
    if v.phase.Buffering? && v.heldMarker.Some? {
      var w := v.(myGen := Some(gen), log := v.log + [Answered(req, gen)], heldMarker := None);
      JudgeGoesOn(w, v.heldMarker.value, gen);
      JudgeGrows(w, v.heldMarker.value, gen);
    }
  }

  lemma StepArrives(v: View, e: Event)
    requires v.last >= -1 && InPhase(v)
    ensures Next(v, e).arrivals == Receives(v.arrivals, v.log, e, Next(v, e).log)
  {
    match e
    case FrameIn(f) => FrameArrives(v, f);
    case MarkerIn(m) =>
      if v.myGen.Some? {
        JudgeGoesOn(v, m, v.myGen.value);
      }
    case AnswerIn(req, gen) => AnswerGoesOn(v, req, gen);
    case WatchdogFires => LadderGoesOn(v.(watchdog := false));
    case Present(tag) =>
      var newSession := v.epoch.Some? && tag != v.epoch;
      StartIsAnew(v, if newSession then None else v.epoch, true, newSession);
    case _ =>
  }

  /** Over every run the arrivals a view keeps count of are the frames it was sent. */
  lemma {:induction false} RunReceives(es: seq<Event>)
    ensures Run(FRESH, es).arrivals == Received(es)
  {
    if es != [] {
      RunReceives(es[..|es| - 1]);
      RunTold(es[..|es| - 1]);
      StepArrives(Run(FRESH, es[..|es| - 1]), es[|es| - 1]);
    }
  }

  /**
   Over every run a live view is a function of the frames it was sent: everything from where its last flush began up
   to the first number that did not come is delivered, and everything beyond is held.
   */
  lemma LiveHasReceived(es: seq<Event>)
    requires Told(Run(FRESH, es).log).Live?
    ensures var v := Run(FRESH, es);
      && v.epoch.Some? && Read(v.log).Reading? && Read(v.log).cursor == v.last
      && Settled(Read(v.log).run, v.last, v.held, Arrived(Of(Received(es), v.epoch.value)), Read(v.log).start)
  {
    RunDelivers(es);
    RunTold(es);
    RunReceives(es);
  }

  /** Over every run a view that waits keeps exactly the frames it was sent of the incarnation it waits for. */
  lemma WaitingHasReceived(es: seq<Event>)
    requires Told(Run(FRESH, es).log).Buffering?
    ensures Run(FRESH, es).buffer == Accepted(Received(es), Run(FRESH, es).epoch)
  {
    RunDelivers(es);
    RunTold(es);
    RunReceives(es);
  }

  // ── The incarnation being read ─────────────────────────────────────────────

  /** A flush was written between the two logs. */
  ghost predicate FlushesBetween(before: seq<Output>, after: seq<Output>) {
    exists i :: |before| <= i < |after| && after[i].Flushed?
  }

  ghost function FlushedEpoch(before: seq<Output>, after: seq<Output>): Epoch
    requires FlushesBetween(before, after)
  {
    var i :| |before| <= i < |after| && after[i].Flushed?;
    after[i].marker.epoch
  }

  /** The roster shows another incarnation than the known one. */
  ghost predicate Rotates(known: Option<Epoch>, e: Event) {
    e.Present? && known.Some? && e.tag != known
  }

  /** The incarnation last flushed, unless the roster has shown another one since. */
  ghost function Known(es: seq<Event>): Option<Epoch> {
    if es == [] then None
    else
      var front := es[..|es| - 1];
      if FlushesBetween(Run(FRESH, front).log, Run(FRESH, es).log) then
        Some(FlushedEpoch(Run(FRESH, front).log, Run(FRESH, es).log))
      else if Rotates(Known(front), es[|es| - 1]) then None
      else Known(front)
  }

  /** The roster has shown another incarnation and nothing was flushed since. */
  ghost function Owed(es: seq<Event>): bool {
    if es == [] then false
    else
      var front := es[..|es| - 1];
      !FlushesBetween(Run(FRESH, front).log, Run(FRESH, es).log) && (Owed(front) || Rotates(Known(front), es[|es| - 1]))
  }

  lemma FlushAdopts(v: View, e: Event)
    requires v.last >= -1 && FlushesBetween(v.log, Next(v, e).log)
    ensures Next(v, e).epoch == Some(FlushedEpoch(v.log, Next(v, e).log)) && !Next(v, e).restartPending
  {
    var after := Next(v, e).log;
    var i :| |v.log| <= i < |after| && after[i].Flushed? && FlushedEpoch(v.log, after) == after[i].marker.epoch;
    StepFlushesOwnEpoch(v, e, i);
    StepFlushSettles(v, e);
  }

  lemma StepFlushSettles(v: View, e: Event)
    requires v.last >= -1 && v.phase.Buffering? && Next(v, e).phase.Live?
    ensures !Next(v, e).restartPending
  {
  }

  lemma LiveKeepsEpoch(v: View, f: Frame)
    requires v.last >= -1
    ensures LiveFrame(v, f).epoch == v.epoch && LiveFrame(v, f).restartPending == v.restartPending
  {
  }

  lemma FrameKeepsEpoch(v: View, f: Frame)
    requires v.last >= -1
    ensures OnFrame(v, f).epoch == v.epoch && OnFrame(v, f).restartPending == v.restartPending
  {
    LiveKeepsEpoch(v.(arrivals := v.arrivals + [f]), f);
  }

  lemma JudgeKeepsEpoch(v: View, m: Marker, gen: nat)
    requires v.last >= -1 && !FlushesBetween(v.log, Judge(v, m, gen).log)
    ensures Judge(v, m, gen).epoch == v.epoch && Judge(v, m, gen).restartPending == v.restartPending
  {
    if Admits(v, m, gen) {
      FlushAppends(v, m);
    }
  }

  lemma KeepsEpoch(v: View, e: Event)
    requires v.last >= -1 && !FlushesBetween(v.log, Next(v, e).log)
    ensures Next(v, e).epoch == if Rotates(v.epoch, e) then None else v.epoch
    ensures Next(v, e).restartPending == (v.restartPending || Rotates(v.epoch, e))
  {
    match e
    case FrameIn(f) => FrameKeepsEpoch(v, f);
    case MarkerIn(m) =>
      if v.phase.Buffering? && v.myGen.Some? {
        JudgeKeepsEpoch(v, m, v.myGen.value);
      }
    case AnswerIn(req, gen) =>
      if v.phase.Buffering? && v.heldMarker.Some? {
        var w := v.(myGen := Some(gen), log := v.log + [Answered(req, gen)], heldMarker := None);
        JudgeKeepsEpoch(w, v.heldMarker.value, gen);
      }
    case _ =>
  }

  /**
   Over every run: a view reads the incarnation it flushed last, until the roster shows another one; from then on it
   owes its consumer a reset, until the next flush.
   */
  lemma {:induction false} RunKnows(es: seq<Event>)
    ensures Run(FRESH, es).epoch == Known(es) && Run(FRESH, es).restartPending == Owed(es)
  {
    if es != [] {
      var v, e := Run(FRESH, es[..|es| - 1]), es[|es| - 1];
      RunKnows(es[..|es| - 1]);
      if FlushesBetween(v.log, Next(v, e).log) {
        FlushAdopts(v, e);
      } else {
        KeepsEpoch(v, e);
      }
    }
  }

  // ── Frames ─────────────────────────────────────────────────────────────────

  /** A view that was told to be detached or to have failed hears nothing. */
  lemma DeafHearsNothing(es: seq<Event>, f: Frame)
    requires !Hears(Told(Run(FRESH, es).log))
    ensures Run(FRESH, es + [FrameIn(f)]) == Run(FRESH, es)
  {
    RunTold(es);
    RunSnoc(FRESH, es, FrameIn(f));
  }

  /** A frame of another incarnation than the known one is received and changes nothing else. */
  lemma ForeignFrameIsDropped(es: seq<Event>, f: Frame)
    requires Known(es).Some? && f.epoch != Known(es).value
    ensures Run(FRESH, es + [FrameIn(f)]) == Run(FRESH, es).(arrivals := Received(es + [FrameIn(f)]))
  {
    RunKnows(es);
    RunSnoc(FRESH, es, FrameIn(f));
    RunReceives(es + [FrameIn(f)]);
  }

  /** What a frame of its own incarnation does to a live view; `w` is the view after it. */
  ghost predicate LiveEffect(v: View, f: Frame, w: View) {
    var free := |v.held| < 2048 && Bytes(v.held) + |f.bytes| <= 1024 * 1024;
    if f.seqNo <= v.last || f.seqNo in v.held then
      w.log == v.log && w.held == v.held && w.last == v.last && w.phase.Live?
    else if f.seqNo == v.last + 1 then
      |w.log| > |v.log| && w.log[|v.log|] == Chunk(f) && w.last >= f.seqNo && w.phase.Live?
    else if free then
      w.log == v.log && w.held == v.held[f.seqNo := f] && w.last == v.last && w.phase.Live?
    else
      && w.log == v.log + [Announced(Buffering, None), Requested]
      && w.held == map[] && w.last == v.last && w.attempts == v.attempts && w.watchdog && !w.backoff
  }

  lemma StartWrites(v: View, epoch: Option<Epoch>, resetLadder: bool, newSession: bool)
    ensures StartBuffering(v, epoch, resetLadder, newSession).log == v.log + [Announced(Buffering, None), Requested]
  {
    assert (v.log + [Announced(Buffering, None)]) + [Requested] == v.log + [Announced(Buffering, None), Requested];
  }

  lemma HoldEffect(v: View, f: Frame)
    requires v.phase.Live? && f.seqNo > v.last + 1 && v.heldBytes == Bytes(v.held)
    ensures LiveEffect(v, f, HoldLive(v, f))
  {
    var x := v.(held := v.held[f.seqNo := f], heldBytes := v.heldBytes + |f.bytes|);
    StartWrites(x, x.epoch, false, false);
  }

  lemma FillEffect(v: View, f: Frame)
    requires v.phase.Live? && f.seqNo == v.last + 1 && f.seqNo !in v.held
    ensures LiveEffect(v, f, Fill(v, f))
  {
    FillFills(v, f);
  }

  /**
   On a live view, a frame of the incarnation it reads is ignored if its number was delivered or is held, delivered at
   once if it is the next number, held if it lies beyond the hole and fits the limits, and otherwise makes the view
   start over.
   */
  lemma LiveFrameTakesEffect(es: seq<Event>, f: Frame)
    requires Told(Run(FRESH, es).log).Live? && Known(es) == Some(f.epoch)
    ensures LiveEffect(Run(FRESH, es), f, Run(FRESH, es + [FrameIn(f)]))
  {
    var v := Run(FRESH, es);
    RunTold(es);
    RunKnows(es);
    RunDelivers(es);
    RunBounded(es);
    RunSnoc(FRESH, es, FrameIn(f));
    var x := v.(arrivals := v.arrivals + [f]);
    if f.seqNo > v.last + 1 {
      HoldEffect(x, f);
    } else if f.seqNo == v.last + 1 {
      FillEffect(x, f);
    }
  }

  /** The ladder takes a step: nothing if one is scheduled, else a backoff, and after three of them it gives up. */
  ghost predicate Climbs(v: View, w: View) {
    if v.backoff then w == v
    else if v.attempts < 3 then
      && w.log == v.log && w.phase == v.phase && w.buffer == v.buffer && w.myGen == v.myGen
      && w.attempts == v.attempts + 1 && w.backoff && !w.watchdog
    else
      w.log == v.log + [Announced(Failed, None)] && w.buffer == [] && w.bufferBytes == 0 && !w.backoff && !w.watchdog
  }

  lemma LadderClimbs(v: View)
    ensures Climbs(v, Ladder(v))
  {
  }

  /** What a frame it may keep does to a view that waits. */
  ghost predicate WaitEffect(v: View, f: Frame, w: View) {
    if |v.buffer| < 8192 && Size(v.buffer) + |f.bytes| <= 4 * 1024 * 1024 then
      && w.buffer == v.buffer + [f] && w.log == v.log && w.phase.Buffering?
      && w.myGen == v.myGen && w.heldMarker == v.heldMarker && w.attempts == v.attempts
    else
      && w.buffer == [] && w.myGen.None? && w.heldMarker.None?
      && w.log == v.log + [Overflowed] + (if v.backoff || v.attempts < 3 then [] else [Announced(Failed, None)])
      && (v.backoff || v.attempts < 3 ==> w.backoff)
      && w.attempts == if v.backoff || v.attempts >= 3 then v.attempts else v.attempts + 1
  }

  /** A waiting view keeps what it may keep within the limits; beyond them it throws all away and asks again. */
  lemma WaitingFrameTakesEffect(es: seq<Event>, f: Frame)
    requires Told(Run(FRESH, es).log).Buffering? && (Known(es).None? || Known(es).value == f.epoch)
    ensures WaitEffect(Run(FRESH, es), f, Run(FRESH, es + [FrameIn(f)]))
  {
    var v := Run(FRESH, es);
    RunTold(es);
    RunKnows(es);
    RunBounded(es);
    RunSnoc(FRESH, es, FrameIn(f));
    PushEffect(v.(arrivals := v.arrivals + [f]), f);
  }

  lemma PushEffect(v: View, f: Frame)
    requires v.phase.Buffering? && v.bufferBytes == Size(v.buffer)
    ensures WaitEffect(v, f, PushBuffer(v, f))
  {
  }

  // ── Markers and answers ────────────────────────────────────────────────────

  /** While a view waits it knows a generation exactly while the reader of its log does. */
  ghost predicate PassKnown(v: View) {
    v.phase.Buffering? && v.myGen.None? ==> Guard(v.log).Fence? && Guard(v.log).pass.None?
  }

  /** `w` waits without a generation only if its log ends by voiding it, or if `v` did and nothing was written. */
  ghost predicate Voided(v: View, w: View) {
    w.phase.Buffering? && w.myGen.None? ==>
      || (w.log == v.log && v.phase.Buffering? && v.myGen.None?)
      || (w.log != [] && Voids(w.log[|w.log| - 1]))
  }

  lemma VoidedKnown(v: View, w: View)
    requires PassKnown(v) && Voided(v, w) && Guard(w.log).Fence?
    ensures PassKnown(w)
  {
    if w.phase.Buffering? && w.myGen.None? && w.log != v.log {
      var n := |w.log| - 1;
      GuardPrefix(w.log, n);
    }
  }

  lemma LadderVoided(v: View)
    ensures Voided(v, Ladder(v))
  {
  }

  lemma FrameVoided(v: View, f: Frame)
    requires v.last >= -1
    ensures Voided(v, OnFrame(v, f))
  {
    var w := v.(arrivals := v.arrivals + [f]);
    if v.phase.Live? {
      HoldCases(w, f);
    } else if v.phase.Buffering? {
      LadderVoided(Discarded(w.(buffer := v.buffer + [f], bufferBytes := v.bufferBytes + |f.bytes|)));
    }
  }

  lemma JudgeVoided(v: View, m: Marker, gen: nat)
    requires v.last >= -1 && v.phase.Buffering?
    ensures Voided(v, Judge(v, m, gen))
  {
    LadderVoided(v);
  }

  lemma StepVoided(v: View, e: Event)
    requires v.last >= -1
    ensures Voided(v, Next(v, e))
  {
    match e
    case FrameIn(f) => FrameVoided(v, f);
    case MarkerIn(m) =>
      if v.phase.Buffering? && v.myGen.Some? {
        JudgeVoided(v, m, v.myGen.value);
      }
    case AnswerIn(req, gen) =>
      if v.phase.Buffering? && v.heldMarker.Some? {
        JudgeVoided(v.(myGen := Some(gen), log := v.log + [Answered(req, gen)], heldMarker := None), v.heldMarker.value, gen);
      }
    case WatchdogFires => LadderVoided(v.(watchdog := false));
    case _ =>
  }

  lemma {:induction false} RunPassKnown(es: seq<Event>)
    ensures PassKnown(Run(FRESH, es))
  {
    if es != [] {
      var v, e := Run(FRESH, es[..|es| - 1]), es[|es| - 1];
      RunPassKnown(es[..|es| - 1]);
      RunFenced(es);
      StepVoided(v, e);
      VoidedKnown(v, Run(FRESH, es));
    }
  }

  /** The generation last returned to the view and not voided since, as its log shows it. */
  ghost function Pass(es: seq<Event>): Option<nat> {
    var r := Guard(Run(FRESH, es).log);
    if r.Fence? && r.pass.Some? then Some(r.pass.value.gen) else None
  }

  lemma RunPass(es: seq<Event>)
    requires Told(Run(FRESH, es).log).Buffering?
    ensures Run(FRESH, es).phase.Buffering? && Run(FRESH, es).myGen == Pass(es)
  {
    RunTold(es);
    RunFenced(es);
    RunPassKnown(es);
  }

  /** The view goes live for `m`: a reset if one is owed, the flush, the chunks, and the announcement. */
  ghost predicate GoesLive(v: View, m: Marker, w: View, owed: bool) {
    var n := |v.log| + if owed then 1 else 0;
    && v.log <= w.log && n + 2 <= |w.log| && (owed ==> w.log[|v.log|] == Reset) && w.log[n] == Flushed(m)
    && (forall i :: n < i < |w.log| - 1 ==> w.log[i].Chunk?)
    && w.log[|w.log| - 1] == Announced(Live, Some(LiveInfo(m.continuesConversation, m.epoch)))
    && w.buffer == [] && w.attempts == 0 && !w.watchdog && !w.backoff
  }

  lemma FlushGoesLive(v: View, m: Marker)
    requires v.last >= -1
    ensures GoesLive(v, m, Flush(v, m), v.restartPending)
  {
    FlushFlushes(v, m);
  }

  /** What a marker does to a waiting view that knows generation `gen`. */
  ghost predicate JudgeEffect(v: View, m: Marker, gen: nat, known: Option<Epoch>, owed: bool, w: View) {
    if m.gen < gen then w == v
    else if m.failed then Climbs(v, w)
    else if known.Some? && known.value != m.epoch then w == v
    else GoesLive(v, m, w, owed)
  }

  lemma JudgeTakesEffect(v: View, m: Marker, gen: nat)
    requires v.last >= -1
    ensures JudgeEffect(v, m, gen, v.epoch, v.restartPending, Judge(v, m, gen))
  {
    LadderClimbs(v);
    FlushGoesLive(v, m);
  }

  /**
   A marker changes nothing outside the buffering phase.  With a generation known, an older marker and the success of
   another incarnation change nothing, a failure takes the ladder one step with the buffer kept, and any other success
   makes the view live.  With none known it is kept or surpassed by the one kept.
   */
  lemma MarkerTakesEffect(es: seq<Event>, m: Marker)
    ensures var v, w := Run(FRESH, es), Run(FRESH, es + [MarkerIn(m)]);
      if !Told(v.log).Buffering? then w == v
      else if Pass(es).Some? then JudgeEffect(v, m, Pass(es).value, Known(es), Owed(es), w)
      else
        && w == v.(heldMarker := w.heldMarker) && w.heldMarker.Some? && AtLeast(w.heldMarker.value, m)
        && (w.heldMarker == Some(m) || w.heldMarker == v.heldMarker)
        && (v.heldMarker.Some? ==> AtLeast(w.heldMarker.value, v.heldMarker.value))
  {
    var v := Run(FRESH, es);
    RunTold(es);
    RunKnows(es);
    RunSnoc(FRESH, es, MarkerIn(m));
    if v.phase.Buffering? {
      RunPass(es);
      if v.myGen.Some? {
        JudgeTakesEffect(v, m, v.myGen.value);
      }
    }
  }

  /**
   An answer changes nothing outside the buffering phase.  Inside it is written down and, if a marker was kept, does
   what the answer without it and then that marker would have done.
   */
  lemma AnswerTakesEffect(es: seq<Event>, req: nat, gen: nat)
    ensures var v, w := Run(FRESH, es), Run(FRESH, es + [AnswerIn(req, gen)]);
      if !Told(v.log).Buffering? then w == v
      else
        var x := v.(myGen := Some(gen), heldMarker := None, log := v.log + [Answered(req, gen)]);
        if v.heldMarker.None? then w == x
        else JudgeEffect(x, v.heldMarker.value, gen, Known(es), Owed(es), w)
  {
    var v := Run(FRESH, es);
    RunTold(es);
    RunKnows(es);
    RunSnoc(FRESH, es, AnswerIn(req, gen));
    if v.phase.Buffering? && v.heldMarker.Some? {
      var x := v.(myGen := Some(gen), heldMarker := None, log := v.log + [Answered(req, gen)]);
      JudgeTakesEffect(x, v.heldMarker.value, gen);
    }
  }

  // ── Timers, roster, connection ─────────────────────────────────────────────

  /** A backoff that is over sends the request it was for, if the view still waits, and the watchdog watches it. */
  lemma BackoffTakesEffect(es: seq<Event>)
    ensures var v, w := Run(FRESH, es), Run(FRESH, es + [BackoffFires]);
      if !v.backoff then w == v
      else if Told(v.log).Buffering? then
        w == v.(backoff := false, watchdog := true, myGen := None, heldMarker := None, log := v.log + [Requested])
      else w == v.(backoff := false)
  {
    RunTold(es);
    RunSnoc(FRESH, es, BackoffFires);
  }

  /** A watchdog that is over takes the ladder one step, if the view still waits. */
  lemma WatchdogTakesEffect(es: seq<Event>)
    ensures var v, w := Run(FRESH, es), Run(FRESH, es + [WatchdogFires]);
      if !v.watchdog then w == v
      else if Told(v.log).Buffering? then Climbs(v.(watchdog := false), w)
      else w == v.(watchdog := false)
  {
    RunTold(es);
    RunSnoc(FRESH, es, WatchdogFires);
    LadderClimbs(Run(FRESH, es).(watchdog := false));
  }

  /**
   A roster that lists the agent makes a view start over, with the ladder reset, if it was detached, had failed or
   reads another incarnation, and leaves it alone otherwise.
   */
  lemma PresentTakesEffect(es: seq<Event>, tag: Option<Epoch>)
    ensures var v, w := Run(FRESH, es), Run(FRESH, es + [Present(tag)]);
      if Told(v.log).Detached? || Told(v.log).Failed? || (Known(es).Some? && tag != Known(es)) then
        && StartedOver(w, v, tag) && w.held == map[] && w.attempts == 0 && w.watchdog && !w.backoff
        && w.log == v.log + [Announced(Buffering, None), Requested]
      else w == v
  {
    var v := Run(FRESH, es);
    RunTold(es);
    RunKnows(es);
    RunSnoc(FRESH, es, Present(tag));
    var newSession := v.epoch.Some? && tag != v.epoch;
    StartWrites(v, if newSession then None else v.epoch, true, newSession);
    if Reattaches(v, tag) {
      StartsOver(v, tag);
    }
  }

  /**
   A roster without the agent, and a disconnect, detach a view: it is announced once, timers and stores are emptied,
   and the cursor, the incarnation and an owed reset stay for the next attachment.
   */
  lemma DetachTakesEffect(es: seq<Event>, e: Event)
    requires e.Absent? || e.Disconnected?
    ensures var v, w := Run(FRESH, es), Run(FRESH, es + [e]);
      if Told(v.log).Detached? then w == v
      else
        && w.log == v.log + [Announced(Detached, None)]
        && w.buffer == [] && w.held == map[] && w.myGen.None? && w.heldMarker.None? && !w.watchdog && !w.backoff
        && w.last == v.last && w.epoch == v.epoch && w.restartPending == v.restartPending && w.attempts == v.attempts
  {
    RunTold(es);
    RunSnoc(FRESH, es, e);
  }

  /** A mount that may attach asks for a replay; one that may not is told to be detached. */
  lemma MountTakesEffect(es: seq<Event>, canAttach: bool)
    ensures var v, w := Run(FRESH, es), Run(FRESH, es + [Mounted(canAttach)]);
      if canAttach then w == v.(watchdog := true, myGen := None, heldMarker := None, log := v.log + [Requested])
      else w == v.(phase := Detached, log := v.log + [Announced(Detached, None)])
  {
    RunSnoc(FRESH, es, Mounted(canAttach));
  }

  // ── What a reattachment brings ─────────────────────────────────────────────

  /** After `past` the roster shows the agent with `tag`, and `es` brings a replay: `start` on, it is delivered. */
  ghost predicate Brought(past: seq<Event>, tag: Option<Epoch>, es: seq<Event>, m: Marker, start: nat) {
    CaughtUp(Run(Run(FRESH, past + [Present(tag)]), es), FramesOf(es), m, start)
  }

  lemma StartedCatchesUp(past: seq<Event>, tag: Option<Epoch>, es: seq<Event>, gen: nat, m: Marker)
    requires Reattaches(Run(FRESH, past), tag) && Replay(es, gen, m) && Fits(FramesOf(es))
    requires gen <= m.gen && !m.failed
    requires Run(FRESH, past).epoch.Some? && tag == Run(FRESH, past).epoch ==> Some(m.epoch) == tag
    ensures Head(Run(FRESH, past), tag, m) >= 0
    ensures Brought(past, tag, es, m, Head(Run(FRESH, past), tag, m))
  {
    RunSnoc(FRESH, past, Present(tag));
    CatchesUp(past, tag, es, gen, m);
  }

  /** After a loss of the connection the view is detached and keeps what it knows of the incarnation. */
  lemma Parted(past: seq<Event>)
    ensures var v, w := Run(FRESH, past), Run(FRESH, past + [Disconnected]);
      && w.phase.Detached? && w.last == v.last && w.epoch == v.epoch == Known(past) && w.restartPending == v.restartPending
      && v.last >= -1 && (v.epoch.Some? ==> !v.restartPending)
  {
    var v := Run(FRESH, past);
    RunKnows(past);
    RunDelivers(past);
    RunTold(past);
    DetachTakesEffect(past, Disconnected);
    RunTold(past + [Disconnected]);
    ToldSnoc(v.log, Announced(Detached, None));
  }

  /**
   The connection is lost and comes back with the same incarnation: the replay is continued right after the last
   number delivered before, or at its head if that lies beyond.
   */
  lemma ReattachContinues(past: seq<Event>, es: seq<Event>, gen: nat, m: Marker)
    requires Known(past) == Some(m.epoch) && Replay(es, gen, m) && Fits(FramesOf(es)) && gen <= m.gen && !m.failed
    ensures Run(FRESH, past).last >= -1
    ensures Brought(past + [Disconnected], Known(past), es, m, Max(Run(FRESH, past).last + 1, m.replayFrom))
  {
    var away := past + [Disconnected];
    Parted(past);
    StartedCatchesUp(away, Known(past), es, gen, m);
  }

  /** The roster shows another incarnation: its replay is delivered from its head, whatever was delivered before. */
  lemma RespawnStartsAfresh(past: seq<Event>, tag: Option<Epoch>, es: seq<Event>, gen: nat, m: Marker)
    requires Known(past).Some? && tag != Known(past)
    requires Replay(es, gen, m) && Fits(FramesOf(es)) && gen <= m.gen && !m.failed
    ensures Brought(past, tag, es, m, m.replayFrom)
  {
    RunKnows(past);
    StartedCatchesUp(past, tag, es, gen, m);
  }

  /** `k` times: the watchdog gives up on a request, and after the backoff another one is sent. */
  ghost function Rounds(k: nat): seq<Event> {
    if k == 0 then [] else Rounds(k - 1) + [WatchdogFires] + [BackoffFires]
  }

  ghost predicate Retried(v: View, w: View, k: nat) {
    && w.phase.Buffering? && w.attempts == k && w.watchdog && !w.backoff && w.last >= -1
    && Requests(w.log) == Requests(v.log) + k
  }

  lemma OneRound(v: View, w: View, k: nat)
    requires Retried(v, w, k) && k < 3
    ensures Next(w, WatchdogFires).phase.Buffering? && Retried(v, Next(Next(w, WatchdogFires), BackoffFires), k + 1)
  {
    RequestsSnoc(w.log, Requested);
  }

  lemma {:induction false} RoundsRetry(v: View, k: nat)
    requires Retried(v, v, 0) && k <= 3
    ensures Retried(v, Run(v, Rounds(k)), k)
  {
    if k > 0 {
      RoundsRetry(v, k - 1);
      RunSnoc(v, Rounds(k - 1), WatchdogFires);
      RunSnoc(v, Rounds(k - 1) + [WatchdogFires], BackoffFires);
      OneRound(v, Run(v, Rounds(k - 1)), k - 1);
    }
  }

  /**
   A view that starts over and hears nothing asks three more times, no less and no more, and gives up when the watchdog
   of the third has run out.
   */
  lemma AsksThreeMoreTimes(past: seq<Event>, tag: Option<Epoch>, k: nat)
    requires Reattaches(Run(FRESH, past), tag) && k <= 3
    ensures var v := Run(FRESH, past + [Present(tag)]);
      var w := Run(v, Rounds(k));
      && w.phase.Buffering? && Requests(w.log) == Requests(v.log) + k
      && (Run(v, Rounds(k) + [WatchdogFires]).phase.Failed? <==> k == 3)
  {
    var v := Run(FRESH, past + [Present(tag)]);
    RunTold(past);
    RunKnows(past);
    PresentTakesEffect(past, tag);
    RoundsRetry(v, k);
    RunSnoc(v, Rounds(k), WatchdogFires);
  }
}
