/**
 What holds of a view after every sequence of frames, markers, generation answers, timers, roster observations,
 disconnects and mounts.
 */
module ReplayInvariants {
  import opened Wrappers
  import opened Frames
  import opened ReplaySpec
  import opened ReplayLog

  // ── Delivery ───────────────────────────────────────────────────────────────

  /**
   A live view is a function of what arrived: `a` are the arrivals of its incarnation and `start` is where the
   flush began.  Everything before the first hole is delivered and everything after it is held.
   */
  ghost predicate Settled(run: seq<Frame>, last: int, held: map<nat, Frame>, a: map<nat, Frame>, start: int) {
    start >= 0 && last == Gap(a, start) - 1 && held == Above(a, last + 1) && run == Chunks(a, start, last + 1)
  }

  /**
   The consumer's reading of the log agrees with the view.  An unknown incarnation means that nothing has been
   delivered yet or that a restart is pending.
   */
  ghost predicate Anchored(r: Reading, last: int, epoch: Option<Epoch>, restartPending: bool) {
    && r.Reading?
    && r.cursor == last
    && (restartPending ==> epoch.None?)
    && (epoch.None? && !restartPending ==> last == -1 && r.epoch.None?)
    && (epoch.Some? ==> r.epoch == epoch)
  }

  /** A live view reading incarnation `e` is anchored and settled. */
  ghost predicate InStep(log: seq<Output>, last: int, held: map<nat, Frame>, arrivals: seq<Frame>, e: Epoch) {
    var r := Read(log);
    && Anchored(r, last, Some(e), false)
    && Settled(r.run, last, held, Arrived(Of(arrivals, e)), r.start)
  }

  ghost predicate Delivery(v: View) {
    && Anchored(Read(v.log), v.last, v.epoch, v.restartPending)
    && (v.phase.Buffering? ==> v.buffer == Accepted(v.arrivals, v.epoch))
    && (v.phase.Live? ==> v.epoch.Some? && InStep(v.log, v.last, v.held, v.arrivals, v.epoch.value))
  }

  /** An output the consumer's cursor does not depend on. */
  ghost predicate Silent(o: Output) { o.Announced? || o.Requested? || o.Answered? || o.Overflowed? }

  lemma ReadSilent(log: seq<Output>, o: Output)
    requires Silent(o)
    ensures Read(log + [o]) == Read(log)
  {
    ReadSnoc(log, o);
  }

  lemma LadderReads(v: View)
    ensures Read(Ladder(v).log) == Read(v.log)
  {
    ReadSilent(v.log, Announced(Failed, None));
  }

  lemma StartReads(v: View, epoch: Option<Epoch>, resetLadder: bool, newSession: bool)
    ensures Read(StartBuffering(v, epoch, resetLadder, newSession).log) == Read(v.log)
  {
    ReadSilent(v.log, Announced(Buffering, None));
    ReadSilent(v.log + [Announced(Buffering, None)], Requested);
  }

  /** One more frame of the incarnation among the arrivals. */
  lemma ArrivalsGrow(fs: seq<Frame>, f: Frame)
    ensures var a := Arrived(Of(fs, f.epoch));
      Arrived(Of(fs + [f], f.epoch)) == if f.seqNo in a then a else a[f.seqNo := f]
    ensures FiledFor(Arrived(Of(fs, f.epoch)), f.epoch)
  {
    OfSnoc(fs, f, f.epoch);
    ArrivedSnoc(Of(fs, f.epoch), f);
    ArrivedFiled(fs, f.epoch);
  }

  /** Filling the hole and releasing what follows on keeps a view settled. */
  lemma SettledFilled(run: seq<Frame>, last: int, held: map<nat, Frame>, a: map<nat, Frame>, start: int, f: Frame)
    requires Settled(run, last, held, a, start) && f.seqNo == last + 1
    ensures var n := Gap(held, f.seqNo + 1);
      Settled(run + [f] + Chunks(held, f.seqNo + 1, n), n - 1, Above(held, n), a[f.seqNo := f], start)
  {
    GapFilled(a, start, f);
  }

  /** A delivered frame followed by the released run reads cleanly. */
  lemma ReleaseReads(log: seq<Output>, f: Frame, held: map<nat, Frame>)
    requires Read(log).Reading? && f.seqNo == Read(log).cursor + 1 && FiledFor(held, f.epoch)
    requires Read(log).epoch == Some(f.epoch)
    ensures var n := Gap(held, f.seqNo + 1);
      var run := Chunks(held, f.seqNo + 1, n);
      Read(log + [Chunk(f)] + ChunkLog(run))
      == Reading(n - 1, Some(f.epoch), Read(log).start, Read(log).run + [f] + run)
  {
    ReadSnoc(log, Chunk(f));
    ReadChunks(log + [Chunk(f)], held, f.seqNo + 1, Gap(held, f.seqNo + 1), f.epoch);
  }

  lemma InStepFilled(log: seq<Output>, last: int, held: map<nat, Frame>, arrivals: seq<Frame>, f: Frame)
    requires InStep(log, last, held, arrivals, f.epoch) && f.seqNo == last + 1
    ensures var n := Gap(held, f.seqNo + 1);
      InStep(log + [Chunk(f)] + ChunkLog(Chunks(held, f.seqNo + 1, n)), n - 1, Above(held, n), arrivals + [f], f.epoch)
  {
    var r := Read(log);
    ArrivalsGrow(arrivals, f);
    SettledFilled(r.run, last, held, Arrived(Of(arrivals, f.epoch)), r.start, f);
    ReleaseReads(log, f, held);
  }

  /** The parts of a view that `Fill` decides, as a relation. */
  ghost predicate Fills(v: View, f: Frame, w: View) {
    var n := Gap(v.held, f.seqNo + 1);
    && w.phase == v.phase && w.epoch == v.epoch && w.restartPending == v.restartPending
    && w.arrivals == v.arrivals && w.buffer == v.buffer && w.bufferBytes == v.bufferBytes
    && w.last == n - 1 && w.held == Above(v.held, n)
    && w.heldBytes == v.heldBytes - Size(Chunks(v.held, f.seqNo + 1, n))
    && w.log == v.log + [Chunk(f)] + ChunkLog(Chunks(v.held, f.seqNo + 1, n))
  }

  lemma FillFills(v: View, f: Frame)
    ensures Fills(v, f, Fill(v, f))
  {
  }

  /** The frame that fills the hole releases exactly what now follows on. */
  lemma HoleFilled(v: View, f: Frame, w: View)
    requires Delivery(v) && v.phase.Live? && v.epoch == Some(f.epoch) && f.seqNo == v.last + 1
    requires Fills(v.(arrivals := v.arrivals + [f]), f, w)
    ensures Delivery(w)
  {
    InStepFilled(v.log, v.last, v.held, v.arrivals, f);
  }

  /** A frame off the hole changes at most what is held. */
  lemma SettledStays(run: seq<Frame>, last: int, held: map<nat, Frame>, a: map<nat, Frame>, start: int, f: Frame)
    requires Settled(run, last, held, a, start) && f.seqNo != last + 1
    ensures var b := if f.seqNo in a then a else a[f.seqNo := f];
      Settled(run, last, if f.seqNo > last + 1 && f.seqNo !in held then held[f.seqNo := f] else held, b, start)
  {
    if f.seqNo !in a {
      GapStays(a, start, f);
    }
  }

  /** A frame off the hole is ignored or held. */
  lemma HoleStays(v: View, f: Frame, held: map<nat, Frame>, heldBytes: int)
    requires Delivery(v) && v.phase.Live? && v.epoch == Some(f.epoch) && f.seqNo != v.last + 1
    requires held == if f.seqNo > v.last + 1 && f.seqNo !in v.held then v.held[f.seqNo := f] else v.held
    ensures Delivery(v.(arrivals := v.arrivals + [f], held := held, heldBytes := heldBytes))
  {
    var r := Read(v.log);
    ArrivalsGrow(v.arrivals, f);
    SettledStays(r.run, v.last, v.held, Arrived(Of(v.arrivals, f.epoch)), r.start, f);
  }

  /** Starting over keeps the cursor and what the consumer has read. */
  lemma StartDelivers(v: View, epoch: Option<Epoch>, resetLadder: bool, newSession: bool)
    requires Anchored(Read(v.log), v.last, v.epoch, v.restartPending)
    requires if newSession then epoch.None? else epoch == v.epoch
    ensures Delivery(StartBuffering(v, epoch, resetLadder, newSession))
  {
    StartReads(v, epoch, resetLadder, newSession);
  }

  /** What `HoldLive` can make of a frame: nothing, one more held frame, or a fresh start. */
  lemma HoldCases(v: View, f: Frame)
    ensures var w := v.(held := v.held[f.seqNo := f], heldBytes := v.heldBytes + |f.bytes|);
      HoldLive(v, f) in {v, w, StartBuffering(w, w.epoch, false, false)}
    ensures HoldLive(v, f) == v <==> f.seqNo in v.held
  {
    var w := v.(held := v.held[f.seqNo := f], heldBytes := v.heldBytes + |f.bytes|);
    if f.seqNo !in v.held {
      assert f.seqNo in w.held;
      assert |StartBuffering(w, w.epoch, false, false).log| == |v.log| + 2;
    }
  }

  lemma HoldDelivers(v: View, f: Frame)
    requires Delivery(v) && v.phase.Live? && v.epoch == Some(f.epoch) && f.seqNo > v.last + 1
    ensures Delivery(HoldLive(v.(arrivals := v.arrivals + [f]), f))
  {
    var x := v.(arrivals := v.arrivals + [f]);
    var w := x.(held := v.held[f.seqNo := f], heldBytes := v.heldBytes + |f.bytes|);
    StartDelivers(w, w.epoch, false, false);
    HoldCases(x, f);
    if f.seqNo in v.held {
      HoleStays(v, f, v.held, v.heldBytes);
    } else {
      HoleStays(v, f, w.held, w.heldBytes);
    }
  }

  /** What a flush adds to a clean log reads as: back to work at `start`, up to the first hole. */
  lemma FlushReads(log: seq<Output>, m: Marker, a: map<nat, Frame>)
    requires var r := Read(log);
      r.Reading? && FiledFor(a, m.epoch) && (r.epoch.None? || r.epoch.value == m.epoch)
    ensures var r := Read(log);
      var start := Max(r.cursor + 1, m.replayFrom);
      var n := Gap(a, start);
      Read(log + [Flushed(m)] + ChunkLog(Chunks(a, start, n))
           + [Announced(Live, Some(LiveInfo(m.continuesConversation, m.epoch)))])
      == Reading(n - 1, Some(m.epoch), start, Chunks(a, start, n))
  {
    var start := Max(Read(log).cursor + 1, m.replayFrom);
    var n := Gap(a, start);
    ReadSnoc(log, Flushed(m));
    ReadChunks(log + [Flushed(m)], a, start, n, m.epoch);
    assert [] + Chunks(a, start, n) == Chunks(a, start, n);
    ReadSilent(log + [Flushed(m)] + ChunkLog(Chunks(a, start, n)),
               Announced(Live, Some(LiveInfo(m.continuesConversation, m.epoch))));
  }

  lemma ClearedReads(v: View, e: Epoch)
    requires Anchored(Read(v.log), v.last, v.epoch, v.restartPending)
    requires v.epoch.None? || v.epoch.value == e
    ensures var r := Read(Cleared(v));
      r.Reading? && r.cursor == ClearedCursor(v) && (r.epoch.None? || r.epoch.value == e)
  {
    ReadSnoc(v.log, Reset);
  }

  /** The parts of a view that `Flush` decides, as a relation; `a` are the arrivals of the marker's incarnation. */
  ghost predicate Flushes(v: View, m: Marker, a: map<nat, Frame>, w: View)
    requires v.last >= -1
  {
    var start := Max(ClearedCursor(v) + 1, m.replayFrom);
    var n := Gap(a, start);
    && w.phase == Live && w.epoch == Some(m.epoch) && !w.restartPending
    && w.arrivals == v.arrivals && w.buffer == [] && w.bufferBytes == 0
    && w.last == n - 1 && w.held == Above(a, n) && w.heldBytes == Bytes(w.held)
    && w.log == Cleared(v) + [Flushed(m)] + ChunkLog(Chunks(a, start, n))
                + [Announced(Live, Some(LiveInfo(m.continuesConversation, m.epoch)))]
  }

  lemma FlushFlushes(v: View, m: Marker)
    requires v.last >= -1
    ensures Flushes(v, m, Arrived(Of(v.buffer, m.epoch)), Flush(v, m))
  {
  }

  lemma InStepFlushed(log: seq<Output>, m: Marker, arrivals: seq<Frame>)
    requires var r := Read(log);
      r.Reading? && (r.epoch.None? || r.epoch.value == m.epoch)
    ensures var a := Arrived(Of(arrivals, m.epoch));
      var start := Max(Read(log).cursor + 1, m.replayFrom);
      var n := Gap(a, start);
      InStep(log + [Flushed(m)] + ChunkLog(Chunks(a, start, n))
             + [Announced(Live, Some(LiveInfo(m.continuesConversation, m.epoch)))],
             n - 1, Above(a, n), arrivals, m.epoch)
  {
    ArrivedFiled(arrivals, m.epoch);
    FlushReads(log, m, Arrived(Of(arrivals, m.epoch)));
  }

  lemma FlushesDelivers(v: View, m: Marker, a: map<nat, Frame>, w: View)
    requires Read(Cleared(v)).Reading? && Read(Cleared(v)).cursor == ClearedCursor(v) >= -1 && v.last >= -1
    requires Read(Cleared(v)).epoch.None? || Read(Cleared(v)).epoch.value == m.epoch
    requires a == Arrived(Of(w.arrivals, m.epoch)) && Flushes(v, m, a, w)
    ensures Delivery(w)
  {
    InStepFlushed(Cleared(v), m, w.arrivals);
    assert InStep(w.log, w.last, w.held, w.arrivals, m.epoch);
  }

  lemma FlushDelivers(v: View, m: Marker)
    requires Delivery(v) && v.phase.Buffering? && (v.epoch.None? || v.epoch.value == m.epoch)
    ensures Delivery(Flush(v, m))
  {
    OfAccepted(v.arrivals, v.epoch, m.epoch);
    FlushFlushes(v, m);
    ClearedReads(v, m.epoch);
    FlushesDelivers(v, m, Arrived(Of(v.arrivals, m.epoch)), Flush(v, m));
  }

  lemma JudgeDelivers(v: View, m: Marker, gen: nat)
    requires Delivery(v) && v.phase.Buffering?
    ensures Delivery(Judge(v, m, gen))
  {
    LadderReads(v);
    if v.epoch.None? || v.epoch.value == m.epoch {
      FlushDelivers(v, m);
    }
  }

  /** A frame kept in the buffer, or a buffer thrown away whole. */
  lemma PushDelivers(v: View, f: Frame)
    requires Delivery(v) && v.phase.Buffering? && (v.epoch.None? || v.epoch.value == f.epoch)
    ensures Delivery(PushBuffer(v.(arrivals := v.arrivals + [f]), f))
  {
    if v.epoch.Some? {
      OfSnoc(v.arrivals, f, f.epoch);
    }
    ReadSilent(v.log, Overflowed);
    LadderReads(Discarded(v));
  }

  lemma LiveFrameDelivers(v: View, f: Frame)
    requires Delivery(v) && v.phase.Live? && v.epoch == Some(f.epoch)
    ensures Delivery(LiveFrame(v.(arrivals := v.arrivals + [f]), f))
  {
    if f.seqNo == v.last + 1 {
      var x := v.(arrivals := v.arrivals + [f]);
      FillFills(x, f);
      HoleFilled(v, f, Fill(x, f));
    } else if f.seqNo > v.last {
      HoldDelivers(v, f);
    } else {
      HoleStays(v, f, v.held, v.heldBytes);
    }
  }

  lemma FrameDelivers(v: View, f: Frame)
    requires Delivery(v)
    ensures Delivery(OnFrame(v, f))
  {
    if v.epoch.Some? && v.epoch.value != f.epoch {
      OfSnoc(v.arrivals, f, v.epoch.value);
    } else if v.phase.Buffering? {
      PushDelivers(v, f);
    } else if v.phase.Live? {
      LiveFrameDelivers(v, f);
    }
  }

  lemma AnswerDelivers(v: View, req: nat, gen: nat)
    requires Delivery(v)
    ensures Delivery(OnAnswer(v, req, gen))
  {
    ReadSilent(v.log, Answered(req, gen));
    if v.phase.Buffering? && v.heldMarker.Some? {
      JudgeDelivers(v.(myGen := Some(gen), log := v.log + [Answered(req, gen)], heldMarker := None),
                    v.heldMarker.value, gen);
    }
  }

  lemma PresentDelivers(v: View, tag: Option<Epoch>)
    requires Delivery(v)
    ensures Delivery(OnPresent(v, tag))
  {
    var newSession := v.epoch.Some? && tag != v.epoch;
    StartDelivers(v, if newSession then None else v.epoch, true, newSession);
  }

  /** Every single event keeps delivery right. */
  lemma StepDelivers(v: View, e: Event)
    requires Delivery(v)
    ensures Delivery(Next(v, e))
  {
    match e
    case FrameIn(f) => FrameDelivers(v, f);
    case MarkerIn(m) => MarkerDelivers(v, m);
    case AnswerIn(req, gen) => AnswerDelivers(v, req, gen);
    case BackoffFires => TimersDeliver(v);
    case WatchdogFires => TimersDeliver(v);
    case Present(tag) => PresentDelivers(v, tag);
    case Absent => ReadSilent(v.log, Announced(Detached, None));
    case Disconnected => ReadSilent(v.log, Announced(Detached, None));
    case Mounted(canAttach) =>
      ReadSilent(v.log, Requested);
      ReadSilent(v.log, Announced(Detached, None));
  }

  lemma MarkerDelivers(v: View, m: Marker)
    requires Delivery(v)
    ensures Delivery(OnMarker(v, m))
  {
    if v.phase.Buffering? && v.myGen.Some? {
      JudgeDelivers(v, m, v.myGen.value);
    }
  }

  lemma TimersDeliver(v: View)
    requires Delivery(v)
    ensures Delivery(OnBackoff(v)) && Delivery(OnWatchdog(v))
  {
    ReadSilent(v.log, Requested);
    LadderReads(v.(watchdog := false));
  }

  /** Over every run delivery is right. */
  lemma {:induction false} RunDelivers(es: seq<Event>)
    ensures Delivery(Run(FRESH, es))
  {
    if es != [] {
      RunDelivers(es[..|es| - 1]);
      StepDelivers(Run(FRESH, es[..|es| - 1]), es[|es| - 1]);
    }
  }

  // ── The theorems a reader wants ────────────────────────────────────────────

  /** In order, once each: over every run, between two resets the delivered numbers strictly increase. */
  lemma DeliveredInOrder(es: seq<Event>, i: nat, j: nat)
    requires var log := Run(FRESH, es).log;
      i < j < |log| && log[i].Chunk? && log[j].Chunk? && NoReset(log, i, j)
    ensures Run(FRESH, es).log[i].frame.seqNo < Run(FRESH, es).log[j].frame.seqNo
  {
    RunDelivers(es);
    DeliveriesIncrease(Run(FRESH, es).log, i, j);
  }

  /** Without skipping: over every run, each number up to the cursor was delivered or evicted before a replay. */
  lemma DeliveredWithoutSkips(es: seq<Event>, s: nat) returns (k: nat)
    requires s <= Run(FRESH, es).last
    ensures var log := Run(FRESH, es).log;
      k < |log| && Accounted(log[k], s) && NoReset(log, k, |log|)
  {
    RunDelivers(es);
    k := NothingSkipped(Run(FRESH, es).log, s);
  }

  /** Never mixed: over every run, chunks and flushes of two incarnations have a reset between them. */
  lemma IncarnationsNeverMix(es: seq<Event>, i: nat, j: nat)
    requires var log := Run(FRESH, es).log;
      && i < j < |log| && Incarnation(log[i]).Some? && Incarnation(log[j]).Some?
      && Incarnation(log[i]) != Incarnation(log[j])
    ensures exists k :: i < k < j && Run(FRESH, es).log[k] == Reset
  {
    RunDelivers(es);
    IncarnationsSeparated(Run(FRESH, es).log, i, j);
  }

  /** The view after some run. */
  ghost predicate Reached(v: View) {
    exists es :: v == Run(FRESH, es)
  }

  lemma ReachedDelivers(v: View)
    requires Reached(v)
    ensures Delivery(v)
  {
    var es :| v == Run(FRESH, es);
    RunDelivers(es);
  }

  /** Where the consumer's last replay began, and what it has been given since. */
  ghost function Began(log: seq<Output>): int {
    if Read(log).Reading? then Read(log).start else 0
  }

  ghost function Delivered(log: seq<Output>): seq<Frame> {
    if Read(log).Reading? then Read(log).run else []
  }

  /**
   Arrival order does not matter.  Take the views after any two runs, with any markers, timers, answers and roster
   observations in them, that are live on the same incarnation from the same start.  If the same frames reached both,
   in whatever order, however often and on whichever side of the marker, both have delivered the same frames and hold
   the same frames.
   */
  lemma ArrivalOrderDoesNotMatter(v: View, w: View)
    requires Reached(v) && Reached(w)
    requires v.phase.Live? && w.phase.Live? && v.epoch == w.epoch && Began(v.log) == Began(w.log)
    requires (forall f: Frame :: f in v.arrivals <==> f in w.arrivals) && Coherent(v.arrivals + w.arrivals)
    ensures v.last == w.last && v.held == w.held && Delivered(v.log) == Delivered(w.log)
  {
    ReachedDelivers(v);
    ReachedDelivers(w);
    ArrivedBySet(v.arrivals, w.arrivals, v.epoch.value);
  }

  // ── Memory ─────────────────────────────────────────────────────────────────

  /** Both stores stay within the view buffer limits, and both counters are exact. */
  ghost predicate Bounded(v: View) {
    && v.bufferBytes == Size(v.buffer) <= 4 * 1024 * 1024
    && |v.buffer| <= 8192
    && v.heldBytes == Bytes(v.held) <= 4 * 1024 * 1024
    && |v.held| <= 8192
  }

  lemma FlushBounded(v: View, m: Marker)
    requires Bounded(v) && v.last >= -1
    ensures Bounded(Flush(v, m))
  {
    var a := Arrived(Of(v.buffer, m.epoch));
    OfFits(v.buffer, m.epoch);
    ArrivedFits(Of(v.buffer, m.epoch));
    SubFits(Flush(v, m).held, a);
  }

  lemma HoldBounded(v: View, f: Frame)
    requires Bounded(v)
    ensures Bounded(HoldLive(v, f))
  {
    if f.seqNo !in v.held {
      BytesInsert(v.held, f);
    }
  }

  /** Releasing a run leaves an exact count of a table that only shrank. */
  lemma FillFits(held: map<nat, Frame>, lo: nat)
    requires forall s :: s in held ==> s >= lo
    ensures var n := Gap(held, lo);
      && Bytes(held) - Size(Chunks(held, lo, n)) == Bytes(Above(held, n)) <= Bytes(held)
      && |Above(held, n)| <= |held|
  {
    var n := Gap(held, lo);
    BytesSplit(held, lo, n);
    SubFits(Above(held, n), held);
  }

  lemma FillBounded(v: View, f: Frame)
    requires Bounded(v) && forall s :: s in v.held ==> s > f.seqNo
    ensures Bounded(Fill(v, f))
  {
    FillFits(v.held, f.seqNo + 1);
  }

  lemma LiveFrameBounded(v: View, f: Frame)
    requires Bounded(v) && v.last >= -1 && forall s :: s in v.held ==> s > v.last + 1
    ensures Bounded(LiveFrame(v, f))
  {
    if f.seqNo == v.last + 1 {
      FillBounded(v, f);
    } else {
      HoldBounded(v, f);
    }
  }

  lemma PushBounded(v: View, f: Frame)
    requires Bounded(v)
    ensures Bounded(PushBuffer(v, f))
  {
    SizeSnoc(v.buffer, f);
  }

  lemma FrameBounded(v: View, f: Frame)
    requires Delivery(v) && Bounded(v)
    ensures Bounded(OnFrame(v, f))
  {
    var w := v.(arrivals := v.arrivals + [f]);
    if v.phase.Buffering? {
      PushBounded(w, f);
    } else if v.phase.Live? {
      LiveFrameBounded(w, f);
    }
  }

  lemma JudgeBounded(v: View, m: Marker, gen: nat)
    requires Bounded(v) && v.last >= -1
    ensures Bounded(Judge(v, m, gen))
  {
    FlushBounded(v, m);
  }

  lemma PresentBounded(v: View, tag: Option<Epoch>)
    requires Bounded(v)
    ensures Bounded(OnPresent(v, tag))
  {
  }

  lemma StepBounded(v: View, e: Event)
    requires Delivery(v) && Bounded(v)
    ensures Bounded(Next(v, e))
  {
    match e
    case FrameIn(f) => FrameBounded(v, f);
    case MarkerIn(m) => MarkerBounded(v, m);
    case AnswerIn(req, gen) => AnswerBounded(v, req, gen);
    case Present(tag) => PresentBounded(v, tag);
    case BackoffFires =>
    case WatchdogFires => LadderBounded(v.(watchdog := false));
    case Absent => DetachBounded(v);
    case Disconnected => DetachBounded(v);
    case Mounted(canAttach) =>
  }

  lemma MarkerBounded(v: View, m: Marker)
    requires Delivery(v) && Bounded(v)
    ensures Bounded(OnMarker(v, m))
  {
    if v.myGen.Some? {
      JudgeBounded(v, m, v.myGen.value);
    }
  }

  lemma LadderBounded(v: View)
    requires Bounded(v)
    ensures Bounded(Ladder(v))
  {
  }

  lemma DetachBounded(v: View)
    requires Bounded(v)
    ensures Bounded(Detach(v))
  {
  }

  lemma AnswerBounded(v: View, req: nat, gen: nat)
    requires Delivery(v) && Bounded(v)
    ensures Bounded(OnAnswer(v, req, gen))
  {
    if v.heldMarker.Some? {
      JudgeBounded(v.(myGen := Some(gen), log := v.log + [Answered(req, gen)], heldMarker := None), v.heldMarker.value, gen);
    }
  }

  /** Over every run a view's memory is bounded, although a flush never tests the limit of the held table. */
  lemma {:induction false} RunBounded(es: seq<Event>)
    ensures Bounded(Run(FRESH, es))
  {
    if es != [] {
      RunBounded(es[..|es| - 1]);
      RunDelivers(es[..|es| - 1]);
      StepBounded(Run(FRESH, es[..|es| - 1]), es[|es| - 1]);
    }
  }

  // ── The held table outside the live phase ──────────────────────────────────

  /** What the comment on `heldFrames` promises: outside the live phase nothing is held. */
  ghost predicate HeldOnlyLive(v: View) { !v.phase.Live? ==> v.held == map[] }

  /** The one event that breaks the promise: a mount that may not attach, finding the view live with held frames. */
  ghost predicate DropsLiveView(v: View, e: Event) {
    e == Mounted(false) && v.phase.Live? && v.held != map[]
  }

  /** Exactly that event breaks it. */
  lemma HeldOnlyLiveStep(v: View, e: Event)
    requires v.last >= -1 && HeldOnlyLive(v)
    ensures HeldOnlyLive(Next(v, e)) <==> !DropsLiveView(v, e)
  {
  }

  /** Over every run without that event the promise holds. */
  lemma {:induction false} RunHeldOnlyLive(es: seq<Event>)
    requires forall i :: 0 <= i < |es| ==> !DropsLiveView(Run(FRESH, es[..i]), es[i])
    ensures HeldOnlyLive(Run(FRESH, es))
  {
    if es != [] {
      var front := es[..|es| - 1];
      forall i | 0 <= i < |front| ensures !DropsLiveView(Run(FRESH, front[..i]), front[i]) {
        assert front[..i] == es[..i];
      }
      RunHeldOnlyLive(front);
      HeldOnlyLiveStep(Run(FRESH, front), es[|es| - 1]);
    }
  }
}
