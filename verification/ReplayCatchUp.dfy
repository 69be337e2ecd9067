/**
 A view that comes back catches up.  Whatever happened before, once the roster lists the agent of a view that was
 detached, had failed or was on another incarnation, and the replay it asks for arrives within the limits, the view is
 live and has delivered everything up to the first number the replay did not bring.  The frames, the marker that
 closes the replay, the answer with its generation and markers of older replays may come in any order.
 */
module ReplayCatchUp {
  import opened Wrappers
  import opened Frames
  import opened ReplaySpec
  import opened ReplayLog
  import opened ReplayInvariants

  /** The frames among these events, in order. */
  ghost function FramesOf(es: seq<Event>): seq<Frame> {
    if es == [] then []
    else
      var front := FramesOf(es[..|es| - 1]);
      if es[|es| - 1].FrameIn? then front + [es[|es| - 1].frame] else front
  }

  /** A waiting view with these frames buffered as they came. */
  ghost function Filled(v: View, fs: seq<Frame>): View {
    v.(buffer := v.buffer + Accepted(fs, v.epoch), bufferBytes := v.bufferBytes + Size(Accepted(fs, v.epoch)),
       arrivals := v.arrivals + fs)
  }

  lemma FillsOne(v: View, fs: seq<Frame>, f: Frame)
    requires v.last >= -1 && v.phase.Buffering? && v.buffer == [] && v.bufferBytes == 0
    requires |Accepted(fs + [f], v.epoch)| <= VIEW_BUFFER_MAX_FRAMES
    requires Size(Accepted(fs + [f], v.epoch)) <= VIEW_BUFFER_MAX_BYTES
    ensures OnFrame(Filled(v, fs), f) == Filled(v, fs + [f])
  {
    OfSnocs(fs, f, v.epoch);
    if v.epoch.None? || f.epoch == v.epoch.value {
      FillsAccepted(v, fs, f);
    } else {
      FillsOther(v, fs, f);
    }
  }

  lemma FillsAccepted(v: View, fs: seq<Frame>, f: Frame)
    requires v.last >= -1 && v.phase.Buffering? && v.buffer == [] && v.bufferBytes == 0
    requires (v.epoch.None? || f.epoch == v.epoch.value) && Accepted(fs + [f], v.epoch) == Accepted(fs, v.epoch) + [f]
    requires |Accepted(fs + [f], v.epoch)| <= VIEW_BUFFER_MAX_FRAMES
    requires Size(Accepted(fs + [f], v.epoch)) <= VIEW_BUFFER_MAX_BYTES
    ensures OnFrame(Filled(v, fs), f) == Filled(v, fs + [f])
  {
    var u, all := Filled(v, fs), Accepted(fs, v.epoch);
    var w := u.(arrivals := u.arrivals + [f]);
    assert w.arrivals == v.arrivals + (fs + [f]);
    SizeSnoc(all, f);
    assert OnFrame(u, f) == PushBuffer(w, f);
    PushFits(w, f);
    assert w.buffer + [f] == v.buffer + (all + [f]);
  }

  lemma FillsOther(v: View, fs: seq<Frame>, f: Frame)
    requires v.last >= -1 && v.phase.Buffering? && v.epoch.Some? && f.epoch != v.epoch.value
    requires Accepted(fs + [f], v.epoch) == Accepted(fs, v.epoch)
    ensures OnFrame(Filled(v, fs), f) == Filled(v, fs + [f])
  {
    assert v.arrivals + (fs + [f]) == (v.arrivals + fs) + [f];
  }

  lemma PushFits(v: View, f: Frame)
    requires v.bufferBytes + |f.bytes| <= VIEW_BUFFER_MAX_BYTES && |v.buffer| < VIEW_BUFFER_MAX_FRAMES
    ensures PushBuffer(v, f) == v.(buffer := v.buffer + [f], bufferBytes := v.bufferBytes + |f.bytes|)
  {
  }

  lemma OfSnocs(fs: seq<Frame>, f: Frame, epoch: Option<Epoch>)
    ensures Accepted(fs + [f], epoch) ==
      if epoch.None? || f.epoch == epoch.value then Accepted(fs, epoch) + [f] else Accepted(fs, epoch)
  {
    if epoch.Some? {
      OfSnoc(fs, f, epoch.value);
    }
  }

  lemma AcceptedFits(fs: seq<Frame>, epoch: Option<Epoch>)
    ensures |Accepted(fs, epoch)| <= |fs| && Size(Accepted(fs, epoch)) <= Size(fs)
  {
    if epoch.Some? {
      OfFits(fs, epoch.value);
    }
  }

  /** The roster says something that makes this view start over. */
  ghost predicate Reattaches(v: View, tag: Option<Epoch>) {
    v.phase.Detached? || v.phase.Failed? || (v.epoch.Some? && tag != v.epoch)
  }

  /** The view once it has started over; its request is not answered yet. */
  ghost predicate StartedOver(w: View, v: View, tag: Option<Epoch>) {
    var newSession := v.epoch.Some? && tag != v.epoch;
    && w.phase.Buffering? && w.myGen.None? && w.heldMarker.None?
    && w.buffer == [] && w.bufferBytes == 0 && w.arrivals == []
    && w.last == v.last && w.restartPending == (v.restartPending || newSession)
    && w.epoch == if newSession then None else v.epoch
  }

  lemma StartsOver(v: View, tag: Option<Epoch>)
    requires v.last >= -1 && Reattaches(v, tag)
    ensures StartedOver(Next(v, Present(tag)), v, tag)
  {
  }

  /** Where the consumer's cursor is when the new incarnation, or the rest of the old one, begins. */
  ghost function Head(v: View, tag: Option<Epoch>, m: Marker): int {
    var wiped := v.restartPending || (v.epoch.Some? && tag != v.epoch);
    Max((if wiped then -1 else v.last) + 1, m.replayFrom)
  }

  lemma OfOf(fs: seq<Frame>, e: Epoch)
    ensures Of(Of(fs, e), e) == Of(fs, e)
  {
    OfMembers(fs, e);
    OfAll(Of(fs, e), e);
  }

  lemma {:induction false} OfAll(fs: seq<Frame>, e: Epoch)
    requires forall f :: f in fs ==> f.epoch == e
    ensures Of(fs, e) == fs
  {
    if fs != [] {
      var n := |fs| - 1;
      assert fs[n] in fs && fs == fs[..n] + [fs[n]];
      OfAll(fs[..n], e);
    }
  }

  // ── Any order of frames, markers and the answer ────────────────────────────

  /** What may happen: frames, the answer `gen`, the closing marker `m`, and markers of older replays. */
  ghost predicate Belongs(e: Event, gen: nat, m: Marker) {
    || e.FrameIn?
    || (e.AnswerIn? && e.gen == gen)
    || (e.MarkerIn? && (e.marker == m || e.marker.gen < gen))
  }

  ghost predicate HasAnswer(es: seq<Event>) {
    exists i :: 0 <= i < |es| && es[i].AnswerIn?
  }

  ghost predicate HasMarker(es: seq<Event>, m: Marker) {
    MarkerIn(m) in es
  }

  /** Only the last of these events makes the answer and the closing marker both known. */
  ghost predicate Replay(es: seq<Event>, gen: nat, m: Marker) {
    && (forall e :: e in es ==> Belongs(e, gen, m))
    && es != [] && HasAnswer(es) && HasMarker(es, m)
    && !(HasAnswer(es[..|es| - 1]) && HasMarker(es[..|es| - 1], m))
  }

  /** Generation and kept marker while the answer or the closing marker is still to come. */
  ghost predicate Knows(x: View, es: seq<Event>, gen: nat, m: Marker) {
    if HasAnswer(es) then x.myGen == Some(gen) && x.heldMarker.None?
    else x.myGen.None? && if HasMarker(es, m) then x.heldMarker == Some(m)
                          else x.heldMarker.None? || x.heldMarker.value.gen < gen
  }

  /** `x` has buffered the frames and otherwise only its generation, kept marker and log have changed. */
  ghost predicate Gathered(w: View, x: View, es: seq<Event>, gen: nat, m: Marker) {
    && x == Filled(w, FramesOf(es)).(myGen := x.myGen, heldMarker := x.heldMarker, log := x.log)
    && Knows(x, es, gen, m)
  }

  ghost predicate Fits(fs: seq<Frame>) {
    |fs| <= VIEW_BUFFER_MAX_FRAMES && Size(fs) <= VIEW_BUFFER_MAX_BYTES
  }

  lemma FramesSnoc(es: seq<Event>, e: Event)
    ensures FramesOf(es + [e]) == if e.FrameIn? then FramesOf(es) + [e.frame] else FramesOf(es)
    ensures HasAnswer(es + [e]) <==> HasAnswer(es) || e.AnswerIn?
    ensures forall m :: HasMarker(es + [e], m) <==> HasMarker(es, m) || e == MarkerIn(m)
  {
    assert (es + [e])[..|es|] == es;
    if HasAnswer(es) {
      var i :| 0 <= i < |es| && es[i].AnswerIn?;
      assert (es + [e])[i].AnswerIn?;
    }
    if e.AnswerIn? {
      assert (es + [e])[|es|].AnswerIn?;
    }
  }

  lemma FitsLess(fs: seq<Frame>, f: Frame)
    requires Fits(fs + [f])
    ensures Fits(fs)
  {
    SizeSnoc(fs, f);
  }

  lemma FrameGathers(w: View, x: View, es: seq<Event>, f: Frame, gen: nat, m: Marker)
    requires w.last >= -1 && w.phase.Buffering? && w.buffer == [] && w.bufferBytes == 0
    requires Gathered(w, x, es, gen, m) && Fits(FramesOf(es) + [f])
    ensures Gathered(w, OnFrame(x, f), es + [FrameIn(f)], gen, m)
  {
    var fs, u := FramesOf(es), w.(myGen := x.myGen, heldMarker := x.heldMarker, log := x.log);
    FramesSnoc(es, FrameIn(f));
    AcceptedFits(fs + [f], w.epoch);
    FillsOne(u, fs, f);
    assert x == Filled(u, fs);
  }

  lemma AnswerGathers(w: View, x: View, es: seq<Event>, req: nat, gen: nat, m: Marker)
    requires w.last >= -1 && w.phase.Buffering? && Gathered(w, x, es, gen, m) && !HasMarker(es, m)
    ensures Gathered(w, OnAnswer(x, req, gen), es + [AnswerIn(req, gen)], gen, m)
  {
    FramesSnoc(es, AnswerIn(req, gen));
  }

  lemma MarkerGathers(w: View, x: View, es: seq<Event>, n: Marker, gen: nat, m: Marker)
    requires w.last >= -1 && w.phase.Buffering? && Gathered(w, x, es, gen, m) && gen <= m.gen
    requires n.gen < gen || (n == m && !HasAnswer(es))
    ensures Gathered(w, OnMarker(x, n), es + [MarkerIn(n)], gen, m)
  {
    FramesSnoc(es, MarkerIn(n));
  }

  lemma GathersOne(w: View, x: View, es: seq<Event>, e: Event, gen: nat, m: Marker)
    requires w.last >= -1 && w.phase.Buffering? && w.buffer == [] && w.bufferBytes == 0 && gen <= m.gen
    requires Gathered(w, x, es, gen, m) && Belongs(e, gen, m) && Fits(FramesOf(es + [e]))
    requires !(HasAnswer(es + [e]) && HasMarker(es + [e], m))
    ensures x.last >= -1 && Gathered(w, Next(x, e), es + [e], gen, m)
  {
    FramesSnoc(es, e);
    match e
    case FrameIn(f) => FrameGathers(w, x, es, f, gen, m);
    case AnswerIn(req, g) => AnswerGathers(w, x, es, req, gen, m);
    case MarkerIn(n) => MarkerGathers(w, x, es, n, gen, m);
  }

  /** Until both are known the view gathers. */
  lemma {:induction false} Gathers(w: View, es: seq<Event>, gen: nat, m: Marker)
    requires w.last >= -1 && w.phase.Buffering? && w.buffer == [] && w.bufferBytes == 0
    requires w.myGen.None? && w.heldMarker.None? && gen <= m.gen && Fits(FramesOf(es))
    requires (forall e :: e in es ==> Belongs(e, gen, m)) && !(HasAnswer(es) && HasMarker(es, m))
    ensures Gathered(w, Run(w, es), es, gen, m)
    decreases |es|
  {
    if es == [] {
      assert Accepted([], w.epoch) == [] && w.arrivals + [] == w.arrivals;
    } else {
      var front, e := es[..|es| - 1], es[|es| - 1];
      assert es == front + [e] && e in es && forall d :: d in front ==> d in es;
      FramesSnoc(front, e);
      if e.FrameIn? {
        FitsLess(FramesOf(front), e.frame);
      }
      Gathers(w, front, gen, m);
      GathersOne(w, Run(w, front), front, e, gen, m);
    }
  }

  /** The view is live on `m`'s incarnation and has delivered `fs` from `start` up to the first hole. */
  ghost predicate CaughtUp(x: View, fs: seq<Frame>, m: Marker, start: nat) {
    var a := Arrived(Of(fs, m.epoch));
    && x.phase.Live? && x.epoch == Some(m.epoch)
    && x.last == Gap(a, start) - 1 && x.held == Above(a, Gap(a, start))
    && !x.watchdog && !x.backoff && x.attempts == 0
  }

  lemma FlushesAll(x: View, fs: seq<Frame>, m: Marker)
    requires x.last >= -1 && x.buffer == Accepted(fs, x.epoch) && (x.epoch.Some? ==> m.epoch == x.epoch.value)
    ensures Max(ClearedCursor(x) + 1, m.replayFrom) >= 0
    ensures CaughtUp(Flush(x, m), fs, m, Max(ClearedCursor(x) + 1, m.replayFrom))
  {
    OfOf(fs, m.epoch);
    assert Of(Accepted(fs, x.epoch), m.epoch) == Of(fs, m.epoch);
  }

  /** The event that makes both known flushes all that was gathered. */
  lemma LastFlushes(w: View, x: View, front: seq<Event>, e: Event, gen: nat, m: Marker)
    requires w.last >= -1 && w.phase.Buffering? && w.buffer == [] && Gathered(w, x, front, gen, m)
    requires gen <= m.gen && !m.failed && (w.epoch.Some? ==> m.epoch == w.epoch.value)
    requires (e == MarkerIn(m) && HasAnswer(front)) || (e.AnswerIn? && e.gen == gen && HasMarker(front, m) && !HasAnswer(front))
    ensures Max(ClearedCursor(w) + 1, m.replayFrom) >= 0
    ensures CaughtUp(Next(x, e), FramesOf(front), m, Max(ClearedCursor(w) + 1, m.replayFrom))
  {
    GatheredFacts(w, x, front, gen, m);
    if e.MarkerIn? {
      ClosesByMarker(x, FramesOf(front), gen, m);
    } else {
      ClosesByAnswer(x, FramesOf(front), e.req, gen, m);
    }
  }

  lemma ClosesByMarker(x: View, fs: seq<Frame>, gen: nat, m: Marker)
    requires x.last >= -1 && x.phase.Buffering? && x.myGen == Some(gen) && x.buffer == Accepted(fs, x.epoch)
    requires gen <= m.gen && !m.failed && (x.epoch.Some? ==> m.epoch == x.epoch.value)
    ensures Max(ClearedCursor(x) + 1, m.replayFrom) >= 0
    ensures CaughtUp(OnMarker(x, m), fs, m, Max(ClearedCursor(x) + 1, m.replayFrom))
  {
    MarkerFlushes(x, gen, m);
    FlushesAll(x, fs, m);
  }

  lemma ClosesByAnswer(x: View, fs: seq<Frame>, req: nat, gen: nat, m: Marker)
    requires x.last >= -1 && x.phase.Buffering? && x.heldMarker == Some(m) && x.buffer == Accepted(fs, x.epoch)
    requires gen <= m.gen && !m.failed && (x.epoch.Some? ==> m.epoch == x.epoch.value)
    ensures Max(ClearedCursor(x) + 1, m.replayFrom) >= 0
    ensures CaughtUp(OnAnswer(x, req, gen), fs, m, Max(ClearedCursor(x) + 1, m.replayFrom))
  {
    AnswerFlushes(x, req, gen, m);
    FlushesAll(x.(myGen := Some(gen), log := x.log + [Answered(req, gen)], heldMarker := None), fs, m);
  }

  lemma MarkerFlushes(x: View, gen: nat, m: Marker)
    requires x.last >= -1 && x.phase.Buffering? && x.myGen == Some(gen)
    requires gen <= m.gen && !m.failed && (x.epoch.Some? ==> m.epoch == x.epoch.value)
    ensures OnMarker(x, m) == Flush(x, m)
  {
  }

  lemma AnswerFlushes(x: View, req: nat, gen: nat, m: Marker)
    requires x.last >= -1 && x.phase.Buffering? && x.heldMarker == Some(m)
    requires gen <= m.gen && !m.failed && (x.epoch.Some? ==> m.epoch == x.epoch.value)
    ensures OnAnswer(x, req, gen)
      == Flush(x.(myGen := Some(gen), log := x.log + [Answered(req, gen)], heldMarker := None), m)
  {
  }

  lemma GatheredFacts(w: View, x: View, es: seq<Event>, gen: nat, m: Marker)
    requires w.phase.Buffering? && w.buffer == [] && Gathered(w, x, es, gen, m)
    ensures x.phase.Buffering? && x.buffer == Accepted(FramesOf(es), x.epoch) && x.epoch == w.epoch
    ensures x.last == w.last && ClearedCursor(x) == ClearedCursor(w)
    ensures HasAnswer(es) ==> x.myGen == Some(gen)
    ensures !HasAnswer(es) && HasMarker(es, m) ==> x.heldMarker == Some(m)
  {
    assert [] + Accepted(FramesOf(es), w.epoch) == Accepted(FramesOf(es), w.epoch);
  }

  lemma ReplayCatchesUp(w: View, es: seq<Event>, gen: nat, m: Marker)
    requires w.last >= -1 && w.phase.Buffering? && w.buffer == [] && w.bufferBytes == 0
    requires w.myGen.None? && w.heldMarker.None? && Replay(es, gen, m) && Fits(FramesOf(es))
    requires gen <= m.gen && !m.failed && (w.epoch.Some? ==> m.epoch == w.epoch.value)
    ensures Max(ClearedCursor(w) + 1, m.replayFrom) >= 0
    ensures CaughtUp(Run(w, es), FramesOf(es), m, Max(ClearedCursor(w) + 1, m.replayFrom))
  {
    var front, e := es[..|es| - 1], es[|es| - 1];
    assert es == front + [e] && e in es && forall d :: d in front ==> d in es;
    FramesSnoc(front, e);
    Gathers(w, front, gen, m);
    LastFlushes(w, Run(w, front), front, e, gen, m);
  }

  /**
   From every reachable view that the roster makes start over: a request's answer, its replay and its marker, in any
   order and with markers of older replays in between, leave the view live, with everything from the head up to the
   first missing number delivered, the rest held, the ladder reset and no timer armed.
   */
  lemma CatchesUp(past: seq<Event>, tag: Option<Epoch>, es: seq<Event>, gen: nat, m: Marker)
    requires Reattaches(Run(FRESH, past), tag) && Replay(es, gen, m) && Fits(FramesOf(es))
    requires gen <= m.gen && !m.failed
    requires Run(FRESH, past).epoch.Some? && tag == Run(FRESH, past).epoch ==> Some(m.epoch) == tag
    ensures Head(Run(FRESH, past), tag, m) >= 0
    ensures CaughtUp(Run(Next(Run(FRESH, past), Present(tag)), es), FramesOf(es), m, Head(Run(FRESH, past), tag, m))
  {
    var v := Run(FRESH, past);
    StartsOver(v, tag);
    ReplayCatchesUp(Next(v, Present(tag)), es, gen, m);
  }

  ghost predicate Brings(fs: seq<Frame>, e: Epoch, s: int) {
    exists f :: f in fs && f.epoch == e && f.seqNo == s
  }

  lemma GapBeyond(fs: seq<Frame>, e: Epoch, start: nat, n: int)
    requires forall s: int :: start <= s <= n ==> Brings(fs, e, s)
    ensures Gap(Arrived(Of(fs, e)), start) > n
  {
    var gap := Gap(Arrived(Of(fs, e)), start);
    OfMembers(fs, e);
    ArrivedMembers(Of(fs, e));
    assert !Brings(fs, e, gap);
  }

  /** Nothing is missing: if the replay brings every number from the head up to `n`, all of them are delivered. */
  lemma CatchesUpCompletely(past: seq<Event>, tag: Option<Epoch>, es: seq<Event>, gen: nat, m: Marker, n: int)
    requires Reattaches(Run(FRESH, past), tag) && Replay(es, gen, m) && Fits(FramesOf(es))
    requires gen <= m.gen && !m.failed
    requires Run(FRESH, past).epoch.Some? && tag == Run(FRESH, past).epoch ==> Some(m.epoch) == tag
    requires forall s: int :: Head(Run(FRESH, past), tag, m) <= s <= n ==> Brings(FramesOf(es), m.epoch, s)
    ensures Run(Next(Run(FRESH, past), Present(tag)), es).last >= n
  {
    CatchesUp(past, tag, es, gen, m);
    GapBeyond(FramesOf(es), m.epoch, Head(Run(FRESH, past), tag, m), n);
  }
}
