/**
 The generation fence: a view flushes only for the generation last returned to it, and only while nothing has voided
 that generation; and it does not matter which of a marker and the generation answer it races with comes first.
 */
module ReplayFence {
  import opened Wrappers
  import opened Frames
  import opened ReplaySpec
  import opened ReplayInvariants

  // ── A reader of the log that keeps the fence ───────────────────────────────

  datatype Pass = Pass(req: nat, gen: nat)

  /**
   `pass` is the last answer, unless something voided it; `asked` counts the requests, and those numbered below
   `voided` were made before the last overflow.
   */
  datatype Fence = Broken | Fence(pass: Option<Pass>, asked: nat, voided: nat)

  /** A new request, an overflow and a detachment void the generation known so far. */
  ghost predicate Voids(o: Output) {
    o.Requested? || o.Overflowed? || (o.Announced? && o.phase.Detached?)
  }

  ghost function GuardOne(r: Fence, o: Output): Fence {
    if r.Broken? then Broken
    else if o.Requested? then r.(pass := None, asked := r.asked + 1)
    else if o.Overflowed? then r.(pass := None, voided := r.asked)
    else if Voids(o) then r.(pass := None)
    else if o.Answered? then r.(pass := Some(Pass(o.req, o.gen)))
    else if o.Flushed? && (r.pass.None? || o.marker.failed || o.marker.gen < r.pass.value.gen) then Broken
    else r
  }

  ghost function Guard(log: seq<Output>): Fence {
    if log == [] then Fence(None, 0, 0) else GuardOne(Guard(log[..|log| - 1]), log[|log| - 1])
  }

  lemma GuardSnoc(log: seq<Output>, o: Output)
    ensures Guard(log + [o]) == GuardOne(Guard(log), o)
  {
    assert (log + [o])[..|log|] == log;
  }

  lemma {:induction false} GuardPrefix(log: seq<Output>, k: nat)
    requires k <= |log| && Guard(log).Fence?
    ensures Guard(log[..k]).Fence?
    decreases |log| - k
  {
    if k < |log| {
      GuardPrefix(log, k + 1);
      assert log[..k + 1][..k] == log[..k];
    } else {
      assert log[..k] == log;
    }
  }

  /** The last answer stands in the log with nothing that voids it, and no other answer, after it. */
  lemma {:induction false} WhereAnswered(log: seq<Output>) returns (j: nat)
    requires Guard(log).Fence? && Guard(log).pass.Some?
    ensures j < |log| && log[j] == Answered(Guard(log).pass.value.req, Guard(log).pass.value.gen)
    ensures forall i :: j < i < |log| ==> !log[i].Answered? && !Voids(log[i])
    decreases |log|
  {
    var n := |log| - 1;
    GuardPrefix(log, n);
    if log[n].Answered? {
      j := n;
    } else {
      j := WhereAnswered(log[..n]);
    }
  }

  /** In any log the reader accepts, each flush is a success for the last answer, and nothing voided that answer. */
  lemma FlushNeedsAnswer(log: seq<Output>, k: nat) returns (j: nat)
    requires Guard(log).Fence? && k < |log| && log[k].Flushed?
    ensures j < k && log[j].Answered? && log[j].gen <= log[k].marker.gen && !log[k].marker.failed
    ensures forall i :: j < i < k ==> !log[i].Answered? && !Voids(log[i])
  {
    GuardPrefix(log, k + 1);
    assert log[..k + 1][..k] == log[..k];
    j := WhereAnswered(log[..k]);
  }

  // ── After an overflow ──────────────────────────────────────────────────────

  /** The generation that would admit a flush was returned to a request made before the last overflow. */
  ghost predicate Stale(r: Fence) {
    r.Fence? && r.pass.Some? && r.pass.value.req < r.voided
  }

  /** What the comment in the overflow branch promises: until the re-request's own generation is known nothing flushes. */
  ghost predicate PromiseKept(log: seq<Output>) {
    forall k :: 0 <= k < |log| && log[k].Flushed? ==> !Stale(Guard(log[..k]))
  }

  lemma PromiseSnoc(log: seq<Output>, o: Output)
    ensures PromiseKept(log + [o]) <==> PromiseKept(log) && (o.Flushed? ==> !Stale(Guard(log)))
  {
    var more := log + [o];
    assert forall k :: 0 <= k < |log| ==> more[..k] == log[..k] && more[k] == log[k];
    assert more[..|log|] == log && more[|log|] == o;
    if PromiseKept(more) {
      forall k | 0 <= k < |log| && log[k].Flushed? ensures !Stale(Guard(log[..k])) {
        assert more[k].Flushed?;
      }
    }
  }

  // ── What steps append ──────────────────────────────────────────────────────

  ghost predicate NoFlush(more: seq<Output>) {
    forall i :: 0 <= i < |more| ==> !more[i].Flushed?
  }

  ghost predicate Tame(log: seq<Output>, after: seq<Output>) {
    log <= after && NoFlush(after[|log|..])
  }

  lemma {:induction false} TameAppend(log: seq<Output>, more: seq<Output>)
    requires NoFlush(more)
    ensures Guard(log).Fence? ==> Guard(log + more).Fence?
    ensures PromiseKept(log + more) <==> PromiseKept(log)
    decreases |more|
  {
    if more == [] {
      assert log + more == log;
    } else {
      var n := |more| - 1;
      TameAppend(log, more[..n]);
      assert log + more == (log + more[..n]) + [more[n]];
      GuardSnoc(log + more[..n], more[n]);
      PromiseSnoc(log + more[..n], more[n]);
    }
  }

  lemma TameKeeps(log: seq<Output>, after: seq<Output>)
    requires Tame(log, after)
    ensures Guard(log).Fence? ==> Guard(after).Fence?
    ensures PromiseKept(after) <==> PromiseKept(log)
  {
    assert after == log + after[|log|..];
    TameAppend(log, after[|log|..]);
  }

  /** While a view waits with a known generation, the reader knows the same generation. */
  ghost predicate Fenced(v: View) {
    && Guard(v.log).Fence?
    && (v.phase.Buffering? && v.myGen.Some? ==>
          Guard(v.log).pass.Some? && Guard(v.log).pass.value.gen == v.myGen.value)
  }

  /** A step that flushes nothing and leaves the view waiting with a generation only if it changed neither. */
  ghost predicate Plain(v: View, w: View) {
    && Tame(v.log, w.log)
    && (w.phase.Buffering? && w.myGen.Some? ==> w.log == v.log && w.myGen == v.myGen && v.phase.Buffering?)
  }

  lemma PlainFenced(v: View, w: View)
    requires Plain(v, w)
    ensures Fenced(v) ==> Fenced(w)
    ensures PromiseKept(w.log) <==> PromiseKept(v.log)
  {
    TameKeeps(v.log, w.log);
  }

  /** Does the view flush for `m` against generation `gen`? */
  ghost predicate Admits(v: View, m: Marker, gen: nat) {
    gen <= m.gen && !m.failed && (v.epoch.Some? ==> m.epoch == v.epoch.value)
  }

  lemma LadderPlain(v: View)
    ensures Plain(v, Ladder(v))
  {
  }

  lemma FramePlain(v: View, f: Frame)
    requires v.last >= -1
    ensures Plain(v, OnFrame(v, f))
  {
    var w := v.(arrivals := v.arrivals + [f]);
    if !(v.epoch.Some? && f.epoch != v.epoch.value) {
      if v.phase.Live? {
        LivePlain(w, f);
      } else if v.phase.Buffering? {
        PushPlain(w, f);
      }
    }
  }

  lemma PushPlain(v: View, f: Frame)
    requires v.phase.Buffering?
    ensures Plain(v, PushBuffer(v, f))
  {
    var w := v.(buffer := v.buffer + [f], bufferBytes := v.bufferBytes + |f.bytes|);
    LadderPlain(Discarded(w));
  }

  lemma LivePlain(v: View, f: Frame)
    requires v.last >= -1 && v.phase.Live?
    ensures Plain(v, LiveFrame(v, f))
  {
    if f.seqNo > v.last + 1 {
      HoldCases(v, f);
    } else if f.seqNo == v.last + 1 {
      FillPlain(v, f);
    }
  }

  lemma FillPlain(v: View, f: Frame)
    requires v.phase.Live?
    ensures Plain(v, Fill(v, f))
  {
    FillFills(v, f);
  }

  lemma JudgePlain(v: View, m: Marker, gen: nat)
    requires v.last >= -1 && !Admits(v, m, gen)
    ensures Plain(v, Judge(v, m, gen))
  {
    LadderPlain(v);
  }

  lemma StartPlain(v: View, epoch: Option<Epoch>, resetLadder: bool, newSession: bool)
    ensures Plain(v, StartBuffering(v, epoch, resetLadder, newSession))
  {
  }

  lemma DetachPlain(v: View)
    ensures Plain(v, Detach(v))
  {
  }

  lemma QuietPlain(v: View, e: Event)
    requires v.last >= -1 && !e.FrameIn? && !e.MarkerIn? && !e.AnswerIn?
    ensures Plain(v, Next(v, e))
  {
    match e
    case BackoffFires =>
    case WatchdogFires => LadderPlain(v.(watchdog := false));
    case Present(tag) =>
      var newSession := v.epoch.Some? && tag != v.epoch;
      StartPlain(v, if newSession then None else v.epoch, true, newSession);
    case Absent => DetachPlain(v);
    case Disconnected => DetachPlain(v);
    case Mounted(canAttach) =>
  }

  /** Where a flush writes its entry. */
  ghost function FlushEntry(v: View): nat {
    |Cleared(v)|
  }

  lemma FlushAppends(v: View, m: Marker)
    requires v.last >= -1
    ensures var w, n := Flush(v, m), FlushEntry(v);
      && w.phase.Live? && |v.log| <= n < |w.log| && w.log[n] == Flushed(m)
      && Tame(v.log, w.log[..n]) && Tame(w.log[..n + 1], w.log) && Guard(w.log[..n]) == Guard(v.log)
  {
    var start := Max(ClearedCursor(v) + 1, m.replayFrom);
    var a := Arrived(Of(v.buffer, m.epoch));
    var chunks := ChunkLog(Chunks(a, start, Gap(a, start)));
    var live := [Announced(Live, Some(LiveInfo(m.continuesConversation, m.epoch)))];
    assert Flush(v, m).log == Cleared(v) + [Flushed(m)] + chunks + live;
    GuardSnoc(v.log, Reset);
    PartsTame(v.log, Cleared(v), m, chunks + live);
    assert Cleared(v) + [Flushed(m)] + chunks + live == Cleared(v) + [Flushed(m)] + (chunks + live);
  }

  lemma PartsTame(log: seq<Output>, cleared: seq<Output>, m: Marker, rest: seq<Output>)
    requires cleared == log || cleared == log + [Reset]
    requires NoFlush(rest)
    ensures var all, n := cleared + [Flushed(m)] + rest, |cleared|;
      && all[n] == Flushed(m) && all[..n] == cleared && all[..n + 1] == cleared + [Flushed(m)]
      && Tame(log, all[..n]) && Tame(all[..n + 1], all)
  {
    var all, n := cleared + [Flushed(m)] + rest, |cleared|;
    assert all[..n + 1] == cleared + [Flushed(m)] && all[n + 1..] == rest;
  }

  /** A flush is right for the fence if its marker meets the pass, and right for the promise if the pass is not stale. */
  lemma FlushGuarded(v: View, m: Marker)
    requires v.last >= -1 && Guard(v.log).Fence?
    ensures var w := Flush(v, m);
      && (Guard(v.log).pass.Some? && Guard(v.log).pass.value.gen <= m.gen && !m.failed ==> Fenced(w))
      && (PromiseKept(w.log) <==> PromiseKept(v.log) && !Stale(Guard(v.log)))
  {
    var w, n := Flush(v, m), FlushEntry(v);
    FlushAppends(v, m);
    assert w.log[..n + 1] == w.log[..n] + [Flushed(m)];
    FlushLogged(v.log, w.log[..n], m, w.log);
  }

  lemma FlushLogged(log: seq<Output>, before: seq<Output>, m: Marker, after: seq<Output>)
    requires Guard(log).Fence? && Tame(log, before) && Guard(before) == Guard(log)
    requires Tame(before + [Flushed(m)], after)
    ensures Guard(log).pass.Some? && Guard(log).pass.value.gen <= m.gen && !m.failed ==> Guard(after).Fence?
    ensures PromiseKept(after) <==> PromiseKept(log) && !Stale(Guard(log))
  {
    GuardSnoc(before, Flushed(m));
    PromiseSnoc(before, Flushed(m));
    TameKeeps(log, before);
    TameKeeps(before + [Flushed(m)], after);
  }

  // ── Every step ─────────────────────────────────────────────────────────────

  lemma JudgeGuarded(v: View, m: Marker, gen: nat)
    requires v.last >= -1 && Fenced(v) && v.phase.Buffering? && v.myGen == Some(gen)
    ensures var w := Judge(v, m, gen);
      && Fenced(w)
      && (PromiseKept(w.log) <==> PromiseKept(v.log) && !(Admits(v, m, gen) && Stale(Guard(v.log))))
  {
    if Admits(v, m, gen) {
      FlushGuarded(v, m);
    } else {
      JudgePlain(v, m, gen);
      PlainFenced(v, Judge(v, m, gen));
    }
  }

  /**
   The one thing that breaks the promise: a flush admitted by the answer to a request made before the last overflow.
   That answer is either in already, or it is the one that comes now and meets a kept marker.
   */
  ghost predicate FlushesStale(v: View, e: Event) {
    match e
    case MarkerIn(m) =>
      v.phase.Buffering? && v.myGen.Some? && Stale(Guard(v.log)) && Admits(v, m, v.myGen.value)
    case AnswerIn(req, gen) =>
      && v.phase.Buffering? && Guard(v.log).Fence? && req < Guard(v.log).voided
      && v.heldMarker.Some? && Admits(v, v.heldMarker.value, gen)
    case _ => false
  }

  lemma AnswerGuarded(v: View, req: nat, gen: nat)
    requires v.last >= -1 && Fenced(v)
    ensures var w := OnAnswer(v, req, gen);
      && Fenced(w)
      && (PromiseKept(w.log) <==> PromiseKept(v.log) && !FlushesStale(v, AnswerIn(req, gen)))
  {
    if v.phase.Buffering? {
      var w := v.(myGen := Some(gen), log := v.log + [Answered(req, gen)], heldMarker := None);
      GuardSnoc(v.log, Answered(req, gen));
      PromiseSnoc(v.log, Answered(req, gen));
      assert Fenced(w) && Fenced(w.(heldMarker := v.heldMarker));
      if v.heldMarker.Some? {
        JudgeGuarded(w, v.heldMarker.value, gen);
      }
    }
  }

  lemma MarkerGuarded(v: View, m: Marker)
    requires v.last >= -1 && Fenced(v)
    ensures var w := OnMarker(v, m);
      && Fenced(w)
      && (PromiseKept(w.log) <==> PromiseKept(v.log) && !FlushesStale(v, MarkerIn(m)))
  {
    if v.phase.Buffering? && v.myGen.Some? {
      JudgeGuarded(v, m, v.myGen.value);
    }
  }

  /** Each event keeps the fence, and keeps the promise if and only if it does not flush for a stale answer. */
  lemma StepGuarded(v: View, e: Event)
    requires v.last >= -1 && Fenced(v)
    ensures Fenced(Next(v, e))
    ensures PromiseKept(Next(v, e).log) <==> PromiseKept(v.log) && !FlushesStale(v, e)
  {
    match e
    case FrameIn(f) =>
      FramePlain(v, f);
      PlainFenced(v, OnFrame(v, f));
    case MarkerIn(m) => MarkerGuarded(v, m);
    case AnswerIn(req, gen) => AnswerGuarded(v, req, gen);
    case _ =>
      QuietPlain(v, e);
      PlainFenced(v, Next(v, e));
  }

  // ── What follows for every run ─────────────────────────────────────────────

  lemma {:induction false} RunFenced(es: seq<Event>)
    ensures Fenced(Run(FRESH, es))
  {
    if es != [] {
      RunFenced(es[..|es| - 1]);
      StepGuarded(Run(FRESH, es[..|es| - 1]), es[|es| - 1]);
    }
  }

  /**
   Over every run each flush is for a success whose generation is at least the one last returned to the view, and
   since that answer the view has sent no request, overflown or been detached.
   */
  lemma FlushedForItsAnswer(es: seq<Event>, k: nat) returns (j: nat)
    requires k < |Run(FRESH, es).log| && Run(FRESH, es).log[k].Flushed?
    ensures var log := Run(FRESH, es).log;
      && j < k && log[j].Answered? && log[j].gen <= log[k].marker.gen && !log[k].marker.failed
      && forall i :: j < i < k ==> !log[i].Answered? && !Voids(log[i])
  {
    RunFenced(es);
    j := FlushNeedsAnswer(Run(FRESH, es).log, k);
  }

  /** Step `i` of the run flushes for a stale answer. */
  ghost predicate StepStale(es: seq<Event>, i: nat)
    requires i < |es|
  {
    FlushesStale(Run(FRESH, es[..i]), es[i])
  }

  ghost predicate NeverStale(es: seq<Event>) {
    forall i :: 0 <= i < |es| ==> !StepStale(es, i)
  }

  lemma NeverStaleSnoc(es: seq<Event>)
    requires es != []
    ensures NeverStale(es) <==> NeverStale(es[..|es| - 1]) && !StepStale(es, |es| - 1)
  {
    var n := |es| - 1;
    forall i | 0 <= i < n ensures StepStale(es[..n], i) == StepStale(es, i) {
      assert es[..n][..i] == es[..i];
    }
    if NeverStale(es) {
      forall i | 0 <= i < n ensures !StepStale(es[..n], i) {
        assert !StepStale(es, i);
      }
    }
  }

  /** The promise holds over a run if and only if no step of it flushes for a stale answer. */
  lemma {:induction false} PromiseKeptIff(es: seq<Event>)
    ensures PromiseKept(Run(FRESH, es).log) <==> NeverStale(es)
  {
    if es != [] {
      var front := es[..|es| - 1];
      PromiseKeptIff(front);
      RunFenced(front);
      StepGuarded(Run(FRESH, front), es[|es| - 1]);
      NeverStaleSnoc(es);
    }
  }

  // ── The incarnation and the marker a flush is for ──────────────────────────

  /** A flush written by event `e` is for the incarnation the view knows, if it knows one. */
  lemma StepFlushesOwnEpoch(v: View, e: Event, k: nat)
    requires v.last >= -1 && |v.log| <= k < |Next(v, e).log| && Next(v, e).log[k].Flushed?
    ensures v.phase.Buffering? && Next(v, e).phase.Live?
    ensures v.epoch.Some? ==> Next(v, e).log[k].marker.epoch == v.epoch.value
    ensures Next(v, e).epoch == Some(Next(v, e).log[k].marker.epoch)
  {
    match e
    case FrameIn(f) => FramePlain(v, f);
    case MarkerIn(m) =>
      if v.phase.Buffering? && v.myGen.Some? {
        JudgeFlushesOwnEpoch(v, m, v.myGen.value, k);
      }
    case AnswerIn(req, gen) =>
      if v.phase.Buffering? && v.heldMarker.Some? {
        var w := v.(myGen := Some(gen), log := v.log + [Answered(req, gen)], heldMarker := None);
        JudgeFlushesOwnEpoch(w, v.heldMarker.value, gen, k);
      }
    case _ => QuietPlain(v, e);
  }

  lemma JudgeFlushesOwnEpoch(v: View, m: Marker, gen: nat, k: nat)
    requires v.last >= -1 && k < |Judge(v, m, gen).log| && Judge(v, m, gen).log[k].Flushed?
    requires k >= |v.log| || !v.log[k].Flushed?
    ensures Judge(v, m, gen).log[k] == Flushed(m) && Admits(v, m, gen) && Judge(v, m, gen).phase.Live?
    ensures Judge(v, m, gen).epoch == Some(m.epoch)
  {
    if Admits(v, m, gen) {
      FlushAppends(v, m);
    } else {
      JudgePlain(v, m, gen);
    }
  }

  /** Over every run. */
  lemma FlushesOwnEpoch(es: seq<Event>, e: Event, k: nat)
    requires |Run(FRESH, es).log| <= k < |Run(FRESH, es + [e]).log| && Run(FRESH, es + [e]).log[k].Flushed?
    ensures Run(FRESH, es).epoch.Some? ==>
      Run(FRESH, es + [e]).log[k].marker.epoch == Run(FRESH, es).epoch.value
  {
    RunSnoc(FRESH, es, e);
    StepFlushesOwnEpoch(Run(FRESH, es), e, k);
  }

  /** Marker `m` came as event `i`, and nothing written between then and entry `n` voids it. */
  ghost predicate CameSince(es: seq<Event>, i: nat, m: Marker, log: seq<Output>, n: nat) {
    && i < |es| && es[i] == MarkerIn(m)
    && forall x :: |Run(FRESH, es[..i]).log| <= x < n && x < |log| ==> !Voids(log[x])
  }

  /** What the view keeps came after its last request, overflow and detachment. */
  lemma {:induction false} KeptCameSince(es: seq<Event>) returns (i: nat)
    requires var v := Run(FRESH, es); v.phase.Buffering? && v.heldMarker.Some?
    ensures var v := Run(FRESH, es); CameSince(es, i, v.heldMarker.value, v.log, |v.log|)
  {
    var n := |es| - 1;
    var v, w := Run(FRESH, es[..n]), Run(FRESH, es);
    KeptBefore(v, es[n]);
    if es[n] == MarkerIn(w.heldMarker.value) {
      i := n;
    } else {
      i := KeptCameSince(es[..n]);
      assert es[..n][..i] == es[..i];
    }
  }

  /** The view keeps what it kept, has written nothing, and was waiting before. */
  ghost predicate KeepsKept(v: View, w: View) {
    w.phase.Buffering? && w.heldMarker.Some? ==> w.log == v.log && v.phase.Buffering? && w.heldMarker == v.heldMarker
  }

  lemma FrameKeeps(v: View, f: Frame)
    requires v.last >= -1
    ensures KeepsKept(v, OnFrame(v, f))
  {
    var w := v.(arrivals := v.arrivals + [f]);
    if !(v.epoch.Some? && f.epoch != v.epoch.value) && v.phase.Live? {
      HoldCases(w, f);
    }
  }

  lemma JudgeKeeps(v: View, m: Marker, gen: nat)
    requires v.last >= -1 && v.phase.Buffering?
    ensures KeepsKept(v, Judge(v, m, gen))
  {
  }

  lemma KeptBefore(v: View, e: Event)
    requires v.last >= -1 && Next(v, e).phase.Buffering? && Next(v, e).heldMarker.Some?
    ensures Next(v, e).log == v.log && v.phase.Buffering?
    ensures Next(v, e).heldMarker == v.heldMarker || e == MarkerIn(Next(v, e).heldMarker.value)
  {
    match e
    case FrameIn(f) => FrameKeeps(v, f);
    case MarkerIn(m) =>
      if v.phase.Buffering? && v.myGen.Some? {
        JudgeKeeps(v, m, v.myGen.value);
      }
    case AnswerIn(req, gen) =>
      if v.phase.Buffering? && v.heldMarker.Some? {
        var w := v.(myGen := Some(gen), log := v.log + [Answered(req, gen)], heldMarker := None);
        JudgeKeeps(w, v.heldMarker.value, gen);
      }
    case _ =>
  }

  /** Over every run a flush is for a marker that came after the view's last request, overflow and detachment. */
  lemma FlushedMarkerCameSince(es: seq<Event>, e: Event, k: nat) returns (i: nat)
    requires |Run(FRESH, es).log| <= k < |Run(FRESH, es + [e]).log| && Run(FRESH, es + [e]).log[k].Flushed?
    ensures var log := Run(FRESH, es + [e]).log; CameSince(es + [e], i, log[k].marker, log, k)
  {
    var v := Run(FRESH, es);
    RunSnoc(FRESH, es, e);
    StepFlushesOwnEpoch(v, e, k);
    FlushOf(v, e, k);
    assert (es + [e])[..|es|] == es;
    if e.MarkerIn? {
      i := |es|;
    } else {
      i := KeptCameSince(es);
      assert (es + [e])[..i] == es[..i];
    }
  }

  /** The marker of a flush is the event's own, or the one kept when an answer comes; nothing before it voids. */
  lemma FlushOf(v: View, e: Event, k: nat)
    requires v.last >= -1 && |v.log| <= k < |Next(v, e).log| && Next(v, e).log[k].Flushed?
    ensures v.phase.Buffering? && v.log <= Next(v, e).log
    ensures e.MarkerIn? || (e.AnswerIn? && v.heldMarker.Some?)
    ensures Next(v, e).log[k] == Flushed(if e.MarkerIn? then e.marker else v.heldMarker.value)
    ensures forall x :: |v.log| <= x < k ==> !Voids(Next(v, e).log[x])
  {
    StepFlushesOwnEpoch(v, e, k);
    match e
    case FrameIn(f) => FramePlain(v, f);
    case MarkerIn(m) =>
      if v.myGen.Some? {
        JudgeFlushesOwnEpoch(v, m, v.myGen.value, k);
        FlushWrites(v, m, k);
      }
    case AnswerIn(req, gen) =>
      if v.heldMarker.Some? {
        var w := v.(myGen := Some(gen), log := v.log + [Answered(req, gen)], heldMarker := None);
        JudgeFlushesOwnEpoch(w, v.heldMarker.value, gen, k);
        FlushWrites(w, v.heldMarker.value, k);
      }
    case _ => QuietPlain(v, e);
  }

  lemma FlushWrites(v: View, m: Marker, k: nat)
    requires v.last >= -1 && k < |Flush(v, m).log| && Flush(v, m).log[k].Flushed? && (k >= |v.log| || !v.log[k].Flushed?)
    ensures v.log <= Flush(v, m).log && |v.log| <= k
    ensures forall x :: |v.log| <= x < k ==> !Voids(Flush(v, m).log[x])
  {
    FlushFlushes(v, m);
  }

  /**
   The race: with no marker kept and no generation known, a marker just before the answer and the same marker just
   after it leave the same view.
   */
  lemma MarkerRacesAnswer(v: View, m: Marker, req: nat, gen: nat)
    requires v.last >= -1 && v.heldMarker.None? && (v.phase.Buffering? ==> v.myGen.None?)
    ensures OnAnswer(OnMarker(v, m), req, gen) == OnMarker(OnAnswer(v, req, gen), m)
  {
    if v.phase.Buffering? {
      var w := v.(heldMarker := Some(m));
      var x := v.(myGen := Some(gen), log := v.log + [Answered(req, gen)]);
      assert OnMarker(v, m) == w;
      assert OnAnswer(w, req, gen) == Judge(x, m, gen);
      assert OnMarker(x, m) == Judge(x, m, gen);
    }
  }

  /** `k` closes at least as late a replay as `m`, and if the same replay, not less successfully. */
  ghost predicate AtLeast(k: Marker, m: Marker) {
    m.gen < k.gen || (m.gen == k.gen && (k.failed ==> m.failed))
  }

  /** While no generation is known, of all the markers that come the view keeps one no other surpasses. */
  lemma {:induction false} KeptMarkerIsBest(v: View, ms: seq<Marker>)
    requires v.last >= -1 && v.phase.Buffering? && v.myGen.None? && v.heldMarker.None?
    ensures var es := seq(|ms|, i requires 0 <= i < |ms| => MarkerIn(ms[i]));
      var kept := Run(v, es).heldMarker;
      && Run(v, es) == v.(heldMarker := kept)
      && (ms == [] ==> kept.None?)
      && (ms != [] ==> kept.Some? && kept.value in ms && forall m :: m in ms ==> AtLeast(kept.value, m))
  {
    var es := seq(|ms|, i requires 0 <= i < |ms| => MarkerIn(ms[i]));
    if ms != [] {
      var front := ms[..|ms| - 1];
      KeptMarkerIsBest(v, front);
      assert es[..|es| - 1] == seq(|front|, i requires 0 <= i < |front| => MarkerIn(front[i]));
      assert ms == front + [ms[|ms| - 1]];
    }
  }
}
