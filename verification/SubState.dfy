/**
 One view's subscription state, changed in place as src/api/protocolClient.ts changes it.  The code's methods take
 the `SubState` as their first argument; here they are methods of it.  Each is proved to do what the function of
 the same name in `ReplaySpec` says.
 */
module Subscription {
  import opened Wrappers
  import opened Frames
  import S = ReplaySpec
  import opened ReplayInvariants

  /** Ascending by number. */
  ghost predicate Ascending(fs: seq<Frame>) {
    forall i, j :: 0 <= i < j < |fs| ==> fs[i].seqNo <= fs[j].seqNo
  }

  /** A frame put between smaller-or-equal and larger numbers counts only if its number is new. */
  lemma {:induction false} ArrivedInsert(lo: seq<Frame>, f: Frame, hi: seq<Frame>)
    requires forall i :: 0 <= i < |hi| ==> hi[i].seqNo != f.seqNo
    ensures Arrived(lo + [f] + hi) == if f.seqNo in Arrived(lo + hi) then Arrived(lo + hi) else Arrived(lo + hi)[f.seqNo := f]
    decreases |hi|
  {
    if hi == [] {
      assert lo + [f] + hi == lo + [f] && lo + hi == lo;
      ArrivedSnoc(lo, f);
    } else {
      var front, g := hi[..|hi| - 1], hi[|hi| - 1];
      ArrivedInsert(lo, f, front);
      assert lo + [f] + hi == (lo + [f] + front) + [g] && lo + hi == (lo + front) + [g];
      ArrivedAlike(lo + [f] + front, lo + front, f, g);
    }
  }

  lemma ArrivedAlike(with: seq<Frame>, without: seq<Frame>, f: Frame, g: Frame)
    requires f.seqNo != g.seqNo
    requires Arrived(with) == if f.seqNo in Arrived(without) then Arrived(without) else Arrived(without)[f.seqNo := f]
    ensures var a := Arrived(without + [g]);
      Arrived(with + [g]) == if f.seqNo in a then a else a[f.seqNo := f]
  {
    ArrivedSnoc(with, g);
    ArrivedSnoc(without, g);
  }

  lemma AscendingInsert(fs: seq<Frame>, p: nat, f: Frame)
    requires Ascending(fs) && p <= |fs| && (p > 0 ==> fs[p - 1].seqNo <= f.seqNo)
    requires forall j :: p <= j < |fs| ==> fs[j].seqNo > f.seqNo
    ensures Ascending(fs[..p] + [f] + fs[p..])
  {
    var r := fs[..p] + [f] + fs[p..];
    assert forall i :: 0 <= i < p ==> r[i] == fs[i] && fs[i].seqNo <= f.seqNo;
    assert forall i :: p < i < |r| ==> r[i] == fs[i - 1];
  }

  lemma ArrivedInserted(fs: seq<Frame>, p: nat, f: Frame)
    requires p <= |fs| && forall j :: p <= j < |fs| ==> fs[j].seqNo > f.seqNo
    ensures Arrived(fs[..p] + [f] + fs[p..]) == Arrived(fs + [f])
  {
    assert fs == fs[..p] + fs[p..];
    ArrivedInsert(fs[..p], f, fs[p..]);
    ArrivedSnoc(fs, f);
  }

  /** Put `f` behind every frame whose number is not larger. */
  method InsertBySeq(fs: seq<Frame>, f: Frame) returns (r: seq<Frame>)
    requires Ascending(fs)
    ensures Ascending(r) && Arrived(r) == Arrived(fs + [f])
  {
    var p := |fs|;
    while p > 0 && fs[p - 1].seqNo > f.seqNo
      invariant 0 <= p <= |fs|
      invariant forall j :: p <= j < |fs| ==> fs[j].seqNo > f.seqNo
    {
      p := p - 1;
    }
    r := fs[..p] + [f] + fs[p..];
    AscendingInsert(fs, p, f);
    ArrivedInserted(fs, p, f);
  }

  /** A stable sort by number: of frames with the same number the first stays first. */
  method SortBySeq(fs: seq<Frame>) returns (r: seq<Frame>)
    ensures Ascending(r) && Arrived(r) == Arrived(fs)
  {
    r := [];
    for i := 0 to |fs|
      invariant Ascending(r) && Arrived(r) == Arrived(fs[..i])
    {
      ghost var before := r;
      r := InsertBySeq(r, fs[i]);
      ArrivedSnoc(before, fs[i]);
      ArrivedSnoc(fs[..i], fs[i]);
      assert fs[..i + 1] == fs[..i] + [fs[i]];
    }
    assert fs[..|fs|] == fs;
  }

  // ── One delivery at a time ─────────────────────────────────────────────────

  /** The view after the held frames that follow on from its cursor have been delivered. */
  ghost function Released(v: S.View): S.View
    requires v.last >= -1
  {
    var n := Gap(v.held, v.last + 1);
    var run := Chunks(v.held, v.last + 1, n);
    v.(last := n - 1, held := Above(v.held, n), heldBytes := v.heldBytes - Size(run), log := v.log + S.ChunkLog(run))
  }

  /** The view after the next number has been taken out of the held table and delivered. */
  ghost function TakenNext(v: S.View): S.View
    requires v.last >= -1 && v.last + 1 in v.held
  {
    var f := v.held[v.last + 1];
    v.(last := v.last + 1, held := v.held - {v.last + 1}, heldBytes := v.heldBytes - |f.bytes|,
       log := v.log + [S.Chunk(f)])
  }

  lemma ReleaseStep(held: map<nat, Frame>, lo: nat)
    requires lo in held
    ensures var rest, n := held - {lo}, Gap(held, lo);
      && n > lo && Gap(rest, lo + 1) == n && Above(rest, n) == Above(held, n)
      && Chunks(held, lo, n) == [held[lo]] + Chunks(rest, lo + 1, n)
  {
    GapUnique(held - {lo}, lo + 1, Gap(held, lo));
  }

  /** Taking the next number leaves the rest of the run to come. */
  lemma TakeThenRelease(v: S.View)
    requires v.last >= -1 && v.last + 1 in v.held
    ensures Released(TakenNext(v)) == Released(v)
  {
    var lo := v.last + 1;
    var f, n := v.held[lo], Gap(v.held, lo);
    var rest := Chunks(v.held - {lo}, lo + 1, n);
    ReleaseStep(v.held, lo);
    SizeCons(f, rest);
    var one, both := Released(v), Released(TakenNext(v));
    assert one.log == both.log by {
      assert v.log + S.ChunkLog([f] + rest) == (v.log + [S.Chunk(f)]) + S.ChunkLog(rest);
    }
    assert one.last == both.last && one.held == both.held && one.heldBytes == both.heldBytes;
  }

  lemma NothingToRelease(v: S.View)
    requires v.last >= -1 && v.last + 1 !in v.held && forall s :: s in v.held ==> s > v.last
    ensures Released(v) == v
  {
    GapUnique(v.held, v.last + 1, v.last + 1);
    assert Above(v.held, v.last + 1) == v.held;
    assert v.log + S.ChunkLog([]) == v.log;
  }

  /** Delivering a frame and then what follows on is what filling the hole means. */
  lemma DeliverThenRelease(v: S.View, f: Frame)
    requires f.seqNo == v.last + 1
    ensures Released(v.(last := f.seqNo, log := v.log + [S.Chunk(f)])) == S.Fill(v, f)
  {
  }

  /** What a flush does with one frame of the sorted replay. */
  ghost function Placed(v: S.View, f: Frame): S.View {
    if f.seqNo <= v.last || (f.seqNo > v.last + 1 && f.seqNo in v.held) then v
    else if f.seqNo > v.last + 1 then
      v.(held := v.held[f.seqNo := f], heldBytes := v.heldBytes + |f.bytes|)
    else v.(last := f.seqNo, log := v.log + [S.Chunk(f)])
  }

  /** Of `v` only the cursor, the held table and the log have moved, as the arrivals `a` demand. */
  ghost predicate PlacedUpTo(v: S.View, w: S.View, run: seq<Frame>, a: map<nat, Frame>, start: nat) {
    && w == v.(last := w.last, held := w.held, heldBytes := w.heldBytes, log := w.log)
    && w.log == v.log + S.ChunkLog(run) && w.heldBytes == Bytes(w.held)
    && Settled(run, w.last, w.held, a, start)
  }

  lemma PlaceStep(v: S.View, w: S.View, ordered: seq<Frame>, i: nat, run: seq<Frame>, start: nat)
    requires i < |ordered| && Ascending(ordered) && PlacedUpTo(v, w, run, Arrived(ordered[..i]), start)
    ensures var f := ordered[i];
      PlacedUpTo(v, Placed(w, f), if f.seqNo == w.last + 1 then run + [f] else run, Arrived(ordered[..i + 1]), start)
  {
    var f := ordered[i];
    DeliverStep(ordered, i, run, w.last, w.held, start);
    if f.seqNo == w.last + 1 {
      assert v.log + S.ChunkLog(run + [f]) == (v.log + S.ChunkLog(run)) + [S.Chunk(f)];
    } else if f.seqNo !in w.held {
      BytesInsert(w.held, f);
    }
  }

  /** One frame of an ascending list: it continues the run, or is dropped, or is held. */
  lemma DeliverStep(ordered: seq<Frame>, i: nat, run: seq<Frame>, last: int, held: map<nat, Frame>, start: nat)
    requires i < |ordered| && Ascending(ordered) && Settled(run, last, held, Arrived(ordered[..i]), start)
    ensures var f := ordered[i];
      var a := Arrived(ordered[..i + 1]);
      if f.seqNo == last + 1 then Settled(run + [f], f.seqNo, held, a, start)
      else if f.seqNo > last + 1 && f.seqNo !in held then Settled(run, last, held[f.seqNo := f], a, start)
      else Settled(run, last, held, a, start)
  {
    var f := ordered[i];
    assert ordered[..i + 1] == ordered[..i] + [f];
    ArrivedSnoc(ordered[..i], f);
    if f.seqNo == last + 1 {
      NothingHeldYet(ordered, i, run, last, held, start);
      SettledFilled(run, last, held, Arrived(ordered[..i]), start, f);
      assert run + [f] + [] == run + [f];
    } else {
      SettledStays(run, last, held, Arrived(ordered[..i]), start, f);
    }
  }

  /** In ascending order a frame that continues the run comes before anything is held. */
  lemma NothingHeldYet(ordered: seq<Frame>, i: nat, run: seq<Frame>, last: int, held: map<nat, Frame>, start: nat)
    requires i < |ordered| && Ascending(ordered) && Settled(run, last, held, Arrived(ordered[..i]), start)
    requires ordered[i].seqNo == last + 1
    ensures held == map[]
  {
    ArrivedMembers(ordered[..i]);
    assert held.Keys == {};
  }

  class SubState {
    const agentId: string
    const token: nat
    var phase: S.Phase
    var buffer: seq<Frame>
    var bufferBytes: int
    var myGen: Option<nat>
    var heldMarker: Option<S.Marker>
    var lastDeliveredSeq: int
    var heldFrames: map<nat, Frame>
    var heldBytes: int
    var epoch: Option<Epoch>
    var restartPending: bool
    var attempts: nat
    var backoffTimer: bool
    var watchdogTimer: bool
    /** What the callbacks and the transport were given, in order. */
    ghost var log: seq<S.Output>
    /** Every frame that reached the view since it last threw its buffer away. */
    ghost var arrivals: seq<Frame>

    ghost function State(): S.View
      reads this
    {
      S.View(phase, buffer, bufferBytes, myGen, heldMarker, lastDeliveredSeq, heldFrames, heldBytes, epoch,
             restartPending, attempts, backoffTimer, watchdogTimer, log, arrivals)
    }

    /** Frames are held only behind a hole. */
    ghost predicate Valid()
      reads this
    {
      lastDeliveredSeq >= -1 && forall s :: s in heldFrames ==> s > lastDeliveredSeq + 1
    }

    constructor (agentId: string, token: nat)
      ensures this.agentId == agentId && this.token == token
      ensures Valid() && State() == S.FRESH
    {
      this.agentId, this.token := agentId, token;
      phase, buffer, bufferBytes, myGen, heldMarker := S.Buffering, [], 0, None, None;
      lastDeliveredSeq, heldFrames, heldBytes, epoch := -1, map[], 0, None;
      restartPending, attempts, backoffTimer, watchdogTimer := false, 0, false, false;
      log, arrivals := [], [];
    }

    // ── Small steps the methods below are made of ────────────────────────────

    method DropBuffer()
      modifies this`buffer, this`bufferBytes
      ensures State() == old(State()).(buffer := [], bufferBytes := 0)
    {
      buffer, bufferBytes := [], 0;
    }

    method DropHeld()
      modifies this`heldFrames, this`heldBytes
      ensures State() == old(State()).(held := map[], heldBytes := 0)
    {
      heldFrames, heldBytes := map[], 0;
    }

    method ForgetGeneration()
      modifies this`myGen, this`heldMarker
      ensures State() == old(State()).(myGen := None, heldMarker := None)
    {
      myGen, heldMarker := None, None;
    }

    method ClearTimers()
      modifies this`backoffTimer, this`watchdogTimer
      ensures State() == S.ClearTimers(old(State()))
    {
      watchdogTimer := false;
      if backoffTimer {
        backoffTimer := false;
      }
    }

    /** The consumer is told the phase; the phase field itself is set before. */
    method Announce(info: Option<S.LiveInfo>)
      modifies this`log
      ensures State() == old(State()).(log := old(log) + [S.Announced(phase, info)])
    {
      log := log + [S.Announced(phase, info)];
    }

    // ── Frames ───────────────────────────────────────────────────────────────

    method HandleOutput(f: Frame)
      requires Valid()
      modifies this
      ensures Valid() && State() == S.OnFrame(old(State()), f)
    {
      if phase.Failed? || phase.Detached? {
        return;
      }
      arrivals := arrivals + [f];
      if epoch.Some? && f.epoch != epoch.value {
        return;
      }
      if phase.Live? {
        HandleLive(f);
      } else {
        PushBuffer(f);
      }
    }

    method HandleLive(f: Frame)
      requires Valid()
      modifies this
      ensures Valid() && State() == S.LiveFrame(old(State()), f)
    {
      if f.seqNo <= lastDeliveredSeq {
        return;
      }
      if f.seqNo > lastDeliveredSeq + 1 {
        HoldLive(f);
        return;
      }
      DeliverThenRelease(State(), f);
      lastDeliveredSeq := f.seqNo;
      log := log + [S.Chunk(f)];
      ReleaseHeld();
    }

    method PushBuffer(f: Frame)
      requires Valid()
      modifies this
      ensures Valid() && State() == S.PushBuffer(old(State()), f)
    {
      buffer := buffer + [f];
      bufferBytes := bufferBytes + |f.bytes|;
      if bufferBytes > S.VIEW_BUFFER_MAX_BYTES || |buffer| > S.VIEW_BUFFER_MAX_FRAMES {
        Overflow();
        LadderRerequest();
      }
    }

    method Overflow()
      modifies this`buffer, this`bufferBytes, this`myGen, this`heldMarker, this`arrivals, this`log
      ensures State() == S.Discarded(old(State()))
    {
      arrivals := [];
      log := log + [S.Overflowed];
      DropBuffer();
      ForgetGeneration();
    }

    method HoldLive(f: Frame)
      requires Valid() && f.seqNo > lastDeliveredSeq + 1
      modifies this
      ensures Valid() && State() == S.HoldLive(old(State()), f)
    {
      if f.seqNo in heldFrames {
        return;
      }
      heldFrames := heldFrames[f.seqNo := f];
      heldBytes := heldBytes + |f.bytes|;
      if heldBytes > S.HELD_MAX_BYTES || |heldFrames| > S.HELD_MAX_FRAMES {
        StartBuffering(epoch, false, false);
      }
    }

    /** Deliver the held frames that follow on from the cursor. */
    method ReleaseHeld()
      requires lastDeliveredSeq >= -1 && forall s :: s in heldFrames ==> s > lastDeliveredSeq
      modifies this`heldFrames, this`heldBytes, this`lastDeliveredSeq, this`log
      ensures State() == Released(old(State()))
    {
      while lastDeliveredSeq + 1 in heldFrames
        invariant lastDeliveredSeq >= -1 && forall s :: s in heldFrames ==> s > lastDeliveredSeq
        invariant Released(State()) == Released(old(State()))
        decreases heldFrames.Keys
      {
        TakeThenRelease(State());
        TakeNext();
      }
      NothingToRelease(State());
    }

    method TakeNext()
      requires lastDeliveredSeq >= -1 && lastDeliveredSeq + 1 in heldFrames
      modifies this`heldFrames, this`heldBytes, this`lastDeliveredSeq, this`log
      ensures State() == TakenNext(old(State()))
    {
      var next := heldFrames[lastDeliveredSeq + 1];
      heldFrames := heldFrames - {lastDeliveredSeq + 1};
      heldBytes := heldBytes - |next.bytes|;
      lastDeliveredSeq := lastDeliveredSeq + 1;
      log := log + [S.Chunk(next)];
    }

    // ── Requests and the ladder ──────────────────────────────────────────────

    method LadderRerequest()
      requires Valid()
      modifies this
      ensures Valid() && State() == S.Ladder(old(State()))
    {
      if backoffTimer {
        return;
      }
      if attempts >= S.LADDER_MAX_ATTEMPTS {
        phase := S.Failed;
        DropBuffer();
        ClearTimers();
        Announce(None);
        return;
      }
      attempts := attempts + 1;
      watchdogTimer := false;
      backoffTimer := true;
    }

    method StartBuffering(epoch: Option<Epoch>, resetLadder: bool, newSession: bool)
      requires lastDeliveredSeq >= -1
      modifies this
      ensures Valid() && State() == S.StartBuffering(old(State()), epoch, resetLadder, newSession)
    {
      phase, arrivals := S.Buffering, [];
      DropBuffer();
      DropHeld();
      Retarget(epoch, resetLadder, newSession);
      ClearTimers();
      Announce(None);
      IssueReplay();
    }

    /** What the coming replay is for. */
    method Retarget(epoch: Option<Epoch>, resetLadder: bool, newSession: bool)
      modifies this`epoch, this`restartPending, this`attempts
      ensures var v := old(State());
        State() == v.(epoch := epoch, restartPending := v.restartPending || newSession,
                      attempts := if resetLadder then 0 else v.attempts)
    {
      if newSession {
        restartPending := true;
      }
      this.epoch := epoch;
      if resetLadder {
        attempts := 0;
      }
    }

    method IssueReplay()
      modifies this`myGen, this`heldMarker, this`watchdogTimer, this`log
      ensures State() == S.IssueReplay(old(State()))
    {
      ForgetGeneration();
      watchdogTimer := true;
      log := log + [S.Requested];
    }

    // ── Markers and generations ──────────────────────────────────────────────

    method EvalMarker(m: S.Marker)
      requires Valid()
      modifies this
      ensures Valid() && State() == S.OnMarker(old(State()), m)
    {
      if phase != S.Buffering {
        return;
      }
      if myGen.None? {
        if heldMarker.None? || m.gen > heldMarker.value.gen
           || (m.gen == heldMarker.value.gen && heldMarker.value.failed && !m.failed) {
          heldMarker := Some(m);
        }
        return;
      }
      Judge(m, myGen.value);
    }

    /** The rules a marker meets once a generation is known; `EvalMarker` and `ResolveHeldMarker` share them. */
    method Judge(m: S.Marker, gen: nat)
      requires Valid()
      modifies this
      ensures Valid() && State() == S.Judge(old(State()), m, gen)
    {
      if m.gen < gen {
        return;
      }
      if m.failed {
        LadderRerequest();
        return;
      }
      if epoch.Some? && m.epoch != epoch.value {
        return;
      }
      FlushToLive(m);
    }

    /** One of this view's own replay requests is answered. */
    method OnGeneration(ghost req: nat, gen: nat)
      requires Valid()
      modifies this
      ensures Valid() && State() == S.OnAnswer(old(State()), req, gen)
    {
      if phase != S.Buffering {
        return;
      }
      myGen := Some(gen);
      log := log + [S.Answered(req, gen)];
      if heldMarker.Some? {
        var m := heldMarker.value;
        heldMarker := None;
        Judge(m, gen);
      }
    }

    method FlushToLive(m: S.Marker)
      requires lastDeliveredSeq >= -1
      modifies this
      ensures Valid() && State() == S.Flush(old(State()), m)
    {
      var ordered := OpenFlush(m);
      DeliverOrdered(ordered, m.replayFrom);
      GoLive(m);
    }

    /** Adopt the incarnation, wipe the screen if a restart is pending, and sort its share of the buffer. */
    method OpenFlush(m: S.Marker) returns (ordered: seq<Frame>)
      modifies this
      ensures Ascending(ordered) && Arrived(ordered) == Arrived(Of(old(buffer), m.epoch))
      ensures var v := old(State());
        State() == v.(epoch := Some(m.epoch), restartPending := false, last := S.ClearedCursor(v), buffer := [],
                      bufferBytes := 0, held := map[], heldBytes := 0, log := S.Cleared(v) + [S.Flushed(m)])
    {
      epoch := Some(m.epoch);
      ApplyRestart();
      ordered := SortBySeq(Of(buffer, m.epoch));
      DropBuffer();
      DropHeld();
      log := log + [S.Flushed(m)];
    }

    method GoLive(m: S.Marker)
      modifies this
      ensures var v := old(State());
        State() == S.ClearTimers(v).(
          phase := S.Live, attempts := 0,
          log := v.log + [S.Announced(S.Live, Some(S.LiveInfo(m.continuesConversation, m.epoch)))])
    {
      phase, attempts := S.Live, 0;
      ClearTimers();
      Announce(Some(S.LiveInfo(m.continuesConversation, m.epoch)));
    }

    method ApplyRestart()
      modifies this`restartPending, this`lastDeliveredSeq, this`log
      ensures var v := old(State());
        State() == v.(restartPending := false, last := S.ClearedCursor(v), log := S.Cleared(v))
    {
      if restartPending {
        restartPending := false;
        lastDeliveredSeq := -1;
        log := log + [S.Reset];
      }
    }

    /** From `max(cursor + 1, replay head)` deliver up to the first hole and hold the rest. */
    method DeliverOrdered(ordered: seq<Frame>, replayFrom: nat)
      requires Ascending(ordered) && lastDeliveredSeq >= -1 && heldFrames == map[] && heldBytes == 0
      modifies this`heldFrames, this`heldBytes, this`lastDeliveredSeq, this`log
      ensures var start := S.Max(old(lastDeliveredSeq) + 1, replayFrom);
        var a := Arrived(ordered);
        var n := Gap(a, start);
        State() == old(State()).(last := n - 1, held := Above(a, n), heldBytes := Bytes(Above(a, n)),
                                 log := old(log) + S.ChunkLog(Chunks(a, start, n)))
    {
      var start := S.Max(lastDeliveredSeq + 1, replayFrom);
      lastDeliveredSeq := start - 1;
      ghost var v, run := State(), [];
      for i := 0 to |ordered|
        invariant PlacedUpTo(v, State(), run, Arrived(ordered[..i]), start)
      {
        PlaceStep(v, State(), ordered, i, run, start);
        run := if ordered[i].seqNo == lastDeliveredSeq + 1 then run + [ordered[i]] else run;
        Place(ordered[i]);
      }
      assert ordered[..|ordered|] == ordered;
    }

    method Place(f: Frame)
      modifies this`heldFrames, this`heldBytes, this`lastDeliveredSeq, this`log
      ensures State() == Placed(old(State()), f)
    {
      if f.seqNo <= lastDeliveredSeq {
        return;
      }
      if f.seqNo > lastDeliveredSeq + 1 {
        if f.seqNo !in heldFrames {
          heldFrames := heldFrames[f.seqNo := f];
          heldBytes := heldBytes + |f.bytes|;
        }
        return;
      }
      lastDeliveredSeq := f.seqNo;
      log := log + [S.Chunk(f)];
    }

    // ── Timers, roster, connection ───────────────────────────────────────────

    method OnBackoff()
      requires Valid()
      modifies this
      ensures Valid() && State() == S.OnBackoff(old(State()))
    {
      if backoffTimer {
        backoffTimer := false;
        if phase == S.Buffering {
          IssueReplay();
        }
      }
    }

    method OnWatchdog()
      requires Valid()
      modifies this
      ensures Valid() && State() == S.OnWatchdog(old(State()))
    {
      if watchdogTimer {
        watchdogTimer := false;
        if phase == S.Buffering {
          LadderRerequest();
        }
      }
    }

    method DetachView()
      requires Valid()
      modifies this
      ensures Valid() && State() == S.Detach(old(State()))
    {
      if phase == S.Detached {
        return;
      }
      phase := S.Detached;
      DropBuffer();
      DropHeld();
      ForgetGeneration();
      ClearTimers();
      Announce(None);
    }

    method OnPresent(tag: Option<Epoch>)
      requires Valid()
      modifies this
      ensures Valid() && State() == S.OnPresent(old(State()), tag)
    {
      var newSession := epoch.Some? && tag != epoch;
      if phase == S.Detached || phase == S.Failed || newSession {
        StartBuffering(if newSession then None else epoch, true, newSession);
      }
    }

    method OnMounted(canAttach: bool)
      requires Valid()
      modifies this
      ensures Valid() && State() == S.OnMounted(old(State()), canAttach)
    {
      if canAttach {
        IssueReplay();
      } else {
        phase := S.Detached;
        Announce(None);
      }
    }
  }
}
