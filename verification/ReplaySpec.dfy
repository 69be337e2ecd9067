/**
 The replay machine of one view (slot), as values: what each arrival, answer and timer does to a view's state.
 src/api/protocolClient.ts keeps this state in `SubState` and changes it in place; the class of that name in
 SubState.dfy is proved against the functions here.

 Loops of the code do not appear: a flush and a release are described by where the first hole is
 (`Frames.Gap`), not by how the frames are walked.
 */
module ReplaySpec {
  import opened Wrappers
  import opened Frames

  const LADDER_MAX_ATTEMPTS := 3
  const VIEW_BUFFER_MAX_BYTES := 4 * 1024 * 1024
  const VIEW_BUFFER_MAX_FRAMES := 8192
  const HELD_MAX_BYTES := 1024 * 1024
  const HELD_MAX_FRAMES := 2048

  datatype Phase = Detached | Buffering | Live | Failed

  /** A replay boundary: `gen` numbers the replay it closes, `replayFrom` is the head of that replay. */
  datatype Marker = Marker(epoch: Epoch, gen: nat, truncated: bool, failed: bool,
                           continuesConversation: bool, replayFrom: nat)

  datatype LiveInfo = LiveInfo(continuesConversation: bool, epoch: Epoch)

  /**
   What a view's surroundings can observe, in order: the three callbacks (`Chunk`, `Announced`, `Reset`), the
   replay requests sent, the generations returned to them, the overflows and the flushes.  Requests are numbered in
   the order they are sent, and an answer names the request it belongs to; the code looks at the generation only.
   */
  datatype Output =
    | Chunk(frame: Frame)
    | Reset
    | Announced(phase: Phase, info: Option<LiveInfo>)
    | Requested
    | Answered(req: nat, gen: nat)
    | Overflowed
    | Flushed(marker: Marker)

  /**
   A view.  `last` is the cursor (the last number delivered), `backoff` and `watchdog` say which timer is armed.
   `log` and `arrivals` are histories: everything observable so far, and every frame that reached the view since
   it last threw its buffer away.
   */
  datatype View = View(
    phase: Phase,
    buffer: seq<Frame>,
    bufferBytes: int,
    myGen: Option<nat>,
    heldMarker: Option<Marker>,
    last: int,
    held: map<nat, Frame>,
    heldBytes: int,
    epoch: Option<Epoch>,
    restartPending: bool,
    attempts: nat,
    backoff: bool,
    watchdog: bool,
    log: seq<Output>,
    arrivals: seq<Frame>)

  /** A view that has just been subscribed and has asked for nothing yet. */
  const FRESH := View(Buffering, [], 0, None, None, -1, map[], 0, None, false, 0, false, false, [], [])

  ghost function ChunkLog(fs: seq<Frame>): (r: seq<Output>)
    ensures |r| == |fs|
  {
    seq(|fs|, i requires 0 <= i < |fs| => Chunk(fs[i]))
  }

  function Max(a: int, b: int): int { if a < b then b else a }

  // ── Requests and the re-request ladder ─────────────────────────────────────

  ghost function ClearTimers(v: View): View {
    v.(backoff := false, watchdog := false)
  }

  ghost function IssueReplay(v: View): View {
    v.(myGen := None, heldMarker := None, watchdog := true, log := v.log + [Requested])
  }

  ghost function Ladder(v: View): View {
    if v.backoff then v
    else if v.attempts >= LADDER_MAX_ATTEMPTS then
      ClearTimers(v).(phase := Failed, buffer := [], bufferBytes := 0, log := v.log + [Announced(Failed, None)])
    else v.(attempts := v.attempts + 1, watchdog := false, backoff := true)
  }

  ghost function StartBuffering(v: View, epoch: Option<Epoch>, resetLadder: bool, newSession: bool): View {
    IssueReplay(ClearTimers(v).(
      phase := Buffering, buffer := [], bufferBytes := 0, held := map[], heldBytes := 0,
      restartPending := v.restartPending || newSession, epoch := epoch,
      attempts := if resetLadder then 0 else v.attempts,
      log := v.log + [Announced(Buffering, None)], arrivals := []))
  }

  // ── Frames ─────────────────────────────────────────────────────────────────

  /** An overflow throws the buffer away, and with it the fence: no marker of an older request may flush what is left. */
  ghost function Discarded(v: View): View {
    v.(buffer := [], bufferBytes := 0, myGen := None, heldMarker := None, arrivals := [], log := v.log + [Overflowed])
  }

  ghost function PushBuffer(v: View, f: Frame): View {
    var w := v.(buffer := v.buffer + [f], bufferBytes := v.bufferBytes + |f.bytes|);
    if w.bufferBytes > VIEW_BUFFER_MAX_BYTES || |w.buffer| > VIEW_BUFFER_MAX_FRAMES then
      Ladder(Discarded(w))
    else w
  }

  ghost function HoldLive(v: View, f: Frame): View {
    if f.seqNo in v.held then v
    else
      var w := v.(held := v.held[f.seqNo := f], heldBytes := v.heldBytes + |f.bytes|);
      if w.heldBytes > HELD_MAX_BYTES || |w.held| > HELD_MAX_FRAMES then StartBuffering(w, w.epoch, false, false)
      else w
  }

  /** Deliver `f`, which is the next number, and then what was held up to the next hole. */
  ghost function Fill(v: View, f: Frame): View {
    var n := Gap(v.held, f.seqNo + 1);
    var run := Chunks(v.held, f.seqNo + 1, n);
    v.(last := n - 1, held := Above(v.held, n), heldBytes := v.heldBytes - Size(run),
       log := v.log + [Chunk(f)] + ChunkLog(run))
  }

  ghost function LiveFrame(v: View, f: Frame): View
    requires v.last >= -1
  {
    if f.seqNo <= v.last then v
    else if f.seqNo > v.last + 1 then HoldLive(v, f)
    else Fill(v, f)
  }

  ghost function OnFrame(v: View, f: Frame): View
    requires v.last >= -1
  {
    if v.phase.Failed? || v.phase.Detached? then v
    else
      var w := v.(arrivals := v.arrivals + [f]);
      if v.epoch.Some? && f.epoch != v.epoch.value then w
      else if v.phase.Live? then LiveFrame(w, f)
      else PushBuffer(w, f)
  }

  // ── Markers and generations ────────────────────────────────────────────────

  /** A pending restart wipes the consumer's screen before anything of the new incarnation is delivered. */
  ghost function Cleared(v: View): seq<Output> {
    if v.restartPending then v.log + [Reset] else v.log
  }

  ghost function ClearedCursor(v: View): int {
    if v.restartPending then -1 else v.last
  }

  /** Go live: from `max(cursor + 1, replay head)` deliver up to the first hole and hold the rest. */
  ghost function Flush(v: View, m: Marker): View
    requires v.last >= -1
  {
    var start := Max(ClearedCursor(v) + 1, m.replayFrom);
    var a := Arrived(Of(v.buffer, m.epoch));
    var n := Gap(a, start);
    ClearTimers(v).(
      phase := Live, epoch := Some(m.epoch), restartPending := false, buffer := [], bufferBytes := 0,
      last := n - 1, held := Above(a, n), heldBytes := Bytes(Above(a, n)), attempts := 0,
      log := Cleared(v) + [Flushed(m)] + ChunkLog(Chunks(a, start, n))
             + [Announced(Live, Some(LiveInfo(m.continuesConversation, m.epoch)))])
  }

  /** Judge a marker against a known generation. */
  ghost function Judge(v: View, m: Marker, gen: nat): View
    requires v.last >= -1
  {
    if m.gen < gen then v
    else if m.failed then Ladder(v)
    else if v.epoch.Some? && m.epoch != v.epoch.value then v
    else Flush(v, m)
  }

  /** Does `m` push out the marker kept so far? */
  ghost predicate Replaces(m: Marker, kept: Option<Marker>) {
    || kept.None?
    || m.gen > kept.value.gen
    || (m.gen == kept.value.gen && kept.value.failed && !m.failed)
  }

  ghost function OnMarker(v: View, m: Marker): View
    requires v.last >= -1
  {
    if !v.phase.Buffering? then v
    else if v.myGen.None? then
      if Replaces(m, v.heldMarker) then v.(heldMarker := Some(m)) else v
    else Judge(v, m, v.myGen.value)
  }

  /** One of this view's own requests, not necessarily the last, is answered with `gen`. */
  ghost function OnAnswer(v: View, req: nat, gen: nat): View
    requires v.last >= -1
  {
    if !v.phase.Buffering? then v
    else
      var w := v.(myGen := Some(gen), log := v.log + [Answered(req, gen)]);
      if v.heldMarker.None? then w
      else Judge(w.(heldMarker := None), v.heldMarker.value, gen)
  }

  // ── Timers, roster, connection ─────────────────────────────────────────────

  ghost function OnBackoff(v: View): View {
    if !v.backoff then v
    else
      var w := v.(backoff := false);
      if v.phase.Buffering? then IssueReplay(w) else w
  }

  ghost function OnWatchdog(v: View): View {
    if !v.watchdog then v
    else
      var w := v.(watchdog := false);
      if v.phase.Buffering? then Ladder(w) else w
  }

  ghost function Detach(v: View): View {
    if v.phase.Detached? then v
    else
      ClearTimers(v).(phase := Detached, buffer := [], bufferBytes := 0, held := map[], heldBytes := 0,
                      myGen := None, heldMarker := None, log := v.log + [Announced(Detached, None)])
  }

  /** The roster lists the agent under mark `tag` (an entry may carry no mark). */
  ghost function OnPresent(v: View, tag: Option<Epoch>): View {
    var newSession := v.epoch.Some? && tag != v.epoch;
    if v.phase.Detached? || v.phase.Failed? || newSession then
      StartBuffering(v, if newSession then None else v.epoch, true, newSession)
    else v
  }

  /** The transport became ready after the subscription; `canAttach` is what the roster says at that moment. */
  ghost function OnMounted(v: View, canAttach: bool): View {
    if canAttach then IssueReplay(v)
    else v.(phase := Detached, log := v.log + [Announced(Detached, None)])
  }

  // ── Runs ───────────────────────────────────────────────────────────────────

  datatype Event =
    | FrameIn(frame: Frame)
    | MarkerIn(marker: Marker)
    | AnswerIn(req: nat, gen: nat)
    | BackoffFires
    | WatchdogFires
    | Present(tag: Option<Epoch>)
    | Absent
    | Disconnected
    | Mounted(canAttach: bool)

  ghost function Next(v: View, e: Event): (w: View)
    requires v.last >= -1
    ensures w.last >= -1
  {
    match e
    case FrameIn(f) => OnFrame(v, f)
    case MarkerIn(m) => OnMarker(v, m)
    case AnswerIn(req, gen) => OnAnswer(v, req, gen)
    case BackoffFires => OnBackoff(v)
    case WatchdogFires => OnWatchdog(v)
    case Present(tag) => OnPresent(v, tag)
    case Absent => Detach(v)
    case Disconnected => Detach(v)
    case Mounted(canAttach) => OnMounted(v, canAttach)
  }

  /** The view after any sequence of events. */
  ghost function Run(v: View, es: seq<Event>): (w: View)
    requires v.last >= -1
    ensures w.last >= -1
  {
    if es == [] then v else Next(Run(v, es[..|es| - 1]), es[|es| - 1])
  }

  lemma RunSnoc(v: View, es: seq<Event>, e: Event)
    requires v.last >= -1
    ensures Run(v, es + [e]) == Next(Run(v, es), e)
  {
    assert (es + [e])[..|es|] == es;
  }
}
