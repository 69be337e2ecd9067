/**
 A run in which an overflow loses content.

 The comment in the overflow branch of src/api/protocolClient.ts promises that after an overflow no marker can flush
 until the generation of the re-requested replay is known.  The code voids the generation it has, but an answer to a
 request made before the overflow, still on its way, sets it again; the marker of that request then makes the view
 live on an empty buffer and cancels the re-request that was scheduled.
 */
module ReplayOverflow {
  import opened Wrappers
  import opened Frames
  import opened ReplaySpec
  import opened ReplayInvariants
  import opened ReplayFence

  ghost const BIG := Frame(0, 7, 0, seq(VIEW_BUFFER_MAX_BYTES + 1, i => 0))
  ghost const CLOSING := Marker(7, 1, false, false, false, 0)

  ghost const MOUNTED := FRESH.(watchdog := true, log := [Requested])
  ghost const OVERFLOWN := FRESH.(attempts := 1, backoff := true, log := [Requested, Overflowed])
  ghost const ANSWERED := OVERFLOWN.(myGen := Some(1), log := [Requested, Overflowed, Answered(0, 1)])

  ghost const START := [Mounted(true), FrameIn(BIG), AnswerIn(0, 1)]

  lemma Steps()
    ensures Next(FRESH, Mounted(true)) == MOUNTED
    ensures Next(MOUNTED, FrameIn(BIG)) == OVERFLOWN
    ensures Next(OVERFLOWN, AnswerIn(0, 1)) == ANSWERED
  {
  }

  lemma Starts()
    ensures Run(FRESH, START) == ANSWERED
  {
    assert START[..0] == [] && START[..1][..0] == [] && START[..2][..1] == START[..1];
    Steps();
    assert Run(FRESH, START[..1]) == MOUNTED;
    assert Run(FRESH, START[..2]) == OVERFLOWN;
  }

  /** The answer to the request made before the overflow is known, and it is stale. */
  lemma AnswerIsStale()
    ensures Fenced(ANSWERED) && Stale(Guard(ANSWERED.log)) && FlushesStale(ANSWERED, MarkerIn(CLOSING))
  {
    var log := ANSWERED.log;
    assert log == (([] + [Requested]) + [Overflowed]) + [Answered(0, 1)];
    GuardSnoc([], Requested);
    GuardSnoc([] + [Requested], Overflowed);
    GuardSnoc(([] + [Requested]) + [Overflowed], Answered(0, 1));
  }

  lemma GoesLiveEmpty()
    ensures var w := Next(ANSWERED, MarkerIn(CLOSING));
      w.phase.Live? && w.last == -1 && w.held == map[] && w.buffer == [] && !w.watchdog && !w.backoff
  {
    FlushFlushes(ANSWERED, CLOSING);
    GapUnique(map[], 0, 0);
  }

  /**
   The run: a replay was due when the answer came, and after the marker the view is live with nothing delivered,
   nothing held and no replay due.
   */
  lemma OverflowLosesContent()
    ensures Run(FRESH, START).backoff
    ensures var v := Run(FRESH, START + [MarkerIn(CLOSING)]);
      && v.phase.Live? && v.last == -1 && v.held == map[] && v.buffer == [] && !v.watchdog && !v.backoff
      && !PromiseKept(v.log)
  {
    Starts();
    RunSnoc(FRESH, START, MarkerIn(CLOSING));
    GoesLiveEmpty();
    AnswerIsStale();
    StepGuarded(ANSWERED, MarkerIn(CLOSING));
  }
}
