/**
 A run in which frames stay held although the view is no longer live.

 An oversized frame before the transport is ready makes the ladder send the first request on its own.  Once that
 request has made the view live, a mount that finds the agent missing from the roster detaches the view without
 dropping what it holds.
 */
module ReplayCorner {
  import opened Wrappers
  import opened Frames
  import opened ReplaySpec
  import opened ReplayInvariants

  ghost const BIG := Frame(0, 7, 0, seq(VIEW_BUFFER_MAX_BYTES + 1, i => 0))
  ghost const LATE := Frame(0, 7, 5, [])
  ghost const CLOSING := Marker(7, 0, false, false, false, 0)

  ghost const OVERFLOWN := FRESH.(attempts := 1, backoff := true, log := [Overflowed])
  ghost const ASKED := OVERFLOWN.(backoff := false, watchdog := true, log := [Overflowed, Requested])
  ghost const ANSWERED := ASKED.(myGen := Some(0), log := [Overflowed, Requested, Answered(0, 0)])
  ghost const FILLED := ANSWERED.(buffer := [LATE], arrivals := [LATE])

  lemma Overflows()
    ensures Next(FRESH, FrameIn(BIG)) == OVERFLOWN
  {
  }

  lemma Asks()
    ensures Next(OVERFLOWN, BackoffFires) == ASKED && Next(ASKED, AnswerIn(0, 0)) == ANSWERED
  {
  }

  lemma Buffers()
    ensures Next(ANSWERED, FrameIn(LATE)) == FILLED
  {
  }

  lemma GoesLive()
    ensures var v := Next(FILLED, MarkerIn(CLOSING));
      v.phase.Live? && 5 in v.held
  {
    FlushFlushes(FILLED, CLOSING);
    assert Of([LATE], 7) == [LATE] && Arrived([LATE]) == map[5 := LATE];
  }

  ghost const OPENING := [FrameIn(BIG), BackoffFires, AnswerIn(0, 0), FrameIn(LATE)]

  lemma Opens()
    ensures Run(FRESH, OPENING) == FILLED
  {
    assert OPENING[..0] == [] && OPENING[..1][..0] == [];
    assert OPENING[..3][..2] == OPENING[..2] && OPENING[..2][..1] == OPENING[..1];
    assert Run(FRESH, OPENING[..1]) == OVERFLOWN by { Overflows(); }
    assert Run(FRESH, OPENING[..2]) == ASKED by { Asks(); }
    assert Run(FRESH, OPENING[..3]) == ANSWERED by { Asks(); }
    Buffers();
  }

  lemma MountDetaches(v: View)
    requires v.phase.Live? && 5 in v.held && v.last >= -1
    ensures var w := Next(v, Mounted(false)); w.phase.Detached? && !HeldOnlyLive(w)
  {
  }

  /** The promise that nothing is held outside the live phase is broken by this run. */
  lemma HeldOutsideLiveHappens()
    ensures var v := Run(FRESH, OPENING + [MarkerIn(CLOSING)] + [Mounted(false)]);
      v.phase.Detached? && !HeldOnlyLive(v)
  {
    Opens();
    GoesLive();
    RunSnoc(FRESH, OPENING, MarkerIn(CLOSING));
    RunSnoc(FRESH, OPENING + [MarkerIn(CLOSING)], Mounted(false));
    MountDetaches(Run(FRESH, OPENING + [MarkerIn(CLOSING)]));
  }
}
