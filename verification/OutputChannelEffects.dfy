/**
 What each event does to the transport after any run, in terms of the event and of what the log and the calls so far
 show: whether the transport was closed by its user, and whether `close` was called since the last channel went out.
 */
module OutputChannelEffects {
  import opened Wrappers
  import opened OutputChannelSpec
  import opened OutputChannelLog

  // ── Histories ──────────────────────────────────────────────────────────────

  /** `close` was called and the transport was not started since. */
  ghost function ClosedBy(es: seq<Event>): bool {
    if es == [] then false
    else
      match es[|es| - 1]
      case CloseCalled => true
      case Started => false
      case _ => ClosedBy(es[..|es| - 1])
  }

  ghost function Wanted(es: seq<Event>): nat {
    if es == [] then 0 else Wanted(es[..|es| - 1]) + if es[|es| - 1].ReplayWanted? then 1 else 0
  }

  /** Neither who closed the transport nor the count of requests changes. */
  ghost predicate SameUser(s: Transport, v: Transport) {
    v.closedByUser == s.closedByUser && v.nextWaiter == s.nextWaiter
  }

  lemma CheckSameUser(s: Transport, w: Waiter)
    ensures SameUser(s, Register(s)) && SameUser(s, Check(s, w))
  {
  }

  lemma AirSameUser(s: Transport, k: nat, ok: bool)
    ensures SameUser(s, Decide(s, k, ok)) && SameUser(s, Answer(s, k))
  {
  }

  lemma LoopSameUser(s: Transport, r: Loop)
    ensures SameUser(s, Continue(s, r))
  {
  }

  lemma WaiterSameUser(s: Transport, w: Waiter)
    ensures SameUser(s, Resume(s, w)) && SameUser(s, Ask(s, w))
  {
    CheckSameUser(s, w);
  }

  lemma WantedSameUser(s: Transport)
    ensures SameUser(s.(nextWaiter := s.nextWaiter + 1), RequestReplay(s))
  {
    CheckSameUser(s.(nextWaiter := s.nextWaiter + 1), s.nextWaiter);
  }

  lemma StepHistories(s: Transport, e: Event)
    ensures Next(s, e).closedByUser == match e case CloseCalled => true case Started => false case _ => s.closedByUser
    ensures Next(s, e).nextWaiter == s.nextWaiter + if e.ReplayWanted? then 1 else 0
  {
    match e
    case Connected => CheckSameUser(s, 0);
    case Decided(k, ok) => AirSameUser(s, k, ok);
    case AnswerIn(k) => AirSameUser(s, k, true);
    case RunOn(r) => LoopSameUser(s, r);
    case ReplayWanted => WantedSameUser(s);
    case Woken(w) => WaiterSameUser(s, w);
    case GoesOut(w) => WaiterSameUser(s, w);
    case _ =>
  }

  /** Over every run: requests are numbered as they come, and who closed the transport shows in the calls. */
  lemma {:induction false} RunHistories(es: seq<Event>)
    ensures Run(es).closedByUser == ClosedBy(es) && Run(es).nextWaiter == Wanted(es)
  {
    if es != [] {
      RunHistories(es[..|es| - 1]);
      StepHistories(Run(es[..|es| - 1]), es[|es| - 1]);
    }
  }

  /** `close` was called since the last channel went out. */
  ghost function ClosedSince(log: seq<Sign>): bool {
    if log == [] then false
    else
      match log[|log| - 1]
      case Invoked(_) => false
      case Closed => true
      case _ => ClosedSince(log[..|log| - 1])
  }

  lemma ClosedSnoc(log: seq<Sign>, s: Sign)
    ensures ClosedSince(log + [s]) == match s case Invoked(_) => false case Closed => true case _ => ClosedSince(log)
  {
    assert (log + [s])[..|log|] == log;
  }

  /** The registration under way began in the current generation exactly if nothing was closed since. */
  ghost predicate GenShows(s: Transport) {
    forall r :: r in s.runs && s.runs[r].Awaiting? ==>
      s.runs[r].myGen <= s.generation && (s.runs[r].myGen == s.generation <==> !ClosedSince(s.log))
  }

  lemma DoRegisterShows(s: Transport, r: Loop)
    requires s.runs.Keys <= {r}
    ensures GenShows(DoRegister(s, r))
  {
    ClosedSnoc(s.log, Invoked(s.nextChannel));
  }

  lemma RegisterShows(s: Transport)
    requires OneFlight(s) && GenShows(s)
    ensures GenShows(Register(s))
  {
    if s.inflight.None? {
      DoRegisterShows(s.(inflight := Some(s.nextRun), nextRun := s.nextRun + 1), s.nextRun);
    }
  }

  lemma CheckShows(s: Transport, w: Waiter)
    requires OneFlight(s) && GenShows(s)
    ensures GenShows(Check(s, w))
  {
    ClosedSnoc(s.log, Passed(w));
    RegisterShows(s);
  }

  lemma AirShows(s: Transport, k: nat, ok: bool)
    requires GenShows(s)
    ensures GenShows(Decide(s, k, ok)) && GenShows(Answer(s, k))
  {
    ClosedSnoc(s.log, Answered);
    if k < |s.air| {
      ClosedSnoc(s.log, Took(s.air[k].chan));
    }
  }

  lemma ContinueShows(s: Transport, r: Loop)
    requires OneFlight(s) && GenShows(s)
    ensures GenShows(Continue(s, r))
  {
    if r in s.runs {
      DoRegisterShows(s, r);
    }
  }

  lemma ResumeShows(s: Transport, w: Waiter)
    requires OneFlight(s) && GenShows(s)
    ensures GenShows(Resume(s, w))
  {
    CheckShows(s, w);
    ClosedSnoc(s.log, Passed(w));
  }

  lemma WantedShows(s: Transport)
    requires OneFlight(s) && GenShows(s)
    ensures GenShows(RequestReplay(s))
  {
    CheckShows(s.(nextWaiter := s.nextWaiter + 1), s.nextWaiter);
  }

  lemma StepShows(s: Transport, e: Event)
    requires Sound(s) && GenShows(s)
    ensures GenShows(Next(s, e))
  {
    match e
    case Connected => RegisterShows(s);
    case Started =>
    case CloseCalled => ClosedSnoc(s.log, Closed);
    case Decided(k, ok) => AirShows(s, k, ok);
    case AnswerIn(k) => AirShows(s, k, true);
    case RunOn(r) => ContinueShows(s, r);
    case ReplayWanted => WantedShows(s);
    case Woken(w) => ResumeShows(s, w);
    case GoesOut(w) => ClosedSnoc(s.log, Replay(w));
  }

  lemma {:induction false} RunShows(es: seq<Event>)
    ensures GenShows(Run(es))
  {
    if es != [] {
      RunShows(es[..|es| - 1]);
      RunSound(es[..|es| - 1]);
      StepShows(Run(es[..|es| - 1]), es[|es| - 1]);
    }
  }

  // ── Effects ────────────────────────────────────────────────────────────────

  /** A registration is asked for: it joins the one under way, which will go round once more, or starts at once. */
  ghost predicate Registers(s: Transport, v: Transport) {
    if s.inflight.Some? then v.inflight == s.inflight && v.rerun && v.log == s.log && v.runs == s.runs
    else
      && v.inflight.Some? && v.runs == map[v.inflight.value := Awaiting(s.generation, s.nextChannel)]
      && v.log == s.log + [Invoked(s.nextChannel)] && !v.registered && v.channel == Some(s.nextChannel) && !v.rerun
  }

  lemma RegisterRegisters(s: Transport)
    requires OneFlight(s)
    ensures Registers(s, Register(s))
  {
  }

  lemma ConnectedTakesEffect(es: seq<Event>)
    ensures Registers(Run(es), Run(es + [Connected]))
    ensures Run(es + [Connected]).waiters == Run(es).waiters
  {
    RunSound(es);
    RunSnoc(es, Connected);
    RegisterRegisters(Run(es));
  }

  /**
   What becomes of request `x` once nothing is under way that it has to wait for: with the flag up it passes at once,
   on a closed transport it is refused, and otherwise it waits for a registration of its own.
   */
  ghost predicate Checked(s: Transport, x: Waiter, closed: bool, v: Transport) {
    && x in v.waiters
    && if s.registered then v.waiters[x].Cleared? && v.log == s.log + [Passed(x)]
       else if closed then v.waiters[x].Refused? && v.log == s.log
       else Registers(s, v) && v.waiters[x] == Second(v.inflight.value)
  }

  lemma CheckChecks(s: Transport, x: Waiter)
    requires OneFlight(s)
    ensures Checked(s, x, s.closedByUser, Check(s, x))
  {
    RegisterRegisters(s);
  }

  ghost predicate Waits(s: Transport, x: Waiter, closed: bool, v: Transport) {
    if s.inflight.Some? then v.log == s.log && x in v.waiters && v.waiters[x] == First(s.inflight.value)
    else Checked(s, x, closed, v)
  }

  lemma RequestWaits(s: Transport)
    requires OneFlight(s)
    ensures Waits(s, s.nextWaiter, s.closedByUser, Next(s, ReplayWanted))
  {
    CheckChecks(s.(nextWaiter := s.nextWaiter + 1), s.nextWaiter);
  }

  /** A replay request waits for a registration it finds under way, and is dealt with at once if there is none. */
  lemma WantedTakesEffect(es: seq<Event>)
    ensures Waits(Run(es), Wanted(es), ClosedBy(es), Run(es + [ReplayWanted]))
  {
    RunHistories(es);
    RunSound(es);
    RunSnoc(es, ReplayWanted);
    RequestWaits(Run(es));
  }

  /** A request past its wait goes out, once; no other does. */
  ghost predicate Leaves(s: Transport, x: Waiter, v: Transport) {
    if x in s.waiters && s.waiters[x].Cleared? then v == s.(waiters := s.waiters[x := Asked], log := s.log + [Replay(x)])
    else v == s
  }

  lemma AskLeaves(s: Transport, x: Waiter)
    ensures Leaves(s, x, Next(s, GoesOut(x)))
  {
  }

  lemma GoesOutTakesEffect(es: seq<Event>, x: Waiter)
    ensures Leaves(Run(es), x, Run(es + [GoesOut(x)]))
  {
    RunSnoc(es, GoesOut(x));
    AskLeaves(Run(es), x);
  }

  /** With the flag up and nothing under way a request goes straight out. */
  lemma RegisteredGoesOut(es: seq<Event>)
    requires Run(es).registered && Run(es).inflight.None?
    ensures var x := Wanted(es);
      Run(es + [ReplayWanted] + [GoesOut(x)]).log == Run(es).log + [Passed(x), Replay(x)]
  {
    var x := Wanted(es);
    WantedTakesEffect(es);
    GoesOutTakesEffect(es + [ReplayWanted], x);
    assert (Run(es).log + [Passed(x)]) + [Replay(x)] == Run(es).log + [Passed(x), Replay(x)];
  }

  /**
   A request that wakes: after a registration it only found, it is dealt with as if it came now; after its own, it
   passes if the flag is up; a registration that failed refuses it.
   */
  ghost predicate Wakes(s: Transport, x: Waiter, closed: bool, v: Transport)
    requires x in s.waiters
  {
    match s.waiters[x]
    case First(p) =>
      if p !in s.settled then v == s
      else if s.settled[p] then Checked(s, x, closed, v)
      else v == s.(waiters := s.waiters[x := Refused])
    case Second(p) =>
      if p !in s.settled then v == s
      else if s.settled[p] && s.registered then v == s.(waiters := s.waiters[x := Cleared], log := s.log + [Passed(x)])
      else v == s.(waiters := s.waiters[x := Refused])
    case _ => v == s
  }

  lemma ResumeWakes(s: Transport, x: Waiter)
    requires OneFlight(s) && x in s.waiters
    ensures Wakes(s, x, s.closedByUser, Next(s, Woken(x)))
  {
    CheckChecks(s, x);
  }

  lemma WokenTakesEffect(es: seq<Event>, x: Waiter)
    requires x in Run(es).waiters
    ensures Wakes(Run(es), x, ClosedBy(es), Run(es + [Woken(x)]))
  {
    RunHistories(es);
    RunSound(es);
    RunSnoc(es, Woken(x));
    ResumeWakes(Run(es), x);
  }

  ghost predicate Rules(s: Transport, ok: bool, v: Transport)
    requires |s.air| == 1
  {
    && v.air == [s.air[0].(verdict := Some(ok))] && v.registered == s.registered
    && v.shell == (if ok then Some(s.air[0].chan) else s.shell)
    && v.log == if ok then s.log + [Took(s.air[0].chan)] else s.log
  }

  lemma DecideRules(s: Transport, ok: bool)
    requires |s.air| == 1 && s.air[0].verdict.None?
    ensures Rules(s, ok, Next(s, Decided(0, ok)))
  {
  }

  /** The shell's verdict on the channel in the air; what it takes it holds. */
  lemma VerdictTakesEffect(es: seq<Event>, ok: bool)
    requires |Run(es).air| == 1 && Run(es).air[0].verdict.None?
    ensures Rules(Run(es), ok, Run(es + [Decided(0, ok)]))
  {
    RunSnoc(es, Decided(0, ok));
    DecideRules(Run(es), ok);
  }

  /** The answer raises the flag if and only if the shell took the channel and nothing was closed since it went out. */
  lemma AnswerTakesEffect(es: seq<Event>)
    requires |Run(es).air| == 1 && Run(es).air[0].verdict.Some?
    ensures var s, v := Run(es), Run(es + [AnswerIn(0)]);
      var ok := s.air[0].verdict.value;
      && v.air == [] && v.log == s.log + [Answered] && v.inflight == s.inflight && s.inflight.Some?
      && (v.registered <==> ok && !ClosedSince(s.log))
      && v.runs == map[s.inflight.value := if ok then Returned else Threw]
  {
    var s := Run(es);
    RunSound(es);
    RunShows(es);
    RunSnoc(es, AnswerIn(0));
    assert s.air[..0] + s.air[1..] == [];
    assert s.inflight.value in s.runs;
  }

  /**
   A loop that runs on after its answer: a refusal ends it as failed; otherwise it goes round once more if that was
   asked for, and ends well if not.  Whoever waits for it finds what it came to.
   */
  ghost predicate GoesOn(s: Transport, r: Loop, v: Transport) {
    if r !in s.runs || s.runs[r].Awaiting? then v == s
    else if s.runs[r].Returned? && s.rerun then
      && v.inflight == Some(r) && v.runs == map[r := Awaiting(s.generation, s.nextChannel)]
      && v.log == s.log + [Invoked(s.nextChannel)] && v.settled == s.settled && !v.rerun
    else
      && v.inflight.None? && v.runs == map[] && v.log == s.log && v.registered == s.registered
      && v.settled == s.settled[r := s.runs[r].Returned?]
  }

  lemma ContinueGoesOn(s: Transport, r: Loop)
    requires OneFlight(s)
    ensures GoesOn(s, r, Next(s, RunOn(r)))
  {
    if r in s.runs {
      assert s.runs.Keys == {r};
      assert s.runs - {r} == map[];
    }
  }

  lemma RunOnTakesEffect(es: seq<Event>, r: Loop)
    ensures GoesOn(Run(es), r, Run(es + [RunOn(r)]))
  {
    RunSound(es);
    RunSnoc(es, RunOn(r));
    ContinueGoesOn(Run(es), r);
  }

  /** A close takes the flag down, lets the channel go and voids what was asked for during a registration. */
  lemma CloseTakesEffect(es: seq<Event>)
    ensures var s, v := Run(es), Run(es + [CloseCalled]);
      && v.log == s.log + [Closed] && !v.registered && v.channel.None? && !v.rerun
      && v.inflight == s.inflight && v.runs == s.runs && v.settled == s.settled && v.waiters == s.waiters && v.air == s.air
  {
    RunSnoc(es, CloseCalled);
  }

}
