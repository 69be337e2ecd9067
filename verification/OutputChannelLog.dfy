/**
 What the log must look like, read without knowing the machine, and the proof that every run's log does.
 */
module OutputChannelLog {
  import opened Wrappers
  import opened OutputChannelSpec

  /**
   `busy`: an invoke is unanswered.  `last`: the channel of the last invoke; `took` and `closed`: whether the shell
   took it, and whether `close` was called, since that invoke.  `holds`: the channel the shell has.  `passed`: the
   requests past their wait that have not gone out.
   */
  datatype Reading = Bad | Reading(busy: bool, last: Option<Channel>, took: bool, closed: bool,
                                   holds: Option<Channel>, passed: set<Waiter>)

  ghost function ReadOne(r: Reading, s: Sign): Reading {
    if r.Bad? then Bad
    else
      match s
      case Invoked(c) => if r.busy then Bad else r.(busy := true, last := Some(c), took := false, closed := false)
      case Took(c) => if !r.busy || r.last != Some(c) then Bad else r.(took := true, holds := Some(c))
      case Answered => if r.busy then r.(busy := false) else Bad
      case Closed => r.(closed := true)
      case Passed(w) => if r.busy || !r.took || r.closed then Bad else r.(passed := r.passed + {w})
      case Replay(w) => if w in r.passed then r.(passed := r.passed - {w}) else Bad
  }

  ghost function Read(log: seq<Sign>): Reading {
    if log == [] then Reading(false, None, false, false, None, {})
    else ReadOne(Read(log[..|log| - 1]), log[|log| - 1])
  }

  lemma ReadSnoc(log: seq<Sign>, s: Sign)
    ensures Read(log + [s]) == ReadOne(Read(log), s)
  {
    assert (log + [s])[..|log|] == log;
  }

  lemma {:induction false} ReadPrefix(log: seq<Sign>, k: nat)
    requires k <= |log| && Read(log).Reading?
    ensures Read(log[..k]).Reading?
    decreases |log| - k
  {
    if k < |log| {
      ReadPrefix(log, k + 1);
      assert log[..k + 1][..k] == log[..k];
    } else {
      assert log[..k] == log;
    }
  }

  // ── Invariants ─────────────────────────────────────────────────────────────

  /** One loop at most, one call in the air at most, and the call belongs to the loop. */
  ghost predicate OneFlight(s: Transport) {
    && s.runs.Keys == (if s.inflight.Some? then {s.inflight.value} else {})
    && |s.air| <= 1
    && (|s.air| == 1 <==> s.inflight.Some? && s.runs[s.inflight.value].Awaiting?)
    && (|s.air| == 1 ==> s.air[0].run == s.inflight.value && s.air[0].chan == s.runs[s.inflight.value].chan)
  }

  /** The log, as its reader understands it, agrees with the state. */
  ghost predicate LogFits(s: Transport, r: Reading)
    requires OneFlight(s)
  {
    && r.Reading? && r.holds == s.shell && (r.took ==> r.holds == r.last)
    && (r.busy <==> |s.air| == 1)
    && (|s.air| == 1 ==>
          var d := s.runs[s.inflight.value];
          && d.myGen <= s.generation && r.last == Some(d.chan)
          && (d.myGen == s.generation ==> !r.closed && s.channel == Some(d.chan))
          && (r.took <==> s.air[0].verdict == Some(true)))
    && (s.registered ==> !r.busy && r.took && !r.closed && s.channel == r.last && s.channel == s.shell && r.last.Some?)
    && (forall w :: w in s.waiters && s.waiters[w].Cleared? ==> w in r.passed)
  }

  /** A request waits only for a promise that is settled or will be. */
  ghost predicate Awaited(s: Transport, p: Loop) {
    p in s.settled || s.inflight == Some(p)
  }

  ghost predicate NobodyForgotten(s: Transport) {
    forall w :: w in s.waiters && (s.waiters[w].First? || s.waiters[w].Second?) ==> Awaited(s, s.waiters[w].on)
  }

  ghost predicate Sound(s: Transport) {
    OneFlight(s) && LogFits(s, Read(s.log)) && NobodyForgotten(s)
  }

  lemma DoRegisterSound(s: Transport, r: Loop)
    requires s.inflight == Some(r) && s.runs.Keys <= {r} && s.air == []
    requires Read(s.log).Reading? && Read(s.log).holds == s.shell && !Read(s.log).busy && NobodyForgotten(s)
    requires forall w :: w in s.waiters && s.waiters[w].Cleared? ==> w in Read(s.log).passed
    ensures Sound(DoRegister(s, r))
  {
    ReadSnoc(s.log, Invoked(s.nextChannel));
  }

  lemma RegisterSound(s: Transport)
    requires Sound(s)
    ensures Sound(Register(s)) && Register(s).inflight.Some?
  {
    if s.inflight.None? {
      DoRegisterSound(s.(inflight := Some(s.nextRun), nextRun := s.nextRun + 1), s.nextRun);
    }
  }

  lemma DecideSound(s: Transport, k: nat, ok: bool)
    requires Sound(s)
    ensures Sound(Decide(s, k, ok))
  {
    if k < |s.air| {
      ReadSnoc(s.log, Took(s.air[k].chan));
    }
  }

  lemma AnswerSound(s: Transport, k: nat)
    requires Sound(s)
    ensures Sound(Answer(s, k))
  {
    ReadSnoc(s.log, Answered);
    if k < |s.air| {
      assert s.air[..k] + s.air[k + 1..] == [];
    }
  }

  lemma EndRunSound(s: Transport, r: Loop, ok: bool)
    requires Sound(s) && r in s.runs && !s.runs[r].Awaiting?
    ensures Sound(EndRun(s, r, ok))
  {
  }

  lemma ContinueSound(s: Transport, r: Loop)
    requires Sound(s)
    ensures Sound(Continue(s, r))
  {
    if r in s.runs && !s.runs[r].Awaiting? {
      EndRunSound(s, r, s.runs[r].Returned?);
      DoRegisterSound(s, r);
    }
  }

  lemma CloseSound(s: Transport)
    requires Sound(s)
    ensures Sound(Close(s))
  {
    var v := Close(s);
    ReadSnoc(s.log, Closed);
    assert OneFlight(v);
    assert Read(v.log) == Read(s.log).(closed := true);
    assert LogFits(v, Read(v.log));
  }

  lemma PassSound(s: Transport, w: Waiter)
    requires Sound(s) && s.registered
    ensures Sound(Pass(s, w))
  {
    ReadSnoc(s.log, Passed(w));
  }

  lemma CheckSound(s: Transport, w: Waiter)
    requires Sound(s)
    ensures Sound(Check(s, w))
  {
    if s.registered {
      PassSound(s, w);
    } else if !s.closedByUser {
      RegisterSound(s);
    }
  }

  lemma AskSound(s: Transport, w: Waiter)
    requires Sound(s)
    ensures Sound(Ask(s, w))
  {
    ReadSnoc(s.log, Replay(w));
  }

  lemma ResumeSound(s: Transport, w: Waiter)
    requires Sound(s)
    ensures Sound(Resume(s, w))
  {
    if w in s.waiters {
      match s.waiters[w]
      case First(p) =>
        CheckSound(s, w);
        RefuseSound(s, w);
      case Second(p) =>
        RefuseSound(s, w);
        if s.registered {
          PassSound(s, w);
        }
      case _ =>
    }
  }

  lemma RefuseSound(s: Transport, w: Waiter)
    requires Sound(s)
    ensures Sound(Refuse(s, w))
  {
  }

  lemma RequestSound(s: Transport)
    requires Sound(s)
    ensures Sound(RequestReplay(s))
  {
    var w, t := s.nextWaiter, s.(nextWaiter := s.nextWaiter + 1);
    if s.inflight.Some? {
      WaitSound(t, w);
    } else {
      CheckSound(t, w);
    }
  }

  lemma WaitSound(s: Transport, w: Waiter)
    requires Sound(s) && s.inflight.Some?
    ensures Sound(s.(waiters := s.waiters[w := First(s.inflight.value)]))
  {
  }

  lemma StepSound(s: Transport, e: Event)
    requires Sound(s)
    ensures Sound(Next(s, e))
  {
    match e
    case Connected => RegisterSound(s);
    case Started =>
    case CloseCalled => CloseSound(s);
    case Decided(k, ok) => DecideSound(s, k, ok);
    case AnswerIn(k) => AnswerSound(s, k);
    case RunOn(r) => ContinueSound(s, r);
    case ReplayWanted => RequestSound(s);
    case Woken(w) => ResumeSound(s, w);
    case GoesOut(w) => AskSound(s, w);
  }

  lemma {:induction false} RunSound(es: seq<Event>)
    ensures Sound(Run(es))
  {
    if es != [] {
      RunSound(es[..|es| - 1]);
      StepSound(Run(es[..|es| - 1]), es[|es| - 1]);
    }
  }

  // ── What follows for every run ─────────────────────────────────────────────

  /** At most one `subscribe_output` in the air, and while the flag is up the shell holds the current channel. */
  lemma RegisteredMeansHeld(es: seq<Event>)
    ensures var s := Run(es);
      && |s.air| <= 1
      && (s.registered ==> s.channel.Some? && s.shell == s.channel && s.air == [])
      && NobodyForgotten(s)
  {
    RunSound(es);
  }

  ghost predicate NoneBetween(log: seq<Sign>, i: nat, j: nat) {
    forall k :: i < k < j && k < |log| ==> !log[k].Closed? && !log[k].Invoked?
  }

  /** Two invokes have an answer between them. */
  lemma {:induction false} InvokesTakeTurns(log: seq<Sign>, i: nat, j: nat)
    requires Read(log).Reading? && i < j < |log| && log[i].Invoked? && log[j].Invoked?
    ensures exists k :: i < k < j && log[k].Answered?
  {
    if forall k :: i < k < j ==> !log[k].Answered? {
      ReadPrefix(log, j + 1);
      assert log[..j + 1][..j] == log[..j];
      StaysBusy(log, i, j);
    }
  }

  lemma {:induction false} StaysBusy(log: seq<Sign>, i: nat, j: nat)
    requires Read(log).Reading? && i < j <= |log| && log[i].Invoked? && forall k :: i < k < j ==> !log[k].Answered?
    ensures Read(log[..j]).Reading? && Read(log[..j]).busy
    decreases j
  {
    ReadPrefix(log, j);
    assert log[..j][..j - 1] == log[..j - 1];
    if i + 1 < j {
      StaysBusy(log, i, j - 1);
    }
  }

  /** If the last invoke was taken and nothing closed since, the log shows where. */
  lemma {:induction false} WhereTaken(log: seq<Sign>) returns (i: nat, j: nat)
    requires Read(log).Reading? && Read(log).took && !Read(log).closed
    ensures i < j < |log| && log[i].Invoked? && log[j] == Took(log[i].chan) && NoneBetween(log, i, |log|)
    ensures Read(log).last == Some(log[i].chan)
    decreases |log|
  {
    var n := |log| - 1;
    ReadPrefix(log, n);
    if log[n].Took? {
      i := WhereInvoked(log[..n]);
      j := n;
    } else {
      i, j := WhereTaken(log[..n]);
    }
  }

  lemma {:induction false} WhereInvoked(log: seq<Sign>) returns (i: nat)
    requires Read(log).Reading? && Read(log).last.Some? && !Read(log).closed
    ensures i < |log| && log[i].Invoked? && Read(log).last == Some(log[i].chan) && NoneBetween(log, i, |log|)
    decreases |log|
  {
    var n := |log| - 1;
    ReadPrefix(log, n);
    if log[n].Invoked? {
      i := n;
    } else {
      i := WhereInvoked(log[..n]);
    }
  }

  lemma PassedOnlyTaken(log: seq<Sign>, p: nat) returns (i: nat, j: nat)
    requires Read(log).Reading? && p < |log| && log[p].Passed?
    ensures i < j < p && log[i].Invoked? && log[j] == Took(log[i].chan) && NoneBetween(log, i, p)
  {
    ReadPrefix(log, p + 1);
    assert log[..p + 1][..p] == log[..p];
    i, j := WhereTaken(log[..p]);
  }

  /**
   Whenever a request passes its wait, the last channel handed over was taken by the shell and nothing was closed or
   handed over since.
   */
  lemma PassedOnlyRegistered(es: seq<Event>, p: nat) returns (i: nat, j: nat)
    requires p < |Run(es).log| && Run(es).log[p].Passed?
    ensures var log := Run(es).log;
      i < j < p && log[i].Invoked? && log[j] == Took(log[i].chan) && NoneBetween(log, i, p)
  {
    RunSound(es);
    i, j := PassedOnlyTaken(Run(es).log, p);
  }

  /** Over every run the invokes take turns. */
  lemma OneRegistrationAtATime(es: seq<Event>, i: nat, j: nat)
    requires i < j < |Run(es).log| && Run(es).log[i].Invoked? && Run(es).log[j].Invoked?
    ensures exists k :: i < k < j && Run(es).log[k].Answered?
  {
    RunSound(es);
    InvokesTakeTurns(Run(es).log, i, j);
  }

  lemma {:induction false} WherePassed(log: seq<Sign>, w: Waiter) returns (p: nat)
    requires Read(log).Reading? && w in Read(log).passed
    ensures p < |log| && log[p] == Passed(w) && forall k :: p < k < |log| ==> log[k] != Replay(w)
    decreases |log|
  {
    var n := |log| - 1;
    ReadPrefix(log, n);
    if log[n] == Passed(w) {
      p := n;
    } else {
      p := WherePassed(log[..n], w);
    }
  }

  lemma AskedOnlyPassed(log: seq<Sign>, q: nat) returns (p: nat)
    requires Read(log).Reading? && q < |log| && log[q].Replay?
    ensures p < q && log[p] == Passed(log[q].waiter) && forall k :: p < k < q ==> log[k] != log[q]
  {
    ReadPrefix(log, q + 1);
    assert log[..q + 1][..q] == log[..q];
    p := WherePassed(log[..q], log[q].waiter);
  }

  /** A replay request goes out only after it passed its wait, and once for passing it. */
  lemma AskedOnlyAfterPassing(es: seq<Event>, q: nat) returns (p: nat)
    requires q < |Run(es).log| && Run(es).log[q].Replay?
    ensures var log := Run(es).log;
      p < q && log[p] == Passed(log[q].waiter) && forall k :: p < k < q ==> log[k] != log[q]
  {
    RunSound(es);
    p := AskedOnlyPassed(Run(es).log, q);
  }

  // ── Nothing is used twice, nobody is lost ──────────────────────────────────

  ghost predicate ChannelsFresh(s: Transport) {
    && (forall k :: 0 <= k < |s.log| && s.log[k].Invoked? ==> s.log[k].chan < s.nextChannel)
    && (forall i, j :: 0 <= i < j < |s.log| && s.log[i].Invoked? && s.log[j].Invoked? ==> s.log[i].chan < s.log[j].chan)
  }

  ghost predicate LoopsFresh(s: Transport) {
    && (forall r :: r in s.settled ==> r < s.nextRun)
    && (s.inflight.Some? ==> s.inflight.value < s.nextRun && s.inflight.value !in s.settled)
    && (forall r :: r in s.runs ==> s.inflight == Some(r))
  }

  ghost predicate RequestsKept(s: Transport) {
    forall w: Waiter :: w < s.nextWaiter ==> w in s.waiters
  }

  ghost predicate Orderly(s: Transport) {
    ChannelsFresh(s) && LoopsFresh(s) && RequestsKept(s)
  }

  lemma InvokedOrderly(s: Transport, r: Loop)
    requires ChannelsFresh(s)
    ensures ChannelsFresh(DoRegister(s, r))
  {
  }

  lemma RegisterOrderly(s: Transport)
    requires Orderly(s)
    ensures Orderly(Register(s)) && Register(s).waiters == s.waiters
  {
    if s.inflight.None? {
      InvokedOrderly(s.(inflight := Some(s.nextRun), nextRun := s.nextRun + 1), s.nextRun);
    }
  }

  lemma ContinueOrderly(s: Transport, r: Loop)
    requires Orderly(s)
    ensures Orderly(Continue(s, r))
  {
    InvokedOrderly(s, r);
  }

  lemma RequestOrderly(s: Transport)
    requires Orderly(s)
    ensures Orderly(RequestReplay(s))
  {
    if s.inflight.None? {
      CheckOrderly(s.(nextWaiter := s.nextWaiter + 1), s.nextWaiter);
    }
  }

  lemma ResumeOrderly(s: Transport, w: Waiter)
    requires Orderly(s)
    ensures Orderly(Resume(s, w))
  {
    CheckOrderly(s, w);
  }

  lemma CheckOrderly(s: Transport, w: Waiter)
    requires ChannelsFresh(s) && LoopsFresh(s) && forall x: Waiter :: x < s.nextWaiter && x != w ==> x in s.waiters
    ensures Orderly(Check(s, w))
  {
    if !s.registered && !s.closedByUser {
      RegisterOrderly(s.(waiters := s.waiters[w := Refused]));
    }
  }

  lemma StepOrderly(s: Transport, e: Event)
    requires Orderly(s)
    ensures Orderly(Next(s, e))
  {
    match e
    case Connected => RegisterOrderly(s);
    case RunOn(r) => ContinueOrderly(s, r);
    case ReplayWanted => RequestOrderly(s);
    case Woken(w) => ResumeOrderly(s, w);
    case _ => QuietOrderly(s, e);
  }

  /** Nothing but histories and flags changes. */
  ghost predicate Alike(s: Transport, v: Transport) {
    && v.nextChannel == s.nextChannel && v.nextRun == s.nextRun && v.nextWaiter == s.nextWaiter
    && v.inflight == s.inflight && v.settled == s.settled && v.runs.Keys == s.runs.Keys && s.waiters.Keys <= v.waiters.Keys
    && s.log <= v.log && forall k :: |s.log| <= k < |v.log| ==> !v.log[k].Invoked?
  }

  lemma AlikeOrderly(s: Transport, v: Transport)
    requires Orderly(s) && Alike(s, v)
    ensures Orderly(v)
  {
    assert forall r :: r in v.runs ==> r in v.runs.Keys && r in s.runs;
    assert forall w :: w in s.waiters ==> w in s.waiters.Keys && w in v.waiters;
  }

  lemma QuietOrderly(s: Transport, e: Event)
    requires Orderly(s) && (e.Started? || e.CloseCalled? || e.Decided? || e.AnswerIn? || e.GoesOut?)
    ensures Orderly(Next(s, e))
  {
    match e {
      case Decided(k, ok) => DecideAlike(s, k, ok);
      case AnswerIn(k) => AnswerAlike(s, k);
      case _ =>
    }
    AlikeOrderly(s, Next(s, e));
  }

  lemma DecideAlike(s: Transport, k: nat, ok: bool)
    ensures Alike(s, Decide(s, k, ok))
  {
  }

  lemma AnswerAlike(s: Transport, k: nat)
    ensures Alike(s, Answer(s, k))
  {
  }

  /**
   Over every run no channel is handed over twice, no registration is confused with an earlier one, and every request
   made is waiting, refused, or on its way.
   */
  lemma {:induction false} RunOrderly(es: seq<Event>)
    ensures ChannelsFresh(Run(es)) && LoopsFresh(Run(es)) && RequestsKept(Run(es))
  {
    if es != [] {
      RunOrderly(es[..|es| - 1]);
      StepOrderly(Run(es[..|es| - 1]), es[|es| - 1]);
    }
  }

  /** A settled promise does not leave a request where it was. */
  lemma WokenMovesOn(s: Transport, w: Waiter)
    requires Orderly(s) && w in s.waiters && (s.waiters[w].First? || s.waiters[w].Second?) && s.waiters[w].on in s.settled
    ensures var v := Next(s, Woken(w));
      w in v.waiters && (v.waiters[w].Cleared? || v.waiters[w].Refused? ||
                         (s.waiters[w].First? && v.waiters[w].Second? && v.inflight == Some(v.waiters[w].on)))
    ensures !s.settled[s.waiters[w].on] ==> Next(s, Woken(w)).waiters[w].Refused?
  {
  }

  // ── A registration asked for during another ────────────────────────────────

  lemma StepStillAsked(s: Transport, e: Event, r: Loop)
    requires s.inflight == Some(r) && s.rerun && LoopsFresh(s) && e != RunOn(r) && e != CloseCalled
    ensures Next(s, e).inflight == Some(r) && Next(s, e).rerun
  {
  }

  lemma {:induction false} StillAsked(es: seq<Event>, fs: seq<Event>, r: Loop)
    requires Run(es).inflight == Some(r) && Run(es).rerun && RunOn(r) !in fs && CloseCalled !in fs
    ensures Run(es + fs).inflight == Some(r) && Run(es + fs).rerun
    decreases |fs|
  {
    if fs == [] {
      assert es + fs == es;
    } else {
      var n := |fs| - 1;
      assert fs == fs[..n] + [fs[n]];
      StillAsked(es, fs[..n], r);
      RunOrderly(es + fs[..n]);
      assert es + fs == (es + fs[..n]) + [fs[n]];
      RunSnoc(es + fs[..n], fs[n]);
      StepStillAsked(Run(es + fs[..n]), fs[n], r);
    }
  }

  /**
   A connection made while a registration is under way is followed by one more registration, unless the transport is
   closed or the one under way is refused.
   */
  lemma ConnectionIsFollowed(es: seq<Event>, fs: seq<Event>, r: Loop)
    requires Run(es).inflight == Some(r) && RunOn(r) !in fs && CloseCalled !in fs
    requires r in Run(es + [Connected] + fs).runs && Run(es + [Connected] + fs).runs[r].Returned?
    ensures var before, after := Run(es + [Connected] + fs), Run(es + [Connected] + fs + [RunOn(r)]);
      after.log == before.log + [Invoked(before.nextChannel)]
  {
    RunSnoc(es, Connected);
    StillAsked(es + [Connected], fs, r);
    RunSnoc(es + [Connected] + fs, RunOn(r));
  }

  // ── And a request does get through ─────────────────────────────────────────

  lemma RunSnoc(es: seq<Event>, e: Event)
    ensures Run(es + [e]) == Next(Run(es), e)
  {
    assert (es + [e])[..|es|] == es;
  }

  /** A registration that the shell takes and no close disturbs raises the flag, and its loop ends. */
  lemma RegistrationSucceeds(s: Transport)
    requires s.inflight.None? && s.air == []
    ensures var r := s.nextRun;
      var v := Next(Next(Next(Register(s), Decided(0, true)), AnswerIn(0)), RunOn(r));
      && v.registered && v.channel == Some(s.nextChannel) && v.shell == v.channel
      && v.inflight.None? && r in v.settled && v.settled[r] && v.waiters == s.waiters && v.closedByUser == s.closedByUser
  {
    var t := Register(s);
    assert t.air == [Flight(s.nextRun, s.nextChannel, None)];
    var u := Next(t, Decided(0, true));
    assert u.air == [Flight(s.nextRun, s.nextChannel, Some(true))];
  }

  lemma WokenAsks(s: Transport, w: Waiter, p: Loop)
    requires s.registered && w in s.waiters && s.waiters[w] == Second(p) && p in s.settled && s.settled[p]
    ensures Next(Next(s, Woken(w)), GoesOut(w)).log == s.log + [Passed(w), Replay(w)]
  {
    assert Next(s, Woken(w)) == Pass(s, w);
    assert (s.log + [Passed(w)]) + [Replay(w)] == s.log + [Passed(w), Replay(w)];
  }

  /** What happens to a request that finds nothing registered and nothing under way, if nothing goes wrong. */
  ghost function Through(run: Loop, w: Waiter): seq<Event> {
    [ReplayWanted] + [Decided(0, true)] + [AnswerIn(0)] + [RunOn(run)] + [Woken(w)] + [GoesOut(w)]
  }

  /** The transport after a request has registered a channel for itself in loop `p`. */
  ghost function Registering(s: Transport, p: Loop): Transport {
    Next(Next(Next(Next(s, ReplayWanted), Decided(0, true)), AnswerIn(0)), RunOn(p))
  }

  ghost predicate ReadyToAsk(s: Transport, w: Waiter, p: Loop) {
    s.registered && w in s.waiters && s.waiters[w] == Second(p) && p in s.settled && s.settled[p]
  }

  lemma RegistersForItself(s: Transport)
    requires s.inflight.None? && s.air == [] && !s.closedByUser && !s.registered
    ensures ReadyToAsk(Registering(s, s.nextRun), s.nextWaiter, s.nextRun)
  {
    var w := s.nextWaiter;
    var t := s.(nextWaiter := w + 1, waiters := s.waiters[w := Second(s.nextRun)]);
    assert Next(s, ReplayWanted) == Register(t);
    RegistrationSucceeds(t);
  }

  lemma RunThrough(es: seq<Event>, p: Loop, w: Waiter)
    requires ReadyToAsk(Registering(Run(es), p), w, p)
    ensures EndsWithReplay(Run(es + Through(p, w)).log, w)
  {
    var e1 := es + [ReplayWanted];
    var e2 := e1 + [Decided(0, true)];
    var e3 := e2 + [AnswerIn(0)];
    var e4 := e3 + [RunOn(p)];
    RunSnoc(es, ReplayWanted);
    RunSnoc(e1, Decided(0, true));
    RunSnoc(e2, AnswerIn(0));
    RunSnoc(e3, RunOn(p));
    RunSnoc(e4, Woken(w));
    RunSnoc(e4 + [Woken(w)], GoesOut(w));
    assert es + Through(p, w) == (e4 + [Woken(w)]) + [GoesOut(w)];
    WokenAsks(Run(e4), w, p);
  }

  ghost predicate EndsWithReplay(log: seq<Sign>, w: Waiter) {
    |log| > 0 && log[|log| - 1] == Replay(w)
  }

  /** After any run, a request on an open transport with nothing registered gets a channel registered and goes out. */
  lemma RequestGetsThrough(es: seq<Event>)
    requires Run(es).inflight.None? && !Run(es).closedByUser && !Run(es).registered
    ensures EndsWithReplay(Run(es + Through(Run(es).nextRun, Run(es).nextWaiter)).log, Run(es).nextWaiter)
  {
    RunSound(es);
    RegistersForItself(Run(es));
    RunThrough(es, Run(es).nextRun, Run(es).nextWaiter);
  }

  /** A registration asked for while one was under way follows if and only if that one was not refused. */
  lemma RerunOnlyAfterSuccess(es: seq<Event>, r: Loop)
    requires var s := Run(es); r in s.runs && !s.runs[r].Awaiting? && s.rerun
    ensures |Run(es + [RunOn(r)]).air| == 1 <==> Run(es).runs[r].Returned?
  {
    RunSound(es);
    RunSnoc(es, RunOn(r));
  }

  // ── After a close ──────────────────────────────────────────────────────────

  /** The user closed the transport, let go of the channel, and no further round of the loop is asked for. */
  ghost predicate ShutDown(s: Transport) {
    s.closedByUser && !s.rerun && s.channel.None?
  }

  ghost predicate NoInvokeSince(log: seq<Sign>, n: nat) {
    forall k :: n <= k < |log| ==> !log[k].Invoked?
  }

  /** `v` is shut down like `s`, and nothing was handed to the shell on the way from one to the other. */
  ghost predicate StaysShut(s: Transport, v: Transport) {
    ShutDown(v) && s.log <= v.log && NoInvokeSince(v.log, |s.log|)
  }

  lemma StepShutDown(s: Transport, v: Transport, e: Event)
    requires StaysShut(s, v) && !e.Connected? && !e.Started?
    ensures StaysShut(s, Next(v, e))
  {
    ShutStep(v, e);
  }

  lemma ShutStep(s: Transport, e: Event)
    requires ShutDown(s) && !e.Connected? && !e.Started?
    ensures StaysShut(s, Next(s, e))
  {
  }

  /** After a close nothing is handed to the shell until the next connection or start. */
  lemma {:induction false} NothingAfterClose(es: seq<Event>, fs: seq<Event>)
    requires forall i :: 0 <= i < |fs| ==> !fs[i].Connected? && !fs[i].Started?
    ensures StaysShut(Run(es + [CloseCalled]), Run(es + [CloseCalled] + fs))
    decreases |fs|
  {
    var closed := es + [CloseCalled];
    if fs == [] {
      RunSnoc(es, CloseCalled);
      assert closed + fs == closed;
    } else {
      var n := |fs| - 1;
      NothingAfterClose(es, fs[..n]);
      assert closed + fs == (closed + fs[..n]) + [fs[n]];
      RunSnoc(closed + fs[..n], fs[n]);
      StepShutDown(Run(closed), Run(closed + fs[..n]), fs[n]);
    }
  }
}
