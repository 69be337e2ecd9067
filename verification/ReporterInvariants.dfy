/** Every step of the reporter keeps its invariants, so they hold after every run. */
module ReporterInvariants {
  import opened Wrappers
  import opened ReporterSpec

  // ── What belongs to the reporter and the shell ─────────────────────────────

  lemma CancelCore<T>(r: Reporter<T>)
    requires Core(r)
    ensures Core(CancelJob(r))
  {
  }

  lemma SendLogged<T>(r: Reporter<T>, g: nat, value: T, n: nat)
    requires LogKnown(r) && g <= r.gen && n < ATTEMPTS && r.shell != Some(value)
    requires Sends(r.log, g) == n && Refusals(r.log, g) == n && Carries(r.log, g, value)
    ensures LogKnown(Launch(r, g, value, n))
  {
    var s := Sent(g, value, r.shell);
    CountsSnoc(r.log, s);
    var log := r.log + [s];
    forall h | h in r.tasks && h != g ensures TaskCounted(log, h, r.tasks[h]) {
      assert TaskCounted(r.log, h, r.tasks[h]);
    }
    assert Carries(log, g, value);
  }

  lemma StartCore<T>(r: Reporter<T>, value: T)
    requires Core(r) && !r.inAir && r.job.None? && r.sent != Some(value)
    ensures Core(Start(r, value))
  {
    var g := r.gen + 1;
    SendLogged(r.(gen := g, job := Some(Job(value, g))), g, value, 0);
  }

  lemma PumpCore<T>(r: Reporter<T>)
    requires Core(r)
    ensures Core(Pump(r))
  {
    if !r.inAir && r.pending.Some? && !(r.job.Some? && r.job.value.value == r.pending.value) {
      var r1 := r.(pending := None);
      CancelCore(r1);
      if r.sent != r.pending {
        StartCore(if r.job.Some? then CancelJob(r1) else r1, r.pending.value);
      }
    }
  }

  lemma DecideCore<T>(r: Reporter<T>, k: nat, ok: bool)
    requires Core(r)
    ensures Core(Decide(r, k, ok))
  {
  }

  /** The reporter when the answer of its one call is in and it has not looked at `pending` yet. */
  ghost function Taken<T>(r: Reporter<T>): Reporter<T>
    requires OneInFlight(r) && r.inAir && r.air[0].verdict.Some?
  {
    var f := r.air[0];
    var ok := f.verdict.value;
    r.(sent := if ok then Some(f.value) else r.sent, inAir := false, air := [],
       tasks := r.tasks[f.gen := r.tasks[f.gen].(stage := Settling(ok))], log := r.log + [Answered(f.gen, ok)])
  }

  lemma AnswerTakes<T>(r: Reporter<T>, k: nat)
    requires OneInFlight(r) && k < |r.air| && r.air[k].verdict.Some?
    ensures Answer(r, k) == Pump(Taken(r))
  {
    assert r.air[..k] + r.air[k + 1..] == [];
  }

  lemma AnswerLogged<T>(r: Reporter<T>)
    requires Core(r) && r.inAir && r.air[0].verdict.Some?
    ensures LogKnown(Taken(r))
  {
    var f := r.air[0];
    var s := Answered(f.gen, f.verdict.value);
    CountsSnoc(r.log, s);
    var log := r.log + [s];
    forall h | h in r.tasks && h != f.gen ensures TaskCounted(log, h, r.tasks[h]) {
      assert TaskCounted(r.log, h, r.tasks[h]);
    }
    assert TaskCounted(r.log, f.gen, r.tasks[f.gen]);
    assert Carries(log, f.gen, f.value);
  }

  lemma TakenCore<T>(r: Reporter<T>)
    requires Core(r) && r.inAir && r.air[0].verdict.Some?
    ensures Core(Taken(r))
  {
    AnswerLogged(r);
  }

  /** The reporter without task `g`, and without the job if that was its task. */
  ghost function Ended<T>(r: Reporter<T>, g: nat): Reporter<T> {
    r.(tasks := r.tasks - {g}, job := if r.gen == g then None else r.job)
  }

  lemma EndedCore<T>(r: Reporter<T>, g: nat)
    requires Core(r) && g in r.tasks && !r.tasks[g].stage.Sending?
    ensures Core(Ended(r, g))
  {
  }

  lemma FallsAsleep<T>(r: Reporter<T>, g: nat)
    requires Core(r) && g in r.tasks && r.tasks[g].stage == Settling(false) && r.tasks[g].attempt + 1 < ATTEMPTS
    ensures Core(r.(tasks := r.tasks[g := r.tasks[g].(stage := Sleeping)]))
  {
    var t := r.tasks[g];
    assert TaskCounted(r.log, g, t) && TaskCounted(r.log, g, t.(stage := Sleeping));
  }

  lemma ResumeCore<T>(r: Reporter<T>, g: nat)
    requires Core(r)
    ensures Core(Resume(r, g))
  {
    if g in r.tasks && r.tasks[g].stage.Settling? {
      EndedCore(r, g);
      if !r.tasks[g].stage.ok && r.tasks[g].attempt + 1 < ATTEMPTS {
        FallsAsleep(r, g);
      }
    }
  }

  lemma WakeCore<T>(r: Reporter<T>, g: nat)
    requires Core(r)
    ensures Core(Wake(r, g))
  {
    if g in r.tasks && r.tasks[g].stage.Sleeping? && r.gen == g {
      var t := r.tasks[g];
      assert TaskCounted(r.log, g, t);
      SendLogged(r, g, t.value, t.attempt + 1);
    }
  }

  // ── What became of the submitted value ─────────────────────────────────────

  lemma ObserveSound<T>(r: Reporter<T>, value: T)
    requires Sound(r)
    ensures Sound(Observe(r, value))
  {
    CancelCore(r);
  }

  lemma ReleaseSound<T>(r: Reporter<T>)
    requires Sound(r)
    ensures Sound(Release(r))
  {
    CancelCore(r);
  }

  /** What `Pump` needs to know of the goal: whatever waits or works is the goal, and if nothing does it has arrived. */
  ghost predicate Headed<T>(r: Reporter<T>) {
    && (r.pending.Some? ==> r.pending == r.goal)
    && (r.job.Some? ==> Some(r.job.value.value) == r.goal)
    && (r.goal.Some? && r.gaveUp.None? && r.pending.None? && r.job.None? ==> r.sent == r.goal && !r.inAir)
  }

  lemma StartRanOut<T>(r: Reporter<T>, value: T, g: nat, goal: T)
    requires RanOut(r.log, g, goal) && g <= r.gen
    ensures RanOut(Start(r, value).log, g, goal)
  {
    CountsSnoc(r.log, Sent(r.gen + 1, value, r.shell));
  }

  lemma PumpSound<T>(r: Reporter<T>)
    requires Core(r) && Headed(r) && GaveUpKnown(r)
    ensures Sound(Pump(r))
  {
    PumpCore(r);
    if !r.inAir && r.pending.Some? && r.job.None? && r.sent != r.pending && r.gaveUp.Some? {
      StartRanOut(r.(pending := None), r.pending.value, r.gaveUp.value, r.goal.value);
    }
  }

  lemma SubmitSound<T>(r: Reporter<T>, value: T)
    requires Sound(r)
    ensures Sound(Submit(r, value))
  {
    CancelCore(r);
    PumpSound(Withdraw(r, value).(pending := Some(value), goal := Some(value), gaveUp := None));
  }

  lemma TakenRanOut<T>(r: Reporter<T>)
    requires Core(r) && GaveUpKnown(r) && r.inAir && r.air[0].verdict.Some?
    ensures GaveUpKnown(Taken(r))
  {
    CountsSnoc(r.log, Answered(r.air[0].gen, r.air[0].verdict.value));
  }

  lemma AnswerSound<T>(r: Reporter<T>, k: nat)
    requires Sound(r)
    ensures Sound(Answer(r, k))
  {
    if k < |r.air| && r.air[k].verdict.Some? {
      AnswerTakes(r, k);
      TakenCore(r);
      TakenRanOut(r);
      PumpSound(Taken(r));
    }
  }

  lemma ResumeSound<T>(r: Reporter<T>, g: nat)
    requires Sound(r)
    ensures Sound(Resume(r, g))
  {
    ResumeCore(r, g);
    ResumeGoal(r, g);
  }

  lemma ResumeGoal<T>(r: Reporter<T>, g: nat)
    requires Sound(r)
    ensures GoalKnown(Resume(r, g)) && GaveUpKnown(Resume(r, g))
  {
    if g in r.tasks && r.tasks[g].stage.Settling? {
      assert TaskCounted(r.log, g, r.tasks[g]);
      assert r.gen == g ==> !r.inAir && r.pending.None?;
    }
  }

  lemma WakeSound<T>(r: Reporter<T>, g: nat)
    requires Sound(r)
    ensures Sound(Wake(r, g))
  {
    WakeCore(r, g);
    if g in r.tasks && r.gen == g {
      CountsSnoc(r.log, Sent(g, r.tasks[g].value, r.shell));
    }
  }

  lemma StepSound<T>(r: Reporter<T>, e: Event<T>)
    requires Sound(r)
    ensures Sound(Next(r, e))
  {
    match e
    case Observed(v) => ObserveSound(r, v);
    case Submitted(v) => SubmitSound(r, v);
    case Released => ReleaseSound(r);
    case Decided(k, ok) => DecideCore(r, k, ok);
    case AnswerIn(k) => AnswerSound(r, k);
    case Resumed(g) => ResumeSound(r, g);
    case Woken(g) => WakeSound(r, g);
  }

  lemma {:induction false} RunSound<T>(es: seq<Event<T>>)
    ensures OneInFlight(Run(es)) && ShellKnown(Run(es)) && JobKnown(Run(es)) && GoalKnown(Run(es))
    ensures LogKnown(Run(es)) && GaveUpKnown(Run(es))
  {
    if es != [] {
      RunSound(es[..|es| - 1]);
      StepSound(Run(es[..|es| - 1]), es[|es| - 1]);
    }
  }

  // ── What follows for every run ─────────────────────────────────────────────

  /**
   At most one call is in the air; unless a positive decision is on its way back, `lastSent` is the value the shell
   accepted last; no call repeats what the shell already has; and no job makes more than four calls.
   */
  lemma OneAtATime<T>(es: seq<Event<T>>, g: nat)
    ensures var r := Run(es);
      && |r.air| <= 1
      && (r.shell != r.sent ==> |r.air| == 1 && r.air[0].verdict == Some(true) && r.shell == Some(r.air[0].value))
      && NeverRepeats(r.log)
      && Sends(r.log, g) <= 4
  {
    RunSound(es);
  }

  // ── What the caller wants, from the calls alone ────────────────────────────

  /** The value submitted last, unless it was released or another value was observed since. */
  ghost function GoalOf<T>(es: seq<Event<T>>): Option<T> {
    if es == [] then None
    else
      var front := GoalOf(es[..|es| - 1]);
      match es[|es| - 1]
      case Submitted(v) => Some(v)
      case Released => None
      case Observed(v) => if front == Some(v) then front else None
      case _ => front
  }

  lemma PumpKeepsGoal<T>(r: Reporter<T>)
    ensures Pump(r).goal == r.goal
  {
  }

  /** Over every run the reporter works for the value its callers want. */
  lemma {:induction false} RunGoal<T>(es: seq<Event<T>>)
    ensures Run(es).goal == GoalOf(es)
  {
    if es != [] {
      RunGoal(es[..|es| - 1]);
    }
  }

  /** The place of the last submit. */
  ghost predicate LastSubmit<T>(es: seq<Event<T>>, i: nat) {
    i < |es| && es[i].Submitted? && forall k :: i < k < |es| ==> !es[k].Submitted?
  }

  /** Event `k` ends the job that works for `value`, after four calls that were all refused. */
  ghost predicate GivesUp<T>(es: seq<Event<T>>, k: nat, value: T)
    requires k < |es|
  {
    var r := Run(es[..k]);
    && es[k] == Resumed(r.gen) && r.job == Some(Job(value, r.gen))
    && Sends(r.log, r.gen) == 4 && Refusals(r.log, r.gen) == 4 && Carries(r.log, r.gen, value)
  }

  /** Since the last submit, and not before it, a job for the value has given up. */
  ghost predicate GaveUpSince<T>(es: seq<Event<T>>, value: T) {
    exists i: nat, k: nat :: LastSubmit(es, i) && i < k < |es| && GivesUp(es, k, value)
  }

  lemma GaveUpLater<T>(es: seq<Event<T>>, e: Event<T>, value: T)
    requires GaveUpSince(es, value) && !e.Submitted?
    ensures GaveUpSince(es + [e], value)
  {
    var i: nat, k: nat :| LastSubmit(es, i) && i < k < |es| && GivesUp(es, k, value);
    var more := es + [e];
    assert more[..k] == es[..k] && more[k] == es[k];
    assert LastSubmit(more, i) && GivesUp(more, k, value);
  }

  lemma {:induction false} WhereSubmitted<T>(es: seq<Event<T>>) returns (i: nat)
    requires GoalOf(es).Some?
    ensures LastSubmit(es, i)
  {
    var n := |es| - 1;
    if es[n].Submitted? {
      i := n;
    } else {
      i := WhereSubmitted(es[..n]);
    }
  }

  /** The step that gives up is a resumption after the fourth refusal. */
  lemma StepGivesUp<T>(r: Reporter<T>, e: Event<T>)
    requires Sound(r) && Next(r, e).gaveUp.Some? && Next(r, e).gaveUp != r.gaveUp
    ensures e == Resumed(r.gen) && r.job.Some? && r.job.value.gen == r.gen && Some(r.job.value.value) == r.goal
    ensures RanOut(r.log, r.gen, r.job.value.value)
  {
    if e.Resumed? && e.gen in r.tasks {
      assert TaskCounted(r.log, e.gen, r.tasks[e.gen]);
    }
  }

  lemma StepKeepsGaveUp<T>(r: Reporter<T>, e: Event<T>)
    requires Next(r, e).gaveUp.Some? && Next(r, e).gaveUp == r.gaveUp && Next(r, e).goal.Some?
    ensures !e.Submitted? && Next(r, e).goal == r.goal
  {
  }

  lemma GaveUpNow<T>(front: seq<Event<T>>, e: Event<T>, value: T)
    requires var r := Run(front);
      e == Resumed(r.gen) && r.job == Some(Job(value, r.gen)) && RanOut(r.log, r.gen, value)
    requires GoalOf(front).Some?
    ensures GaveUpSince(front + [e], value)
  {
    var es, n := front + [e], |front|;
    assert es[..n] == front;
    var i := WhereSubmitted(front);
    assert LastSubmit(es, i) && GivesUp(es, n, value);
  }

  lemma {:induction false} RunGaveUp<T>(es: seq<Event<T>>)
    requires Run(es).gaveUp.Some? && Run(es).goal.Some?
    ensures GaveUpSince(es, Run(es).goal.value)
  {
    var front, e := es[..|es| - 1], es[|es| - 1];
    assert es == front + [e];
    if Run(es).gaveUp == Run(front).gaveUp {
      StepKeepsGaveUp(Run(front), e);
      RunGaveUp(front);
      GaveUpLater(front, e, Run(es).goal.value);
    } else {
      RunSound(front);
      RunGoal(front);
      StepGivesUp(Run(front), e);
      GaveUpNow(front, e, Run(es).goal.value);
    }
  }

  /**
   Once nothing waits, works or flies, the value submitted last and not withdrawn since is in the shell, unless since
   that very submit a job for it gave up after four refusals.
   */
  lemma IdleHasArrived<T>(es: seq<Event<T>>)
    requires var r := Run(es); r.pending.None? && r.job.None? && !r.inAir
    requires GoalOf(es).Some?
    ensures var r := Run(es);
      (r.sent == GoalOf(es) && r.shell == GoalOf(es)) || GaveUpSince(es, GoalOf(es).value)
  {
    RunSound(es);
    RunGoal(es);
    if Run(es).gaveUp.Some? {
      RunGaveUp(es);
    }
  }

  /** Only what callers want is sent: every call carries the value submitted last, and none goes out once it is withdrawn. */
  lemma OnlyTheGoalIsSent<T>(es: seq<Event<T>>, e: Event<T>, k: nat)
    requires |Run(es).log| <= k < |Run(es + [e]).log| && Run(es + [e]).log[k].Sent?
    ensures GoalOf(es + [e]) == Some(Run(es + [e]).log[k].value)
  {
    RunSound(es);
    RunGoal(es + [e]);
    RunSnoc(es, e);
    StepSendsGoal(Run(es), e, k);
  }

  lemma PumpSendsGoal<T>(r: Reporter<T>, k: nat)
    requires Headed(r) && |r.log| <= k < |Pump(r).log|
    ensures Pump(r).log[k].Sent? && Some(Pump(r).log[k].value) == r.goal
  {
  }

  lemma SubmitSendsGoal<T>(r: Reporter<T>, v: T, k: nat)
    requires Sound(r) && |r.log| <= k < |Submit(r, v).log|
    ensures Submit(r, v).log[k].Sent? && Some(Submit(r, v).log[k].value) == Submit(r, v).goal
  {
    PumpSendsGoal(Withdraw(r, v).(pending := Some(v), goal := Some(v), gaveUp := None), k);
  }

  lemma StepSendsGoal<T>(r: Reporter<T>, e: Event<T>, k: nat)
    requires Sound(r) && |r.log| <= k < |Next(r, e).log| && Next(r, e).log[k].Sent?
    ensures Next(r, e).goal == Some(Next(r, e).log[k].value)
  {
    match e
    case Submitted(v) => SubmitSendsGoal(r, v, k);
    case AnswerIn(j) =>
      if j < |r.air| && r.air[j].verdict.Some? {
        AnswerTakes(r, j);
        if k >= |Taken(r).log| {
          PumpSendsGoal(Taken(r), k);
        }
      }
    case Woken(g) =>
    case _ =>
  }

  // ── What becomes of a submitted value ──────────────────────────────────────

  /**
   With no call in the air, a submitted value is sent at once, unless the shell has it or a job is at work for it; and
   if the shell takes it, it is in the shell and the reporter is idle again.
   */
  lemma SubmittedGetsThrough<T>(es: seq<Event<T>>, value: T)
    requires var r := Run(es); !r.inAir && r.sent != Some(value) && (r.job.Some? ==> r.job.value.value != value)
    ensures var w := Run(es + [Submitted(value)]);
      && w.air == [Flight(w.gen, value, None)]
      && var v := Run(es + [Submitted(value)] + [Decided(0, true)] + [AnswerIn(0)] + [Resumed(w.gen)]);
         v.sent == Some(value) && v.shell == Some(value) && v.pending.None? && v.job.None? && !v.inAir
  {
    var w := Run(es + [Submitted(value)]);
    RunSound(es);
    RunSnoc(es, Submitted(value));
    RunSnoc(es + [Submitted(value)], Decided(0, true));
    RunSnoc(es + [Submitted(value)] + [Decided(0, true)], AnswerIn(0));
    RunSnoc(es + [Submitted(value)] + [Decided(0, true)] + [AnswerIn(0)], Resumed(w.gen));
    SubmitSends(Run(es), value);
    RunSound(es + [Submitted(value)]);
    SentIsTaken(w, value);
  }

  lemma SubmitSends<T>(r: Reporter<T>, value: T)
    requires Sound(r) && !r.inAir && r.sent != Some(value) && (r.job.Some? ==> r.job.value.value != value)
    ensures var w := Submit(r, value);
      && w.air == [Flight(w.gen, value, None)] && w.pending.None? && w.job == Some(Job(value, w.gen))
      && w.gen in w.tasks && w.tasks[w.gen] == Task(value, 0, Sending)
  {
    assert r.air == [];
  }

  lemma SentIsTaken<T>(w: Reporter<T>, value: T)
    requires w.air == [Flight(w.gen, value, None)] && w.pending.None? && w.gen in w.tasks
    ensures var v := Next(Next(Next(w, Decided(0, true)), AnswerIn(0)), Resumed(w.gen));
      v.sent == Some(value) && v.shell == Some(value) && v.pending.None? && v.job.None? && !v.inAir
  {
    assert Next(w, Decided(0, true)).air == [Flight(w.gen, value, Some(true))];
  }

  /**
   A value the shell has, or a job is at work for, is not sent again; a job at work for it goes on as it was, and a job
   for another value ends.
   */
  lemma SubmittedAgain<T>(es: seq<Event<T>>, value: T)
    requires var r := Run(es); !r.inAir && (r.sent == Some(value) || (r.job.Some? && r.job.value.value == value))
    ensures var r, w := Run(es), Run(es + [Submitted(value)]);
      && w.log == r.log && w.tasks == r.tasks && w.pending.None? && !w.inAir
      && (if r.job.Some? && r.job.value.value == value then w.job == r.job && w.gen == r.gen else w.job.None?)
  {
    RunSnoc(es, Submitted(value));
    SubmitAgain(Run(es), value);
  }

  lemma SubmitAgain<T>(r: Reporter<T>, value: T)
    requires !r.inAir && (r.sent == Some(value) || (r.job.Some? && r.job.value.value == value))
    ensures var w := Submit(r, value);
      && w.log == r.log && w.tasks == r.tasks && w.pending.None? && !w.inAir
      && (if r.job.Some? && r.job.value.value == value then w.job == r.job && w.gen == r.gen else w.job.None?)
  {
  }

  /** A value submitted while a call is in the air is the next to be sent, unless the shell or a job has it already. */
  lemma SubmittedGoesNext<T>(es: seq<Event<T>>, value: T)
    requires Run(es).inAir && |Run(es).air| == 1 && Run(es).air[0].verdict.Some?
    ensures var v := Run(es + [Submitted(value)] + [AnswerIn(0)]);
      || (v.air == [Flight(v.gen, value, None)] && v.inAir)
      || (!v.inAir && (v.sent == Some(value) || (v.job.Some? && v.job.value.value == value)))
  {
    RunSnoc(es, Submitted(value));
    RunSnoc(es + [Submitted(value)], AnswerIn(0));
    RunSound(es);
    RunSound(es + [Submitted(value)]);
    SubmitWaits(Run(es), value);
    AnswerTakes(Run(es + [Submitted(value)]), 0);
    PumpServes(Taken(Run(es + [Submitted(value)])), value);
  }

  lemma SubmitWaits<T>(r: Reporter<T>, value: T)
    requires r.inAir
    ensures var w := Submit(r, value); w.inAir && w.air == r.air && w.pending == Some(value)
  {
  }

  lemma PumpServes<T>(r: Reporter<T>, value: T)
    requires !r.inAir && r.air == [] && r.pending == Some(value)
    ensures var v := Pump(r);
      || (v.air == [Flight(v.gen, value, None)] && v.inAir)
      || (!v.inAir && (v.sent == Some(value) || (v.job.Some? && v.job.value.value == value)))
  {
  }

  /** A job whose call was taken, and one whose fourth call was refused, are over when they run on. */
  lemma FinishedJobEnds<T>(es: seq<Event<T>>)
    requires var r := Run(es);
      && r.job.Some? && r.gen in r.tasks
      && (r.tasks[r.gen].stage == Settling(true) || (r.tasks[r.gen].stage == Settling(false) && r.tasks[r.gen].attempt == 3))
    ensures var r, v := Run(es), Run(es + [Resumed(Run(es).gen)]);
      v.job.None? && v.tasks == r.tasks - {r.gen} && v.log == r.log && v.sent == r.sent
  {
    RunSnoc(es, Resumed(Run(es).gen));
  }

  /** The shell's verdict on a call is what it then holds, and reaches the reporter only with the answer. */
  lemma VerdictTakesEffect<T>(es: seq<Event<T>>, ok: bool)
    requires |Run(es).air| == 1 && Run(es).air[0].verdict.None?
    ensures var r, v := Run(es), Run(es + [Decided(0, ok)]);
      v.shell == (if ok then Some(r.air[0].value) else r.shell) && v.sent == r.sent && v.air[0].verdict == Some(ok)
  {
    RunSnoc(es, Decided(0, ok));
  }

  /** It never stalls: a value that waits has a call in the air, and a job has a task that will go on. */
  lemma NeverStalls<T>(es: seq<Event<T>>)
    ensures var r := Run(es);
      && (r.pending.Some? ==> |r.air| == 1)
      && (r.job.Some? ==> r.job.value.gen in r.tasks && r.tasks[r.job.value.gen].value == r.job.value.value)
      && (forall g :: g in r.tasks && r.tasks[g].stage.Sending? ==> |r.air| == 1 && r.air[0].gen == g)
  {
    RunSound(es);
  }

  /** A refused attempt is followed by another one, up to four, unless the job was cancelled. */
  lemma RefusedJobTriesAgain<T>(es: seq<Event<T>>)
    requires var r := Run(es);
      && r.job.Some? && r.gen in r.tasks && r.tasks[r.gen].stage == Settling(false) && r.tasks[r.gen].attempt < 3
    ensures var r, v := Run(es), Run(es + [Resumed(Run(es).gen)] + [Woken(Run(es).gen)]);
      && v.inAir && v.air == [Flight(r.gen, r.job.value.value, None)]
      && r.gen in v.tasks && v.tasks[r.gen] == Task(r.job.value.value, r.tasks[r.gen].attempt + 1, Sending)
  {
    var g := Run(es).gen;
    RunSound(es);
    RunSnoc(es, Resumed(g));
    RunSnoc(es + [Resumed(g)], Woken(g));
  }

  lemma RunSnoc<T>(es: seq<Event<T>>, e: Event<T>)
    ensures Run(es + [e]) == Next(Run(es), e)
  {
    assert (es + [e])[..|es|] == es;
  }

  /** A job that was cancelled sends nothing when it wakes, and is gone. */
  lemma CancelledJobEnds<T>(es: seq<Event<T>>, g: nat)
    requires g in Run(es).tasks && Run(es).tasks[g].stage.Sleeping? && g != Run(es).gen
    ensures Run(es + [Woken(g)]) == Run(es).(tasks := Run(es).tasks - {g})
  {
    RunSnoc(es, Woken(g));
  }
}
