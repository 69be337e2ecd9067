/**
 The latest-value reporter of src/util/latestValueReporter.ts with the bounded retry of src/util/retryInvoke.ts, as a
 machine whose steps are the calls made on it, the shell's decisions and answers, and the wake-ups of sleeping retries.

 A job's asynchronous function is a `Task`: it waits for an answer, or has its answer and has not run on yet, or
 sleeps before its next attempt.  A cancelled job's task lives on until it notices.
 */
module ReporterSpec {
  import opened Wrappers

  const ATTEMPTS := 4

  datatype Stage = Sending | Settling(ok: bool) | Sleeping
  datatype Task<T> = Task(value: T, attempt: nat, stage: Stage)
  datatype Job<T> = Job(value: T, gen: nat)

  /** A call on its way: the shell decides at some moment, and its answer arrives later. */
  datatype Flight<T> = Flight(gen: nat, value: T, verdict: Option<bool>)

  /** `held` is the value the shell had when the send went out. */
  datatype Sign<T> = Sent(gen: nat, value: T, held: Option<T>) | Answered(gen: nat, ok: bool)

  /**
   `pending` .. `tasks` belong to the reporter, `air` and `shell` to its surroundings.  `goal` is the last value
   submitted and not withdrawn since, and `gaveUp` the job that ran out of retries for it after that submit.
   */
  datatype Reporter<T> = Reporter(
    pending: Option<T>,
    sent: Option<T>,
    job: Option<Job<T>>,
    inAir: bool,
    gen: nat,
    tasks: map<nat, Task<T>>,
    air: seq<Flight<T>>,
    shell: Option<T>,
    goal: Option<T>,
    gaveUp: Option<nat>,
    log: seq<Sign<T>>)

  ghost function Idle<T>(): Reporter<T> {
    Reporter(None, None, None, false, 0, map[], [], None, None, None, [])
  }

  ghost function CancelJob<T>(r: Reporter<T>): Reporter<T> {
    r.(gen := r.gen + 1, job := None)
  }

  ghost function Withdraw<T>(r: Reporter<T>, value: T): Reporter<T> {
    var r1 := if r.job.Some? && r.job.value.value != value then CancelJob(r) else r;
    if r1.pending.Some? && r1.pending.value != value then r1.(pending := None) else r1
  }

  ghost function Observe<T>(r: Reporter<T>, value: T): Reporter<T> {
    Withdraw(r, value).(goal := if r.goal == Some(value) then r.goal else None)
  }

  /** The `n`-th attempt (from 0) of job `g`: the call goes out. */
  ghost function Launch<T>(r: Reporter<T>, g: nat, value: T, n: nat): Reporter<T> {
    r.(inAir := true, tasks := r.tasks[g := Task(value, n, Sending)], air := r.air + [Flight(g, value, None)],
       log := r.log + [Sent(g, value, r.shell)])
  }

  ghost function Start<T>(r: Reporter<T>, value: T): Reporter<T> {
    Launch(r.(gen := r.gen + 1, job := Some(Job(value, r.gen + 1))), r.gen + 1, value, 0)
  }

  ghost function Pump<T>(r: Reporter<T>): Reporter<T> {
    if r.inAir || r.pending.None? then r
    else
      var value, r1 := r.pending.value, r.(pending := None);
      if r.job.Some? && r.job.value.value == value then r1
      else
        var r2 := if r.job.Some? then CancelJob(r1) else r1;
        if r.sent == Some(value) then r2 else Start(r2, value)
  }

  ghost function Submit<T>(r: Reporter<T>, value: T): Reporter<T> {
    Pump(Withdraw(r, value).(pending := Some(value), goal := Some(value), gaveUp := None))
  }

  ghost function Release<T>(r: Reporter<T>): Reporter<T> {
    CancelJob(r.(pending := None)).(goal := None)
  }

  /** The shell takes or refuses the `k`-th call in the air. */
  ghost function Decide<T>(r: Reporter<T>, k: nat, ok: bool): Reporter<T> {
    if k < |r.air| && r.air[k].verdict.None? then
      r.(air := r.air[k := r.air[k].(verdict := Some(ok))], shell := if ok then Some(r.air[k].value) else r.shell)
    else r
  }

  /** The answer of the `k`-th call in the air arrives. */
  ghost function Answer<T>(r: Reporter<T>, k: nat): Reporter<T> {
    if k < |r.air| && r.air[k].verdict.Some? && r.air[k].gen in r.tasks then
      var f := r.air[k];
      var ok := f.verdict.value;
      Pump(r.(sent := if ok then Some(f.value) else r.sent, inAir := false, air := r.air[..k] + r.air[k + 1..],
              tasks := r.tasks[f.gen := r.tasks[f.gen].(stage := Settling(ok))],
              log := r.log + [Answered(f.gen, ok)]))
    else r
  }

  /**
   Job `g`'s retry loop runs on after its answer.  The code looks twice whether the job was cancelled, when the loop
   ends and when the outcome is handled; a cancelled job stays cancelled, so the second look decides alone.
   */
  ghost function Resume<T>(r: Reporter<T>, g: nat): Reporter<T> {
    if g !in r.tasks || !r.tasks[g].stage.Settling? then r
    else
      var t, done := r.tasks[g], r.(tasks := r.tasks - {g});
      if t.stage.ok then if r.gen == g then done.(job := None) else done
      else if t.attempt + 1 >= ATTEMPTS then
        if r.gen == g then done.(job := None, gaveUp := Some(g)) else done
      else r.(tasks := r.tasks[g := t.(stage := Sleeping)])
  }

  /** Job `g`'s backoff is over: it tries again unless it was cancelled meanwhile. */
  ghost function Wake<T>(r: Reporter<T>, g: nat): Reporter<T> {
    if g !in r.tasks || !r.tasks[g].stage.Sleeping? then r
    else if r.gen != g then r.(tasks := r.tasks - {g})
    else Launch(r, g, r.tasks[g].value, r.tasks[g].attempt + 1)
  }

  datatype Event<T> =
    | Observed(value: T)
    | Submitted(value: T)
    | Released
    | Decided(k: nat, ok: bool)
    | AnswerIn(k: nat)
    | Resumed(gen: nat)
    | Woken(gen: nat)

  ghost function Next<T>(r: Reporter<T>, e: Event<T>): Reporter<T> {
    match e
    case Observed(v) => Observe(r, v)
    case Submitted(v) => Submit(r, v)
    case Released => Release(r)
    case Decided(k, ok) => Decide(r, k, ok)
    case AnswerIn(k) => Answer(r, k)
    case Resumed(g) => Resume(r, g)
    case Woken(g) => Wake(r, g)
  }

  ghost function Run<T>(es: seq<Event<T>>): Reporter<T> {
    if es == [] then Idle() else Next(Run(es[..|es| - 1]), es[|es| - 1])
  }

  // ── What the log shows ─────────────────────────────────────────────────────

  ghost function Sends<T>(log: seq<Sign<T>>, g: nat): nat {
    if log == [] then 0
    else Sends(log[..|log| - 1], g) + if log[|log| - 1].Sent? && log[|log| - 1].gen == g then 1 else 0
  }

  ghost function Refusals<T>(log: seq<Sign<T>>, g: nat): nat {
    if log == [] then 0
    else
      var last := log[|log| - 1];
      Refusals(log[..|log| - 1], g) + if last.Answered? && last.gen == g && !last.ok then 1 else 0
  }

  lemma CountsSnoc<T>(log: seq<Sign<T>>, s: Sign<T>)
    ensures forall g :: Sends(log + [s], g) == Sends(log, g) + if s.Sent? && s.gen == g then 1 else 0
    ensures forall g :: Refusals(log + [s], g) == Refusals(log, g) + if s.Answered? && s.gen == g && !s.ok then 1 else 0
  {
    assert (log + [s])[..|log|] == log;
  }

  /** Every send of job `g` carries `value`. */
  ghost predicate Carries<T>(log: seq<Sign<T>>, g: nat, value: T) {
    forall i :: 0 <= i < |log| && log[i].Sent? && log[i].gen == g ==> log[i].value == value
  }

  /** No send repeats what the shell already had. */
  ghost predicate NeverRepeats<T>(log: seq<Sign<T>>) {
    forall i :: 0 <= i < |log| && log[i].Sent? ==> log[i].held != Some(log[i].value)
  }

  // ── Invariants ─────────────────────────────────────────────────────────────

  /** One call in the air at most, belonging to the one task that waits for it. */
  ghost predicate OneInFlight<T>(r: Reporter<T>) {
    && |r.air| <= 1
    && (r.inAir <==> |r.air| == 1)
    && (r.inAir ==> r.air[0].gen in r.tasks)
    && (forall g :: g in r.tasks && r.tasks[g].stage.Sending?
          ==> r.inAir && r.air[0].gen == g && r.air[0].value == r.tasks[g].value)
    && (r.inAir ==> r.tasks[r.air[0].gen].stage.Sending?)
  }

  /** `sent` is the shell's value, except that a positive decision may still be on its way back. */
  ghost predicate ShellKnown<T>(r: Reporter<T>) {
    if |r.air| == 1 && r.air[0].verdict == Some(true) then r.shell == Some(r.air[0].value) else r.shell == r.sent
  }

  /** A task that sleeps has an attempt left. */
  ghost predicate Within<T>(t: Task<T>) {
    t.attempt < ATTEMPTS && (t.stage.Sleeping? ==> t.attempt + 1 < ATTEMPTS)
  }

  /** The current generation belongs to the job, and only to it. */
  ghost predicate JobKnown<T>(r: Reporter<T>) {
    && (r.job.Some? <==> r.gen in r.tasks)
    && (r.job.Some? ==> r.job.value == Job(r.tasks[r.gen].value, r.gen))
    && (r.gen in r.tasks && |r.air| == 1 ==> r.air[0].gen == r.gen)
    && (r.gen in r.tasks ==> (r.tasks[r.gen].stage == Settling(true) <==> r.sent == Some(r.tasks[r.gen].value)))
    && (forall g :: g in r.tasks ==> g <= r.gen && Within(r.tasks[g]))
  }

  /** The submitted value is on its way, or has arrived, or ran out of retries. */
  ghost predicate GoalKnown<T>(r: Reporter<T>) {
    && (r.pending.Some? ==> r.inAir && r.pending == r.goal)
    && (r.job.Some? ==> Some(r.job.value.value) == r.goal)
    && (r.goal.Some? && r.gaveUp.None? && r.pending.None? && r.job.None? ==> r.sent == r.goal && !r.inAir)
  }

  ghost predicate TaskCounted<T>(log: seq<Sign<T>>, g: nat, t: Task<T>) {
    && Sends(log, g) == t.attempt + 1 && Carries(log, g, t.value)
    && (t.stage.Sending? ==> Refusals(log, g) == t.attempt)
    && (t.stage == Settling(false) || t.stage.Sleeping? ==> Refusals(log, g) == t.attempt + 1)
  }

  /** The log agrees with the tasks. */
  ghost predicate LogKnown<T>(r: Reporter<T>) {
    && NeverRepeats(r.log)
    && (forall g :: g in r.tasks ==> TaskCounted(r.log, g, r.tasks[g]))
    && (forall g: nat :: Sends(r.log, g) <= ATTEMPTS && (g > r.gen ==> Sends(r.log, g) == 0 && Refusals(r.log, g) == 0))
    && (forall i :: 0 <= i < |r.log| ==> r.log[i].gen <= r.gen)
  }

  ghost predicate RanOut<T>(log: seq<Sign<T>>, g: nat, value: T) {
    Sends(log, g) == ATTEMPTS && Refusals(log, g) == ATTEMPTS && Carries(log, g, value)
  }

  ghost predicate GaveUpKnown<T>(r: Reporter<T>) {
    r.gaveUp.Some? && r.goal.Some? ==>
      r.gaveUp.value !in r.tasks && r.gaveUp.value <= r.gen && RanOut(r.log, r.gaveUp.value, r.goal.value)
  }

  ghost predicate Core<T>(r: Reporter<T>) {
    OneInFlight(r) && ShellKnown(r) && JobKnown(r) && LogKnown(r)
  }

  ghost predicate Sound<T>(r: Reporter<T>) {
    Core(r) && GoalKnown(r) && GaveUpKnown(r)
  }
}
