/** The reporter as src/util/latestValueReporter.ts writes it: fields changed by each call and by each answer. */
module Reporting {
  import opened Wrappers
  import R = ReporterSpec
  import opened ReporterInvariants

  class LatestValueReporter<T(==)> {
    var pending: Option<T>
    var sent: Option<T>
    var job: Option<R.Job<T>>
    var inAir: bool
    var gen: nat
    /** The suspended retry loops, by the generation of their job. */
    var tasks: map<nat, R.Task<T>>
    ghost var air: seq<R.Flight<T>>
    ghost var shell: Option<T>
    ghost var goal: Option<T>
    ghost var gaveUp: Option<nat>
    ghost var log: seq<R.Sign<T>>
    /** Everything that has happened so far. */
    ghost var past: seq<R.Event<T>>

    ghost function State(): R.Reporter<T>
      reads this
    {
      R.Reporter(pending, sent, job, inAir, gen, tasks, air, shell, goal, gaveUp, log)
    }

    ghost predicate Valid()
      reads this
    {
      State() == R.Run(past)
    }

    constructor ()
      ensures Valid() && past == []
    {
      pending, sent, job, inAir, gen, tasks := None, None, None, false, 0, map[];
      air, shell, goal, gaveUp, log, past := [], None, None, None, [], [];
    }

    /** Note that `e` has happened. */
    ghost method Happened(e: R.Event<T>)
      requires State() == R.Next(R.Run(past), e)
      modifies this`past
      ensures Valid() && past == old(past) + [e]
    {
      assert (past + [e])[..|past|] == past;
      past := past + [e];
    }

    method CancelJob()
      modifies this`gen, this`job
      ensures State() == R.CancelJob(old(State()))
    {
      gen := gen + 1;
      job := None;
    }

    method Withdraw(value: T)
      modifies this`gen, this`job, this`pending
      ensures State() == R.Withdraw(old(State()), value)
    {
      if job.Some? && job.value.value != value {
        CancelJob();
      }
      if pending.Some? && pending.value != value {
        pending := None;
      }
    }

    method Observe(value: T)
      requires Valid()
      modifies this
      ensures Valid() && past == old(past) + [R.Observed(value)]
    {
      Withdraw(value);
      goal := if goal == Some(value) then goal else None;
      Happened(R.Observed(value));
    }

    /** Make one call for job `g`. */
    method Attempt(g: nat, value: T, n: nat)
      modifies this`inAir, this`tasks, this`air, this`log
      ensures State() == R.Launch(old(State()), g, value, n)
    {
      inAir := true;
      air := air + [R.Flight(g, value, None)];
      log := log + [R.Sent(g, value, shell)];
      tasks := tasks[g := R.Task(value, n, R.Sending)];
    }

    /** A job's retry loop makes its first attempt at once. */
    method Start(value: T)
      modifies this`gen, this`job, this`inAir, this`tasks, this`air, this`log
      ensures State() == R.Start(old(State()), value)
    {
      gen := gen + 1;
      job := Some(R.Job(value, gen));
      Attempt(gen, value, 0);
    }

    method Pump()
      modifies this`pending, this`gen, this`job, this`inAir, this`tasks, this`air, this`log
      ensures State() == R.Pump(old(State()))
    {
      if inAir || pending.None? {
        return;
      }
      var value := pending.value;
      pending := None;
      if job.Some? {
        if job.value.value == value {
          return;
        }
        CancelJob();
      }
      if sent.Some? && sent.value == value {
        return;
      }
      Start(value);
    }

    method Submit(value: T)
      requires Valid()
      modifies this
      ensures Valid() && past == old(past) + [R.Submitted(value)]
    {
      Withdraw(value);
      pending := Some(value);
      goal, gaveUp := Some(value), None;
      Pump();
      Happened(R.Submitted(value));
    }

    method Release()
      requires Valid()
      modifies this
      ensures Valid() && past == old(past) + [R.Released]
    {
      pending := None;
      CancelJob();
      goal := None;
      Happened(R.Released);
    }

    /** The call of job `g` is answered.  Before its retry loop hears of it, the value that waited meanwhile goes out. */
    method AttemptSettles(g: nat, value: T, ok: bool, ghost k: nat)
      requires Valid() && k < |air| && air[k] == R.Flight(g, value, Some(ok)) && g in tasks
      modifies this
      ensures Valid() && past == old(past) + [R.AnswerIn(k)]
    {
      air := air[..k] + air[k + 1..];
      log := log + [R.Answered(g, ok)];
      if ok && (sent.None? || sent.value != value) {
        sent := Some(value);
      }
      tasks := tasks[g := tasks[g].(stage := R.Settling(ok))];
      inAir := false;
      Pump();
      Happened(R.AnswerIn(k));
    }

    /** The retry loop of job `g` runs on after an answer: it is done, or gives up, or goes to sleep. */
    method RetryResumes(g: nat)
      requires Valid() && g in tasks && tasks[g].stage.Settling?
      modifies this
      ensures Valid() && past == old(past) + [R.Resumed(g)]
    {
      RunSound(past);
      var t := tasks[g];
      if t.stage.ok || t.attempt == R.ATTEMPTS - 1 {
        tasks := tasks - {g};
        if gen == g {
          job := None;
          gaveUp := if t.stage.ok then gaveUp else Some(g);
        }
      } else {
        tasks := tasks[g := t.(stage := R.Sleeping)];
      }
      Happened(R.Resumed(g));
    }

    /** The backoff of job `g` is over. */
    method RetryWakes(g: nat)
      requires Valid() && g in tasks && tasks[g].stage.Sleeping?
      modifies this
      ensures Valid() && past == old(past) + [R.Woken(g)]
    {
      var t := tasks[g];
      if gen != g {
        tasks := tasks - {g};
      } else {
        Attempt(g, t.value, t.attempt + 1);
      }
      Happened(R.Woken(g));
    }
  }
}
