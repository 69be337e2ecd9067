/** The output-channel half of src/api/tauriTransport.ts: fields changed by calls, answers and resumed functions. */
module TauriTransports {
  import opened Wrappers
  import C = OutputChannelSpec

  class TauriTransport {
    var outputChannelInflight: Option<C.Loop>
    var outputChannelRerun: bool
    var outputChannelRegistered: bool
    var generation: nat
    var outputChannel: Option<C.Channel>
    var closedByUser: bool
    var nextRun: C.Loop
    var nextChannel: C.Channel
    var nextWaiter: C.Waiter
    /** The suspended functions and the settled promises. */
    var runs: map<C.Loop, C.RunStage>
    var settled: map<C.Loop, bool>
    var waiters: map<C.Waiter, C.WaitStage>
    ghost var air: seq<C.Flight>
    ghost var shell: Option<C.Channel>
    ghost var log: seq<C.Sign>
    /** Everything that has happened so far. */
    ghost var past: seq<C.Event>

    ghost function State(): C.Transport
      reads this
    {
      C.Transport(outputChannelInflight, outputChannelRerun, outputChannelRegistered, generation, outputChannel,
                  closedByUser, nextRun, nextChannel, nextWaiter, runs, settled, waiters, air, shell, log)
    }

    ghost predicate Valid()
      reads this
    {
      State() == C.Run(past)
    }

    constructor ()
      ensures Valid() && past == []
    {
      outputChannelInflight, outputChannelRerun, outputChannelRegistered := None, false, false;
      generation, outputChannel, closedByUser := 0, None, false;
      nextRun, nextChannel, nextWaiter := 0, 0, 0;
      runs, settled, waiters := map[], map[], map[];
      air, shell, log, past := [], None, [], [];
    }

    /** Note that `e` has happened. */
    ghost method Happened(e: C.Event)
      requires State() == C.Next(C.Run(past), e)
      modifies this`past
      ensures Valid() && past == old(past) + [e]
    {
      assert (past + [e])[..|past|] == past;
      past := past + [e];
    }

    method NewChannel() returns (channel: C.Channel)
      modifies this`outputChannel, this`nextChannel
      ensures channel == old(nextChannel) && nextChannel == channel + 1 && outputChannel == Some(channel)
    {
      channel := nextChannel;
      nextChannel := nextChannel + 1;
      outputChannel := Some(channel);
    }

    /** One round of the loop of `run`, up to its invoke. */
    method DoRegisterOutputChannel(run: C.Loop)
      modifies this`outputChannelRerun, this`outputChannelRegistered, this`outputChannel, this`nextChannel, this`runs,
               this`air, this`log
      ensures State() == C.DoRegister(old(State()), run)
    {
      outputChannelRerun := false;
      var myGen := generation;
      outputChannelRegistered := false;
      var channel := NewChannel();
      air := air + [C.Flight(run, channel, None)];
      log := log + [C.Invoked(channel)];
      runs := runs[run := C.Awaiting(myGen, channel)];
    }

    /** Join the registration under way, asking for one more round, or start one. */
    method RegisterOutputChannel() returns (promise: C.Loop)
      modifies this`outputChannelInflight, this`outputChannelRerun, this`outputChannelRegistered, this`outputChannel,
               this`nextRun, this`nextChannel, this`runs, this`air, this`log
      ensures State() == C.Register(old(State())) && outputChannelInflight == Some(promise)
    {
      if outputChannelInflight.Some? {
        outputChannelRerun := true;
        promise := outputChannelInflight.value;
      } else {
        promise := nextRun;
        nextRun := nextRun + 1;
        outputChannelInflight := Some(promise);
        DoRegisterOutputChannel(promise);
      }
    }

    method OnConnected()
      requires Valid()
      modifies this
      ensures Valid() && past == old(past) + [C.Connected]
    {
      var _ := RegisterOutputChannel();
      Happened(C.Connected);
    }

    method Start()
      requires Valid()
      modifies this
      ensures Valid() && past == old(past) + [C.Started]
    {
      closedByUser := false;
      Happened(C.Started);
    }

    /** Let go of the channel and of everything that was to come of it. */
    method DropChannel()
      modifies this`outputChannel, this`outputChannelRerun, this`outputChannelRegistered
      ensures outputChannel == None && !outputChannelRerun && !outputChannelRegistered
    {
      outputChannel := None;
      outputChannelRerun := false;
      outputChannelRegistered := false;
    }

    method Close()
      requires Valid()
      modifies this
      ensures Valid() && past == old(past) + [C.CloseCalled]
    {
      closedByUser := true;
      generation := generation + 1;
      DropChannel();
      log := log + [C.Closed];
      assert State() == C.Close(old(State()));
      Happened(C.CloseCalled);
    }

    /** The invoke of `run` is answered. */
    method InvokeSettles(run: C.Loop, ok: bool, ghost k: nat)
      requires Valid() && run in runs && runs[run].Awaiting?
      requires k < |air| && air[k].run == run && air[k].verdict == Some(ok)
      modifies this
      ensures Valid() && past == old(past) + [C.AnswerIn(k)]
    {
      air := air[..k] + air[k + 1..];
      log := log + [C.Answered];
      if ok {
        if runs[run].myGen == generation {
          outputChannelRegistered := true;
        }
        runs := runs[run := C.Returned];
      } else {
        runs := runs[run := C.Threw];
      }
      Happened(C.AnswerIn(k));
    }

    /** The loop of `run` goes round again if that was asked for meanwhile, and ends otherwise. */
    method RunContinues(run: C.Loop)
      requires Valid() && run in runs && !runs[run].Awaiting?
      modifies this
      ensures Valid() && past == old(past) + [C.RunOn(run)]
    {
      if runs[run].Returned? && outputChannelRerun {
        DoRegisterOutputChannel(run);
      } else {
        settled := settled[run := runs[run].Returned?];
        runs := runs - {run};
        outputChannelInflight := None;
      }
      Happened(C.RunOn(run));
    }

    /** The second half of the wait: nothing is under way that request `w` would have to wait for. */
    method CheckRegistered(w: C.Waiter)
      modifies this`outputChannelInflight, this`outputChannelRerun, this`outputChannelRegistered, this`outputChannel,
               this`nextRun, this`nextChannel, this`runs, this`air, this`log, this`waiters
      ensures State() == C.Check(old(State()), w)
    {
      if outputChannelRegistered {
        waiters := waiters[w := C.Cleared];
        log := log + [C.Passed(w)];
      } else if closedByUser {
        waiters := waiters[w := C.Refused];
      } else {
        var promise := RegisterOutputChannel();
        waiters := waiters[w := C.Second(promise)];
      }
    }

    method RequestReplay() returns (w: C.Waiter)
      requires Valid()
      modifies this
      ensures Valid() && past == old(past) + [C.ReplayWanted] && w == old(nextWaiter)
    {
      w := nextWaiter;
      nextWaiter := nextWaiter + 1;
      if outputChannelInflight.Some? {
        waiters := waiters[w := C.First(outputChannelInflight.value)];
      } else {
        CheckRegistered(w);
      }
      Happened(C.ReplayWanted);
    }

    /** The registration that request `w` waited for is over. */
    method WaiterResumes(w: C.Waiter)
      requires Valid() && w in waiters && (waiters[w].First? || waiters[w].Second?) && waiters[w].on in settled
      modifies this
      ensures Valid() && past == old(past) + [C.Woken(w)]
    {
      if !settled[waiters[w].on] {
        waiters := waiters[w := C.Refused];
      } else if waiters[w].First? {
        CheckRegistered(w);
      } else if outputChannelRegistered {
        waiters := waiters[w := C.Cleared];
        log := log + [C.Passed(w)];
      } else {
        waiters := waiters[w := C.Refused];
      }
      Happened(C.Woken(w));
    }

    /** Request `w` is past its wait and goes to the shell, whatever has happened to the flag meanwhile. */
    method InvokeRequestReplay(w: C.Waiter)
      requires Valid() && w in waiters && waiters[w].Cleared?
      modifies this
      ensures Valid() && past == old(past) + [C.GoesOut(w)]
    {
      waiters := waiters[w := C.Asked];
      log := log + [C.Replay(w)];
      Happened(C.GoesOut(w));
    }
  }
}
