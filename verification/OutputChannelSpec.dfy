/**
 Registration of a window's output channel, src/api/tauriTransport.ts: connected transitions and replay requests start
 or join a registration loop, `close` voids what is under way, and a replay request waits for the registered flag.

 Each asynchronous function is cut at its awaits; between two cuts anything else may happen.
 */
module OutputChannelSpec {
  import opened Wrappers

  type Channel = nat
  type Loop = nat
  type Waiter = nat

  /** Where a registration loop stands: its invoke is out, or has come back and the loop has not run on yet. */
  datatype RunStage = Awaiting(myGen: nat, chan: Channel) | Returned | Threw

  /** A `subscribe_output` on its way: the shell decides at some moment, its answer arrives later. */
  datatype Flight = Flight(run: Loop, chan: Channel, verdict: Option<bool>)

  /** Where a replay request stands: waiting for a registration found under way, or for one it asked for itself. */
  datatype WaitStage = First(on: Loop) | Second(on: Loop) | Cleared | Refused | Asked

  datatype Sign =
    | Invoked(chan: Channel)
    | Took(chan: Channel)
    | Answered
    | Closed
    | Passed(waiter: Waiter)
    | Replay(waiter: Waiter)

  /** `inflight` and `runs` name registration loops, `settled` is what the promises of ended loops came to. */
  datatype Transport = Transport(
    inflight: Option<Loop>,
    rerun: bool,
    registered: bool,
    generation: nat,
    channel: Option<Channel>,
    closedByUser: bool,
    nextRun: Loop,
    nextChannel: Channel,
    nextWaiter: Waiter,
    runs: map<Loop, RunStage>,
    settled: map<Loop, bool>,
    waiters: map<Waiter, WaitStage>,
    air: seq<Flight>,
    shell: Option<Channel>,
    log: seq<Sign>)

  const START := Transport(None, false, false, 0, None, false, 0, 0, 0, map[], map[], map[], [], None, [])

  /** One round of the loop: a new channel, and the invoke that hands it to the shell. */
  ghost function DoRegister(s: Transport, r: Loop): Transport {
    var c := s.nextChannel;
    s.(rerun := false, registered := false, channel := Some(c), nextChannel := c + 1,
       runs := s.runs[r := Awaiting(s.generation, c)], air := s.air + [Flight(r, c, None)],
       log := s.log + [Invoked(c)])
  }

  ghost function Register(s: Transport): Transport {
    if s.inflight.Some? then s.(rerun := true)
    else DoRegister(s.(inflight := Some(s.nextRun), nextRun := s.nextRun + 1), s.nextRun)
  }

  /** The shell takes or refuses the channel of the `k`-th call in the air. */
  ghost function Decide(s: Transport, k: nat, ok: bool): Transport {
    if k < |s.air| && s.air[k].verdict.None? then
      var t := s.(air := s.air[k := s.air[k].(verdict := Some(ok))]);
      if ok then t.(shell := Some(s.air[k].chan), log := s.log + [Took(s.air[k].chan)]) else t
    else s
  }

  /** The answer of the `k`-th call in the air arrives. */
  ghost function Answer(s: Transport, k: nat): Transport {
    if k < |s.air| && s.air[k].verdict.Some? && s.air[k].run in s.runs && s.runs[s.air[k].run].Awaiting? then
      var f := s.air[k];
      var ok := f.verdict.value;
      s.(air := s.air[..k] + s.air[k + 1..], log := s.log + [Answered],
         registered := s.registered || (ok && s.runs[f.run].myGen == s.generation),
         runs := s.runs[f.run := if ok then Returned else Threw])
    else s
  }

  ghost function EndRun(s: Transport, r: Loop, ok: bool): Transport {
    s.(inflight := None, runs := s.runs - {r}, settled := s.settled[r := ok])
  }

  /** The loop of `r` runs on after its round: once more if asked for meanwhile, else it ends. */
  ghost function Continue(s: Transport, r: Loop): Transport {
    if r !in s.runs || s.runs[r].Awaiting? then s
    else if s.runs[r].Threw? then EndRun(s, r, false)
    else if s.rerun then DoRegister(s, r)
    else EndRun(s, r, true)
  }

  ghost function Close(s: Transport): Transport {
    s.(closedByUser := true, generation := s.generation + 1, channel := None, rerun := false, registered := false,
       log := s.log + [Closed])
  }

  ghost function Pass(s: Transport, w: Waiter): Transport {
    s.(waiters := s.waiters[w := Cleared], log := s.log + [Passed(w)])
  }

  ghost function Refuse(s: Transport, w: Waiter): Transport {
    s.(waiters := s.waiters[w := Refused])
  }

  /** Nothing is under way that request `w` would have to wait for. */
  ghost function Check(s: Transport, w: Waiter): Transport {
    if s.registered then Pass(s, w)
    else if s.closedByUser then Refuse(s, w)
    else
      var t := Register(s);
      if t.inflight.Some? then t.(waiters := s.waiters[w := Second(t.inflight.value)]) else t
  }

  ghost function RequestReplay(s: Transport): Transport {
    var w, t := s.nextWaiter, s.(nextWaiter := s.nextWaiter + 1);
    if s.inflight.Some? then t.(waiters := s.waiters[w := First(s.inflight.value)]) else Check(t, w)
  }

  /** The promise that request `w` waits for has been settled. */
  ghost function Resume(s: Transport, w: Waiter): Transport {
    if w !in s.waiters then s
    else
      match s.waiters[w]
      case First(p) => if p !in s.settled then s else if s.settled[p] then Check(s, w) else Refuse(s, w)
      case Second(p) =>
        if p !in s.settled then s else if s.settled[p] && s.registered then Pass(s, w) else Refuse(s, w)
      case _ => s
  }

  /** Request `w` is past its wait and goes to the shell. */
  ghost function Ask(s: Transport, w: Waiter): Transport {
    if w in s.waiters && s.waiters[w].Cleared? then
      s.(waiters := s.waiters[w := Asked], log := s.log + [Replay(w)])
    else s
  }

  datatype Event =
    | Connected
    | Started
    | CloseCalled
    | Decided(k: nat, ok: bool)
    | AnswerIn(k: nat)
    | RunOn(run: Loop)
    | ReplayWanted
    | Woken(waiter: Waiter)
    | GoesOut(waiter: Waiter)

  ghost function Next(s: Transport, e: Event): Transport {
    match e
    case Connected => Register(s)
    case Started => s.(closedByUser := false)
    case CloseCalled => Close(s)
    case Decided(k, ok) => Decide(s, k, ok)
    case AnswerIn(k) => Answer(s, k)
    case RunOn(r) => Continue(s, r)
    case ReplayWanted => RequestReplay(s)
    case Woken(w) => Resume(s, w)
    case GoesOut(w) => Ask(s, w)
  }

  ghost function Run(es: seq<Event>): Transport {
    if es == [] then START else Next(Run(es[..|es| - 1]), es[|es| - 1])
  }
}
