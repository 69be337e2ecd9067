/**
 The theme gate of src-tauri/src/theme.rs: threads write the global theme, a window's own theme or a staged theme, and
 then push the effective themes to all windows.  A push reads the three places one after the other, each under its own
 lock and while others go on writing, and sends window by window; only the gate keeps two pushes apart.
 */
module ThemeGateSpec {
  import opened Wrappers

  type Label = string
  type Thread = nat
  datatype UiTheme = Dark | Light | EInk

  /** The three places a theme is read from; a window unknown to `model` may have a staged theme. */
  datatype Sources = Sources(global: UiTheme, model: map<Label, Option<UiTheme>>, staged: map<Label, UiTheme>)

  function Resolve(own: Option<UiTheme>, global: UiTheme): UiTheme {
    if own.Some? then own.value else global
  }

  function Effective(s: Sources, l: Label): UiTheme {
    Resolve(if l in s.model then s.model[l] else if l in s.staged then Some(s.staged[l]) else None, s.global)
  }

  datatype Write =
    | SetGlobal(theme: UiTheme)
    | SetOwn(window: Label, own: Option<UiTheme>)
    | EnterModel(window: Label, own: Option<UiTheme>)
    | LeaveModel(window: Label)
    | Stage(window: Label, own: Option<UiTheme>)
    | Unstage(window: Label)

  /** A window that the model does not know has no theme to set. */
  function Written(s: Sources, w: Write): Sources {
    match w
    case SetGlobal(t) => s.(global := t)
    case SetOwn(l, own) => if l in s.model then s.(model := s.model[l := own]) else s
    case EnterModel(l, own) => s.(model := s.model[l := own])
    case LeaveModel(l) => s.(model := s.model - {l})
    case Stage(l, own) => s.(staged := if own.Some? then s.staged[l := own.value] else s.staged - {l})
    case Unstage(l) => s.(staged := s.staged - {l})
  }

  /** How far the push of the gate's holder has come. */
  datatype Progress =
    | Entered
    | GotGlobal(global: UiTheme)
    | GotModel(global: UiTheme, model: map<Label, Option<UiTheme>>)
    | Sending(targets: seq<UiTheme>, done: nat)

  datatype Holder = Holder(thread: Thread, progress: Progress)

  /**
   `dirty` holds the threads that have written and not yet entered the gate.  `received` is each window's last
   received theme and `missed` the windows whose last send failed.
   */
  datatype Shell = Shell(sources: Sources, windows: seq<Label>, dirty: set<Thread>, gate: Option<Holder>,
                         received: map<Label, UiTheme>, missed: set<Label>)

  /** What a push reads of the model: the windows that are up and that the model knows. */
  ghost function Seen(model: map<Label, Option<UiTheme>>, windows: seq<Label>): map<Label, Option<UiTheme>> {
    map l | l in model && l in windows :: model[l]
  }

  ghost function TargetsOf(s: Sources, windows: seq<Label>): seq<UiTheme> {
    seq(|windows|, i requires 0 <= i < |windows| => Effective(s, windows[i]))
  }

  datatype Event =
    | Writes(thread: Thread, write: Write)
    | Enters(thread: Thread)
    | ReadsGlobal
    | ReadsModel
    | ReadsStaged
    | Sends(ok: bool)
    | Leaves

  ghost function Advance(s: Shell, p: Progress): Shell
    requires s.gate.Some?
  {
    s.(gate := Some(s.gate.value.(progress := p)))
  }

  /** The steps of the gate's holder. */
  ghost function Push(s: Shell, e: Event): Shell
    requires s.gate.Some?
  {
    var p := s.gate.value.progress;
    if e.ReadsGlobal? && p.Entered? then Advance(s, GotGlobal(s.sources.global))
    else if e.ReadsModel? && p.GotGlobal? then Advance(s, GotModel(p.global, Seen(s.sources.model, s.windows)))
    else if e.ReadsStaged? && p.GotModel? then
      Advance(s, Sending(TargetsOf(Sources(p.global, p.model, s.sources.staged), s.windows), 0))
    else if e.Sends? && p.Sending? && p.done < |p.targets| && p.done < |s.windows| then
      var l := s.windows[p.done];
      var v := Advance(s, p.(done := p.done + 1));
      if e.ok then v.(received := s.received[l := p.targets[p.done]], missed := s.missed - {l})
      else v.(missed := s.missed + {l})
    else if e.Leaves? && p.Sending? && p.done == |p.targets| then s.(gate := None)
    else s
  }

  /** The windows are fixed; a thread may also push without having written. */
  ghost function Next(s: Shell, e: Event): Shell {
    match e
    case Writes(t, w) =>
      if s.gate.Some? && s.gate.value.thread == t then s
      else s.(sources := Written(s.sources, w), dirty := s.dirty + {t})
    case Enters(t) =>
      if s.gate.Some? then s else s.(gate := Some(Holder(t, Entered)), dirty := s.dirty - {t})
    case _ => if s.gate.Some? then Push(s, e) else s
  }

  ghost function Run(s: Shell, es: seq<Event>): Shell {
    if es == [] then s else Next(Run(s, es[..|es| - 1]), es[|es| - 1])
  }

  // ── Invariant ──────────────────────────────────────────────────────────────

  ghost predicate UpToDate(s: Shell, l: Label) {
    l in s.missed || (l in s.received && s.received[l] == Effective(s.sources, l))
  }

  /** What the holder has read is what is there, and the windows it has served are up to date. */
  ghost predicate NothingStale(s: Shell, p: Progress) {
    match p
    case Entered => true
    case GotGlobal(g) => g == s.sources.global
    case GotModel(g, m) => g == s.sources.global && m == Seen(s.sources.model, s.windows)
    case Sending(targets, done) =>
      && targets == TargetsOf(s.sources, s.windows) && done <= |s.windows|
      && forall i :: 0 <= i < done ==> UpToDate(s, s.windows[i])
  }

  /** With a write whose push has not begun, nothing is promised: that push will repair it. */
  ghost predicate Sound(s: Shell) {
    s.dirty == {} ==>
      if s.gate.None? then forall i :: 0 <= i < |s.windows| ==> UpToDate(s, s.windows[i])
      else NothingStale(s, s.gate.value.progress)
  }

  /** Reading the model only for the windows that are up changes none of their themes. */
  lemma SeenSuffices(s: Sources, windows: seq<Label>)
    ensures TargetsOf(Sources(s.global, Seen(s.model, windows), s.staged), windows) == TargetsOf(s, windows)
  {
    forall i | 0 <= i < |windows|
      ensures Effective(Sources(s.global, Seen(s.model, windows), s.staged), windows[i]) == Effective(s, windows[i])
    {
    }
  }

  lemma SendSound(s: Shell, ok: bool)
    requires Sound(s) && s.gate.Some? && s.gate.value.progress.Sending?
    ensures Sound(Push(s, Sends(ok)))
  {
    var p, v := s.gate.value.progress, Push(s, Sends(ok));
    if s.dirty == {} && p.done < |s.windows| {
      assert p.targets[p.done] == Effective(s.sources, s.windows[p.done]);
      forall i | 0 <= i < p.done + 1 ensures UpToDate(v, s.windows[i]) {
        assert i < p.done ==> UpToDate(s, s.windows[i]);
      }
    }
  }

  lemma StepSound(s: Shell, e: Event)
    requires Sound(s)
    ensures Sound(Next(s, e))
  {
    if !e.Writes? && !e.Enters? && s.gate.Some? {
      var p := s.gate.value.progress;
      if e.ReadsStaged? && p.GotModel? {
        SeenSuffices(s.sources, s.windows);
      } else if e.Sends? && p.Sending? {
        SendSound(s, e.ok);
      }
    }
  }

  lemma {:induction false} RunSound(s: Shell, es: seq<Event>)
    requires Sound(s)
    ensures Sound(Run(s, es)) && Run(s, es).windows == s.windows
  {
    if es != [] {
      RunSound(s, es[..|es| - 1]);
      StepSound(Run(s, es[..|es| - 1]), es[|es| - 1]);
    }
  }

  /** Every window starts with the theme it pulled when it came up, or with none and a push to come. */
  ghost predicate Start(s: Shell) {
    s.gate.None? && s.missed == {} &&
    (s.dirty != {} || forall i :: 0 <= i < |s.windows| ==>
       s.windows[i] in s.received && s.received[s.windows[i]] == Effective(s.sources, s.windows[i]))
  }

  /**
   For every interleaving of writers that each write and then push: whenever none of them is between its write and the
   end of its push, every window's last received theme is its effective theme, or its last send failed.
   */
  lemma QuietMeansCurrent(s: Shell, es: seq<Event>, l: Label)
    requires Start(s) && l in s.windows
    requires Run(s, es).dirty == {} && Run(s, es).gate.None?
    ensures var v := Run(s, es);
      l in v.missed || (l in v.received && v.received[l] == Effective(v.sources, l))
  {
    assert Sound(s) by {
      forall i | 0 <= i < |s.windows| && s.dirty == {} ensures UpToDate(s, s.windows[i]) {
      }
    }
    RunSound(s, es);
    var i :| 0 <= i < |s.windows| && s.windows[i] == l;
    assert UpToDate(Run(s, es), Run(s, es).windows[i]);
  }

  ghost predicate NoSendFails(es: seq<Event>) {
    forall i :: 0 <= i < |es| ==> es[i] != Sends(false)
  }

  lemma {:induction false} NothingMissed(s: Shell, es: seq<Event>)
    requires s.missed == {} && NoSendFails(es)
    ensures Run(s, es).missed == {}
  {
    if es != [] {
      NothingMissed(s, es[..|es| - 1]);
      assert es[|es| - 1] != Sends(false);
    }
  }

  /** With successful sends, every window shows its effective theme whenever all is quiet. */
  lemma QuietAndSentMeansCurrent(s: Shell, es: seq<Event>, l: Label)
    requires Start(s) && l in s.windows && NoSendFails(es)
    requires Run(s, es).dirty == {} && Run(s, es).gate.None?
    ensures var v := Run(s, es); l in v.received && v.received[l] == Effective(v.sources, l)
  {
    QuietMeansCurrent(s, es, l);
    NothingMissed(s, es);
  }

  // ── What a write does, and that a push gets through ────────────────────────

  /** What a write makes of a window's theme, said without the three places. */
  lemma WrittenEffective(s: Sources, w: Write, l: Label)
    ensures match w
      case SetGlobal(t) =>
        Effective(Written(s, w), l) == if (l in s.model && s.model[l].Some?) || (l !in s.model && l in s.staged)
                                       then Effective(s, l) else t
      case SetOwn(x, own) =>
        Effective(Written(s, w), l) == if l == x && l in s.model then Resolve(own, s.global) else Effective(s, l)
      case EnterModel(x, own) => Effective(Written(s, w), l) == if l == x then Resolve(own, s.global) else Effective(s, l)
      case LeaveModel(x) =>
        Effective(Written(s, w), l) ==
          if l != x then Effective(s, l) else if l in s.staged then s.staged[l] else s.global
      case Stage(x, own) =>
        Effective(Written(s, w), l) == if l == x && l !in s.model then Resolve(own, s.global) else Effective(s, l)
      case Unstage(x) => Effective(Written(s, w), l) == if l == x && l !in s.model then s.global else Effective(s, l)
  {
  }

  lemma RunSnoc(s: Shell, es: seq<Event>, e: Event)
    ensures Run(s, es + [e]) == Next(Run(s, es), e)
  {
    assert (es + [e])[..|es|] == es;
  }

  ghost function Sendings(n: nat): (es: seq<Event>)
    ensures |es| == n
  {
    if n == 0 then [] else Sendings(n - 1) + [Sends(true)]
  }

  /** `v` is `s` after the first `n` windows have been sent what was meant for them. */
  ghost predicate Served(s: Shell, v: Shell, n: nat) {
    && n <= |s.windows| && s.gate.Some?
    && v.sources == s.sources && v.windows == s.windows && v.dirty == s.dirty
    && v.gate == Some(Holder(s.gate.value.thread, Sending(TargetsOf(s.sources, s.windows), n)))
    && forall i :: 0 <= i < n ==> Shows(v, s.windows[i], Effective(s.sources, s.windows[i]))
  }

  ghost predicate Shows(v: Shell, l: Label, t: UiTheme) {
    l in v.received && v.received[l] == t && l !in v.missed
  }

  lemma ServesNext(s: Shell, v: Shell, n: nat)
    requires Served(s, v, n) && n < |s.windows|
    ensures Served(s, Next(v, Sends(true)), n + 1)
  {
    var w := Next(v, Sends(true));
    assert TargetsOf(s.sources, s.windows)[n] == Effective(s.sources, s.windows[n]);
    forall i | 0 <= i < n + 1 ensures Shows(w, s.windows[i], Effective(s.sources, s.windows[i])) {
      assert i < n ==> Shows(v, s.windows[i], Effective(s.sources, s.windows[i]));
    }
  }

  lemma {:induction false} SendingsServe(s: Shell, n: nat)
    requires n <= |s.windows| && s.gate.Some? && s.gate.value.progress == Sending(TargetsOf(s.sources, s.windows), 0)
    ensures Served(s, Run(s, Sendings(n)), n)
  {
    if n > 0 {
      SendingsServe(s, n - 1);
      RunSnoc(s, Sendings(n - 1), Sends(true));
      ServesNext(s, Run(s, Sendings(n - 1)), n - 1);
    }
  }

  /** A whole push in which nobody interferes and nobody refuses. */
  ghost function PushOf(n: nat): seq<Event> {
    [ReadsGlobal] + [ReadsModel] + [ReadsStaged] + Sendings(n) + [Leaves]
  }

  lemma ReadsThree(s: Shell)
    requires s.gate.Some? && s.gate.value.progress.Entered?
    ensures Run(s, [ReadsGlobal] + [ReadsModel] + [ReadsStaged])
      == Advance(s, Sending(TargetsOf(s.sources, s.windows), 0))
  {
    RunSnoc(s, [], ReadsGlobal);
    assert [] + [ReadsGlobal] == [ReadsGlobal];
    RunSnoc(s, [ReadsGlobal], ReadsModel);
    RunSnoc(s, [ReadsGlobal] + [ReadsModel], ReadsStaged);
    SeenSuffices(s.sources, s.windows);
  }

  lemma {:induction false} RunThen(s: Shell, es: seq<Event>, fs: seq<Event>)
    ensures Run(s, es + fs) == Run(Run(s, es), fs)
    decreases |fs|
  {
    if fs == [] {
      assert es + fs == es;
    } else {
      var n := |fs| - 1;
      RunThen(s, es, fs[..n]);
      assert es + fs == (es + fs[..n]) + [fs[n]];
      RunSnoc(s, es + fs[..n], fs[n]);
    }
  }

  /**
   A push gets through: from any state with the gate free, a thread that enters and is not interfered with leaves the
   gate free again, is no longer owed a push, and every window has its effective theme.
   */
  lemma PushGetsThrough(s: Shell, t: Thread, l: Label)
    requires s.gate.None? && l in s.windows
    ensures var v := Run(Next(s, Enters(t)), PushOf(|s.windows|));
      && v.gate.None? && v.dirty == s.dirty - {t} && v.sources == s.sources
      && Shows(v, l, Effective(s.sources, l))
  {
    var u, n := Next(s, Enters(t)), |s.windows|;
    var three := [ReadsGlobal] + [ReadsModel] + [ReadsStaged];
    var x := Advance(u, Sending(TargetsOf(u.sources, u.windows), 0));
    ReadsThree(u);
    RunThen(u, three, Sendings(n));
    SendingsServe(x, n);
    RunSnoc(u, three + Sendings(n), Leaves);
    var i :| 0 <= i < n && s.windows[i] == l;
    assert Shows(Run(x, Sendings(n)), s.windows[i], Effective(s.sources, s.windows[i]));
  }

  /** A thread that is not inside its own push can write at any time, also during another's push. */
  lemma WriteTakesEffect(s: Shell, t: Thread, w: Write)
    requires s.gate.Some? ==> s.gate.value.thread != t
    ensures var v := Next(s, Writes(t, w));
      v.sources == Written(s.sources, w) && t in v.dirty && v.gate == s.gate && v.received == s.received
  {
  }

  /** What was written is what the windows show after the writer's push. */
  lemma WrittenThenShown(s: Shell, t: Thread, w: Write, l: Label)
    requires s.gate.None? && l in s.windows
    ensures var v := Run(Next(Next(s, Writes(t, w)), Enters(t)), PushOf(|s.windows|));
      v.gate.None? && v.dirty == s.dirty - {t} && Shows(v, l, Effective(Written(s.sources, w), l))
  {
    WriteTakesEffect(s, t, w);
    PushGetsThrough(Next(s, Writes(t, w)), t, l);
  }

  // ── What each step changes ─────────────────────────────────────────────────

  /** The gate keeps pushes apart: whoever is inside stays there, alone, until it leaves with every window sent to. */
  lemma {:induction false} GateKeepsOthersOut(s: Shell, es: seq<Event>)
    requires s.gate.Some? && (forall i :: 0 <= i < |es| ==> !es[i].Leaves?)
    ensures Run(s, es).gate.Some? && Run(s, es).gate.value.thread == s.gate.value.thread
  {
    if es != [] {
      GateKeepsOthersOut(s, es[..|es| - 1]);
    }
  }

  /** Nobody leaves before every window was sent to. */
  lemma LeavesWhenServed(s: Shell, e: Event)
    requires s.gate.Some? && Next(s, e).gate.None?
    ensures e.Leaves? && s.gate.value.progress.Sending?
    ensures s.gate.value.progress.done == |s.gate.value.progress.targets|
  {
  }

  /** Only a write changes what themes are effective. */
  lemma {:induction false} OnlyWritesWrite(s: Shell, es: seq<Event>)
    requires forall i :: 0 <= i < |es| ==> !es[i].Writes?
    ensures Run(s, es).sources == s.sources
  {
    if es != [] {
      OnlyWritesWrite(s, es[..|es| - 1]);
      assert !es[|es| - 1].Writes?;
    }
  }

  /** The gate's holder has come to window `l`. */
  ghost predicate Turn(s: Shell, l: Label) {
    && s.gate.Some? && s.gate.value.progress.Sending?
    && s.gate.value.progress.done < |s.windows| && s.windows[s.gate.value.progress.done] == l
  }

  /** A window's received theme changes only when it is its turn and it takes what it is sent. */
  lemma SendTakesEffect(s: Shell, e: Event, l: Label)
    ensures var v := Next(s, e);
      || ((l in v.received <==> l in s.received) && (l in s.received ==> v.received[l] == s.received[l]))
      || (e == Sends(true) && Turn(s, l))
    ensures var v := Next(s, e);
      l in v.missed && l !in s.missed ==> e == Sends(false) && v.received == s.received
  {
  }

  /** A refused send is noted as missed until a later one is taken, and the push goes on with the next window. */
  lemma RefusedIsMissed(s: Shell)
    requires s.gate.Some? && s.gate.value.progress.Sending?
    requires var p := s.gate.value.progress; p.done < |p.targets| && p.done < |s.windows|
    ensures var v, p := Next(s, Sends(false)), s.gate.value.progress;
      && s.windows[p.done] in v.missed && v.received == s.received
      && v.gate == Some(Holder(s.gate.value.thread, Sending(p.targets, p.done + 1)))
  {
  }
}
