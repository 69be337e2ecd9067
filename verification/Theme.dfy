/** Delivery per window and the theme controls of src-tauri/src/theme.rs. */
module Theme {
  import opened Wrappers
  import opened ThemeGateSpec

  datatype FailedWindow = FailedWindow(window: Label, reason: string)
  datatype Undelivered = NoWindows | Refused(tried: nat, failed: seq<FailedWindow>)
  datatype WindowTheme = WindowTheme(own: Option<UiTheme>, effective: UiTheme)
  datatype ThemeError = UnknownWindow(window: Label) | NotDelivered(window: Label, reason: string, othersFailed: nat)
  datatype Answer = Ok(theme: WindowTheme) | Err(error: ThemeError)

  /** The windows that refused, in the order they were tried; `refusal(i)` is the answer of the i-th send. */
  ghost function FailedOf(labels: seq<Label>, refusal: nat -> Option<string>): seq<FailedWindow> {
    if labels == [] then []
    else
      var n := |labels| - 1;
      FailedOf(labels[..n], refusal) + if refusal(n).Some? then [FailedWindow(labels[n], refusal(n).value)] else []
  }

  lemma {:induction false} FailedExactly(labels: seq<Label>, refusal: nat -> Option<string>, l: Label)
    ensures (exists f :: f in FailedOf(labels, refusal) && f.window == l)
        <==> (exists i :: 0 <= i < |labels| && labels[i] == l && refusal(i).Some?)
  {
    if labels != [] {
      var n := |labels| - 1;
      FailedExactly(labels[..n], refusal, l);
      if exists f :: f in FailedOf(labels[..n], refusal) && f.window == l {
        var i :| 0 <= i < n && labels[..n][i] == l && refusal(i).Some?;
        assert labels[i] == l;
        var f :| f in FailedOf(labels[..n], refusal) && f.window == l;
        assert f in FailedOf(labels, refusal);
      } else if labels[n] == l && refusal(n).Some? {
        assert FailedWindow(l, refusal(n).value) in FailedOf(labels, refusal);
      }
    }
  }

  /** Send every window its own theme; a window that refuses does not keep the others from being tried. */
  method DeliverPerWindow(targets: seq<(Label, UiTheme)>, refusal: nat -> Option<string>)
    returns (r: Option<Undelivered>, sent: seq<(Label, UiTheme)>)
    ensures sent == targets
    ensures r == Some(NoWindows) <==> targets == []
    ensures targets != [] ==>
      var failed := FailedOf(seq(|targets|, i requires 0 <= i < |targets| => targets[i].0), refusal);
      r == if failed == [] then None else Some(Refused(|targets|, failed))
  {
    sent := [];
    if targets == [] {
      return Some(NoWindows), sent;
    }
    ghost var labels := seq(|targets|, i requires 0 <= i < |targets| => targets[i].0);
    var failed := [];
    for i := 0 to |targets|
      invariant sent == targets[..i]
      invariant failed == FailedOf(labels[..i], refusal)
    {
      sent := sent + [targets[i]];
      assert labels[..i + 1][..i] == labels[..i];
      if refusal(i).Some? {
        failed := failed + [FailedWindow(targets[i].0, refusal(i).value)];
      }
    }
    assert labels[..|targets|] == labels && targets[..|targets|] == targets;
    if failed == [] {
      return None, sent;
    }
    return Some(Refused(|targets|, failed)), sent;
  }

  /** What other threads write, and when: `others(k)` comes before step `k` of a push. */
  type Meanwhile = nat -> seq<(Thread, Write)>

  /** A thread inside its own push does not write. */
  ghost predicate NotBy(t: Thread, writes: seq<(Thread, Write)>) {
    forall i :: 0 <= i < |writes| ==> writes[i].0 != t
  }

  ghost predicate Undisturbed(others: Meanwhile) {
    forall k :: others(k) == []
  }

  class EffectiveThemes {
    var global: UiTheme
    var model: map<Label, Option<UiTheme>>
    var staged: map<Label, UiTheme>
    /** The windows that are up. */
    const windows: seq<Label>
    /** The thread that holds the gate and what it has read so far. */
    var gate: Option<Holder>
    ghost var dirty: set<Thread>
    ghost var received: map<Label, UiTheme>
    ghost var missed: set<Label>
    /** How it began, and everything that has happened since. */
    ghost const start: Shell
    ghost var past: seq<Event>

    ghost function State(): Sources
      reads this
    {
      Sources(global, model, staged)
    }

    ghost function Now(): Shell
      reads this
    {
      Shell(State(), windows, dirty, gate, received, missed)
    }

    ghost predicate Valid()
      reads this
    {
      Start(start) && start.windows == windows && Now() == Run(start, past)
    }

    /** Every window has pulled its theme, which is the global one as long as nothing else is written. */
    constructor (global: UiTheme, windows: seq<Label>)
      ensures Valid() && past == [] && State() == Sources(global, map[], map[]) && this.windows == windows && gate.None?
    {
      this.global, model, staged, gate := global, map[], map[], None;
      this.windows := windows;
      dirty, missed, past := {}, {}, [];
      received := map l | l in windows :: global;
      start := Shell(Sources(global, map[], map[]), windows, {}, None, map l | l in windows :: global, {});
    }

    /** Note that `e` has happened. */
    ghost method Happened(e: Event)
      requires Start(start) && start.windows == windows && Now() == Next(Run(start, past), e)
      modifies this`past
      ensures Valid() && past == old(past) + [e]
    {
      assert (past + [e])[..|past|] == past;
      past := past + [e];
    }

    /** At any moment: if nobody is between a write and the end of its push, this window shows its effective theme. */
    lemma Shown(l: Label)
      requires Valid() && l in windows && dirty == {} && gate.None?
      ensures l in missed || (l in received && received[l] == Effective(State(), l))
    {
      QuietMeansCurrent(start, past, l);
    }

    // ── Writing ──────────────────────────────────────────────────────────────

    /** Thread `t` writes; its push is still to come. */
    method WriteTheme(t: Thread, w: Write)
      requires Valid() && (gate.Some? ==> gate.value.thread != t)
      modifies this`global, this`model, this`staged, this`dirty, this`past
      ensures Valid() && past == old(past) + [Writes(t, w)] && State() == Written(old(State()), w)
    {
      match w {
        case SetGlobal(theme) => global := theme;
        case SetOwn(window, own) =>
          if window in model {
            model := model[window := own];
          }
        case EnterModel(window, own) => model := model[window := own];
        case LeaveModel(window) => model := model - {window};
        case Stage(window, own) => StageTheme(window, own);
        case Unstage(window) => staged := staged - {window};
      }
      dirty := dirty + {t};
      Happened(Writes(t, w));
    }

    method StageTheme(window: Label, own: Option<UiTheme>)
      modifies this`staged
      ensures State() == Written(old(State()), Stage(window, own))
    {
      if own.Some? {
        staged := staged[window := own.value];
      } else {
        staged := staged - {window};
      }
    }

    /** A window that the model does not know is refused, and nothing is written. */
    method SetWindowTheme(t: Thread, window: Label, theme: Option<UiTheme>) returns (r: Answer)
      requires Valid() && (gate.Some? ==> gate.value.thread != t)
      modifies this`global, this`model, this`staged, this`dirty, this`past
      ensures Valid() && State() == Written(old(State()), SetOwn(window, theme))
      ensures past == old(past) + if window in old(model) then [Writes(t, SetOwn(window, theme))] else []
      ensures r == if window in old(model) then Ok(WindowTheme(theme, Effective(State(), window))) else Err(UnknownWindow(window))
    {
      if window !in model {
        return Err(UnknownWindow(window));
      }
      WriteTheme(t, SetOwn(window, theme));
      return Ok(WindowTheme(theme, Resolve(theme, global)));
    }

    method OthersWrite(ghost t: Thread, writes: seq<(Thread, Write)>)
      requires Valid() && (gate.Some? ==> gate.value.thread == t) && NotBy(t, writes)
      modifies this`global, this`model, this`staged, this`dirty, this`past
      ensures Valid() && old(past) <= past && (writes == [] ==> State() == old(State()))
    {
      for i := 0 to |writes|
        invariant Valid() && old(past) <= past && (writes == [] ==> State() == old(State()))
      {
        WriteTheme(writes[i].0, writes[i].1);
      }
    }

    // ── Reading ──────────────────────────────────────────────────────────────

    /** The boot pull: also a window that the model does not know is answered. */
    method EffectiveFor(window: Label) returns (r: UiTheme)
      ensures r == Effective(State(), window)
    {
      var own: Option<UiTheme> := None;
      if window in model {
        own := model[window];
      } else if window in staged {
        own := Some(staged[window]);
      }
      r := Resolve(own, global);
    }

    // ── Pushing ──────────────────────────────────────────────────────────────

    method EnterGate(t: Thread)
      requires Valid() && gate.None?
      modifies this`gate, this`dirty, this`past
      ensures Valid() && past == old(past) + [Enters(t)] && gate == Some(Holder(t, Entered))
    {
      gate := Some(Holder(t, Entered));
      dirty := dirty - {t};
      Happened(Enters(t));
    }

    method ReadGlobal()
      requires Valid() && gate.Some? && gate.value.progress.Entered?
      modifies this`gate, this`past
      ensures Valid() && past == old(past) + [ReadsGlobal]
      ensures gate == Some(Holder(old(gate).value.thread, GotGlobal(global)))
    {
      gate := Some(gate.value.(progress := GotGlobal(global)));
      Happened(ReadsGlobal);
    }

    method ReadModel()
      requires Valid() && gate.Some? && gate.value.progress.GotGlobal?
      modifies this`gate, this`past
      ensures Valid() && past == old(past) + [ReadsModel]
      ensures gate == Some(Holder(old(gate).value.thread, GotModel(old(gate).value.progress.global, Seen(model, windows))))
    {
      var known := map l | l in windows && l in model :: model[l];
      assert known == Seen(model, windows);
      gate := Some(gate.value.(progress := GotModel(gate.value.progress.global, known)));
      Happened(ReadsModel);
    }

    /** The last read; what each window is to be sent is settled here. */
    method ReadStaged()
      requires Valid() && gate.Some? && gate.value.progress.GotModel?
      modifies this`gate, this`past
      ensures Valid() && past == old(past) + [ReadsStaged]
      ensures var p := old(gate).value.progress;
        gate == Some(Holder(old(gate).value.thread, Sending(TargetsOf(Sources(p.global, p.model, staged), windows), 0)))
    {
      var targets := Targets(gate.value.progress.global, gate.value.progress.model, staged);
      gate := Some(gate.value.(progress := Sending(targets, 0)));
      Happened(ReadsStaged);
    }

    method Targets(g: UiTheme, known: map<Label, Option<UiTheme>>, table: map<Label, UiTheme>)
      returns (targets: seq<UiTheme>)
      ensures targets == TargetsOf(Sources(g, known, table), windows)
    {
      targets := [];
      for i := 0 to |windows|
        invariant |targets| == i
        invariant forall k :: 0 <= k < i ==> targets[k] == Effective(Sources(g, known, table), windows[k])
      {
        var l := windows[i];
        var own := if l in known then known[l] else if l in table then Some(table[l]) else None;
        targets := targets + [Resolve(own, g)];
      }
    }

    /** Send the next window its theme. */
    method SendNext(ok: bool)
      requires Valid() && gate.Some? && gate.value.progress.Sending?
      requires gate.value.progress.done < |gate.value.progress.targets| == |windows|
      modifies this`gate, this`received, this`missed, this`past
      ensures Valid() && past == old(past) + [Sends(ok)]
      ensures var p := old(gate).value.progress;
        && gate == Some(Holder(old(gate).value.thread, Sending(p.targets, p.done + 1)))
        && (ok ==> received == old(received)[windows[p.done] := p.targets[p.done]])
    {
      var p := gate.value.progress;
      var l := windows[p.done];
      if ok {
        received, missed := received[l := p.targets[p.done]], missed - {l};
      } else {
        missed := missed + {l};
      }
      gate := Some(gate.value.(progress := Sending(p.targets, p.done + 1)));
      Happened(Sends(ok));
    }

    method LeaveGate()
      requires Valid() && gate.Some? && gate.value.progress.Sending?
      requires gate.value.progress.done == |gate.value.progress.targets|
      modifies this`gate, this`past
      ensures Valid() && past == old(past) + [Leaves] && gate.None?
    {
      gate := None;
      Happened(Leaves);
    }

    /** The three reads, one after the other, while others write. */
    method ReadAll(t: Thread, others: Meanwhile) returns (targets: seq<UiTheme>)
      requires Valid() && gate == Some(Holder(t, Entered)) && forall k :: NotBy(t, others(k))
      modifies this`global, this`model, this`staged, this`dirty, this`gate, this`past
      ensures Valid() && old(past) <= past && |targets| == |windows| && gate == Some(Holder(t, Sending(targets, 0)))
      ensures Undisturbed(others) ==> State() == old(State()) && targets == TargetsOf(State(), windows)
    {
      OthersWrite(t, others(0));
      ReadGlobal();
      OthersWrite(t, others(1));
      ReadModel();
      OthersWrite(t, others(2));
      ReadStaged();
      targets := gate.value.progress.targets;
      SeenSuffices(State(), windows);
    }

    /** Send to every window, also after one has refused. */
    method SendAll(t: Thread, targets: seq<UiTheme>, refusal: nat -> Option<string>, others: Meanwhile)
      returns (failed: seq<FailedWindow>)
      requires Valid() && gate == Some(Holder(t, Sending(targets, 0))) && |targets| == |windows|
      requires forall k :: NotBy(t, others(k))
      modifies this`global, this`model, this`staged, this`dirty, this`gate, this`received, this`missed, this`past
      ensures Valid() && old(past) <= past && gate == Some(Holder(t, Sending(targets, |windows|)))
      ensures failed == FailedOf(windows, refusal)
      ensures Undisturbed(others) ==> State() == old(State())
    {
      failed := [];
      for i := 0 to |windows|
        invariant Valid() && old(past) <= past && gate == Some(Holder(t, Sending(targets, i)))
        invariant failed == FailedOf(windows[..i], refusal)
        invariant Undisturbed(others) ==> State() == old(State())
      {
        OthersWrite(t, others(3 + i));
        assert windows[..i + 1][..i] == windows[..i];
        SendNext(refusal(i).None?);
        if refusal(i).Some? {
          failed := failed + [FailedWindow(windows[i], refusal(i).value)];
        }
      }
      assert windows[..|windows|] == windows;
    }

    /** A whole push under the gate, with others writing between its steps. */
    method PushEffectiveThemes(t: Thread, refusal: nat -> Option<string>, others: Meanwhile)
      returns (r: Option<Undelivered>, sent: seq<UiTheme>)
      requires Valid() && gate.None? && forall k :: NotBy(t, others(k))
      modifies this`global, this`model, this`staged, this`dirty, this`gate, this`received, this`missed, this`past
      ensures Valid() && gate.None? && old(past) <= past && |sent| == |windows|
      ensures Undisturbed(others) ==>
        && State() == old(State())
        && forall i :: 0 <= i < |windows| ==> sent[i] == Effective(State(), windows[i])
      ensures r == if windows == [] then Some(NoWindows)
                   else if FailedOf(windows, refusal) == [] then None
                   else Some(Refused(|windows|, FailedOf(windows, refusal)))
    {
      EnterGate(t);
      sent := ReadAll(t, others);
      var failed := SendAll(t, sent, refusal, others);
      LeaveGate();
      r := if windows == [] then Some(NoWindows) else if failed == [] then None else Some(Refused(|windows|, failed));
    }

    /**
     `ThemeControl::set`: write, push to all, and fail only if the window asked for is among those that refused.  What
     was written stays written.
     */
    method SetAndPush(t: Thread, window: Label, theme: Option<UiTheme>, refusal: nat -> Option<string>,
                      others: Meanwhile) returns (r: Answer)
      requires Valid() && gate.None? && forall k :: NotBy(t, others(k))
      modifies this`global, this`model, this`staged, this`dirty, this`gate, this`received, this`missed, this`past
      ensures Valid() && gate.None? && old(past) <= past
      ensures Undisturbed(others) ==> State() == Written(old(State()), SetOwn(window, theme))
      ensures r == Err(UnknownWindow(window)) <==> window !in old(model)
      ensures window in old(model) ==>
        (r.Err? <==> exists i :: 0 <= i < |windows| && windows[i] == window && refusal(i).Some?)
      ensures r.Err? && window in old(model) ==>
        && r.error.NotDelivered? && r.error.window == window
        && r.error.othersFailed == |FailedOf(windows, refusal)| - 1
        && FailedWindow(window, r.error.reason) in FailedOf(windows, refusal)
      ensures r.Ok? ==> r.theme == WindowTheme(theme, Resolve(theme, old(global)))
    {
      r := SetWindowTheme(t, window, theme);
      if r.Err? {
        return;
      }
      var undelivered, _ := PushEffectiveThemes(t, refusal, others);
      FailedExactly(windows, refusal, window);
      if undelivered.Some? && undelivered.value.Refused? {
        var failed := undelivered.value.failed;
        for i := 0 to |failed|
          invariant forall k :: 0 <= k < i ==> failed[k].window != window
        {
          if failed[i].window == window {
            return Err(NotDelivered(window, failed[i].reason, |failed| - 1));
          }
        }
      }
    }
  }
}
