/** Host selection and reporting as src-tauri/src/view_commands.rs does them. */
module ViewHost {
  import opened Wrappers
  import opened Orders
  import opened ViewHostSpec

  datatype Effect = Read | Write
  /** One reported command; `help` stands for the argument schema. */
  datatype Decl = Decl(name: string, summary: string, effect: Option<Effect>, help: string)

  /** The White_Space property of the Unicode standard. */
  predicate IsSpace(c: char) {
    || '\U{9}' <= c <= '\U{D}' || c == '\U{20}' || c == '\U{85}' || c == '\U{A0}' || c == '\U{1680}'
    || '\U{2000}' <= c <= '\U{200A}' || c == '\U{2028}' || c == '\U{2029}' || c == '\U{202F}' || c == '\U{205F}'
    || c == '\U{3000}'
  }

  ghost predicate Blank(s: string) {
    forall i :: 0 <= i < |s| ==> IsSpace(s[i])
  }

  /** Would trimming leave nothing? */
  method IsBlank(s: string) returns (r: bool)
    ensures r <==> Blank(s)
  {
    for i := 0 to |s|
      invariant forall j :: 0 <= j < i ==> IsSpace(s[j])
    {
      if !IsSpace(s[i]) {
        return false;
      }
    }
    return true;
  }

  /** A command is taken up if it is marked with an effect, is not a reserved name and says what it does. */
  ghost predicate TakenUp(d: Decl, reserved: set<string>) {
    d.effect.Some? && d.name !in reserved && !Blank(d.summary)
  }

  /** Of several commands taken up under one name the last one counts. */
  ghost predicate LastTakenUp(ds: seq<Decl>, reserved: set<string>, i: int, name: string) {
    && 0 <= i < |ds| && TakenUp(ds[i], reserved) && ds[i].name == name
    && forall j :: i < j < |ds| ==> !(TakenUp(ds[j], reserved) && ds[j].name == name)
  }

  ghost function RefusedNames(ds: seq<Decl>, reserved: set<string>): seq<string> {
    if ds == [] then []
    else
      var d := ds[|ds| - 1];
      RefusedNames(ds[..|ds| - 1], reserved) + if TakenUp(d, reserved) then [] else [d.name]
  }

  /** The list a report amounts to. */
  ghost predicate Lists(shapes: Shapes, ds: seq<Decl>, reserved: set<string>, catalog: Decl -> string) {
    && (forall i :: 0 <= i < |ds| && TakenUp(ds[i], reserved) ==> ds[i].name in shapes)
    && (forall x :: x in shapes ==> exists i :: LastTakenUp(ds, reserved, i, x) && shapes[x] == catalog(ds[i]))
  }

  lemma ListsMore(shapes: Shapes, ds: seq<Decl>, d: Decl, reserved: set<string>, catalog: Decl -> string)
    requires Lists(shapes, ds, reserved, catalog)
    ensures Lists(if TakenUp(d, reserved) then shapes[d.name := catalog(d)] else shapes, ds + [d], reserved, catalog)
  {
    var more, now := ds + [d], if TakenUp(d, reserved) then shapes[d.name := catalog(d)] else shapes;
    forall x | x in now ensures exists i :: LastTakenUp(more, reserved, i, x) && now[x] == catalog(more[i]) {
      if TakenUp(d, reserved) && x == d.name {
        assert LastTakenUp(more, reserved, |ds|, x);
      } else {
        var i :| LastTakenUp(ds, reserved, i, x) && shapes[x] == catalog(ds[i]);
        assert LastTakenUp(more, reserved, i, x);
      }
    }
  }

  /** The filter at the head of `report`. */
  method Filter(reported: seq<Decl>, reserved: set<string>, catalog: Decl -> string)
    returns (next: Shapes, refused: seq<string>)
    ensures Lists(next, reported, reserved, catalog)
    ensures refused == RefusedNames(reported, reserved)
  {
    next, refused := map[], [];
    for i := 0 to |reported|
      invariant Lists(next, reported[..i], reserved, catalog)
      invariant refused == RefusedNames(reported[..i], reserved)
    {
      var d := reported[i];
      assert reported[..i + 1] == reported[..i] + [d];
      ListsMore(next, reported[..i], d, reserved, catalog);
      var blank := IsBlank(d.summary);
      if d.effect.None? {
        refused := refused + [d.name];
      } else if d.name in reserved || blank {
        refused := refused + [d.name];
      } else {
        next := next[d.name := catalog(d)];
      }
    }
    assert reported[..|reported|] == reported;
  }

  ghost predicate AllForgets(es: seq<Event>) {
    forall i :: 0 <= i < |es| ==> es[i].Forgets?
  }

  lemma RunMore(ws: seq<World>, es: seq<Event>, e: Event, v: World)
    requires IsRun(ws, es) && Step(ws[|es|], e, v)
    ensures IsRun(ws + [v], es + [e])
  {
    forall i | 0 <= i < |es + [e]| ensures Step((ws + [v])[i], (es + [e])[i], (ws + [v])[i + 1]) {
      assert i < |es| ==> Step(ws[i], es[i], ws[i + 1]);
    }
  }

  class ViewCommandBridge {
    var reports: map<Label, Shapes>
    var host: Option<Label>
    /** The change on its way to the daemon while the outbound gate is closed. */
    var pushing: Option<Diff>
    /** What the daemon has made of the changes pushed so far. */
    ghost var registry: Shapes
    /** The run so far: every state at a release of the lock, and what led from one to the next. */
    ghost var worlds: seq<World>
    ghost var past: seq<Event>

    ghost function State(): Registered
      reads this
    {
      Registered(reports, host)
    }

    ghost function Now(): World
      reads this
    {
      World(State(), pushing, registry)
    }

    ghost predicate Valid()
      reads this
    {
      IsRun(worlds, past) && worlds[|past|] == Now()
    }

    constructor ()
      ensures Valid() && past == []
    {
      reports, host, pushing := map[], None, None;
      registry, worlds, past := map[], [START], [];
    }

    /** Note that `e` has happened. */
    ghost method Happened(e: Event)
      requires IsRun(worlds, past) && Step(worlds[|past|], e, Now())
      modifies this`worlds, this`past
      ensures Valid() && past == old(past) + [e]
    {
      RunMore(worlds, past, e, Now());
      worlds := worlds + [Now()];
      past := past + [e];
    }

    method Forget(dead: seq<Label>)
      modifies this`reports
      ensures reports == Forgotten(old(reports), Members(dead))
    {
      for i := 0 to |dead|
        invariant reports == Forgotten(old(reports), Members(dead[..i]))
      {
        assert Members(dead[..i + 1]) == Members(dead[..i]) + {dead[i]};
        reports := reports - {dead[i]};
      }
      assert dead[..|dead|] == dead;
    }

    method Repick()
      modifies this`host
      ensures Picked(reports, old(host), host)
    {
      var keep := if host.Some? && host.value in reports then host else None;
      if keep == Some(MAIN) {
        return;
      }
      if MAIN in reports {
        host := Some(MAIN);
      } else if keep.Some? {
        host := keep;
      } else if reports == map[] {
        host := None;
      } else {
        assert reports.Keys != {};
        var first := Least(reports.Keys);
        host := Some(first);
      }
    }

    /** The locked end of `prune_dead`; the labels found dead may no longer be there. */
    method ForgetAndRepick(dead: seq<Label>)
      requires Valid()
      modifies this`reports, this`host, this`worlds, this`past
      ensures Valid() && past == old(past) + [Forgets(Members(dead))]
    {
      Forget(dead);
      Repick();
      Happened(Forgets(Members(dead)));
    }

    /** The first two steps of `prune_dead`: copy the labels, then ask who is alive. */
    method FindDead(alive: Label -> bool) returns (dead: seq<Label>)
      ensures StrictlySorted(dead) && Members(dead) == set x | x in reports && !alive(x)
    {
      var labels := SortSet(reports.Keys);
      dead := [];
      for i := 0 to |labels|
        invariant StrictlySorted(dead)
        invariant Members(dead) == set x | x in labels[..i] && !alive(x)
      {
        assert labels[..i + 1] == labels[..i] + [labels[i]];
        assert (set x | x in labels[..i + 1] && !alive(x))
            == (set x | x in labels[..i] && !alive(x)) + (if alive(labels[i]) then {} else {labels[i]});
        if !alive(labels[i]) {
          AppendGreater(dead, labels, i, alive);
          assert Members(dead + [labels[i]]) == Members(dead) + {labels[i]};
          dead := dead + [labels[i]];
        }
      }
      assert labels[..|labels|] == labels;
      assert forall x :: x in labels <==> x in Members(labels);
    }

    /** The locked section of `report`, under the outbound gate: both lists are taken within one lock. */
    method Report(window: Label, next: Shapes) returns (d: Diff, accepted: Shapes)
      requires Valid() && pushing.None?
      modifies this`reports, this`host, this`pushing, this`worlds, this`past
      ensures Valid() && past == old(past) + [Reports(window, next)]
      ensures accepted == Advertised(State()) && d == DiffOf(Advertised(old(State())), accepted)
      ensures pushing == if Changed(d) then Some(d) else None
    {
      var previous := if host.Some? && host.value in reports then reports[host.value] else map[];
      reports := reports[window := next];
      Repick();
      accepted := if host.Some? && host.value in reports then reports[host.value] else map[];
      d := DiffOf(previous, accepted);
      pushing := if Changed(d) then Some(d) else None;
      Happened(Reports(window, next));
    }

    /** The daemon has taken the change. */
    method EndPush()
      requires Valid() && pushing.Some?
      modifies this`pushing, this`registry, this`worlds, this`past
      ensures Valid() && past == old(past) + [PushEnds] && pushing.None?
    {
      registry := Apply(registry, pushing.value);
      pushing := None;
      Happened(PushEnds);
    }

    /** While one caller has the outbound gate, others can only forget. */
    method OthersForget(es: seq<Event>)
      requires Valid() && AllForgets(es)
      modifies this`reports, this`host, this`worlds, this`past
      ensures Valid() && past == old(past) + es
    {
      for i := 0 to |es|
        invariant Valid() && past == old(past) + es[..i]
      {
        assert es[..i + 1] == es[..i] + [es[i]];
        var labels := SortSet(es[i].dead);
        ForgetAndRepick(labels);
      }
      assert es[..|es|] == es;
    }

    /**
     `report_and_push`: filter, prune, report and push under the outbound gate, while others forget windows after the
     dead were looked for (`first`), after they were forgotten (`second`) and while the push is on its way (`third`).
     If no host was ever forgotten, the daemon then has exactly the advertised list.
     */
    method ReportAndPush(window: Label, reported: seq<Decl>, reserved: set<string>, catalog: Decl -> string,
                         alive: Label -> bool, first: seq<Event>, second: seq<Event>, third: seq<Event>)
      returns (next: Shapes, refused: seq<string>, dead: seq<Label>, pushed: bool)
      requires Valid() && pushing.None? && AllForgets(first) && AllForgets(second) && AllForgets(third)
      modifies this
      ensures Valid() && pushing.None?
      ensures Lists(next, reported, reserved, catalog) && refused == RefusedNames(reported, reserved)
      ensures Members(dead) == set x | x in old(reports) && !alive(x)
      ensures past == old(past) + first + [Forgets(Members(dead))] + second + [Reports(window, next)]
                      + if pushed then third + [PushEnds] else []
      ensures NoHostForgotten(worlds, past) ==> registry == Advertised(State())
    {
      next, refused := Filter(reported, reserved, catalog);
      dead := FindDead(alive);
      OthersForget(first);
      ForgetAndRepick(dead);
      OthersForget(second);
      var d, _ := Report(window, next);
      pushed := Changed(d);
      if pushed {
        OthersForget(third);
        EndPush();
      }
      InStepIfKept(worlds, past);
    }

    /** What another caller does, if the outbound gate lets it. */
    method Elsewhere(e: Event)
      requires Valid()
      modifies this
      ensures Valid() && (past == old(past) || past == old(past) + [e])
    {
      match e {
        case Forgets(dead) =>
          var labels := SortSet(dead);
          ForgetAndRepick(labels);
        case Reports(window, shapes) =>
          if pushing.None? {
            var _, _ := Report(window, shapes);
          }
        case PushEnds =>
          if pushing.Some? {
            EndPush();
          }
      }
    }

    method GoOn(es: seq<Event>)
      requires Valid()
      modifies this
      ensures Valid() && old(past) <= past
    {
      for i := 0 to |es|
        invariant Valid() && old(past) <= past
      {
        Elsewhere(es[i]);
      }
    }

    /**
     `live_host`: prune, then read the window to send to and its list in one lock, while others report, push and
     forget in between.
     */
    method LiveHost(alive: Label -> bool, first: seq<Event>, second: seq<Event>) returns (r: Option<(Label, Shapes)>)
      requires Valid()
      modifies this
      ensures Valid() && old(past) <= past
      ensures r.None? <==> reports == map[]
      ensures r.Some? ==>
        Some(r.value.0) == host && r.value.0 in reports && r.value.1 == reports[r.value.0] == Advertised(State())
      ensures MAIN in reports ==> r.Some? && r.value.0 == MAIN
    {
      var dead := FindDead(alive);
      GoOn(first);
      ForgetAndRepick(dead);
      GoOn(second);
      HostAlwaysFits(worlds, past, |past|);
      if host.None? {
        r := None;
      } else {
        r := Some((host.value, reports[host.value]));
      }
    }
  }

  ghost predicate NoHostForgotten(ws: seq<World>, es: seq<Event>) {
    forall k :: 0 <= k < |es| && k < |ws| ==> !ForgetsHost(ws[k], es[k])
  }

  lemma InStepIfKept(ws: seq<World>, es: seq<Event>)
    requires IsRun(ws, es)
    ensures NoHostForgotten(ws, es) ==> InStep(ws[|es|])
  {
    if NoHostForgotten(ws, es) {
      FoldedIsAdvertised(ws, es, |es|);
    }
  }

  lemma AppendGreater(dead: seq<Label>, labels: seq<Label>, i: nat, alive: Label -> bool)
    requires StrictlySorted(dead) && StrictlySorted(labels) && i < |labels|
    requires Members(dead) == set x | x in labels[..i] && !alive(x)
    ensures StrictlySorted(dead + [labels[i]])
  {
    forall k | 0 <= k < |dead| ensures Leq(dead[k], labels[i]) && dead[k] != labels[i] {
      assert dead[k] in Members(dead);
      var j :| 0 <= j < i && labels[j] == dead[k];
    }
  }
}
