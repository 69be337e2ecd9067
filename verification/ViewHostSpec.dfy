/**
 Which window runs webview commands, src-tauri/src/view_commands.rs: windows report what they offer, one reporting
 window is the host, its list is advertised, and each report pushes the change of the advertised list to the daemon.

 Dead windows are forgotten in three steps (labels are copied under the lock, liveness is asked outside it, the dead
 are forgotten under the lock), so any list of labels may be forgotten at any time.
 */
module ViewHostSpec {
  import opened Wrappers
  import opened Orders

  type Label = string
  /** Name to shape. */
  type Shapes = map<string, string>

  const MAIN := "main"

  datatype Registered = Registered(reports: map<Label, Shapes>, host: Option<Label>)

  function Advertised(r: Registered): Shapes {
    if r.host.Some? && r.host.value in r.reports then r.reports[r.host.value] else map[]
  }

  ghost function Forgotten(reports: map<Label, Shapes>, dead: set<Label>): map<Label, Shapes> {
    reports - dead
  }

  /** The choice the code describes: main first, then the host there is, then the first label. */
  ghost predicate Picked(reports: map<Label, Shapes>, before: Option<Label>, host: Option<Label>) {
    if MAIN in reports then host == Some(MAIN)
    else if before.Some? && before.value in reports then host == before
    else if reports == map[] then host == None
    else host.Some? && IsLeast(host.value, reports.Keys)
  }

  /** The host is missing exactly when nobody has reported; otherwise it has reported, and is main if main has. */
  ghost predicate HostFits(r: Registered) {
    && (r.host.None? <==> r.reports == map[])
    && (r.host.Some? ==> r.host.value in r.reports)
    && ("main" in r.reports ==> r.host == Some("main"))
  }

  lemma PickedFits(reports: map<Label, Shapes>, before: Option<Label>, host: Option<Label>)
    requires Picked(reports, before, host)
    ensures HostFits(Registered(reports, host))
  {
    if MAIN !in reports && (before.None? || before.value !in reports) && reports != map[] {
      assert host.value in reports.Keys;
    }
  }

  lemma PickedUnique(reports: map<Label, Shapes>, before: Option<Label>, h: Option<Label>, k: Option<Label>)
    requires Picked(reports, before, h) && Picked(reports, before, k)
    ensures h == k
  {
    if MAIN !in reports && (before.None? || before.value !in reports) && reports != map[] {
      LeastUnique(h.value, k.value, reports.Keys);
    }
  }

  // ── The change that is pushed ──────────────────────────────────────────────

  /** `added` names are new or have a new shape, `removed` ones are gone. */
  datatype Diff = Diff(added: Shapes, removed: set<string>)

  function DiffOf(previous: Shapes, current: Shapes): Diff {
    Diff(map x | x in current && !(x in previous && previous[x] == current[x]) :: current[x],
         set x | x in previous && x !in current)
  }

  predicate Changed(d: Diff) {
    d.added != map[] || d.removed != {}
  }

  /** What the daemon's registry becomes. */
  function Apply(registry: Shapes, d: Diff): Shapes {
    (registry - d.removed) + d.added
  }

  /** Applying the change to the old list gives the new one, in whichever order the two halves are applied. */
  lemma DiffRoundTrip(previous: Shapes, current: Shapes)
    ensures Apply(previous, DiffOf(previous, current)) == current
    ensures var d := DiffOf(previous, current); (previous + d.added) - d.removed == current
    ensures !Changed(DiffOf(previous, current)) <==> previous == current
  {
    var d := DiffOf(previous, current);
    if !Changed(d) {
      forall x | x in current ensures x in previous && previous[x] == current[x] {
        assert x !in d.added;
      }
      forall x | x in previous ensures x in current {
        assert x !in d.removed;
      }
    }
  }

  /** No smaller change does: whatever else turns the old list into the new one adds and removes at least these names. */
  lemma DiffSmallest(previous: Shapes, current: Shapes, d: Diff)
    requires Apply(previous, d) == current
    ensures DiffOf(previous, current).added.Keys <= d.added.Keys
    ensures DiffOf(previous, current).removed <= d.removed
  {
    var e := DiffOf(previous, current);
    forall x | x in e.added ensures x in d.added {
      assert Apply(previous, d)[x] == current[x];
    }
    forall x | x in e.removed ensures x in d.removed {
      assert x !in Apply(previous, d);
    }
  }

  // ── Runs ───────────────────────────────────────────────────────────────────

  /**
   `pushing` is the change on its way while the outbound gate is closed, and `registry` what the daemon has made of
   the changes pushed so far.
   */
  datatype World = World(state: Registered, pushing: Option<Diff>, registry: Shapes)

  const START := World(Registered(map[], None), None, map[])

  datatype Event =
    | Forgets(dead: set<Label>)
    | Reports(window: Label, shapes: Shapes)
    | PushEnds

  ghost predicate Step(w: World, e: Event, v: World) {
    match e
    case Forgets(dead) =>
      && v.pushing == w.pushing && v.registry == w.registry
      && v.state.reports == Forgotten(w.state.reports, dead)
      && Picked(v.state.reports, w.state.host, v.state.host)
    case Reports(l, shapes) =>
      && w.pushing.None? && v.registry == w.registry
      && v.state.reports == w.state.reports[l := shapes]
      && Picked(v.state.reports, w.state.host, v.state.host)
      && var d := DiffOf(Advertised(w.state), Advertised(v.state));
         v.pushing == if Changed(d) then Some(d) else None
    case PushEnds =>
      && w.pushing.Some? && v == World(w.state, None, Apply(w.registry, w.pushing.value))
  }

  /** `ws` is a run of the events `es`. */
  ghost predicate IsRun(ws: seq<World>, es: seq<Event>) {
    && |ws| == |es| + 1 && ws[0] == START
    && forall i :: 0 <= i < |es| ==> Step(ws[i], es[i], ws[i + 1])
  }

  /** At the release of the lock the host is right, over every run. */
  lemma {:induction false} HostAlwaysFits(ws: seq<World>, es: seq<Event>, i: nat)
    requires IsRun(ws, es) && i < |ws|
    ensures HostFits(ws[i].state)
  {
    if i > 0 {
      HostAlwaysFits(ws, es, i - 1);
      assert Step(ws[i - 1], es[i - 1], ws[i]);
      if !es[i - 1].PushEnds? {
        PickedFits(ws[i].state.reports, ws[i - 1].state.host, ws[i].state.host);
      }
    }
  }

  /** What each window reported last, of those not forgotten since. */
  ghost function ReportsOf(es: seq<Event>): map<Label, Shapes> {
    if es == [] then map[]
    else
      var front := ReportsOf(es[..|es| - 1]);
      match es[|es| - 1]
      case Forgets(dead) => front - dead
      case Reports(l, shapes) => front[l := shapes]
      case PushEnds => front
  }

  /** Over every run the last report of each window counts, and what is advertised is the host's. */
  lemma {:induction false} LastReportCounts(ws: seq<World>, es: seq<Event>, i: nat)
    requires IsRun(ws, es) && i < |ws|
    ensures ws[i].state.reports == ReportsOf(es[..i])
    ensures var host := ws[i].state.host;
      Advertised(ws[i].state) == if host.Some? && host.value in ReportsOf(es[..i]) then ReportsOf(es[..i])[host.value] else map[]
  {
    if i > 0 {
      LastReportCounts(ws, es, i - 1);
      assert Step(ws[i - 1], es[i - 1], ws[i]);
      assert es[..i][..i - 1] == es[..i - 1] && es[..i][i - 1] == es[i - 1];
    }
  }

  /** Over every run a host that is still reporting stays host, whoever else reports, unless main takes over. */
  lemma HostStays(ws: seq<World>, es: seq<Event>, i: nat)
    requires IsRun(ws, es) && i < |es| && ws[i].state.host.Some?
    requires ws[i].state.host.value in ReportsOf(es[..i + 1]) && MAIN !in ReportsOf(es[..i + 1])
    ensures ws[i + 1].state.host == ws[i].state.host
  {
    LastReportCounts(ws, es, i + 1);
    assert Step(ws[i], es[i], ws[i + 1]);
  }

  /** Over every run a host that goes is followed by the first label that still reports, or by nobody. */
  lemma HeirTakesOver(ws: seq<World>, es: seq<Event>, i: nat)
    requires IsRun(ws, es) && i < |es| && MAIN !in ReportsOf(es[..i + 1])
    requires ws[i].state.host.None? || ws[i].state.host.value !in ReportsOf(es[..i + 1])
    ensures var left := ReportsOf(es[..i + 1]);
      ws[i + 1].state.host == if left == map[] then None else Some(First(left.Keys))
  {
    LastReportCounts(ws, es, i + 1);
    HostAlwaysFits(ws, es, i);
    assert Step(ws[i], es[i], ws[i + 1]);
    var left := ReportsOf(es[..i + 1]);
    if left != map[] && ws[i + 1].state.host.Some? && IsLeast(ws[i + 1].state.host.value, left.Keys) {
      LeastUnique(ws[i + 1].state.host.value, First(left.Keys), left.Keys);
    }
  }

  /** The daemon has, or will have once the push ends, exactly the advertised list. */
  ghost predicate InStep(w: World) {
    Advertised(w.state) == if w.pushing.Some? then Apply(w.registry, w.pushing.value) else w.registry
  }

  /** Forgetting windows other than the host leaves the host and the advertised list alone. */
  lemma ForgettingOthers(w: World, dead: set<Label>, v: World)
    requires HostFits(w.state) && Step(w, Forgets(dead), v) && (w.state.host.Some? ==> w.state.host.value !in dead)
    ensures v.state.host == w.state.host && Advertised(v.state) == Advertised(w.state)
  {
  }

  lemma ReportKeepsStep(w: World, l: Label, shapes: Shapes, v: World)
    requires Step(w, Reports(l, shapes), v) && InStep(w)
    ensures InStep(v)
  {
    DiffRoundTrip(Advertised(w.state), Advertised(v.state));
  }

  /** A step out of which the daemon can fall behind: a host is forgotten. */
  ghost predicate ForgetsHost(w: World, e: Event) {
    e.Forgets? && w.state.host.Some? && w.state.host.value in e.dead
  }

  /**
   Over every run that never forgets a host, though it may forget any other reporter, folding the pushed changes gives
   exactly the advertised list.
   */
  lemma {:induction false} FoldedIsAdvertised(ws: seq<World>, es: seq<Event>, i: nat)
    requires IsRun(ws, es) && i < |ws| && forall k :: 0 <= k < i ==> !ForgetsHost(ws[k], es[k])
    ensures InStep(ws[i])
  {
    if i > 0 {
      FoldedIsAdvertised(ws, es, i - 1);
      HostAlwaysFits(ws, es, i - 1);
      assert Step(ws[i - 1], es[i - 1], ws[i]) && !ForgetsHost(ws[i - 1], es[i - 1]);
      match es[i - 1]
      case Forgets(dead) => ForgettingOthers(ws[i - 1], dead, ws[i]);
      case Reports(l, shapes) => ReportKeepsStep(ws[i - 1], l, shapes, ws[i]);
      case PushEnds =>
    }
  }

  /** The list of the window that takes over when the host is among the dead: the first label left, or nobody. */
  ghost function HeirList(reports: map<Label, Shapes>, dead: set<Label>): Shapes {
    var left := reports - dead;
    if left == map[] then map[] else left[First(left.Keys)]
  }

  /**
   From a state in step, forgetting windows keeps the daemon in step if and only if the host survives or the window
   that takes over had reported the very same list.
   */
  lemma ForgettingKeepsStepIff(w: World, dead: set<Label>, v: World)
    requires HostFits(w.state) && InStep(w) && Step(w, Forgets(dead), v)
    ensures InStep(v) <==>
      || w.state.host.None? || w.state.host.value !in dead
      || HeirList(w.state.reports, dead) == w.state.reports[w.state.host.value]
  {
    if ForgetsHost(w, Forgets(dead)) {
      PickedFits(v.state.reports, w.state.host, v.state.host);
      if v.state.reports != map[] {
        LeastUnique(v.state.host.value, First(v.state.reports.Keys), v.state.reports.Keys);
      }
    } else {
      ForgettingOthers(w, dead, v);
    }
  }

  // ── A run in which the daemon is left with a name that nobody offers ───────

  const OFFER: Shapes := map["tab.next" := "{}"]
  const POPOUT := Registered(map["popout" := OFFER], Some("popout"))

  lemma PopoutReports()
    ensures Step(START, Reports("popout", OFFER), World(POPOUT, Some(Diff(OFFER, {})), map[]))
  {
    assert map[]["popout" := OFFER] == POPOUT.reports;
    LeqRefl("popout");
    assert IsLeast("popout", POPOUT.reports.Keys);
    assert DiffOf(map[], OFFER) == Diff(OFFER, {});
    assert "tab.next" in OFFER;
  }

  lemma PopoutForgotten()
    ensures Step(World(POPOUT, None, OFFER), Forgets({"popout"}), World(Registered(map[], None), None, OFFER))
  {
    assert Forgotten(POPOUT.reports, {"popout"}) == map[];
  }

  /** The only reporter reports, its names are pushed, it dies and is forgotten: the daemon keeps its names. */
  lemma ForgottenHostLeavesNames() returns (ws: seq<World>, es: seq<Event>)
    ensures IsRun(ws, es) && ws[|es|].pushing.None? && Advertised(ws[|es|].state) == map[]
    ensures "tab.next" in ws[|es|].registry
  {
    var w1, w2 := World(POPOUT, Some(Diff(OFFER, {})), map[]), World(POPOUT, None, OFFER);
    var w3 := World(Registered(map[], None), None, OFFER);
    PopoutReports();
    PopoutForgotten();
    assert Step(w1, PushEnds, w2) by {
      assert Apply(map[], Diff(OFFER, {})) == OFFER;
    }
    ws := [START, w1, w2, w3];
    es := [Reports("popout", OFFER), PushEnds, Forgets({"popout"})];
    assert Step(ws[0], es[0], ws[1]) && Step(ws[1], es[1], ws[2]) && Step(ws[2], es[2], ws[3]);
  }
}
