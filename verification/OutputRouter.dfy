/**
 The routing table of src-tauri/src/output_router.rs: a cached reverse index from an agent to the windows that show it
 in any of their tabs, rebuilt after every layout change, with the subscription changes of each rebuild.
 */
module OutputRouting {
  import opened Wrappers
  import opened Orders
  import opened LayoutModel
  import opened SubscriptionDeltas

  type Gathering = map<AgentKey, seq<Label>>

  function At(m: Gathering, k: AgentKey): seq<Label> {
    if k in m then m[k] else []
  }

  /** `r` is `m` with window `l` noted for the agents `ks`. */
  ghost predicate Adds(m: Gathering, r: Gathering, l: Label, ks: iset<AgentKey>) {
    && (forall k :: k in r <==> k in m || k in ks)
    && (forall k :: k in r ==> Members(r[k]) == Members(At(m, k)) + if k in ks then {l} else {})
  }

  lemma AddsNothing(m: Gathering, l: Label, ks: iset<AgentKey>)
    requires ks == iset{}
    ensures Adds(m, m, l, ks)
  {
  }

  lemma AddsBoth(m: Gathering, q: Gathering, r: Gathering, l: Label, ks: iset<AgentKey>, js: iset<AgentKey>)
    requires Adds(m, q, l, ks) && Adds(q, r, l, js)
    ensures Adds(m, r, l, ks + js)
  {
    forall k | k in r ensures Members(r[k]) == Members(At(m, k)) + if k in ks + js then {l} else {} {
      assert k in q ==> Members(At(q, k)) == Members(At(m, k)) + if k in ks then {l} else {};
      assert k !in q ==> At(q, k) == [] && At(m, k) == [];
    }
  }

  lemma AddsOne(m: Gathering, l: Label, k: AgentKey)
    ensures Adds(m, m[k := At(m, k) + [l]], l, iset{k})
  {
    assert Members(At(m, k) + [l]) == Members(At(m, k)) + {l};
  }

  ghost function BoundIn(node: LayoutNode, parse: Parser): iset<AgentKey> {
    iset k | Binds(node, k, parse)
  }

  /** Note window `l` for every agent bound in the tree. */
  method CollectAgents(node: LayoutNode, l: Label, byAgent: Gathering, parse: Parser) returns (r: Gathering)
    ensures Adds(byAgent, r, l, BoundIn(node, parse))
    decreases node
  {
    match node
    case Slot(content) =>
      var key := if content.Agent? then parse(content.agentId) else None;
      if key.Some? {
        AddsOne(byAgent, l, key.value);
        assert BoundIn(node, parse) == iset{key.value};
        r := byAgent[key.value := At(byAgent, key.value) + [l]];
      } else {
        assert BoundIn(node, parse) == iset{};
        AddsNothing(byAgent, l, BoundIn(node, parse));
        r := byAgent;
      }
    case Split(a, b) =>
      var left := CollectAgents(a, l, byAgent, parse);
      r := CollectAgents(b, l, left, parse);
      AddsBoth(byAgent, left, r, l, BoundIn(a, parse), BoundIn(b, parse));
      assert BoundIn(node, parse) == BoundIn(a, parse) + BoundIn(b, parse);
  }

  /** The table is the sorted reverse index of the layout. */
  ghost predicate Indexes(table: Gathering, mgr: ViewManager, parse: Parser) {
    forall k :: StrictlySorted(At(table, k)) && Members(At(table, k)) == Showing(mgr, k, parse)
                && (k in table <==> Showing(mgr, k, parse) != {})
  }

  /** A layout has only one index. */
  lemma IndexUnique(t: Gathering, u: Gathering, mgr: ViewManager, parse: Parser)
    requires Indexes(t, mgr, parse) && Indexes(u, mgr, parse)
    ensures t == u
  {
    forall k ensures At(t, k) == At(u, k) && (k in t <==> k in u) {
      SortedUnique(At(t, k), At(u, k));
    }
    assert t.Keys == u.Keys;
    forall k | k in t ensures t[k] == u[k] {
      assert At(t, k) == At(u, k);
    }
  }

  datatype SubscriptionDelta = SubscriptionDelta(toSubscribe: seq<AgentKey>, toUnsubscribe: seq<AgentKey>)

  lemma OneMoreTab(mgr: ViewManager, tabs: seq<ViewId>, i: nat, k: AgentKey, parse: Parser)
    requires i < |tabs|
    ensures TabsShow(mgr, tabs[..i + 1], k, parse) <==>
      TabsShow(mgr, tabs[..i], k, parse) || (tabs[i] in mgr.views && Binds(mgr.views[tabs[i]], k, parse))
  {
    if TabsShow(mgr, tabs[..i + 1], k, parse) {
      var j :| 0 <= j <= i && tabs[..i + 1][j] in mgr.views && Binds(mgr.views[tabs[..i + 1][j]], k, parse);
      assert j < i ==> tabs[..i][j] == tabs[j];
    }
    if TabsShow(mgr, tabs[..i], k, parse) {
      var j :| 0 <= j < i && tabs[..i][j] in mgr.views && Binds(mgr.views[tabs[..i][j]], k, parse);
      assert tabs[..i + 1][j] == tabs[j];
    }
    assert tabs[..i + 1][i] == tabs[i];
  }

  ghost function BoundInTabs(mgr: ViewManager, tabs: seq<ViewId>, parse: Parser): iset<AgentKey> {
    iset k | TabsShow(mgr, tabs, k, parse)
  }

  lemma BoundInOneMore(mgr: ViewManager, tabs: seq<ViewId>, i: nat, parse: Parser)
    requires i < |tabs|
    ensures BoundInTabs(mgr, tabs[..i + 1], parse) == BoundInTabs(mgr, tabs[..i], parse)
      + if tabs[i] in mgr.views then BoundIn(mgr.views[tabs[i]], parse) else iset{}
  {
    forall k {
      OneMoreTab(mgr, tabs, i, k, parse);
    }
  }

  /** Gather one window: all its tabs, hidden ones too; a tab without a view is skipped. */
  method CollectWindow(mgr: ViewManager, l: Label, byAgent: Gathering, parse: Parser) returns (r: Gathering)
    requires l in mgr.windows
    ensures Adds(byAgent, r, l, BoundInTabs(mgr, mgr.windows[l], parse))
  {
    r := byAgent;
    var tabs := mgr.windows[l];
    AddsNothing(byAgent, l, BoundInTabs(mgr, tabs[..0], parse));
    for i := 0 to |tabs|
      invariant Adds(byAgent, r, l, BoundInTabs(mgr, tabs[..i], parse))
    {
      BoundInOneMore(mgr, tabs, i, parse);
      if tabs[i] in mgr.views {
        ghost var before := r;
        r := CollectAgents(mgr.views[tabs[i]], l, r, parse);
        AddsBoth(byAgent, before, r, l, BoundInTabs(mgr, tabs[..i], parse), BoundIn(mgr.views[tabs[i]], parse));
      } else {
        assert BoundInTabs(mgr, tabs[..i + 1], parse) == BoundInTabs(mgr, tabs[..i], parse);
      }
    }
    assert tabs[..|tabs|] == tabs;
  }

  /** Every agent's list holds exactly those of the windows `ls` that show it, in any order and with repetition. */
  ghost predicate Gathers(m: Gathering, mgr: ViewManager, ls: set<Label>, parse: Parser) {
    forall k :: Members(At(m, k)) == ShowingAmong(mgr, ls, k, parse)
                && (k in m <==> ShowingAmong(mgr, ls, k, parse) != {})
  }

  lemma GathersOneMore(m: Gathering, r: Gathering, mgr: ViewManager, ls: set<Label>, l: Label, parse: Parser)
    requires l in mgr.windows && Gathers(m, mgr, ls, parse)
    requires Adds(m, r, l, BoundInTabs(mgr, mgr.windows[l], parse))
    ensures Gathers(r, mgr, ls + {l}, parse)
  {
    forall k ensures Members(At(r, k)) == ShowingAmong(mgr, ls + {l}, k, parse)
                     && (k in r <==> ShowingAmong(mgr, ls + {l}, k, parse) != {})
    {
      var now := if Shows(mgr, l, k, parse) then {l} else {};
      assert ShowingAmong(mgr, ls + {l}, k, parse) == ShowingAmong(mgr, ls, k, parse) + now;
      assert Members(At(m, k)) == ShowingAmong(mgr, ls, k, parse);
      assert Shows(mgr, l, k, parse) ==> l in ShowingAmong(mgr, ls + {l}, k, parse);
    }
  }

  /** Gather all windows. */
  method CollectAll(mgr: ViewManager, parse: Parser) returns (r: Gathering)
    ensures Gathers(r, mgr, mgr.windows.Keys, parse)
  {
    r := map[];
    var rest := mgr.windows.Keys;
    ghost var done: set<Label> := {};
    while rest != {}
      invariant done + rest == mgr.windows.Keys && Gathers(r, mgr, done, parse)
      decreases |rest|
    {
      var l :| l in rest;
      ghost var before := r;
      r := CollectWindow(mgr, l, r, parse);
      GathersOneMore(before, r, mgr, done, l, parse);
      rest, done := rest - {l}, done + {l};
    }
  }

  /** Sort each list and drop its repetitions. */
  method SortAll(byAgent: Gathering) returns (r: Gathering)
    ensures r.Keys == byAgent.Keys
    ensures forall k :: k in r ==> StrictlySorted(r[k]) && Members(r[k]) == Members(byAgent[k])
  {
    r := map[];
    var rest := byAgent.Keys;
    while rest != {}
      invariant rest <= byAgent.Keys && r.Keys == byAgent.Keys - rest
      invariant forall k :: k in r ==> StrictlySorted(r[k]) && Members(r[k]) == Members(byAgent[k])
      decreases |rest|
    {
      var k :| k in rest;
      var labels := SortDedup(byAgent[k]);
      r := r[k := labels];
      rest := rest - {k};
    }
  }

  lemma SortedIndexes(byAgent: Gathering, table: Gathering, mgr: ViewManager, parse: Parser)
    requires Gathers(byAgent, mgr, mgr.windows.Keys, parse) && table.Keys == byAgent.Keys
    requires forall k :: k in table ==> StrictlySorted(table[k]) && Members(table[k]) == Members(byAgent[k])
    ensures Indexes(table, mgr, parse)
  {
    forall k ensures StrictlySorted(At(table, k)) && Members(At(table, k)) == Showing(mgr, k, parse)
                     && (k in table <==> Showing(mgr, k, parse) != {})
    {
      assert Members(At(byAgent, k)) == ShowingAmong(mgr, mgr.windows.Keys, k, parse);
    }
  }

  class OutputRouter {
    var table: Gathering
    /** The agents in the table after each rebuild. */
    ghost var history: seq<set<AgentKey>>

    ghost predicate Valid()
      reads this
    {
      table.Keys == Final(history)
    }

    constructor ()
      ensures Valid() && table == map[] && history == []
    {
      table, history := map[], [];
    }

    /** The windows an agent's output goes to. */
    method Targets(agent: AgentKey) returns (r: seq<Label>)
      ensures r == At(table, agent)
    {
      if agent in table {
        r := table[agent];
      } else {
        r := [];
      }
    }

    /** Recompute the table and say which agents came and went. */
    method Rebuild(mgr: ViewManager, parse: Parser) returns (d: SubscriptionDelta)
      requires Valid()
      modifies this
      ensures Valid() && history == old(history) + [table.Keys]
      ensures Indexes(table, mgr, parse)
      ensures StrictlySorted(d.toSubscribe) && Members(d.toSubscribe) == Subscribes(history)
      ensures StrictlySorted(d.toUnsubscribe) && Members(d.toUnsubscribe) == Unsubscribes(history)
    {
      var byAgent := CollectAll(mgr, parse);
      var snapshot := SortAll(byAgent);
      SortedIndexes(byAgent, snapshot, mgr, parse);
      var came := SortSet(snapshot.Keys - table.Keys);
      var went := SortSet(table.Keys - snapshot.Keys);
      d := SubscriptionDelta(came, went);
      table := snapshot;
      history := history + [table.Keys];
      BeforeIsFinal(history);
      assert history[..|history| - 1] == old(history);
    }

    /** A popout window is gone: take it out of the model and rebuild.  The main window is never cleaned up. */
    method CleanupWindow(mgr: ViewManager, l: Label, parse: Parser) returns (left: ViewManager, d: SubscriptionDelta)
      requires Valid()
      modifies this
      ensures Valid()
      ensures l == "main" ==> left == mgr && d == SubscriptionDelta([], []) && table == old(table) && history == old(history)
      ensures l != "main" ==> history == old(history) + [table.Keys] && Members(d.toUnsubscribe) == Unsubscribes(history)
      ensures l != "main" ==> left == WithoutWindow(mgr, l) && Indexes(table, left, parse)
      ensures l != "main" ==> forall k :: l !in At(table, k)
      ensures l != "main" && OwnedOnce(mgr) ==> forall k :: Members(At(table, k)) == Showing(mgr, k, parse) - {l}
    {
      left, d := mgr, SubscriptionDelta([], []);
      if l == MAIN {
        return;
      }
      if l in mgr.windows {
        left := ViewManager(mgr.windows - {l}, mgr.views - (set v | v in mgr.windows[l]));
      }
      d := Rebuild(left, parse);
      forall k ensures l !in At(table, k) {
        assert Members(At(table, k)) == Showing(left, k, parse);
        assert l !in Members(At(table, k));
      }
      if OwnedOnce(mgr) {
        forall k ensures Members(At(table, k)) == Showing(mgr, k, parse) - {l} {
          forall m ensures m in Showing(left, k, parse) <==> m in Showing(mgr, k, parse) - {l} {
            OthersKeepShowing(mgr, l, m, k, parse);
          }
        }
      }
    }
  }
}
