/** The windows, their tabs and the trees in them, as far as routing looks at them, and which agents each window shows. */
module LayoutModel {
  import opened Wrappers
  import opened Orders

  type Label = string
  type ViewId = nat
  /** An agent's number as its bytes, so that sorting keys is sorting strings. */
  type AgentKey = string
  /** How a slot's text becomes an agent key; text that is no key gives none. */
  type Parser = string -> Option<AgentKey>

  datatype SlotContent = Empty | Agent(agentId: string) | AgentList | PresetPalette | Usage(claude: bool, codex: bool)
  datatype LayoutNode = Slot(content: SlotContent) | Split(a: LayoutNode, b: LayoutNode)

  /** Each window's tabs, and the tree of each view. */
  datatype ViewManager = ViewManager(windows: map<Label, seq<ViewId>>, views: map<ViewId, LayoutNode>)

  const MAIN := "main"

  /** Some slot of the tree is bound to agent `k`. */
  ghost predicate Binds(node: LayoutNode, k: AgentKey, parse: Parser) {
    match node
    case Slot(Agent(id)) => parse(id) == Some(k)
    case Slot(_) => false
    case Split(a, b) => Binds(a, k, parse) || Binds(b, k, parse)
  }

  /** What lies at the end of `path`, which turns to the second half of a split where it says so. */
  ghost function SlotAt(node: LayoutNode, path: seq<bool>): Option<SlotContent>
    decreases node
  {
    match node
    case Slot(content) => if path == [] then Some(content) else None
    case Split(a, b) => if path == [] then None else SlotAt(if path[0] then b else a, path[1..])
  }

  /** The slot at the end of `path` is bound to agent `k`. */
  ghost predicate BoundAt(node: LayoutNode, path: seq<bool>, k: AgentKey, parse: Parser) {
    var slot := SlotAt(node, path);
    slot.Some? && slot.value.Agent? && parse(slot.value.agentId) == Some(k)
  }

  /** An agent is bound in a tree exactly if some path, however deep, ends at a slot bound to it. */
  lemma {:induction false} BindsIff(node: LayoutNode, k: AgentKey, parse: Parser)
    ensures Binds(node, k, parse) <==> exists path :: BoundAt(node, path, k, parse)
  {
    match node
    case Slot(_) =>
      assert Binds(node, k, parse) ==> BoundAt(node, [], k, parse);
    case Split(a, b) =>
      BindsIff(a, k, parse);
      BindsIff(b, k, parse);
      if Binds(node, k, parse) {
        var second := !Binds(a, k, parse);
        var path :| BoundAt(if second then b else a, path, k, parse);
        assert ([second] + path)[1..] == path;
        assert BoundAt(node, [second] + path, k, parse);
      }
      if path :| BoundAt(node, path, k, parse) {
        assert BoundAt(if path[0] then b else a, path[1..], k, parse);
      }
  }

  /** One of these tabs shows agent `k`. */
  ghost predicate TabsShow(mgr: ViewManager, tabs: seq<ViewId>, k: AgentKey, parse: Parser) {
    exists i :: 0 <= i < |tabs| && tabs[i] in mgr.views && Binds(mgr.views[tabs[i]], k, parse)
  }

  /** Window `l` shows agent `k`, in whichever tab. */
  ghost predicate Shows(mgr: ViewManager, l: Label, k: AgentKey, parse: Parser) {
    l in mgr.windows && TabsShow(mgr, mgr.windows[l], k, parse)
  }

  ghost function ShowingAmong(mgr: ViewManager, ls: set<Label>, k: AgentKey, parse: Parser): set<Label> {
    set l | l in ls && Shows(mgr, l, k, parse)
  }

  /** All windows that show agent `k`. */
  ghost function Showing(mgr: ViewManager, k: AgentKey, parse: Parser): set<Label> {
    ShowingAmong(mgr, mgr.windows.Keys, k, parse)
  }

  /** A window goes and its tabs with it. */
  function WithoutWindow(mgr: ViewManager, l: Label): ViewManager {
    if l in mgr.windows then
      ViewManager(mgr.windows - {l}, mgr.views - (set v | v in mgr.windows[l]))
    else mgr
  }

  /** A view is a tab of at most one window. */
  ghost predicate OwnedOnce(mgr: ViewManager) {
    forall l, m, v :: l in mgr.windows && m in mgr.windows && l != m && v in mgr.windows[l] ==> v !in mgr.windows[m]
  }

  /** A window that goes takes its own tabs' views along, and nothing else changes. */
  lemma WindowGone(mgr: ViewManager, l: Label)
    ensures var left := WithoutWindow(mgr, l);
      && (forall m :: m in left.windows <==> m in mgr.windows && m != l)
      && (forall m :: m in left.windows ==> left.windows[m] == mgr.windows[m])
      && (forall v :: v in left.views <==> v in mgr.views && !(l in mgr.windows && v in mgr.windows[l]))
      && (forall v :: v in left.views ==> left.views[v] == mgr.views[v])
  {
  }

  /** Taking a window away changes nothing about what the others show. */
  lemma OthersKeepShowing(mgr: ViewManager, gone: Label, l: Label, k: AgentKey, parse: Parser)
    requires OwnedOnce(mgr)
    ensures Shows(WithoutWindow(mgr, gone), l, k, parse) <==> Shows(mgr, l, k, parse) && l != gone
  {
    var left := WithoutWindow(mgr, gone);
    if l != gone && l in mgr.windows {
      var tabs := mgr.windows[l];
      if TabsShow(mgr, tabs, k, parse) {
        var i :| 0 <= i < |tabs| && tabs[i] in mgr.views && Binds(mgr.views[tabs[i]], k, parse);
        assert tabs[i] in tabs;
        assert tabs[i] in left.views && left.views[tabs[i]] == mgr.views[tabs[i]];
      }
      if TabsShow(left, tabs, k, parse) {
        var i :| 0 <= i < |tabs| && tabs[i] in left.views && Binds(left.views[tabs[i]], k, parse);
        assert tabs[i] in mgr.views;
      }
    }
  }
}
