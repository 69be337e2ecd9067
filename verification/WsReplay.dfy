/**
 The replay single-flight of src/api/wsTransport.ts: at most one Subscribe per agent is outstanding, later requests
 merge behind it into one next request, and every boundary carries the generation of the request it closes.

 The effect of each event is given as a function; the class in WsTransport.dfy changes its map in place and is
 proved against these functions.
 */
module WsReplaySpec {
  import opened Wrappers
  import opened Frames
  import opened ReplaySpec

  type AgentId = string
  /** Each call of `requestReplay` is one waiter; waiters are numbered in the order of the calls. */
  type Waiter = nat

  datatype Inflight = Inflight(gen: nat, truncated: bool, epoch: Option<Epoch>, continuesConversation: bool,
                               replayFrom: nat)
  datatype Merged = Merged(gen: nat, waiters: seq<Waiter>)
  datatype Entry = Entry(inflight: Option<Inflight>, pending: Option<Merged>)

  datatype Sign = Subscribed(agent: AgentId, gen: nat) | Boundary(agent: AgentId, marker: Marker) | SocketReset
  datatype Outcome = Resolved(gen: nat) | Rejected

  /** `log` is what crossed the wire; `outcomes` lists, per waiter, every time its promise was settled. */
  datatype Wire = Wire(entries: map<AgentId, Entry>, genCounter: nat, nextWaiter: Waiter, log: seq<Sign>,
                       outcomes: map<Waiter, seq<Outcome>>)

  const START := Wire(map[], 0, 0, [], map[])

  datatype Event =
    | Request(agent: AgentId, sendOk: bool)
    | Ack(agent: AgentId, epoch: Epoch, truncated: bool, continues: bool, replayFrom: nat)
    | Refused(agent: AgentId, sendOk: bool)
    | Completed(agent: AgentId, ownEpoch: Option<Epoch>, sendOk: bool)
    | SocketClosed

  function Fly(gen: nat): Inflight { Inflight(gen, false, None, false, 0) }

  /** The merged waiters of an entry. */
  function Waiters(e: Entry): seq<Waiter> {
    if e.pending.None? then [] else e.pending.value.waiters
  }

  function EntryOf(w: Wire, agent: AgentId): Entry {
    if agent in w.entries then w.entries[agent] else Entry(None, None)
  }

  ghost function SetOf(ws: seq<Waiter>): set<Waiter> { set x | x in ws }

  /** Settle the promises of `ws` with `o`. */
  ghost function Tell(outcomes: map<Waiter, seq<Outcome>>, ws: set<Waiter>, o: Outcome): map<Waiter, seq<Outcome>> {
    map x | x in outcomes.Keys + ws ::
      (if x in outcomes then outcomes[x] else []) + (if x in ws then [o] else [])
  }

  ghost function OnRequest(w: Wire, agent: AgentId, sendOk: bool): Wire {
    var e, x, g := EntryOf(w, agent), w.nextWaiter, w.genCounter + 1;
    var v := w.(nextWaiter := x + 1);
    if e.inflight.Some? then
      if e.pending.Some? then
        v.(entries := w.entries[agent := e.(pending := Some(e.pending.value.(waiters := e.pending.value.waiters + [x])))])
      else v.(entries := w.entries[agent := e.(pending := Some(Merged(g, [x])))], genCounter := g)
    else if sendOk then
      v.(entries := w.entries[agent := e.(inflight := Some(Fly(g)))], genCounter := g,
         log := w.log + [Subscribed(agent, g)], outcomes := Tell(w.outcomes, {x}, Resolved(g)))
    else
      v.(entries := if e.pending.None? then w.entries - {agent} else w.entries[agent := e], genCounter := g,
         outcomes := Tell(w.outcomes, {x}, Rejected))
  }

  ghost function OnAck(w: Wire, agent: AgentId, epoch: Epoch, truncated: bool, continues: bool, from: nat): Wire {
    var e := EntryOf(w, agent);
    if e.inflight.None? then w
    else w.(entries := w.entries[agent := e.(inflight := Some(
                         e.inflight.value.(epoch := Some(epoch), truncated := truncated,
                                           continuesConversation := continues, replayFrom := from)))])
  }

  /** Close the outstanding request with `m`; if requests merged behind it, send the next Subscribe for all of them. */
  ghost function Settle(w: Wire, agent: AgentId, m: Marker, sendOk: bool): Wire {
    var e := EntryOf(w, agent);
    var v := w.(log := w.log + [Boundary(agent, m)]);
    if e.pending.None? then v.(entries := w.entries - {agent})
    else
      var p := e.pending.value;
      v.(entries := w.entries[agent := Entry(if sendOk then Some(Fly(p.gen)) else None, None)],
         log := if sendOk then v.log + [Subscribed(agent, p.gen)] else v.log,
         outcomes := Tell(w.outcomes, SetOf(p.waiters), Resolved(p.gen)))
  }

  ghost function OnRefused(w: Wire, agent: AgentId, sendOk: bool): Wire {
    var e := EntryOf(w, agent);
    if e.inflight.None? || e.inflight.value.epoch.Some? then w
    else
      var d := e.inflight.value;
      Settle(w, agent, Marker(0, d.gen, d.truncated, true, false, d.replayFrom), sendOk)
  }

  ghost function OnCompleted(w: Wire, agent: AgentId, epoch: Option<Epoch>, sendOk: bool): Wire {
    var e := EntryOf(w, agent);
    if e.inflight.None? then w
    else
      var d := e.inflight.value;
      var mark := if d.epoch.Some? then d.epoch.value else if epoch.Some? then epoch.value else 0;
      Settle(w, agent, Marker(mark, d.gen, d.truncated, false, d.continuesConversation, d.replayFrom), sendOk)
  }

  ghost function Parked(entries: map<AgentId, Entry>): set<Waiter> {
    set a, x | a in entries && x in Waiters(entries[a]) :: x
  }

  ghost function OnClosed(w: Wire): Wire {
    w.(entries := map[], log := w.log + [SocketReset], outcomes := Tell(w.outcomes, Parked(w.entries), Rejected))
  }

  ghost function Next(w: Wire, e: Event): Wire {
    match e
    case Request(a, sendOk) => OnRequest(w, a, sendOk)
    case Ack(a, epoch, truncated, continues, from) => OnAck(w, a, epoch, truncated, continues, from)
    case Refused(a, sendOk) => OnRefused(w, a, sendOk)
    case Completed(a, epoch, sendOk) => OnCompleted(w, a, epoch, sendOk)
    case SocketClosed => OnClosed(w)
  }

  ghost function Run(es: seq<Event>): Wire {
    if es == [] then START else Next(Run(es[..|es| - 1]), es[|es| - 1])
  }

  // ── What the wire shows ────────────────────────────────────────────────────

  /** Subscribes sent minus boundaries emitted for `a` since the last socket reset. */
  ghost function Balance(log: seq<Sign>, a: AgentId): int {
    if log == [] then 0
    else
      var before := Balance(log[..|log| - 1], a);
      match log[|log| - 1]
      case Subscribed(b, _) => if b == a then before + 1 else before
      case Boundary(b, _) => if b == a then before - 1 else before
      case SocketReset => 0
  }

  lemma BalanceSnoc(log: seq<Sign>, s: Sign, a: AgentId)
    ensures Balance(log + [s], a) ==
      match s
      case Subscribed(b, _) => Balance(log, a) + (if b == a then 1 else 0)
      case Boundary(b, _) => Balance(log, a) - (if b == a then 1 else 0)
      case SocketReset => 0
  {
    assert (log + [s])[..|log|] == log;
  }

  /** No boundary of `a` so far carries a generation of `g` or more. */
  ghost predicate AllBelow(log: seq<Sign>, a: AgentId, g: nat) {
    forall i :: 0 <= i < |log| && log[i].Boundary? && log[i].agent == a ==> log[i].marker.gen < g
  }

  /** No boundary of `a` so far carries a generation beyond `g`. */
  ghost predicate AllUpTo(log: seq<Sign>, a: AgentId, g: nat) {
    forall i :: 0 <= i < |log| && log[i].Boundary? && log[i].agent == a ==> log[i].marker.gen <= g
  }

  /** Per agent the generations on the boundaries strictly increase, across socket resets too. */
  ghost predicate GensIncrease(log: seq<Sign>) {
    forall i, j :: 0 <= i < j < |log| && log[i].Boundary? && log[j].Boundary? && log[i].agent == log[j].agent
      ==> log[i].marker.gen < log[j].marker.gen
  }

  // ── Invariants ─────────────────────────────────────────────────────────────

  /** One outstanding request per agent, visible on the wire, and merged requests only behind one. */
  ghost predicate SoleOutstanding(w: Wire) {
    forall a :: Balance(w.log, a) == if EntryOf(w, a).inflight.Some? then 1 else 0
  }

  ghost predicate EntryFits(e: Entry, log: seq<Sign>, a: AgentId, counter: nat) {
    && (e.pending.Some? ==> e.inflight.Some?)
    && (e.inflight.Some? ==> e.inflight.value.gen <= counter && AllBelow(log, a, e.inflight.value.gen))
    && (e.pending.Some? ==> e.inflight.value.gen < e.pending.value.gen <= counter)
  }

  ghost predicate Numbered(w: Wire) {
    && GensIncrease(w.log)
    && (forall a :: AllUpTo(w.log, a, w.genCounter))
    && forall a :: a in w.entries ==> EntryFits(w.entries[a], w.log, a, w.genCounter)
  }

  ghost predicate DistinctSeq(ws: seq<Waiter>) {
    forall i, j :: 0 <= i < j < |ws| ==> ws[i] != ws[j]
  }

  /** No waiter is parked twice. */
  ghost predicate Separate(entries: map<AgentId, Entry>) {
    && (forall a :: a in entries ==> DistinctSeq(Waiters(entries[a])))
    && (forall a, b, x :: a in entries && b in entries && a != b && x in Waiters(entries[a])
          ==> x !in Waiters(entries[b]))
  }

  ghost function Ids(n: Waiter): (s: set<Waiter>)
    ensures forall x: Waiter :: x in s <==> x < n
  {
    if n == 0 then {} else Ids(n - 1) + {n - 1}
  }

  /** Every waiter so far is either parked in exactly one place or was settled exactly once. */
  ghost predicate Accounted(w: Wire) {
    && (forall x :: x in w.outcomes ==> |w.outcomes[x]| == 1)
    && w.outcomes.Keys !! Parked(w.entries)
    && w.outcomes.Keys + Parked(w.entries) == Ids(w.nextWaiter)
    && Separate(w.entries)
  }

  // ── Outstanding requests ───────────────────────────────────────────────────

  lemma SettleSole(w: Wire, agent: AgentId, m: Marker, sendOk: bool)
    requires SoleOutstanding(w) && EntryOf(w, agent).inflight.Some?
    ensures SoleOutstanding(Settle(w, agent, m, sendOk))
  {
    forall a ensures var v := Settle(w, agent, m, sendOk);
      Balance(v.log, a) == if EntryOf(v, a).inflight.Some? then 1 else 0
    {
      BalanceSnoc(w.log, Boundary(agent, m), a);
      if EntryOf(w, agent).pending.Some? {
        BalanceSnoc(w.log + [Boundary(agent, m)], Subscribed(agent, EntryOf(w, agent).pending.value.gen), a);
      }
    }
  }

  lemma RequestSole(w: Wire, agent: AgentId, sendOk: bool)
    requires SoleOutstanding(w)
    ensures SoleOutstanding(OnRequest(w, agent, sendOk))
  {
    forall a ensures var v := OnRequest(w, agent, sendOk);
      Balance(v.log, a) == if EntryOf(v, a).inflight.Some? then 1 else 0
    {
      BalanceSnoc(w.log, Subscribed(agent, w.genCounter + 1), a);
    }
  }

  lemma StepSole(w: Wire, e: Event)
    requires SoleOutstanding(w)
    ensures SoleOutstanding(Next(w, e))
  {
    match e
    case Request(a, sendOk) => RequestSole(w, a, sendOk);
    case Ack(a, epoch, truncated, continues, from) =>
    case Refused(a, sendOk) =>
      var i := EntryOf(w, a).inflight;
      if i.Some? {
        SettleSole(w, a, Marker(0, i.value.gen, i.value.truncated, true, false, i.value.replayFrom), sendOk);
      }
    case Completed(a, epoch, sendOk) =>
      var i := EntryOf(w, a).inflight;
      if i.Some? {
        var d := i.value;
        var mark := if d.epoch.Some? then d.epoch.value else if epoch.Some? then epoch.value else 0;
        SettleSole(w, a, Marker(mark, d.gen, d.truncated, false, d.continuesConversation, d.replayFrom), sendOk);
      }
    case SocketClosed =>
      forall a ensures Balance(w.log + [SocketReset], a) == 0 {
        BalanceSnoc(w.log, SocketReset, a);
      }
  }

  // ── Generations ────────────────────────────────────────────────────────────

  lemma LogBoundary(log: seq<Sign>, agent: AgentId, m: Marker, counter: nat)
    requires GensIncrease(log) && AllBelow(log, agent, m.gen) && m.gen <= counter
    requires forall a :: AllUpTo(log, a, counter)
    ensures GensIncrease(log + [Boundary(agent, m)])
    ensures forall a :: AllUpTo(log + [Boundary(agent, m)], a, counter)
    ensures forall a, g :: a != agent && AllBelow(log, a, g) ==> AllBelow(log + [Boundary(agent, m)], a, g)
    ensures forall g :: g > m.gen ==> AllBelow(log + [Boundary(agent, m)], agent, g)
  {
    forall a ensures AllUpTo(log + [Boundary(agent, m)], a, counter) {
      assert AllUpTo(log, a, counter);
    }
  }

  lemma LogOther(log: seq<Sign>, s: Sign)
    requires !s.Boundary?
    ensures GensIncrease(log) ==> GensIncrease(log + [s])
    ensures forall a, g :: AllBelow(log, a, g) ==> AllBelow(log + [s], a, g)
    ensures forall a, g :: AllUpTo(log, a, g) ==> AllUpTo(log + [s], a, g)
  {
  }

  lemma SettleNumbered(w: Wire, agent: AgentId, m: Marker, sendOk: bool)
    requires Numbered(w) && EntryOf(w, agent).inflight.Some? && m.gen == EntryOf(w, agent).inflight.value.gen
    ensures Numbered(Settle(w, agent, m, sendOk))
  {
    LogBoundary(w.log, agent, m, w.genCounter);
    if EntryOf(w, agent).pending.Some? {
      LogOther(w.log + [Boundary(agent, m)], Subscribed(agent, EntryOf(w, agent).pending.value.gen));
    }
  }

  lemma RequestNumbered(w: Wire, agent: AgentId, sendOk: bool)
    requires Numbered(w)
    ensures Numbered(OnRequest(w, agent, sendOk))
  {
    var v, e, g := OnRequest(w, agent, sendOk), EntryOf(w, agent), w.genCounter + 1;
    LogOther(w.log, Subscribed(agent, g));
    CounterGrows(w.log, w.genCounter, g);
    assert GensIncrease(v.log);
    forall a | a in v.entries ensures EntryFits(v.entries[a], v.log, a, v.genCounter) {
      assert a in w.entries ==> EntryFits(w.entries[a], w.log, a, w.genCounter);
    }
  }

  /** A generation beyond the counter is beyond every boundary. */
  lemma CounterGrows(log: seq<Sign>, counter: nat, g: nat)
    requires g > counter && forall a :: AllUpTo(log, a, counter)
    ensures forall a :: AllBelow(log, a, g) && AllUpTo(log, a, g)
  {
    forall a ensures AllBelow(log, a, g) && AllUpTo(log, a, g) {
      assert AllUpTo(log, a, counter);
    }
  }

  lemma StepNumbered(w: Wire, e: Event)
    requires Numbered(w)
    ensures Numbered(Next(w, e))
  {
    match e
    case Request(a, sendOk) => RequestNumbered(w, a, sendOk);
    case Ack(a, epoch, truncated, continues, from) =>
    case Refused(a, sendOk) =>
      var i := EntryOf(w, a).inflight;
      if i.Some? {
        SettleNumbered(w, a, Marker(0, i.value.gen, i.value.truncated, true, false, i.value.replayFrom), sendOk);
      }
    case Completed(a, epoch, sendOk) =>
      var i := EntryOf(w, a).inflight;
      if i.Some? {
        var d := i.value;
        var mark := if d.epoch.Some? then d.epoch.value else if epoch.Some? then epoch.value else 0;
        SettleNumbered(w, a, Marker(mark, d.gen, d.truncated, false, d.continuesConversation, d.replayFrom), sendOk);
      }
    case SocketClosed => LogOther(w.log, SocketReset);
  }

  // ── Boundaries and the requests they close ─────────────────────────────────

  /** The generation of the Subscribe of `a` that no boundary or reset has closed yet. */
  ghost function Outstanding(log: seq<Sign>, a: AgentId): Option<nat> {
    if log == [] then None
    else
      match log[|log| - 1]
      case Subscribed(b, gen) => if b == a then Some(gen) else Outstanding(log[..|log| - 1], a)
      case Boundary(b, _) => if b == a then None else Outstanding(log[..|log| - 1], a)
      case SocketReset => None
  }

  /** Every boundary closes the outstanding Subscribe of its agent and carries its generation. */
  ghost predicate ClosesItsOwn(log: seq<Sign>) {
    forall k :: 0 <= k < |log| && log[k].Boundary? ==> Outstanding(log[..k], log[k].agent) == Some(log[k].marker.gen)
  }

  ghost predicate Matched(w: Wire) {
    && ClosesItsOwn(w.log)
    && forall a :: Outstanding(w.log, a) ==
         if EntryOf(w, a).inflight.Some? then Some(EntryOf(w, a).inflight.value.gen) else None
  }

  lemma OutstandingSnoc(log: seq<Sign>, s: Sign, a: AgentId)
    ensures Outstanding(log + [s], a) ==
      match s
      case Subscribed(b, gen) => if b == a then Some(gen) else Outstanding(log, a)
      case Boundary(b, _) => if b == a then None else Outstanding(log, a)
      case SocketReset => None
  {
    assert (log + [s])[..|log|] == log;
  }

  lemma ClosesSnoc(log: seq<Sign>, s: Sign)
    requires ClosesItsOwn(log) && (s.Boundary? ==> Outstanding(log, s.agent) == Some(s.marker.gen))
    ensures ClosesItsOwn(log + [s])
  {
    var more := log + [s];
    forall k | 0 <= k < |more| && more[k].Boundary?
      ensures Outstanding(more[..k], more[k].agent) == Some(more[k].marker.gen)
    {
      assert k < |log| ==> more[..k] == log[..k] && more[k] == log[k];
      assert k == |log| ==> more[..k] == log;
    }
  }

  lemma SettleMatched(w: Wire, agent: AgentId, m: Marker, sendOk: bool)
    requires Matched(w) && EntryOf(w, agent).inflight.Some? && m.gen == EntryOf(w, agent).inflight.value.gen
    ensures Matched(Settle(w, agent, m, sendOk))
  {
    var v, p, closed := Settle(w, agent, m, sendOk), EntryOf(w, agent).pending, w.log + [Boundary(agent, m)];
    ClosesSnoc(w.log, Boundary(agent, m));
    if p.Some? {
      ClosesSnoc(closed, Subscribed(agent, p.value.gen));
    }
    forall a ensures Outstanding(v.log, a) ==
      if EntryOf(v, a).inflight.Some? then Some(EntryOf(v, a).inflight.value.gen) else None
    {
      OutstandingSnoc(w.log, Boundary(agent, m), a);
      if p.Some? {
        OutstandingSnoc(closed, Subscribed(agent, p.value.gen), a);
      }
    }
  }

  lemma RequestMatched(w: Wire, agent: AgentId, sendOk: bool)
    requires Matched(w)
    ensures Matched(OnRequest(w, agent, sendOk))
  {
    var v, g := OnRequest(w, agent, sendOk), w.genCounter + 1;
    if EntryOf(w, agent).inflight.None? && sendOk {
      SentMatched(w, agent, g, v);
    } else {
      assert v.log == w.log;
      forall a ensures EntryOf(v, a).inflight == EntryOf(w, a).inflight {
      }
    }
  }

  lemma SentMatched(w: Wire, agent: AgentId, g: nat, v: Wire)
    requires Matched(w) && v.log == w.log + [Subscribed(agent, g)]
    requires forall a :: EntryOf(v, a).inflight == if a == agent then Some(Fly(g)) else EntryOf(w, a).inflight
    ensures Matched(v)
  {
    ClosesSnoc(w.log, Subscribed(agent, g));
    forall a ensures Outstanding(v.log, a) ==
      if EntryOf(v, a).inflight.Some? then Some(EntryOf(v, a).inflight.value.gen) else None
    {
      OutstandingSnoc(w.log, Subscribed(agent, g), a);
    }
  }

  lemma ClosedMatched(w: Wire)
    requires Matched(w)
    ensures Matched(OnClosed(w))
  {
    ClosesSnoc(w.log, SocketReset);
    forall a ensures Outstanding(w.log + [SocketReset], a) == None {
      OutstandingSnoc(w.log, SocketReset, a);
    }
  }

  lemma StepMatched(w: Wire, e: Event)
    requires Matched(w)
    ensures Matched(Next(w, e))
  {
    match e
    case Request(a, sendOk) => RequestMatched(w, a, sendOk);
    case Ack(a, epoch, truncated, continues, from) =>
    case Refused(a, sendOk) =>
      var i := EntryOf(w, a).inflight;
      if i.Some? {
        SettleMatched(w, a, Marker(0, i.value.gen, i.value.truncated, true, false, i.value.replayFrom), sendOk);
      }
    case Completed(a, epoch, sendOk) =>
      var i := EntryOf(w, a).inflight;
      if i.Some? {
        var d := i.value;
        var mark := if d.epoch.Some? then d.epoch.value else if epoch.Some? then epoch.value else 0;
        SettleMatched(w, a, Marker(mark, d.gen, d.truncated, false, d.continuesConversation, d.replayFrom), sendOk);
      }
    case SocketClosed => ClosedMatched(w);
  }

  /** Over every run each boundary carries the generation of the one Subscribe it closes. */
  lemma {:induction false} RunMatched(es: seq<Event>)
    ensures ClosesItsOwn(Run(es).log) && Matched(Run(es))
  {
    if es != [] {
      RunMatched(es[..|es| - 1]);
      StepMatched(Run(es[..|es| - 1]), es[|es| - 1]);
    }
  }

  /**
   With nothing outstanding for its agent, a request goes out at once and is told the generation of its own Subscribe,
   which is beyond every boundary so far.
   */
  ghost predicate GoesOutAtOnce(w: Wire, agent: AgentId) {
    EntryOf(w, agent).inflight.None? ==>
      var v, g := OnRequest(w, agent, true), w.genCounter + 1;
      && w.nextWaiter in v.outcomes && v.outcomes[w.nextWaiter] == [Resolved(g)]
      && Outstanding(w.log, agent) == None && Outstanding(v.log, agent) == Some(g)
      && AllBelow(w.log, agent, g)
  }

  lemma GoesOut(w: Wire, agent: AgentId)
    requires Accounted(w) && Numbered(w) && Matched(w)
    ensures GoesOutAtOnce(w, agent)
  {
    OutstandingSnoc(w.log, Subscribed(agent, w.genCounter + 1), agent);
    assert w.nextWaiter !in Ids(w.nextWaiter);
    assert AllUpTo(w.log, agent, w.genCounter);
  }

  lemma FirstRequestGoesOut(es: seq<Event>, agent: AgentId)
    ensures GoesOutAtOnce(Run(es), agent)
  {
    RunSingleFlight(es);
    RunMatched(es);
    GoesOut(Run(es), agent);
  }

  /** With nothing outstanding and the socket not taking it, a request is rejected, uses up a generation and leaves no trace. */
  ghost predicate RejectedAtOnce(w: Wire, agent: AgentId) {
    EntryOf(w, agent).inflight.None? ==>
      var v := OnRequest(w, agent, false);
      && w.nextWaiter in v.outcomes && v.outcomes[w.nextWaiter] == [Rejected]
      && agent !in v.entries && v.log == w.log && v.genCounter == w.genCounter + 1
  }

  lemma Rejects(w: Wire, agent: AgentId)
    requires Accounted(w) && Numbered(w)
    ensures RejectedAtOnce(w, agent)
  {
    assert w.nextWaiter !in Ids(w.nextWaiter);
    if agent in w.entries {
      assert EntryFits(w.entries[agent], w.log, agent, w.genCounter);
    }
  }

  lemma FailedRequestIsRejected(es: seq<Event>, agent: AgentId)
    ensures RejectedAtOnce(Run(es), agent)
  {
    RunSingleFlight(es);
    Rejects(Run(es), agent);
  }

  // ── Acknowledged requests ──────────────────────────────────────────────────

  /** The daemon has accepted the outstanding request of `a`, which has generation `gen`. */
  ghost predicate Acknowledged(w: Wire, a: AgentId, gen: nat) {
    var i := EntryOf(w, a).inflight;
    i.Some? && i.value.gen == gen && i.value.epoch.Some?
  }

  /** No boundary of `a` was written from entry `n` on. */
  ghost predicate NoBoundarySince(log: seq<Sign>, n: nat, a: AgentId) {
    forall k :: n <= k < |log| ==> !(log[k].Boundary? && log[k].agent == a)
  }

  lemma SettleOther(w: Wire, b: AgentId, m: Marker, sendOk: bool, a: AgentId)
    requires a != b
    ensures EntryOf(Settle(w, b, m, sendOk), a) == EntryOf(w, a)
    ensures w.log <= Settle(w, b, m, sendOk).log && NoBoundarySince(Settle(w, b, m, sendOk).log, |w.log|, a)
  {
  }

  /** From `w` to `v` the acknowledged request of `a` has stayed, and no boundary was written for it. */
  ghost predicate StaysOpen(w: Wire, v: Wire, a: AgentId, gen: nat) {
    Acknowledged(v, a, gen) && w.log <= v.log && NoBoundarySince(v.log, |w.log|, a)
  }

  lemma StepAcknowledged(w: Wire, e: Event, a: AgentId, gen: nat)
    requires Acknowledged(w, a, gen) && e != SocketClosed && !(e.Completed? && e.agent == a)
    ensures StaysOpen(w, Next(w, e), a, gen)
  {
    match e
    case Refused(b, sendOk) =>
      if a != b && EntryOf(w, b).inflight.Some? {
        var d := EntryOf(w, b).inflight.value;
        SettleOther(w, b, Marker(0, d.gen, d.truncated, true, false, d.replayFrom), sendOk, a);
      }
    case Completed(b, epoch, sendOk) =>
      if EntryOf(w, b).inflight.Some? {
        var d := EntryOf(w, b).inflight.value;
        var mark := if d.epoch.Some? then d.epoch.value else if epoch.Some? then epoch.value else 0;
        SettleOther(w, b, Marker(mark, d.gen, d.truncated, false, d.continuesConversation, d.replayFrom), sendOk, a);
      }
    case _ =>
  }

  lemma StaysOpenOn(u: Wire, w: Wire, v: Wire, a: AgentId, gen: nat)
    requires StaysOpen(u, w, a, gen) && StaysOpen(w, v, a, gen)
    ensures StaysOpen(u, v, a, gen)
  {
  }

  lemma RunSnoc(es: seq<Event>, e: Event)
    ensures Run(es + [e]) == Next(Run(es), e)
  {
    assert (es + [e])[..|es|] == es;
  }

  /** Once acknowledged, a request is closed only by its completion or by a socket reset: a refusal leaves it alone. */
  lemma {:induction false} AcknowledgedStays(es: seq<Event>, fs: seq<Event>, a: AgentId, gen: nat)
    requires Acknowledged(Run(es), a, gen)
    requires forall i :: 0 <= i < |fs| ==> fs[i] != SocketClosed && !(fs[i].Completed? && fs[i].agent == a)
    ensures StaysOpen(Run(es), Run(es + fs), a, gen)
    decreases |fs|
  {
    if fs == [] {
      assert es + fs == es;
    } else {
      var n := |fs| - 1;
      AcknowledgedStays(es, fs[..n], a, gen);
      assert es + fs == (es + fs[..n]) + [fs[n]];
      RunSnoc(es + fs[..n], fs[n]);
      StepAcknowledged(Run(es + fs[..n]), fs[n], a, gen);
      StaysOpenOn(Run(es), Run(es + fs[..n]), Run(es + fs), a, gen);
    }
  }

  /** The outstanding request of `a` is exactly `d`, and acknowledged. */
  ghost predicate Awaits(w: Wire, a: AgentId, d: Inflight) {
    EntryOf(w, a).inflight == Some(d) && d.epoch.Some?
  }

  lemma StepAwaits(w: Wire, e: Event, a: AgentId, d: Inflight)
    requires Awaits(w, a, d) && e != SocketClosed && !(e.Completed? && e.agent == a) && !(e.Ack? && e.agent == a)
    ensures Awaits(Next(w, e), a, d)
  {
    match e
    case Refused(b, sendOk) =>
      if a != b && EntryOf(w, b).inflight.Some? {
        var x := EntryOf(w, b).inflight.value;
        SettleOther(w, b, Marker(0, x.gen, x.truncated, true, false, x.replayFrom), sendOk, a);
      }
    case Completed(b, epoch, sendOk) =>
      if EntryOf(w, b).inflight.Some? {
        var x := EntryOf(w, b).inflight.value;
        var mark := if x.epoch.Some? then x.epoch.value else if epoch.Some? then epoch.value else 0;
        SettleOther(w, b, Marker(mark, x.gen, x.truncated, false, x.continuesConversation, x.replayFrom), sendOk, a);
      }
    case _ =>
  }

  lemma {:induction false} AwaitsOn(es: seq<Event>, fs: seq<Event>, a: AgentId, d: Inflight)
    requires Awaits(Run(es), a, d) && Between(fs, a)
    ensures Awaits(Run(es + fs), a, d)
    decreases |fs|
  {
    if fs == [] {
      assert es + fs == es;
    } else {
      var n := |fs| - 1;
      AwaitsOn(es, fs[..n], a, d);
      assert es + fs == (es + fs[..n]) + [fs[n]];
      RunSnoc(es + fs[..n], fs[n]);
      StepAwaits(Run(es + fs[..n]), fs[n], a, d);
    }
  }

  /** Nothing of this is about the outstanding request of `a`. */
  ghost predicate Between(fs: seq<Event>, a: AgentId) {
    forall i :: 0 <= i < |fs| ==> fs[i] != SocketClosed && !((fs[i].Completed? || fs[i].Ack?) && fs[i].agent == a)
  }

  /** The boundary of a completed request carries what its acknowledgement said, with the request's own generation. */
  lemma BoundaryCarriesAck(es: seq<Event>, ack: Event, fs: seq<Event>, done: Event)
    requires ack.Ack? && done.Completed? && done.agent == ack.agent && Between(fs, ack.agent)
    requires EntryOf(Run(es), ack.agent).inflight.Some?
    ensures var before, after := Run(es + [ack] + fs).log, Run(es + [ack] + fs + [done]).log;
      && |before| < |after|
      && after[|before|] == Boundary(ack.agent, Marker(ack.epoch, EntryOf(Run(es), ack.agent).inflight.value.gen,
                                                        ack.truncated, false, ack.continues, ack.replayFrom))
  {
    var a, was := ack.agent, EntryOf(Run(es), ack.agent).inflight.value;
    var d := was.(epoch := Some(ack.epoch), truncated := ack.truncated, continuesConversation := ack.continues,
                  replayFrom := ack.replayFrom);
    RunSnoc(es, ack);
    assert Awaits(Run(es + [ack]), a, d);
    AwaitsOn(es + [ack], fs, a, d);
    RunSnoc(es + [ack] + fs, done);
  }

  // ── Waiters ────────────────────────────────────────────────────────────────

  lemma SettleAccounted(w: Wire, agent: AgentId, m: Marker, sendOk: bool)
    requires Accounted(w) && agent in w.entries
    ensures Accounted(Settle(w, agent, m, sendOk))
  {
    var v := Settle(w, agent, m, sendOk);
    var mine := SetOf(Waiters(w.entries[agent]));
    assert mine <= Parked(w.entries);
    ParkedWithout(w.entries, agent, v.entries);
    assert v.outcomes.Keys == w.outcomes.Keys + mine;
    assert v.outcomes.Keys + Parked(v.entries) == w.outcomes.Keys + Parked(w.entries);
  }

  /** Emptying one entry unparks its waiters and nobody else's. */
  lemma ParkedWithout(entries: map<AgentId, Entry>, agent: AgentId, left: map<AgentId, Entry>)
    requires agent in entries && forall b, x :: b in entries && b != agent && x in Waiters(entries[b])
                                                ==> x !in Waiters(entries[agent])
    requires forall b :: b != agent ==> (b in left <==> b in entries) && (b in left ==> left[b] == entries[b])
    requires agent in left ==> Waiters(left[agent]) == []
    ensures Parked(left) == Parked(entries) - SetOf(Waiters(entries[agent]))
  {
    forall x | x in Parked(entries) && x !in Waiters(entries[agent]) ensures x in Parked(left) {
      var a :| a in entries && x in Waiters(entries[a]);
      assert a in left && x in Waiters(left[a]);
    }
  }

  /** Changing one entry's waiters to `ws` parks exactly these in its place. */
  lemma ParkedWith(entries: map<AgentId, Entry>, agent: AgentId, e: Entry)
    requires agent in entries ==> SetOf(Waiters(entries[agent])) <= SetOf(Waiters(e))
    ensures Parked(entries[agent := e]) == Parked(entries) + SetOf(Waiters(e))
  {
    var after := entries[agent := e];
    forall x | x in Parked(entries) ensures x in Parked(after) {
      var a :| a in entries && x in Waiters(entries[a]);
      assert a in after && (a == agent ==> x in SetOf(Waiters(e)));
      assert x in Waiters(after[a]);
    }
    forall x | x in Waiters(e) ensures x in Parked(after) {
      assert agent in after && x in Waiters(after[agent]);
    }
  }

  lemma SeparateWith(entries: map<AgentId, Entry>, agent: AgentId, e: Entry, x: Waiter)
    requires Separate(entries) && x !in Parked(entries)
    requires Waiters(e) == (if agent in entries then Waiters(entries[agent]) else []) + [x]
    ensures Separate(entries[agent := e])
  {
    assert forall a, y :: a in entries && y in Waiters(entries[a]) ==> y in Parked(entries);
    assert DistinctSeq(Waiters(e));
  }

  lemma MergeAccounted(w: Wire, agent: AgentId, e: Entry, v: Wire)
    requires Accounted(w) && Waiters(e) == Waiters(EntryOf(w, agent)) + [w.nextWaiter]
    requires v.entries == w.entries[agent := e] && v.nextWaiter == w.nextWaiter + 1 && v.outcomes == w.outcomes
    ensures Accounted(v)
  {
    var x := w.nextWaiter;
    assert x !in Ids(x) && Ids(x + 1) == Ids(x) + {x};
    assert x !in w.outcomes && x !in Parked(w.entries);
    ParkedWith(w.entries, agent, e);
    SeparateWith(w.entries, agent, e, x);
    assert SetOf(Waiters(e)) == SetOf(Waiters(EntryOf(w, agent))) + {x};
    assert agent in w.entries ==> SetOf(Waiters(w.entries[agent])) <= Parked(w.entries);
    assert Parked(v.entries) == Parked(w.entries) + {x};
  }

  lemma AtOnceAccounted(w: Wire, v: Wire, o: Outcome)
    requires Accounted(w) && v.nextWaiter == w.nextWaiter + 1 && v.outcomes == Tell(w.outcomes, {w.nextWaiter}, o)
    requires Parked(v.entries) == Parked(w.entries)
    requires forall a :: a in v.entries ==> Waiters(v.entries[a]) == Waiters(EntryOf(w, a))
    ensures Accounted(v)
  {
    var x := w.nextWaiter;
    assert x !in Ids(x) && Ids(x + 1) == Ids(x) + {x};
    assert v.outcomes.Keys == w.outcomes.Keys + {x};
  }

  lemma RequestAccounted(w: Wire, agent: AgentId, sendOk: bool)
    requires Accounted(w)
    ensures Accounted(OnRequest(w, agent, sendOk))
  {
    var v, e, x, g := OnRequest(w, agent, sendOk), EntryOf(w, agent), w.nextWaiter, w.genCounter + 1;
    if e.inflight.Some? && e.pending.Some? {
      MergeAccounted(w, agent, e.(pending := Some(Merged(e.pending.value.gen, e.pending.value.waiters + [x]))), v);
    } else if e.inflight.Some? {
      MergeAccounted(w, agent, e.(pending := Some(Merged(g, [x]))), v);
    } else {
      var e' := if sendOk then e.(inflight := Some(Fly(g))) else e;
      ParkedWith(w.entries, agent, e');
      assert SetOf(Waiters(e)) <= Parked(w.entries);
      if !sendOk && e.pending.None? {
        ParkedWith(w.entries - {agent}, agent, e);
        assert (w.entries - {agent})[agent := e] == w.entries[agent := e];
      }
      AtOnceAccounted(w, v, if sendOk then Resolved(g) else Rejected);
    }
  }

  lemma StepAccounted(w: Wire, e: Event)
    requires Accounted(w)
    ensures Accounted(Next(w, e))
  {
    match e
    case Request(a, sendOk) => RequestAccounted(w, a, sendOk);
    case Ack(a, epoch, truncated, continues, from) =>
      var v := OnAck(w, a, epoch, truncated, continues, from);
      assert forall b :: b in v.entries ==> b in w.entries && Waiters(v.entries[b]) == Waiters(w.entries[b]);
      assert Parked(v.entries) == Parked(w.entries);
    case Refused(a, sendOk) =>
      var i := EntryOf(w, a).inflight;
      if i.Some? {
        SettleAccounted(w, a, Marker(0, i.value.gen, i.value.truncated, true, false, i.value.replayFrom), sendOk);
      }
    case Completed(a, epoch, sendOk) =>
      var i := EntryOf(w, a).inflight;
      if i.Some? {
        var d := i.value;
        var mark := if d.epoch.Some? then d.epoch.value else if epoch.Some? then epoch.value else 0;
        SettleAccounted(w, a, Marker(mark, d.gen, d.truncated, false, d.continuesConversation, d.replayFrom), sendOk);
      }
    case SocketClosed =>
  }

  /**
   Over every run: Subscribes sent minus boundaries emitted since the last reset is one exactly while a request is
   outstanding and zero otherwise, boundary generations strictly increase per agent, and every waiter is parked once
   or settled once.
   */
  lemma {:induction false} RunSingleFlight(es: seq<Event>)
    ensures SoleOutstanding(Run(es)) && Numbered(Run(es)) && Accounted(Run(es))
  {
    if es != [] {
      var front := es[..|es| - 1];
      RunSingleFlight(front);
      StepSole(Run(front), es[|es| - 1]);
      StepNumbered(Run(front), es[|es| - 1]);
      StepAccounted(Run(front), es[|es| - 1]);
    }
  }

  /** When a boundary closes a request, everyone merged behind it is resolved with the one generation sent next. */
  lemma MergedShareOneGeneration(w: Wire, agent: AgentId, m: Marker, sendOk: bool, x: Waiter)
    requires Accounted(w) && agent in w.entries && x in Waiters(w.entries[agent])
    ensures var v := Settle(w, agent, m, sendOk);
      var gen := w.entries[agent].pending.value.gen;
      && v.outcomes[x] == [Resolved(gen)]
      && (sendOk ==> v.entries[agent].inflight.Some? && v.entries[agent].inflight.value.gen == gen)
  {
    assert x in Parked(w.entries);
  }

  /** After a socket reset nobody is left waiting: each request made so far has exactly one outcome. */
  lemma ResetLeavesNoOneWaiting(es: seq<Event>, x: Waiter)
    requires es != [] && es[|es| - 1] == SocketClosed && x < Run(es).nextWaiter
    ensures x in Run(es).outcomes && |Run(es).outcomes[x]| == 1
  {
    RunSingleFlight(es);
    assert Parked(Run(es).entries) == {};
    assert x in Ids(Run(es).nextWaiter);
  }
}
