/**
 The client that owns the views: it fans frames, markers, roster observations and disconnects out to them, and it
 guards every late answer by the token of the subscription it was meant for (src/api/protocolClient.ts).

 The client remembers, as a ghost, which events each view has met.  Its invariant says that every view is in the
 state the replay machine reaches by these events, so what is proved of every run of the machine holds of every
 view of every client, and the contracts below only have to say who meets which event.
 */
module ProtocolClients {
  import opened Wrappers
  import opened Frames
  import opened ReplaySpec
  import opened ReplayInvariants
  import opened Subscription

  type ViewId = string
  type AgentId = string

  /** The subscription is where the replay machine is after the events `es`. */
  ghost predicate Follows(st: SubState, es: seq<Event>)
    reads st
  {
    st.Valid() && st.State() == Run(FRESH, es)
  }

  /** No two views share a subscription or a token. */
  ghost predicate Distinct(subs: map<ViewId, SubState>, subSeq: nat) {
    && (forall k :: k in subs ==> subs[k].token <= subSeq)
    && (forall j, k :: j in subs && k in subs && j != k ==> subs[j] != subs[k] && subs[j].token != subs[k].token)
  }

  /** Every view meets the event chosen for it, if any. */
  ghost function Met(past: map<ViewId, seq<Event>>, chosen: map<ViewId, Event>): map<ViewId, seq<Event>> {
    map k | k in past :: if k in chosen then past[k] + [chosen[k]] else past[k]
  }

  /** One more of the chosen events is met. */
  lemma MetOneMore(past: map<ViewId, seq<Event>>, chosen: map<ViewId, Event>, todo: set<ViewId>, k: ViewId)
    requires k in todo && k in past && k in chosen
    ensures var met := Met(past, chosen - todo);
      met[k := met[k] + [chosen[k]]] == Met(past, chosen - (todo - {k}))
  {
  }

  /** Only views that exist can meet anything. */
  lemma MetWithin(past: map<ViewId, seq<Event>>, chosen: map<ViewId, Event>)
    ensures Met(past, chosen - past.Keys * chosen.Keys) == past && Met(past, chosen - {}) == Met(past, chosen)
  {
  }

  lemma RemoveThenPut<K, V>(m: map<K, V>, k: K, v: V)
    ensures (m - {k})[k := v] == m[k := v]
  {
  }

  datatype ViewOutputState = ViewOutputState(agentId: AgentId, phase: Phase, buffered: nat, held: nat, attempts: nat)

  /** Let one view meet one event. */
  method Meet(st: SubState, e: Event, ghost es: seq<Event>)
    requires Follows(st, es)
    modifies st
    ensures Follows(st, es + [e])
  {
    RunSnoc(FRESH, es, e);
    match e
    case FrameIn(f) => st.HandleOutput(f);
    case MarkerIn(m) => st.EvalMarker(m);
    case AnswerIn(req, gen) => st.OnGeneration(req, gen);
    case BackoffFires => st.OnBackoff();
    case WatchdogFires => st.OnWatchdog();
    case Present(tag) => st.OnPresent(tag);
    case Absent => st.DetachView();
    case Disconnected => st.DetachView();
    case Mounted(canAttach) => st.OnMounted(canAttach);
  }

  class ProtocolClient {
    var subs: map<ViewId, SubState>
    var subSeq: nat
    /** The last roster observed, agent to mark; `None` is "not known", not "empty". */
    var roster: Option<map<AgentId, Option<Epoch>>>
    /** The events each view has met since it was subscribed. */
    ghost var past: map<ViewId, seq<Event>>

    ghost predicate Valid()
      reads this`subs, this`subSeq, this`past, subs.Values
    {
      && Distinct(subs, subSeq)
      && past.Keys == subs.Keys
      && forall k :: k in subs ==> Follows(subs[k], past[k])
    }

    constructor ()
      ensures Valid() && subs == map[] && roster == None
    {
      subs, subSeq, roster, past := map[], 0, None, map[];
    }

    /** What one view meets never touches another. */
    method MeetOne(k: ViewId, e: Event)
      requires Valid() && k in subs
      modifies this`past, subs[k]
      ensures Valid() && past == old(past)[k := old(past)[k] + [e]]
    {
      Meet(subs[k], e, past[k]);
      past := past[k := past[k] + [e]];
      assert forall j :: j in subs && j != k ==> Follows(subs[j], past[j]);
    }

    method MeetAll(chosen: map<ViewId, Event>)
      requires Valid()
      modifies this`past, subs.Values
      ensures Valid() && past == Met(old(past), chosen)
    {
      var todo := subs.Keys * chosen.Keys;
      MetWithin(past, chosen);
      while todo != {}
        invariant Valid() && todo <= subs.Keys * chosen.Keys && old(past).Keys == subs.Keys
        invariant past == Met(old(past), chosen - todo)
        decreases todo
      {
        var k :| k in todo;
        MetOneMore(old(past), chosen, todo, k);
        MeetOne(k, chosen[k]);
        todo := todo - {k};
      }
    }

    /** A frame reaches every view of its agent and no other. */
    method HandleOutput(agentId: AgentId, f: Frame)
      requires Valid()
      modifies this`past, subs.Values
      ensures Valid() && past == Met(old(past), map k | k in subs && subs[k].agentId == agentId :: FrameIn(f))
    {
      MeetAll(map k | k in subs && subs[k].agentId == agentId :: FrameIn(f));
    }

    /** A boundary marker reaches every view of its agent and no other. */
    method HandleReplayBoundary(agentId: AgentId, m: Marker)
      requires Valid()
      modifies this`past, subs.Values
      ensures Valid() && past == Met(old(past), map k | k in subs && subs[k].agentId == agentId :: MarkerIn(m))
    {
      MeetAll(map k | k in subs && subs[k].agentId == agentId :: MarkerIn(m));
    }

    /** Every view learns whether its agent is listed, and under which mark. */
    method ObserveRoster(agents: map<AgentId, Option<Epoch>>)
      requires Valid()
      modifies this`roster, this`past, subs.Values
      ensures Valid() && roster == Some(agents)
      ensures past == Met(old(past), map k | k in subs ::
                            if subs[k].agentId in agents then Present(agents[subs[k].agentId]) else Absent)
    {
      roster := Some(agents);
      MeetAll(map k | k in subs ::
                if subs[k].agentId in agents then Present(agents[subs[k].agentId]) else Absent);
    }

    /** The connection is lost: every view sits down where it is and the roster is forgotten. */
    method DetachAllViews()
      requires Valid()
      modifies this`roster, this`past, subs.Values
      ensures Valid() && roster == None && past == Met(old(past), map k | k in subs :: Disconnected)
    {
      roster := None;
      MeetAll(map k | k in subs :: Disconnected);
    }

    /** The synchronous half of `subscribeOutput`: the new subscription replaces whatever the view had. */
    method Subscribe(viewId: ViewId, agentId: AgentId) returns (st: SubState)
      requires Valid()
      modifies this`subs, this`subSeq, this`past, subs.Values
      ensures Valid() && st.agentId == agentId && st.token > old(subSeq)
      ensures subs == old(subs)[viewId := st] && past == old(past)[viewId := []]
    {
      Drop(viewId);
      st := Register(viewId, agentId);
      RemoveThenPut(old(subs), viewId, st);
      RemoveThenPut(old(past), viewId, []);
    }

    /** Stop a view's timers and forget it, if it is there. */
    method Drop(viewId: ViewId)
      requires Valid()
      modifies this`subs, this`past, subs.Values
      ensures Valid() && subs == old(subs) - {viewId} && past == old(past) - {viewId}
    {
      if viewId in subs {
        var st := subs[viewId];
        Forget(viewId);
        st.ClearTimers();
      } else {
        assert subs - {viewId} == subs && past - {viewId} == past;
      }
    }

    /** Take a view off the table. */
    method Forget(viewId: ViewId)
      requires Valid() && viewId in subs
      modifies this`subs, this`past
      ensures Valid() && subs == old(subs) - {viewId} && past == old(past) - {viewId}
      ensures old(subs)[viewId] !in subs.Values
    {
      assert forall k :: k in subs ==> Follows(subs[k], past[k]);
      subs, past := subs - {viewId}, past - {viewId};
    }

    method Register(viewId: ViewId, agentId: AgentId) returns (st: SubState)
      requires Valid() && viewId !in subs
      modifies this`subs, this`subSeq, this`past
      ensures Valid() && st.agentId == agentId && st.token == subSeq == old(subSeq) + 1
      ensures subs == old(subs)[viewId := st] && past == old(past)[viewId := []]
    {
      subSeq := subSeq + 1;
      st := new SubState(agentId, subSeq);
      assert Follows(st, []);
      assert forall k :: k in subs ==> Follows(subs[k], past[k]);
      subs := subs[viewId := st];
      past := past[viewId := []];
    }

    /** A stale unsubscribe never removes a newer subscription of the same view. */
    method Unsubscribe(viewId: ViewId, token: nat)
      requires Valid()
      modifies this`subs, this`past, subs.Values
      ensures Valid()
      ensures var gone := if viewId in old(subs) && old(subs)[viewId].token == token then {viewId} else {};
        subs == old(subs) - gone && past == old(past) - gone
    {
      if viewId in subs && subs[viewId].token == token {
        Drop(viewId);
      }
    }

    /** The transport is ready: only a surviving subscription asks for a replay, and only if the roster allows it. */
    method Mount(viewId: ViewId, token: nat)
      requires Valid()
      modifies this`past, subs.Values
      ensures Valid()
      ensures past == Met(old(past), map k | k in subs && k == viewId && subs[k].token == token ::
                            Mounted(roster == None || subs[k].agentId in roster.value))
    {
      MeetAll(map k | k in subs && k == viewId && subs[k].token == token ::
                Mounted(roster == None || subs[k].agentId in roster.value));
    }

    /** A replay request is answered: a subscription that has been replaced since never sees the answer. */
    method Answer(viewId: ViewId, token: nat, req: nat, gen: nat)
      requires Valid()
      modifies this`past, subs.Values
      ensures Valid()
      ensures past == Met(old(past), map k | k in subs && k == viewId && subs[k].token == token :: AnswerIn(req, gen))
    {
      MeetAll(map k | k in subs && k == viewId && subs[k].token == token :: AnswerIn(req, gen));
    }

    /** What an observer of a view is told: nothing of an unknown view, and never more than the limits allow. */
    method GetViewOutputState(viewId: ViewId) returns (r: Option<ViewOutputState>)
      requires Valid()
      ensures r.Some? <==> viewId in subs
      ensures r.Some? ==>
        var st := subs[viewId];
        && r.value == ViewOutputState(st.agentId, st.phase, |st.buffer|, |st.heldFrames|, st.attempts)
        && r.value.buffered <= VIEW_BUFFER_MAX_FRAMES && r.value.held <= VIEW_BUFFER_MAX_FRAMES
    {
      if viewId !in subs {
        return None;
      }
      RunBounded(past[viewId]);
      var st := subs[viewId];
      return Some(ViewOutputState(st.agentId, st.phase, |st.buffer|, |st.heldFrames|, st.attempts));
    }
  }
}
