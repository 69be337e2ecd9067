/**
 The reaper's own code, crates/engram-dashboard-agent/src/reaper.rs, on tables it shares with the rest of the daemon.
 Each locked section is one method.  What other threads do to the tables is here too, so that a report can be served
 while they go on.
 */
module Reaping {
  import opened Wrappers
  import opened ReaperSpec

  /** A step that is not the reaper's. */
  ghost predicate Others(e: Event) {
    !e.Takes? && !e.Judges?
  }

  ghost predicate AllOthers(es: seq<Event>) {
    forall i :: 0 <= i < |es| ==> Others(es[i])
  }

  /** One turn of the reaper's loop: what others do while it waits, and between its two locked sections. */
  datatype Turn = Serves(before: seq<Event>, meanwhile: seq<Event>) | Stops

  ghost predicate Serial(turns: seq<Turn>) {
    forall i :: 0 <= i < |turns| && turns[i].Serves? ==> AllOthers(turns[i].before) && AllOthers(turns[i].meanwhile)
  }

  /** All that happens until the loop stops. */
  ghost function EventsOf(turns: seq<Turn>): seq<Event> {
    if turns == [] || turns[0].Stops? then []
    else turns[0].before + [Takes] + turns[0].meanwhile + [Judges] + EventsOf(turns[1..])
  }

  lemma EventsOfMore(past: seq<Event>, turns: seq<Turn>, i: nat)
    requires i < |turns| && turns[i].Serves?
    ensures past + EventsOf(turns[i..])
      == (past + turns[i].before + [Takes] + turns[i].meanwhile + [Judges]) + EventsOf(turns[i + 1..])
  {
    assert turns[i..][1..] == turns[i + 1..];
  }

  lemma RunSnoc(es: seq<Event>, e: Event)
    ensures Run(es + [e]) == Next(Run(es), e)
  {
    assert (es + [e])[..|es|] == es;
  }

  class ReaperDeps {
    var sessions: map<AgentId, Mark>
    var profiles: map<AgentId, Profile>
    var spawns: map<Mark, Spawn>
    /** The channel the reaper reads. */
    var inbox: seq<ReapMsg>
    /** Where the reaper's thread stands between its two locked sections. */
    var reaper: Reaper
    /** Control tokens revoked, and tables announced, in order. */
    var revoked: seq<(AgentId, Mark)>
    var announced: seq<map<AgentId, Mark>>
    ghost var judged: set<Mark>
    ghost var touched: set<AgentId>
    ghost var log: seq<Sign>
    /** Everything that has happened so far. */
    ghost var past: seq<Event>

    ghost function State(): World
      reads this
    {
      World(sessions, profiles, spawns, inbox, reaper, judged, touched, log)
    }

    ghost predicate Valid()
      reads this
    {
      State() == Run(past)
    }

    constructor ()
      ensures Valid() && past == [] && revoked == [] && announced == []
    {
      sessions, profiles, spawns, inbox, reaper := map[], map[], map[], [], Waiting;
      revoked, announced := [], [];
      judged, touched, log, past := {}, {}, [], [];
    }

    /** Note that `e` has happened. */
    ghost method Happened(e: Event)
      requires State() == Next(Run(past), e)
      modifies this`past
      ensures Valid() && past == old(past) + [e]
    {
      RunSnoc(past, e);
      past := past + [e];
    }

    // ── The reaper ───────────────────────────────────────────────────────────

    /** Receive a report; under the session lock take out the very incarnation that died. */
    method RemoveIfCurrent() returns (removed: bool)
      requires Valid() && reaper.Waiting? && inbox != []
      modifies this`inbox, this`sessions, this`reaper, this`log, this`past
      ensures Valid() && past == old(past) + [Takes]
      ensures removed <==> old(inbox)[0].id in old(sessions) && old(sessions)[old(inbox)[0].id] == old(inbox)[0].epoch
      ensures reaper == if removed then Took(old(inbox)[0]) else Waiting
    {
      var msg := inbox[0];
      inbox := inbox[1..];
      removed := msg.id in sessions && sessions[msg.id] == msg.epoch;
      if removed {
        sessions := sessions - {msg.id};
        reaper := Took(msg);
        log := log + [Removed(msg.id, msg.epoch)];
      }
      Happened(Takes);
    }

    /** Under the profile lock: lower a profile that still carries the dead incarnation's mark. */
    method ApplyDisposition(msg: ReapMsg, disposition: Disposition)
      requires disposition == Decide(msg)
      modifies this`profiles, this`judged, this`log
      ensures State() == Dispose(old(State()), msg).(reaper := reaper)
    {
      match disposition
      case KeepDisableAutoRestore =>
        judged := judged + {msg.epoch};
        if msg.id in profiles && profiles[msg.id].epoch == msg.epoch {
          log := log + [Lowered(msg.id, msg.epoch)];
          profiles := profiles[msg.id := profiles[msg.id].(autoRestore := false)];
        } else if msg.id in profiles {
          assert profiles[msg.id := profiles[msg.id]] == profiles;
        }
      case KeepAsIs =>
    }

    /** The second half of a report; a shutdown leaves the profile alone. */
    method Judge()
      requires Valid() && reaper.Took?
      modifies this`profiles, this`judged, this`log, this`reaper, this`past
      ensures Valid() && past == old(past) + [Judges] && reaper.Waiting?
    {
      var msg := reaper.msg;
      if !msg.shuttingDown {
        ApplyDisposition(msg, Decide(msg));
      }
      reaper := Waiting;
      Happened(Judges);
    }

    /** What follows a removal: the token is revoked, others go on, the profile is judged, the table is announced. */
    method Conclude(meanwhile: seq<Event>)
      requires Valid() && reaper.Took? && AllOthers(meanwhile)
      modifies this
      ensures Valid() && reaper.Waiting? && past == old(past) + meanwhile + [Judges]
      ensures revoked == old(revoked) + [(old(reaper).msg.id, old(reaper).msg.epoch)]
      ensures announced == old(announced) + [sessions]
    {
      revoked := revoked + [(reaper.msg.id, reaper.msg.epoch)];
      GoOn(meanwhile);
      Judge();
      announced := announced + [sessions];
    }

    /** A report that removed nothing ends at once; others go on. */
    method Ignore(meanwhile: seq<Event>)
      requires Valid() && reaper.Waiting? && AllOthers(meanwhile)
      modifies this`sessions, this`profiles, this`spawns, this`inbox, this`touched, this`log, this`past
      ensures Valid() && past == old(past) + meanwhile + [Judges]
    {
      GoOn(meanwhile);
      Happened(Judges);
    }

    /** One report from start to end, with others at work between the two locked sections. */
    method ReapOne(meanwhile: seq<Event>)
      requires Valid() && reaper.Waiting? && inbox != [] && AllOthers(meanwhile)
      modifies this
      ensures Valid() && reaper.Waiting? && past == old(past) + [Takes] + meanwhile + [Judges]
      ensures var msg := old(inbox)[0];
        if msg.id in old(sessions) && old(sessions)[msg.id] == msg.epoch
        then revoked == old(revoked) + [(msg.id, msg.epoch)] && announced == old(announced) + [sessions]
        else revoked == old(revoked) && announced == old(announced)
    {
      var removed := RemoveIfCurrent();
      if removed {
        Conclude(meanwhile);
      } else {
        Ignore(meanwhile);
      }
    }

    /** One turn of the loop; with an empty channel the reaper goes on waiting. */
    method TakeTurn(before: seq<Event>, meanwhile: seq<Event>)
      requires Valid() && reaper.Waiting? && AllOthers(before) && AllOthers(meanwhile)
      modifies this
      ensures Valid() && reaper.Waiting? && past == old(past) + before + [Takes] + meanwhile + [Judges]
    {
      GoOn(before);
      if inbox != [] {
        ReapOne(meanwhile);
      } else {
        Happened(Takes);
        Ignore(meanwhile);
      }
    }

    /** The loop of the reaper's thread. */
    method Serve(turns: seq<Turn>)
      requires Valid() && reaper.Waiting? && Serial(turns)
      modifies this
      ensures Valid() && past == old(past) + EventsOf(turns)
    {
      var i := 0;
      assert turns[i..] == turns;
      while i < |turns|
        invariant 0 <= i <= |turns| && Valid() && reaper.Waiting?
        invariant past + EventsOf(turns[i..]) == old(past) + EventsOf(turns)
        decreases |turns| - i
      {
        if turns[i].Stops? {
          return;
        }
        EventsOfMore(past, turns, i);
        TakeTurn(turns[i].before, turns[i].meanwhile);
        i := i + 1;
      }
    }

    // ── The other threads ────────────────────────────────────────────────────

    method GoOn(es: seq<Event>)
      requires Valid() && AllOthers(es)
      modifies this`sessions, this`profiles, this`spawns, this`inbox, this`touched, this`log, this`past
      ensures Valid() && past == old(past) + es
    {
      for i := 0 to |es|
        invariant Valid() && past == old(past) + es[..i]
      {
        assert es[..i + 1] == es[..i] + [es[i]];
        Elsewhere(es[i]);
      }
      assert es[..|es|] == es;
    }

    method Elsewhere(e: Event)
      requires Valid() && Others(e)
      modifies this`sessions, this`profiles, this`spawns, this`inbox, this`touched, this`log, this`past
      ensures Valid() && past == old(past) + [e]
    {
      match e {
        case AddProfile(id, ar) => AddProfile(id, ar);
        case DropProfile(id) => profiles := profiles - {id};
        case UserSets(id, ar) => UserSets(id, ar);
        case Stamp(id, mark) => StampProfile(id, mark);
        case Insert(mark) => InsertSession(mark);
        case Raise(mark) => RaiseProfile(mark);
        case StartPump(mark) =>
          if mark in spawns && spawns[mark].stage == Raised {
            Advance(mark, Running);
          }
        case SpawnFails(mark) =>
          if mark in spawns && spawns[mark].stage == Stamped {
            Advance(mark, Failed);
          }
        case Finish(mark, down) => Report(mark, down);
      }
      Happened(e);
    }

    method Advance(mark: Mark, to: Stage)
      requires mark in spawns
      modifies this`spawns
      ensures spawns == old(spawns)[mark := old(spawns)[mark].(stage := to)]
    {
      spawns := spawns[mark := spawns[mark].(stage := to)];
    }

    method AddProfile(id: AgentId, ar: bool)
      modifies this`profiles, this`touched, this`log
      ensures State() == Next(old(State()), Event.AddProfile(id, ar))
    {
      if id !in profiles {
        profiles := profiles[id := Profile(0, ar)];
        touched := touched + {id};
        log := log + [Marked(id, 0)];
      }
    }

    method UserSets(id: AgentId, ar: bool)
      modifies this`profiles, this`touched
      ensures State() == Next(old(State()), Event.UserSets(id, ar))
    {
      if id in profiles {
        profiles := profiles[id := profiles[id].(autoRestore := ar)];
        touched := touched + {id};
      }
    }

    /** The start of a spawn: reserve the agent and stamp its profile with a mark nobody has had. */
    method StampProfile(id: AgentId, mark: Mark)
      modifies this`profiles, this`spawns, this`log
      ensures State() == OnStamp(old(State()), id, mark)
    {
      var reserved := exists m :: m in spawns && spawns[m].id == id && Underway(spawns[m]);
      if id in profiles && mark != 0 && mark !in spawns && !reserved {
        profiles := profiles[id := profiles[id].(epoch := mark)];
        spawns := spawns[mark := Spawn(id, Stamped)];
        log := log + [Marked(id, mark)];
      }
    }

    method InsertSession(mark: Mark)
      modifies this`sessions, this`spawns, this`log
      ensures State() == OnInsert(old(State()), mark)
    {
      if mark in spawns && spawns[mark].stage == Stamped {
        var id := spawns[mark].id;
        Advance(mark, Inserted);
        sessions := sessions[id := mark];
        log := log + [Entered(id, mark)];
      }
    }

    method RaiseProfile(mark: Mark)
      modifies this`profiles, this`spawns, this`touched
      ensures State() == OnRaise(old(State()), mark)
    {
      if mark in spawns && spawns[mark].stage == Inserted {
        var id := spawns[mark].id;
        Advance(mark, Raised);
        if id in profiles {
          profiles := profiles[id := profiles[id].(autoRestore := true)];
          touched := touched - {id};
        }
      }
    }

    /** A session that has finished reports, perhaps more than once. */
    method Report(mark: Mark, down: bool)
      modifies this`spawns, this`inbox, this`log
      ensures State() == OnFinish(old(State()), mark, down)
    {
      if mark in spawns && (spawns[mark].stage == Running || spawns[mark].stage == Finished) {
        var id := spawns[mark].id;
        Advance(mark, Finished);
        inbox := inbox + [ReapMsg(id, mark, down)];
        log := log + [Died(id, mark)];
      }
    }
  }
}
