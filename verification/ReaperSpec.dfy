/**
 The reaper of crates/engram-dashboard-agent/src/reaper.rs among the spawns it races with.

 A spawn draws a mark that no incarnation has had, stamps the profile, enters the session table, raises
 `auto_restore` and only then lets its session run (crates/engram-dashboard-agent/src/manager.rs); a dead session
 reports to the reaper, which works in two separate steps, taking the session out of the table and lowering the
 profile.  Anything may happen between two steps.
 */
module ReaperSpec {
  import opened Wrappers

  type AgentId = nat
  /** An incarnation mark.  0 is the mark of a profile that was never spawned. */
  type Mark = nat

  datatype Profile = Profile(epoch: Mark, autoRestore: bool)
  datatype ReapMsg = ReapMsg(id: AgentId, epoch: Mark, shuttingDown: bool)
  datatype Disposition = KeepAsIs | KeepDisableAutoRestore

  datatype Stage = Stamped | Inserted | Raised | Running | Finished | Failed
  datatype Spawn = Spawn(id: AgentId, stage: Stage)

  /** The reaper waits for a message, or has taken its session out and has not judged the profile yet. */
  datatype Reaper = Waiting | Took(msg: ReapMsg)

  datatype Sign =
    | Marked(id: AgentId, mark: Mark)
    | Entered(id: AgentId, mark: Mark)
    | Died(id: AgentId, mark: Mark)
    | Removed(id: AgentId, mark: Mark)
    | Lowered(id: AgentId, mark: Mark)

  /**
   `judged` holds the marks whose death lowered, or would have lowered, a profile; `touched` the agents whose
   `auto_restore` a user set since the last spawn raised it.
   */
  datatype World = World(
    sessions: map<AgentId, Mark>,
    profiles: map<AgentId, Profile>,
    spawns: map<Mark, Spawn>,
    inbox: seq<ReapMsg>,
    reaper: Reaper,
    judged: set<Mark>,
    touched: set<AgentId>,
    log: seq<Sign>)

  const START := World(map[], map[], map[], [], Waiting, {}, {}, [])

  // ── The reaper ─────────────────────────────────────────────────────────────

  function Decide(msg: ReapMsg): Disposition {
    if msg.shuttingDown then KeepAsIs else KeepDisableAutoRestore
  }

  /** Under the session lock: only the very incarnation that died is taken out. */
  ghost function Remove(w: World, msg: ReapMsg): World {
    if msg.id in w.sessions && w.sessions[msg.id] == msg.epoch then
      w.(sessions := w.sessions - {msg.id}, reaper := Took(msg), log := w.log + [Removed(msg.id, msg.epoch)])
    else w
  }

  function Lower(p: Profile, mark: Mark): Profile {
    if p.epoch == mark then p.(autoRestore := false) else p
  }

  /** Under the profile lock: only a profile that still carries the dead incarnation's mark is lowered. */
  ghost function Dispose(w: World, msg: ReapMsg): World {
    var v := w.(reaper := Waiting);
    if Decide(msg) == KeepAsIs then v
    else if msg.id in w.profiles then
      v.(profiles := w.profiles[msg.id := Lower(w.profiles[msg.id], msg.epoch)],
         judged := w.judged + {msg.epoch},
         log := if w.profiles[msg.id].epoch == msg.epoch then w.log + [Lowered(msg.id, msg.epoch)] else w.log)
    else v.(judged := w.judged + {msg.epoch})
  }

  // ── The spawns and the user ────────────────────────────────────────────────

  predicate Underway(s: Spawn) {
    s.stage.Stamped? || s.stage.Inserted? || s.stage.Raised?
  }

  /** The reservation that keeps a second spawn of the same agent out. */
  ghost predicate Reserved(w: World, id: AgentId) {
    exists m :: m in w.spawns && w.spawns[m].id == id && Underway(w.spawns[m])
  }

  ghost function Advance(w: World, m: Mark, to: Stage): World
    requires m in w.spawns
  {
    w.(spawns := w.spawns[m := w.spawns[m].(stage := to)])
  }

  datatype Event =
    | AddProfile(id: AgentId, autoRestore: bool)
    | DropProfile(id: AgentId)
    | UserSets(id: AgentId, autoRestore: bool)
    | Stamp(id: AgentId, mark: Mark)
    | Insert(mark: Mark)
    | Raise(mark: Mark)
    | StartPump(mark: Mark)
    | SpawnFails(mark: Mark)
    | Finish(mark: Mark, shuttingDown: bool)
    | Takes
    | Judges

  ghost function OnStamp(w: World, id: AgentId, m: Mark): World {
    if id in w.profiles && m != 0 && m !in w.spawns && !Reserved(w, id) then
      w.(profiles := w.profiles[id := w.profiles[id].(epoch := m)], spawns := w.spawns[m := Spawn(id, Stamped)],
         log := w.log + [Marked(id, m)])
    else w
  }

  ghost function OnInsert(w: World, m: Mark): World {
    if m in w.spawns && w.spawns[m].stage.Stamped? then
      var id := w.spawns[m].id;
      Advance(w, m, Inserted).(sessions := w.sessions[id := m], log := w.log + [Entered(id, m)])
    else w
  }

  ghost function OnRaise(w: World, m: Mark): World {
    if m in w.spawns && w.spawns[m].stage.Inserted? then
      var id, v := w.spawns[m].id, Advance(w, m, Raised);
      if id in w.profiles then
        v.(profiles := w.profiles[id := w.profiles[id].(autoRestore := true)], touched := w.touched - {id})
      else v
    else w
  }

  /** A finished session reports; the report may be repeated. */
  ghost function OnFinish(w: World, m: Mark, shuttingDown: bool): World {
    if m in w.spawns && (w.spawns[m].stage.Running? || w.spawns[m].stage.Finished?) then
      var id := w.spawns[m].id;
      Advance(w, m, Finished).(inbox := w.inbox + [ReapMsg(id, m, shuttingDown)], log := w.log + [Died(id, m)])
    else w
  }

  ghost function Next(w: World, e: Event): World {
    match e
    case AddProfile(id, ar) =>
      if id in w.profiles then w
      else w.(profiles := w.profiles[id := Profile(0, ar)], touched := w.touched + {id}, log := w.log + [Marked(id, 0)])
    case DropProfile(id) => w.(profiles := w.profiles - {id})
    case UserSets(id, ar) =>
      if id in w.profiles then
        w.(profiles := w.profiles[id := w.profiles[id].(autoRestore := ar)], touched := w.touched + {id})
      else w
    case Stamp(id, m) => OnStamp(w, id, m)
    case Insert(m) => OnInsert(w, m)
    case Raise(m) => OnRaise(w, m)
    case StartPump(m) => if m in w.spawns && w.spawns[m].stage.Raised? then Advance(w, m, Running) else w
    case SpawnFails(m) => if m in w.spawns && w.spawns[m].stage.Stamped? then Advance(w, m, Failed) else w
    case Finish(m, down) => OnFinish(w, m, down)
    case Takes =>
      if w.reaper.Waiting? && w.inbox != [] then Remove(w.(inbox := w.inbox[1..]), w.inbox[0]) else w
    case Judges => if w.reaper.Took? then Dispose(w, w.reaper.msg) else w
  }

  ghost function Run(es: seq<Event>): World {
    if es == [] then START else Next(Run(es[..|es| - 1]), es[|es| - 1])
  }
}
