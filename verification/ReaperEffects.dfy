/**
 What each step of a spawn, of a death and of the reaper does after any run, and the two histories behind
 `auto_restore`, whose deaths were judged and who was set by a user, read off the events.
 */
module ReaperEffects {
  import opened Wrappers
  import opened ReaperSpec
  import opened ReaperInvariants

  // ── Spawns ─────────────────────────────────────────────────────────────────

  /**
   A spawn of an agent that has a profile and no spawn under way, with a mark nobody has had, goes through: its session
   is in the table, whatever session was there before, and its profile carries its mark and is to be restored.
   */
  lemma SpawnRuns(es: seq<Event>, id: AgentId, m: Mark)
    requires var w := Run(es); id in w.profiles && m != 0 && m !in w.spawns && !Reserved(w, id)
    ensures var w, v := Run(es), Run(es + [Stamp(id, m)] + [Insert(m)] + [Raise(m)] + [StartPump(m)]);
      && v.sessions == w.sessions[id := m] && v.profiles == w.profiles[id := Profile(m, true)]
      && v.spawns == w.spawns[m := Spawn(id, Running)] && v.inbox == w.inbox && v.reaper == w.reaper
      && v.log == w.log + [Marked(id, m), Entered(id, m)]
  {
    var e1 := es + [Stamp(id, m)];
    var e2 := e1 + [Insert(m)];
    var e3 := e2 + [Raise(m)];
    RunSnoc(es, Stamp(id, m));
    RunSnoc(e1, Insert(m));
    RunSnoc(e2, Raise(m));
    RunSnoc(e3, StartPump(m));
    SpawnSteps(Run(es), id, m);
  }

  lemma SpawnSteps(w: World, id: AgentId, m: Mark)
    requires id in w.profiles && m != 0 && m !in w.spawns && !Reserved(w, id)
    ensures var v := Next(Next(Next(Next(w, Stamp(id, m)), Insert(m)), Raise(m)), StartPump(m));
      && v.sessions == w.sessions[id := m] && v.profiles == w.profiles[id := Profile(m, true)]
      && v.spawns == w.spawns[m := Spawn(id, Running)] && v.inbox == w.inbox && v.reaper == w.reaper
      && v.log == w.log + [Marked(id, m), Entered(id, m)]
  {
    var a := Next(w, Stamp(id, m));
    var b := Next(a, Insert(m));
    var c := Next(b, Raise(m));
    assert b.log == w.log + [Marked(id, m), Entered(id, m)];
    assert c.profiles == w.profiles[id := Profile(m, true)];
  }

  /** A spawn without a profile, with a mark that was used, or beside one under way, does nothing. */
  lemma SpawnRefused(es: seq<Event>, id: AgentId, m: Mark)
    requires var w := Run(es); id !in w.profiles || m == 0 || m in w.spawns || Reserved(w, id)
    ensures Run(es + [Stamp(id, m)]) == Run(es)
  {
    RunSnoc(es, Stamp(id, m));
  }

  /** A spawn that fails before its session is in the table leaves the table alone and frees its agent. */
  lemma FailedSpawnFrees(es: seq<Event>, id: AgentId, m: Mark)
    requires var w := Run(es); id in w.profiles && m != 0 && m !in w.spawns && !Reserved(w, id)
    ensures var w, v := Run(es), Run(es + [Stamp(id, m)] + [SpawnFails(m)]);
      v.sessions == w.sessions && !Reserved(v, id) && v.spawns == w.spawns[m := Spawn(id, Failed)]
  {
    RunSnoc(es, Stamp(id, m));
    RunSnoc(es + [Stamp(id, m)], SpawnFails(m));
  }

  /** The stage a step of a spawn has to find. */
  ghost predicate InTurn(w: World, e: Event) {
    match e
    case Insert(m) => m in w.spawns && w.spawns[m].stage.Stamped?
    case Raise(m) => m in w.spawns && w.spawns[m].stage.Inserted?
    case StartPump(m) => m in w.spawns && w.spawns[m].stage.Raised?
    case SpawnFails(m) => m in w.spawns && w.spawns[m].stage.Stamped?
    case Finish(m, _) => m in w.spawns && (w.spawns[m].stage.Running? || w.spawns[m].stage.Finished?)
    case _ => true
  }

  /** A spawn's steps come in their order or not at all. */
  lemma OutOfTurnDoesNothing(es: seq<Event>, e: Event)
    requires !InTurn(Run(es), e)
    ensures Run(es + [e]) == Run(es)
  {
    RunSnoc(es, e);
  }

  // ── Deaths ─────────────────────────────────────────────────────────────────

  /** A death is reported to the reaper, behind the reports before it, and touches neither table. */
  lemma DeathIsReported(es: seq<Event>, m: Mark, down: bool)
    requires InTurn(Run(es), Finish(m, down))
    ensures var w, v := Run(es), Run(es + [Finish(m, down)]);
      && v.inbox == w.inbox + [ReapMsg(w.spawns[m].id, m, down)] && v.log == w.log + [Died(w.spawns[m].id, m)]
      && v.sessions == w.sessions && v.profiles == w.profiles && v.reaper == w.reaper
  {
    RunSnoc(es, Finish(m, down));
  }

  /**
   The reaper takes the first report.  If the table has that very incarnation it goes, and the reaper has it in hand;
   a report of any other incarnation is dropped and changes nothing.
   */
  lemma TakesTheFirst(es: seq<Event>)
    ensures var w, v := Run(es), Run(es + [Takes]);
      if w.reaper.Took? || w.inbox == [] then v == w
      else
        var msg := w.inbox[0];
        if msg.id in w.sessions && w.sessions[msg.id] == msg.epoch then
          && v.sessions == w.sessions - {msg.id} && v.reaper == Took(msg) && v.inbox == w.inbox[1..]
          && v.log == w.log + [Removed(msg.id, msg.epoch)] && v.profiles == w.profiles
        else v == w.(inbox := w.inbox[1..])
  {
    RunSnoc(es, Takes);
  }

  /**
   What the reaper's second section makes of the profiles: on a shutdown nothing; otherwise the profile of the dead
   incarnation is lowered, and every other one is left as it is.
   */
  lemma JudgingTakesEffect(es: seq<Event>, id: AgentId)
    ensures var w, v := Run(es), Run(es + [Judges]);
      if w.reaper.Waiting? then v == w
      else
        var msg := w.reaper.msg;
        && v.reaper.Waiting? && v.sessions == w.sessions && v.inbox == w.inbox
        && (id in v.profiles <==> id in w.profiles)
        && (id in w.profiles ==>
              v.profiles[id] == if !msg.shuttingDown && id == msg.id && w.profiles[id].epoch == msg.epoch
                                then Profile(msg.epoch, false) else w.profiles[id])
  {
    RunSnoc(es, Judges);
  }

  /** A shutdown lowers nobody: after any run the reaper's second section leaves all profiles as they are. */
  lemma ShutdownKeepsProfiles(es: seq<Event>)
    requires Run(es).reaper.Took? && Run(es).reaper.msg.shuttingDown
    ensures Run(es + [Judges]).profiles == Run(es).profiles && Run(es + [Judges]).judged == Run(es).judged
    ensures Run(es + [Judges]).log == Run(es).log
  {
    RunSnoc(es, Judges);
  }

  /** A death on shutdown is served like any other, and its agent is restored at the next boot as before. */
  lemma ShutdownIsRestored(es: seq<Event>, m: Mark)
    requires var w := Run(es);
      && w.reaper.Waiting? && w.inbox == [] && m in w.spawns && w.spawns[m].stage.Running?
      && w.spawns[m].id in w.sessions && w.sessions[w.spawns[m].id] == m
    ensures var w, v := Run(es), Run(es + [Finish(m, true)] + [Takes] + [Judges]);
      v.sessions == w.sessions - {w.spawns[m].id} && v.profiles == w.profiles
  {
    var dead := es + [Finish(m, true)];
    RunSound(es);
    RunSnoc(es, Finish(m, true));
    TakesFirst(Run(es), m, true);
    TakesTheFirst(dead);
    ShutdownKeepsProfiles(dead + [Takes]);
    JudgingTakesEffect(dead + [Takes], Run(es).spawns[m].id);
  }

  // ── Histories ──────────────────────────────────────────────────────────────

  /** The incarnations whose death, not on a shutdown, the reaper's second section has dealt with. */
  ghost function JudgedOf(es: seq<Event>): set<Mark> {
    if es == [] then {}
    else
      var front := es[..|es| - 1];
      var reaper := Run(front).reaper;
      if es[|es| - 1].Judges? && reaper.Took? && !reaper.msg.shuttingDown then JudgedOf(front) + {reaper.msg.epoch}
      else JudgedOf(front)
  }

  /** The agents whose `auto_restore` was given by a user since a spawn last raised it. */
  ghost function TouchedOf(es: seq<Event>): set<AgentId> {
    if es == [] then {}
    else
      var front := es[..|es| - 1];
      var w := Run(front);
      match es[|es| - 1]
      case AddProfile(id, _) => if id in w.profiles then TouchedOf(front) else TouchedOf(front) + {id}
      case UserSets(id, _) => if id in w.profiles then TouchedOf(front) + {id} else TouchedOf(front)
      case Raise(m) =>
        if InTurn(w, Raise(m)) && w.spawns[m].id in w.profiles then TouchedOf(front) - {w.spawns[m].id}
        else TouchedOf(front)
      case _ => TouchedOf(front)
  }

  lemma {:induction false} RunHistories(es: seq<Event>)
    ensures Run(es).judged == JudgedOf(es) && Run(es).touched == TouchedOf(es)
  {
    if es != [] {
      RunHistories(es[..|es| - 1]);
      StepHistories(Run(es[..|es| - 1]), es[|es| - 1]);
    }
  }

  lemma StepHistories(w: World, e: Event)
    ensures Next(w, e).judged ==
      if e.Judges? && w.reaper.Took? && !w.reaper.msg.shuttingDown then w.judged + {w.reaper.msg.epoch} else w.judged
    ensures Next(w, e).touched == match e
      case AddProfile(id, _) => if id in w.profiles then w.touched else w.touched + {id}
      case UserSets(id, _) => if id in w.profiles then w.touched + {id} else w.touched
      case Raise(m) =>
        if InTurn(w, Raise(m)) && w.spawns[m].id in w.profiles then w.touched - {w.spawns[m].id} else w.touched
      case _ => w.touched
  {
  }

  /**
   Over every run: unless a user has set it since, `auto_restore` of an agent whose last spawn got as far as raising it
   is up exactly as long as no death of that spawn, other than on a shutdown, has been dealt with.
   */
  lemma RestoredUntilJudged(es: seq<Event>, id: AgentId)
    requires var w := Run(es);
      id in w.profiles && w.profiles[id].epoch in w.spawns && Active(w.spawns[w.profiles[id].epoch].stage)
    requires id !in TouchedOf(es)
    ensures Run(es).profiles[id].autoRestore <==> Run(es).profiles[id].epoch !in JudgedOf(es)
  {
    RunHistories(es);
    RestoredUnlessDied(es, id);
  }
}
