/** What a reader of the log demands, and the proof that every run satisfies it. */
module ReaperInvariants {
  import opened Wrappers
  import opened ReaperSpec

  /** The session table and the marks, as the log shows them; `dead` reported, `gone` were taken out. */
  datatype Reading = Bad | Reading(table: map<AgentId, Mark>, marks: map<AgentId, Mark>, entered: set<Mark>,
                                   dead: set<Mark>, gone: set<Mark>)

  ghost function ReadOne(r: Reading, s: Sign): Reading {
    if r.Bad? then Bad
    else
      match s
      case Marked(id, m) => r.(marks := r.marks[id := m])
      case Entered(id, m) => if m in r.entered then Bad else r.(table := r.table[id := m], entered := r.entered + {m})
      case Died(id, m) => r.(dead := r.dead + {m})
      case Removed(id, m) =>
        if id !in r.table || r.table[id] != m || m !in r.dead || m in r.gone then Bad
        else r.(table := r.table - {id}, gone := r.gone + {m})
      case Lowered(id, m) =>
        if id !in r.marks || r.marks[id] != m || m !in r.gone then Bad else r
  }

  ghost function Read(log: seq<Sign>): Reading {
    if log == [] then Reading(map[], map[], {}, {}, {})
    else ReadOne(Read(log[..|log| - 1]), log[|log| - 1])
  }

  lemma ReadSnoc(log: seq<Sign>, s: Sign)
    ensures Read(log + [s]) == ReadOne(Read(log), s)
  {
    assert (log + [s])[..|log|] == log;
  }

  // ── Invariants ─────────────────────────────────────────────────────────────

  ghost predicate Reported(w: World, msg: ReapMsg) {
    msg.epoch in w.spawns && w.spawns[msg.epoch] == Spawn(msg.id, Finished)
  }

  ghost predicate Over(spawns: map<Mark, Spawn>, m: Mark) {
    m in spawns && spawns[m].stage.Finished?
  }

  ghost predicate Begun(spawns: map<Mark, Spawn>, m: Mark) {
    m in spawns && !spawns[m].stage.Stamped?
  }

  ghost predicate Shown(marks: map<AgentId, Mark>, id: AgentId, m: Mark) {
    id in marks && marks[id] == m
  }

  /** The session of `id` is of an incarnation of its own that was entered and has not been taken out. */
  ghost predicate SessionFits(spawns: map<Mark, Spawn>, r: Reading, id: AgentId, m: Mark) {
    r.Reading? && m in r.entered && m !in r.gone && m in spawns && spawns[m].id == id
  }

  ghost predicate LogFits(w: World, r: Reading) {
    && r.Reading? && r.table == w.sessions
    && (forall id :: id in w.profiles ==> Shown(r.marks, id, w.profiles[id].epoch))
    && (forall m :: m in r.dead <==> Over(w.spawns, m))
    && (forall m :: m in r.entered ==> Begun(w.spawns, m))
    && (forall id :: id in w.sessions ==> SessionFits(w.spawns, r, id, w.sessions[id]))
    && r.gone <= r.entered
    && (w.reaper.Took? ==> w.reaper.msg.epoch in r.gone)
  }

  ghost predicate InboxFits(w: World) {
    && (forall i :: 0 <= i < |w.inbox| ==> Reported(w, w.inbox[i]))
    && (w.reaper.Took? ==> Reported(w, w.reaper.msg))
  }

  ghost predicate MarkFits(spawns: map<Mark, Spawn>, id: AgentId, mark: Mark) {
    mark == 0 || (mark in spawns && spawns[mark].id == id)
  }

  /** The mark on a profile is that of the agent's last spawn, and a spawn under way is the last one. */
  ghost predicate MarksFit(w: World) {
    && (forall id :: id in w.profiles ==> MarkFits(w.spawns, id, w.profiles[id].epoch))
    && (forall m :: m in w.spawns && Underway(w.spawns[m]) && w.spawns[m].id in w.profiles ==>
          w.profiles[w.spawns[m].id].epoch == m || w.profiles[w.spawns[m].id].epoch == 0)
    && 0 !in w.spawns
  }

  ghost predicate Active(s: Stage) {
    s.Raised? || s.Running? || s.Finished?
  }

  ghost predicate RestoreTells(spawns: map<Mark, Spawn>, judged: set<Mark>, p: Profile) {
    p.epoch in spawns && Active(spawns[p.epoch].stage) ==> (p.autoRestore <==> p.epoch !in judged)
  }

  /** Left alone by users, `auto_restore` says whether the last spawn has come to its end. */
  ghost predicate RestoreFits(w: World) {
    && (forall m :: m in w.judged ==> m in w.spawns && w.spawns[m].stage.Finished?)
    && (forall id :: id in w.profiles && id !in w.touched ==> RestoreTells(w.spawns, w.judged, w.profiles[id]))
  }

  ghost predicate Sound(w: World) {
    LogFits(w, Read(w.log)) && InboxFits(w) && MarksFit(w) && RestoreFits(w)
  }

  lemma StampLog(w: World, id: AgentId, m: Mark)
    requires Sound(w)
    ensures LogFits(OnStamp(w, id, m), Read(OnStamp(w, id, m).log))
  {
    ReadSnoc(w.log, Marked(id, m));
  }

  lemma StampMarks(w: World, id: AgentId, m: Mark)
    requires Sound(w)
    ensures InboxFits(OnStamp(w, id, m)) && MarksFit(OnStamp(w, id, m))
  {
  }

  lemma StampRestore(w: World, id: AgentId, m: Mark)
    requires Sound(w)
    ensures RestoreFits(OnStamp(w, id, m))
  {
  }

  lemma InsertLog(w: World, m: Mark)
    requires Sound(w)
    ensures LogFits(OnInsert(w, m), Read(OnInsert(w, m).log))
  {
    if m in w.spawns && w.spawns[m].stage.Stamped? {
      var id, v := w.spawns[m].id, OnInsert(w, m);
      ReadSnoc(w.log, Entered(id, m));
      var r, q := Read(w.log), Read(v.log);
      assert m !in r.entered && q == r.(table := r.table[id := m], entered := r.entered + {m});
      forall i | i in v.sessions ensures SessionFits(v.spawns, q, i, v.sessions[i]) {
        assert i != id ==> SessionFits(w.spawns, r, i, w.sessions[i]);
      }
      forall x ensures x in q.dead <==> Over(v.spawns, x) {
        assert x in r.dead <==> Over(w.spawns, x);
      }
      forall x | x in q.entered ensures Begun(v.spawns, x) {
        assert x != m ==> Begun(w.spawns, x);
      }
    }
  }

  lemma InsertMarks(w: World, m: Mark)
    requires Sound(w)
    ensures InboxFits(OnInsert(w, m)) && MarksFit(OnInsert(w, m))
  {
  }

  lemma InsertRestore(w: World, m: Mark)
    requires Sound(w)
    ensures RestoreFits(OnInsert(w, m))
  {
  }

  lemma RaiseLog(w: World, m: Mark)
    requires Sound(w)
    ensures LogFits(OnRaise(w, m), Read(OnRaise(w, m).log))
  {
  }

  lemma RaiseMarks(w: World, m: Mark)
    requires Sound(w)
    ensures InboxFits(OnRaise(w, m)) && MarksFit(OnRaise(w, m))
  {
  }

  lemma RaiseRestore(w: World, m: Mark)
    requires Sound(w)
    ensures RestoreFits(OnRaise(w, m))
  {
  }

  lemma FinishLog(w: World, m: Mark, down: bool)
    requires Sound(w)
    ensures LogFits(OnFinish(w, m, down), Read(OnFinish(w, m, down).log))
  {
    if m in w.spawns {
      ReadSnoc(w.log, Died(w.spawns[m].id, m));
    }
  }

  lemma FinishMarks(w: World, m: Mark, down: bool)
    requires Sound(w)
    ensures InboxFits(OnFinish(w, m, down)) && MarksFit(OnFinish(w, m, down))
  {
  }

  lemma FinishRestore(w: World, m: Mark, down: bool)
    requires Sound(w)
    ensures RestoreFits(OnFinish(w, m, down))
  {
  }

  lemma TakesSound(w: World)
    requires Sound(w)
    ensures Sound(Next(w, Takes))
  {
    if w.reaper.Waiting? && w.inbox != [] {
      var msg, v := w.inbox[0], Next(w, Takes);
      assert Reported(w, msg);
      if msg.id in w.sessions && w.sessions[msg.id] == msg.epoch {
        TakenLog(w, msg, v);
      }
    }
  }

  lemma TakenLog(w: World, msg: ReapMsg, v: World)
    requires Sound(w) && Reported(w, msg) && msg.id in w.sessions && w.sessions[msg.id] == msg.epoch
    requires v == w.(inbox := v.inbox, sessions := w.sessions - {msg.id}, reaper := Took(msg),
                     log := w.log + [Removed(msg.id, msg.epoch)])
    ensures LogFits(v, Read(v.log))
  {
    ReadSnoc(w.log, Removed(msg.id, msg.epoch));
    var r, q := Read(w.log), Read(v.log);
    assert SessionFits(w.spawns, r, msg.id, msg.epoch) && Over(w.spawns, msg.epoch);
    forall i | i in v.sessions ensures SessionFits(v.spawns, q, i, v.sessions[i]) {
      assert SessionFits(w.spawns, r, i, w.sessions[i]);
    }
  }

  lemma JudgesLog(w: World)
    requires Sound(w) && w.reaper.Took?
    ensures var v := Dispose(w, w.reaper.msg); LogFits(v, Read(v.log))
  {
    ReadSnoc(w.log, Lowered(w.reaper.msg.id, w.reaper.msg.epoch));
  }

  lemma JudgesMarks(w: World)
    requires Sound(w) && w.reaper.Took?
    ensures var v := Dispose(w, w.reaper.msg); InboxFits(v) && MarksFit(v)
  {
  }

  lemma JudgesRestore(w: World)
    requires Sound(w) && w.reaper.Took?
    ensures RestoreFits(Dispose(w, w.reaper.msg))
  {
    var v := Dispose(w, w.reaper.msg);
    forall id | id in v.profiles && id !in v.touched ensures RestoreTells(v.spawns, v.judged, v.profiles[id]) {
      assert MarkFits(w.spawns, id, w.profiles[id].epoch);
      assert RestoreTells(w.spawns, w.judged, w.profiles[id]);
    }
  }

  lemma AdvanceSound(w: World, m: Mark, to: Stage)
    requires Sound(w) && m in w.spawns
    requires (w.spawns[m].stage.Raised? && to.Running?) || (w.spawns[m].stage.Stamped? && to.Failed?)
    ensures Sound(Advance(w, m, to))
  {
  }

  ghost function Added(w: World, id: AgentId, ar: bool): World {
    w.(profiles := w.profiles[id := Profile(0, ar)], touched := w.touched + {id}, log := w.log + [Marked(id, 0)])
  }

  lemma AddLog(w: World, id: AgentId, ar: bool)
    requires Sound(w)
    ensures LogFits(Added(w, id, ar), Read(Added(w, id, ar).log))
  {
    ReadSnoc(w.log, Marked(id, 0));
  }

  lemma AddMarks(w: World, id: AgentId, ar: bool)
    requires Sound(w) && id !in w.profiles
    ensures InboxFits(Added(w, id, ar)) && MarksFit(Added(w, id, ar)) && RestoreFits(Added(w, id, ar))
  {
  }

  lemma AddSound(w: World, id: AgentId, ar: bool)
    requires Sound(w)
    ensures Sound(Next(w, AddProfile(id, ar)))
  {
    if id !in w.profiles {
      AddLog(w, id, ar);
      AddMarks(w, id, ar);
    }
  }

  lemma UserSound(w: World, id: AgentId, ar: bool)
    requires Sound(w)
    ensures Sound(Next(w, DropProfile(id))) && Sound(Next(w, UserSets(id, ar)))
  {
  }

  lemma SpawnSound(w: World, e: Event)
    requires Sound(w) && (e.Stamp? || e.Insert? || e.Raise? || e.Finish?)
    ensures Sound(Next(w, e))
  {
    match e
    case Stamp(id, m) =>
      StampLog(w, id, m);
      StampMarks(w, id, m);
      StampRestore(w, id, m);
    case Insert(m) =>
      InsertLog(w, m);
      InsertMarks(w, m);
      InsertRestore(w, m);
    case Raise(m) =>
      RaiseLog(w, m);
      RaiseMarks(w, m);
      RaiseRestore(w, m);
    case Finish(m, down) =>
      FinishLog(w, m, down);
      FinishMarks(w, m, down);
      FinishRestore(w, m, down);
  }

  lemma StepSound(w: World, e: Event)
    requires Sound(w)
    ensures Sound(Next(w, e))
  {
    match e
    case AddProfile(id, ar) => AddSound(w, id, ar);
    case DropProfile(id) => UserSound(w, id, true);
    case UserSets(id, ar) => UserSound(w, id, ar);
    case StartPump(m) =>
      if m in w.spawns && w.spawns[m].stage.Raised? {
        AdvanceSound(w, m, Running);
      }
    case SpawnFails(m) =>
      if m in w.spawns && w.spawns[m].stage.Stamped? {
        AdvanceSound(w, m, Failed);
      }
    case Takes => TakesSound(w);
    case Judges =>
      if w.reaper.Took? {
        JudgesLog(w);
        JudgesMarks(w);
        JudgesRestore(w);
      }
    case _ => SpawnSound(w, e);
  }

  lemma {:induction false} RunSound(es: seq<Event>)
    ensures LogFits(Run(es), Read(Run(es).log))
    ensures InboxFits(Run(es)) && MarksFit(Run(es)) && RestoreFits(Run(es))
  {
    if es != [] {
      RunSound(es[..|es| - 1]);
      StepSound(Run(es[..|es| - 1]), es[|es| - 1]);
    }
  }

  // ── What the log shows ─────────────────────────────────────────────────────

  lemma {:induction false} ReadPrefix(log: seq<Sign>, k: nat)
    requires k <= |log| && Read(log).Reading?
    ensures Read(log[..k]).Reading? && Read(log[..k]).gone <= Read(log).gone
    decreases |log| - k
  {
    if k < |log| {
      ReadPrefix(log, k + 1);
      assert log[..k + 1][..k] == log[..k];
    } else {
      assert log[..k] == log;
    }
  }

  /** Reading up to and including entry `k`. */
  lemma ReadAt(log: seq<Sign>, k: nat)
    requires k < |log| && Read(log).Reading?
    ensures Read(log[..k]).Reading? && Read(log[..k + 1]).Reading?
    ensures Read(log[..k + 1]) == ReadOne(Read(log[..k]), log[k])
  {
    ReadPrefix(log, k);
    ReadPrefix(log, k + 1);
    assert log[..k + 1][..k] == log[..k];
  }

  /** Entry `i` is about agent `id` and changes its place in the table. */
  ghost predicate Moves(s: Sign, id: AgentId) {
    (s.Entered? || s.Removed?) && s.id == id
  }

  lemma {:induction false} WhereEntered(log: seq<Sign>, id: AgentId) returns (i: nat)
    requires Read(log).Reading? && id in Read(log).table
    ensures i < |log| && log[i] == Entered(id, Read(log).table[id])
    ensures forall j :: i < j < |log| ==> !Moves(log[j], id)
    decreases |log|
  {
    var n := |log| - 1;
    ReadPrefix(log, n);
    if Moves(log[n], id) {
      i := n;
    } else {
      i := WhereEntered(log[..n], id);
    }
  }

  lemma {:induction false} WhereDied(log: seq<Sign>, m: Mark) returns (i: nat)
    requires Read(log).Reading? && m in Read(log).dead
    ensures i < |log| && log[i].Died? && log[i].mark == m
    decreases |log|
  {
    var n := |log| - 1;
    ReadPrefix(log, n);
    if log[n].Died? && log[n].mark == m {
      i := n;
    } else {
      i := WhereDied(log[..n], m);
    }
  }

  lemma {:induction false} WhereMarked(log: seq<Sign>, id: AgentId) returns (i: nat)
    requires Read(log).Reading? && id in Read(log).marks
    ensures i < |log| && log[i] == Marked(id, Read(log).marks[id])
    ensures forall j :: i < j < |log| ==> !(log[j].Marked? && log[j].id == id)
    decreases |log|
  {
    var n := |log| - 1;
    ReadPrefix(log, n);
    if log[n].Marked? && log[n].id == id {
      i := n;
    } else {
      i := WhereMarked(log[..n], id);
    }
  }

  // ── What follows for every run ─────────────────────────────────────────────

  lemma OnceInLog(log: seq<Sign>, i: nat, j: nat)
    requires Read(log).Reading? && i < j < |log| && log[i].Removed? && log[j].Removed?
    ensures log[i].mark != log[j].mark
  {
    ReadAt(log, i);
    ReadAt(log, j);
    ReadPrefix(log[..j], i + 1);
    assert log[..j][..i + 1] == log[..i + 1];
  }

  /** At most one report per incarnation gets past the removal. */
  lemma RemovedOnce(es: seq<Event>, i: nat, j: nat)
    requires i < j < |Run(es).log| && Run(es).log[i].Removed? && Run(es).log[j].Removed?
    ensures Run(es).log[i].mark != Run(es).log[j].mark
  {
    RunSound(es);
    OnceInLog(Run(es).log, i, j);
  }

  lemma OwnInLog(log: seq<Sign>, k: nat) returns (i: nat, d: nat)
    requires Read(log).Reading? && k < |log| && log[k].Removed?
    ensures i < k && log[i] == Entered(log[k].id, log[k].mark) && forall j :: i < j < k ==> !Moves(log[j], log[k].id)
    ensures d < k && log[d].Died? && log[d].mark == log[k].mark
  {
    ReadAt(log, k);
    i := WhereEntered(log[..k], log[k].id);
    d := WhereDied(log[..k], log[k].mark);
  }

  /** A session is removed only after its own incarnation reported, and while it is the one in the table. */
  lemma RemovedOnlyItself(es: seq<Event>, k: nat) returns (i: nat, d: nat)
    requires k < |Run(es).log| && Run(es).log[k].Removed?
    ensures var log := Run(es).log;
      && i < k && log[i] == Entered(log[k].id, log[k].mark) && (forall j :: i < j < k ==> !Moves(log[j], log[k].id))
      && d < k && log[d].Died? && log[d].mark == log[k].mark
  {
    RunSound(es);
    i, d := OwnInLog(Run(es).log, k);
  }

  lemma CurrentInLog(log: seq<Sign>, k: nat) returns (i: nat)
    requires Read(log).Reading? && k < |log| && log[k].Lowered?
    ensures i < k && log[i] == Marked(log[k].id, log[k].mark)
    ensures forall j :: i < j < k ==> !(log[j].Marked? && log[j].id == log[k].id)
  {
    ReadAt(log, k);
    i := WhereMarked(log[..k], log[k].id);
  }

  /** A death lowers a profile only if no spawn stamped it since: the newer incarnation is left alone. */
  lemma LoweredOnlyCurrent(es: seq<Event>, k: nat) returns (i: nat)
    requires k < |Run(es).log| && Run(es).log[k].Lowered?
    ensures var log := Run(es).log;
      && i < k && log[i] == Marked(log[k].id, log[k].mark)
      && (forall j :: i < j < k ==> !(log[j].Marked? && log[j].id == log[k].id))
  {
    RunSound(es);
    i := CurrentInLog(Run(es).log, k);
  }

  /** Neither step of the reaper raises `auto_restore`, changes a mark, or adds or drops a profile. */
  lemma ReaperOnlyLowers(w: World, e: Event, id: AgentId)
    requires e.Takes? || e.Judges?
    ensures var v := Next(w, e);
      && (id in v.profiles <==> id in w.profiles)
      && (id in w.profiles ==> v.profiles[id].epoch == w.profiles[id].epoch)
      && (id in w.profiles && v.profiles[id].autoRestore ==> w.profiles[id].autoRestore)
  {
  }

  /** Left alone by users since the last spawn raised it, `auto_restore` is up exactly until that spawn's death is judged. */
  lemma RestoredUnlessDied(es: seq<Event>, id: AgentId)
    requires var w := Run(es);
      && id in w.profiles && id !in w.touched
      && w.profiles[id].epoch in w.spawns && Active(w.spawns[w.profiles[id].epoch].stage)
    ensures var w := Run(es);
      w.profiles[id].autoRestore <==> w.profiles[id].epoch !in w.judged
  {
    RunSound(es);
    var w := Run(es);
    assert RestoreTells(w.spawns, w.judged, w.profiles[id]);
  }

  /** The profile of `id` carries the mark of a finished spawn and is not to be restored. */
  ghost predicate LaidToRest(w: World, id: AgentId, m: Mark) {
    && id in w.profiles && w.profiles[id] == Profile(m, false)
    && m in w.spawns && w.spawns[m].stage.Finished?
  }

  lemma RunSnoc(es: seq<Event>, e: Event)
    ensures Run(es + [e]) == Next(Run(es), e)
  {
    assert (es + [e])[..|es|] == es;
  }

  ghost predicate Revives(e: Event, id: AgentId) {
    match e
    case UserSets(i, ar) => i == id && ar
    case Stamp(i, _) => i == id
    case DropProfile(i) => i == id
    case _ => false
  }

  lemma StepRests(w: World, e: Event, id: AgentId, m: Mark)
    requires Sound(w) && LaidToRest(w, id, m) && !Revives(e, id)
    ensures LaidToRest(Next(w, e), id, m)
  {
    assert MarkFits(w.spawns, id, m);
  }

  /** A crash is not undone by the spawn it belongs to: after it, only a user or a new spawn brings the agent back. */
  lemma {:induction false} LoweringIsLast(es: seq<Event>, fs: seq<Event>, id: AgentId, m: Mark)
    requires LaidToRest(Run(es), id, m) && forall i :: 0 <= i < |fs| ==> !Revives(fs[i], id)
    ensures LaidToRest(Run(es + fs), id, m)
    decreases |fs|
  {
    if fs == [] {
      assert es + fs == es;
    } else {
      var n := |fs| - 1;
      LoweringIsLast(es, fs[..n], id, m);
      RunSound(es + fs[..n]);
      assert es + fs == (es + fs[..n]) + [fs[n]];
      RunSnoc(es + fs[..n], fs[n]);
      StepRests(Run(es + fs[..n]), fs[n], id, m);
    }
  }

  /** Judging the death of the incarnation that a profile still carries lays it to rest. */
  lemma JudgingLaysToRest(es: seq<Event>)
    requires var w := Run(es);
      && w.reaper.Took? && !w.reaper.msg.shuttingDown
      && w.reaper.msg.id in w.profiles && w.profiles[w.reaper.msg.id].epoch == w.reaper.msg.epoch
    ensures LaidToRest(Run(es + [Judges]), Run(es).reaper.msg.id, Run(es).reaper.msg.epoch)
  {
    RunSound(es);
    RunSnoc(es, Judges);
    JudgeRests(Run(es));
  }

  lemma JudgeRests(w: World)
    requires Sound(w) && w.reaper.Took? && !w.reaper.msg.shuttingDown
    requires w.reaper.msg.id in w.profiles && w.profiles[w.reaper.msg.id].epoch == w.reaper.msg.epoch
    ensures LaidToRest(Next(w, Judges), w.reaper.msg.id, w.reaper.msg.epoch)
  {
    assert Reported(w, w.reaper.msg);
  }

  /** A reported death is served: the session leaves the table, and the profile, if it still carries its mark, is lowered. */
  lemma ReportedDeathIsServed(es: seq<Event>)
    requires var w := Run(es);
      w.reaper.Waiting? && w.inbox != [] && w.inbox[0].id in w.sessions && w.sessions[w.inbox[0].id] == w.inbox[0].epoch
    ensures var w, v := Run(es), Run(es + [Takes] + [Judges]);
      var msg := w.inbox[0];
      && msg.id !in v.sessions && v.reaper.Waiting? && v.inbox == w.inbox[1..]
      && (!msg.shuttingDown && msg.id in w.profiles && w.profiles[msg.id].epoch == msg.epoch
          ==> LaidToRest(v, msg.id, msg.epoch))
  {
    RunSound(es);
    RunSnoc(es, Takes);
    RunSnoc(es + [Takes], Judges);
    ServesOne(Run(es));
  }

  lemma ServesOne(w: World)
    requires Sound(w) && w.reaper.Waiting? && w.inbox != []
    requires w.inbox[0].id in w.sessions && w.sessions[w.inbox[0].id] == w.inbox[0].epoch
    ensures var v := Next(Next(w, Takes), Judges);
      var msg := w.inbox[0];
      && msg.id !in v.sessions && v.reaper.Waiting? && v.inbox == w.inbox[1..]
      && (!msg.shuttingDown && msg.id in w.profiles && w.profiles[msg.id].epoch == msg.epoch
          ==> LaidToRest(v, msg.id, msg.epoch))
  {
    assert Reported(w, w.inbox[0]);
  }

  lemma RemovedIsGone(log: seq<Sign>, k: nat)
    requires Read(log).Reading? && k < |log| && log[k].Removed?
    ensures log[k].mark in Read(log).gone
  {
    ReadAt(log, k);
    ReadPrefix(log, k + 1);
  }

  /** A report of an incarnation that was removed before, however long ago, has no effect. */
  lemma RepeatedReportIsIdle(es: seq<Event>, k: nat)
    requires var w := Run(es);
      w.reaper.Waiting? && w.inbox != [] && k < |w.log| && w.log[k].Removed? && w.log[k].mark == w.inbox[0].epoch
    ensures Next(Run(es), Takes) == Run(es).(inbox := Run(es).inbox[1..])
  {
    RunSound(es);
    RemovedIsGone(Run(es).log, k);
  }

  lemma TakesFirst(w: World, m: Mark, down: bool)
    requires Sound(w) && w.reaper.Waiting? && w.inbox == [] && m in w.spawns && w.spawns[m].stage.Running?
    requires w.spawns[m].id in w.sessions && w.sessions[w.spawns[m].id] == m
    ensures var x := Next(w, Finish(m, down));
      && x.reaper.Waiting? && x.inbox == [ReapMsg(w.spawns[m].id, m, down)]
      && x.sessions == w.sessions && x.profiles == w.profiles
  {
    assert w.inbox + [ReapMsg(w.spawns[m].id, m, down)] == [ReapMsg(w.spawns[m].id, m, down)];
  }

  /** A death is reported and served: the session leaves the table, and a profile that carries its mark is lowered. */
  lemma DeathIsReaped(es: seq<Event>, m: Mark, down: bool)
    requires var w := Run(es);
      && w.reaper.Waiting? && w.inbox == [] && m in w.spawns && w.spawns[m].stage.Running?
      && w.spawns[m].id in w.sessions && w.sessions[w.spawns[m].id] == m
    ensures var w, v := Run(es), Run(es + [Finish(m, down)] + [Takes] + [Judges]);
      var id := w.spawns[m].id;
      && id !in v.sessions
      && (!down && id in w.profiles && w.profiles[id].epoch == m ==> LaidToRest(v, id, m))
  {
    RunSound(es);
    RunSnoc(es, Finish(m, down));
    TakesFirst(Run(es), m, down);
    ReportedDeathIsServed(es + [Finish(m, down)]);
  }

  /** The reaper is serial: between its two sections nothing but its own second section moves it. */
  lemma ServedOneAtATime(w: World, e: Event)
    requires w.reaper.Took? && !e.Judges?
    ensures Next(w, e).reaper == w.reaper
  {
  }

  /** A spawn makes its agent one to be restored, whatever users had said before. */
  lemma RaisedIsRestored(es: seq<Event>, m: Mark)
    requires var w := Run(es); m in w.spawns && w.spawns[m].stage.Inserted? && w.spawns[m].id in w.profiles
    ensures var w, v := Run(es), Run(es + [Raise(m)]);
      var id := w.spawns[m].id;
      && id in v.profiles && v.profiles[id].autoRestore && id !in v.touched
  {
    RunSnoc(es, Raise(m));
  }

  /** Users have their way with the profiles: adding, dropping and setting `auto_restore` take effect. */
  lemma UsersHaveTheirWay(es: seq<Event>, id: AgentId, ar: bool)
    ensures id !in Run(es + [DropProfile(id)]).profiles
    ensures id !in Run(es).profiles ==>
      id in Run(es + [AddProfile(id, ar)]).profiles && Run(es + [AddProfile(id, ar)]).profiles[id] == Profile(0, ar)
    ensures id in Run(es).profiles ==>
      id in Run(es + [UserSets(id, ar)]).profiles && Run(es + [UserSets(id, ar)]).profiles[id]
        == Run(es).profiles[id].(autoRestore := ar)
  {
    RunSnoc(es, DropProfile(id));
    RunSnoc(es, AddProfile(id, ar));
    RunSnoc(es, UserSets(id, ar));
  }
}
