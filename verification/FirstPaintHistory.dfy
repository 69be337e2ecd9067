/** What the gate's answers mean in terms of its history. */
module FirstPaintHistory {
  import opened Wrappers
  import opened FirstPaintSpec

  /** The entry settles anew whether and how `l` is held. */
  ghost predicate Touches(s: Sign, l: Label) {
    !s.Noticed? && s.window == l
  }

  ghost predicate LastTouch(log: seq<Sign>, i: int, l: Label) {
    0 <= i < |log| && Touches(log[i], l) && forall j :: i < j < |log| ==> !Touches(log[j], l)
  }

  /** Entry `k` is the last numbered notice for `l` after entry `i`. */
  ghost predicate LastNumbered(log: seq<Sign>, i: int, k: int, l: Label, n: Generation) {
    && 0 <= i < k < |log| && log[k] == Noticed(l, Some(n))
    && forall j :: k < j < |log| ==> !(log[j].Noticed? && log[j].window == l && log[j].generation.Some?)
  }

  /** Some notice for `l` came after entry `i`. */
  ghost predicate AnyNotice(log: seq<Sign>, i: int, l: Label) {
    0 <= i < |log| && exists j :: i < j < |log| && log[j].Noticed? && log[j].window == l
  }

  ghost predicate NoNumber(log: seq<Sign>, i: int, l: Label) {
    forall j :: 0 <= i < j < |log| ==> !(log[j].Noticed? && log[j].window == l && log[j].generation.Some?)
  }

  /** What a keeping hold created at entry `i` must remember. */
  ghost predicate Remembers(log: seq<Sign>, i: int, l: Label, painted: Notice) {
    match painted
    case NotYet => !AnyNotice(log, i, l)
    case Numberless => AnyNotice(log, i, l) && NoNumber(log, i, l)
    case Numbered(n) => exists k :: LastNumbered(log, i, k, l, n)
  }

  /** The last entry that touched `l` explains how it is held; if nothing did, it is not. */
  ghost predicate Explained(g: Gate, l: Label) {
    || (l !in g.held && forall i :: 0 <= i < |g.log| ==> !Touches(g.log[i], l))
    || exists i :: LastTouch(g.log, i, l) && Explains(g, l, i)
  }

  ghost predicate Explains(g: Gate, l: Label, i: int)
    requires 0 <= i < |g.log|
  {
    if l !in g.held then g.log[i].Cancelled? || g.log[i].Shown?
    else
      match g.held[l]
      case Armed(t, _) => g.log[i] == Installed(l, t)
      case Unarmed(painted) => g.log[i] == Created(l) && Remembers(g.log, i, l, painted)
  }

  /** Tickets are installed once: those still to be installed, and those never drawn, are not in the log. */
  ghost predicate Tickets(g: Gate) {
    && (forall t :: t in g.drawn ==> t < g.next)
    && (forall i :: 0 <= i < |g.log| && g.log[i].Installed? ==> g.log[i].ticket < g.next && g.log[i].ticket !in g.drawn)
    && (forall i, j :: 0 <= i < j < |g.log| && g.log[i].Installed? && g.log[j].Installed?
          ==> g.log[i].ticket != g.log[j].ticket)
  }

  /** Every show is of a ticket installed before it, with nothing touching the window in between. */
  ghost predicate ShownInTurn(log: seq<Sign>) {
    forall k :: 0 <= k < |log| && log[k].Shown? ==> Standing(log, k, log[k].window, log[k].ticket)
  }

  /** Just before entry `k`, `t` was the last ticket installed for `l` and nothing had touched `l` since. */
  ghost predicate Standing(log: seq<Sign>, k: int, l: Label, t: Ticket) {
    exists i :: 0 <= i < k && i < |log| && log[i] == Installed(l, t) && forall j :: i < j < k && j < |log| ==> !Touches(log[j], l)
  }

  ghost predicate Sound(g: Gate) {
    (forall l :: Explained(g, l)) && Tickets(g) && ShownInTurn(g.log)
  }

  // ── Every step keeps it ────────────────────────────────────────────────────

  lemma RemembersMore(log: seq<Sign>, i: int, l: Label, painted: Notice, s: Sign)
    requires 0 <= i < |log| && Remembers(log, i, l, painted)
    requires !(s.Noticed? && s.window == l)
    ensures Remembers(log + [s], i, l, painted)
  {
    var more := log + [s];
    assert AnyNotice(more, i, l) <==> AnyNotice(log, i, l) by {
      if AnyNotice(log, i, l) {
        var j :| i < j < |log| && log[j].Noticed? && log[j].window == l;
        assert more[j] == log[j];
      }
    }
    if painted.Numbered? {
      var k :| LastNumbered(log, i, k, l, painted.generation);
      assert LastNumbered(more, i, k, l, painted.generation);
    }
  }

  lemma RemembersNotice(log: seq<Sign>, i: int, l: Label, painted: Notice, n: Option<Generation>)
    requires 0 <= i < |log| && Remembers(log, i, l, painted)
    ensures Remembers(log + [Noticed(l, n)], i, l, Kept(painted, n))
  {
    var more := log + [Noticed(l, n)];
    assert AnyNotice(more, i, l) by {
      assert more[|log|] == Noticed(l, n);
    }
    if n.Some? {
      assert LastNumbered(more, i, |log|, l, n.value);
    } else if painted.Numbered? {
      var k :| LastNumbered(log, i, k, l, painted.generation);
      assert LastNumbered(more, i, k, l, painted.generation);
    } else if painted.NotYet? {
      forall j | i < j < |log| ensures !(log[j].Noticed? && log[j].window == l) {
      }
    }
  }

  /** An entry that does not touch `l` leaves it explained, given what a notice does to a keeping hold. */
  lemma ExplainedStays(g: Gate, v: Gate, s: Sign, l: Label)
    requires Explained(g, l) && v.log == g.log + [s] && !Touches(s, l)
    requires l in v.held <==> l in g.held
    requires l in g.held ==> (
      if g.held[l].Unarmed? && s.Noticed? && s.window == l
      then v.held[l] == Unarmed(Kept(g.held[l].painted, s.generation))
      else v.held[l] == g.held[l])
    ensures Explained(v, l)
  {
    if exists i :: LastTouch(g.log, i, l) && Explains(g, l, i) {
      var i :| LastTouch(g.log, i, l) && Explains(g, l, i);
      assert LastTouch(v.log, i, l);
      if l in g.held && g.held[l].Unarmed? {
        if s.Noticed? && s.window == l {
          RemembersNotice(g.log, i, l, g.held[l].painted, s.generation);
        } else {
          RemembersMore(g.log, i, l, g.held[l].painted, s);
        }
      }
      assert Explains(v, l, i);
    }
  }

  lemma ExplainedAnew(v: Gate, l: Label)
    requires v.log != [] && Touches(v.log[|v.log| - 1], l) && Explains(v, l, |v.log| - 1)
    ensures Explained(v, l)
  {
    assert LastTouch(v.log, |v.log| - 1, l);
  }

  lemma ShownMore(log: seq<Sign>, s: Sign)
    requires ShownInTurn(log) && (s.Shown? ==> Standing(log, |log|, s.window, s.ticket))
    ensures ShownInTurn(log + [s])
  {
    var more := log + [s];
    forall k | 0 <= k < |more| && more[k].Shown? ensures Standing(more, k, more[k].window, more[k].ticket) {
      assert Standing(log, k, more[k].window, more[k].ticket);
      var i :| 0 <= i < k && i < |log| && log[i] == Installed(more[k].window, more[k].ticket)
        && forall j :: i < j < k && j < |log| ==> !Touches(log[j], more[k].window);
      assert more[i] == log[i];
    }
  }

  lemma PutSound(g: Gate, l: Label, t: Ticket, manner: Reveal)
    requires Sound(g) && t < g.next && t !in g.drawn
    requires forall i :: 0 <= i < |g.log| && g.log[i].Installed? ==> g.log[i].ticket != t
    ensures Sound(Put(g, l, t, manner))
  {
    var v, s := Put(g, l, t, manner), Installed(l, t);
    forall m ensures Explained(v, m) {
      if m == l {
        ExplainedAnew(v, m);
      } else {
        ExplainedStays(g, v, s, m);
      }
    }
    ShownMore(g.log, s);
  }

  lemma InstallSound(g: Gate, t: Ticket)
    requires Sound(g) && t in g.drawn
    ensures Sound(Install(g, t))
  {
    var v := g.(drawn := g.drawn - {t});
    SoundWith(g, v);
    match g.drawn[t]
    case ToHold(l, manner) => PutSound(v, l, t, manner);
    case ToArm(l) => PutSound(v, l, t, Placed);
    case ToAdopt(l, n, activate) =>
      if l in g.held {
        PutSound(v, l, t, Adopted(n, activate));
      }
  }

  /** Drawing, or forgetting, a ticket explains nothing differently. */
  lemma SoundWith(g: Gate, v: Gate)
    requires Sound(g) && v.held == g.held && v.log == g.log && Tickets(v)
    ensures Sound(v)
  {
    forall l ensures Explained(v, l) {
      assert Explained(g, l);
      if exists i :: LastTouch(g.log, i, l) && Explains(g, l, i) {
        var i :| LastTouch(g.log, i, l) && Explains(g, l, i);
        assert LastTouch(v.log, i, l) && Explains(v, l, i);
      }
    }
  }

  lemma KeepSound(g: Gate, l: Label)
    requires Sound(g)
    ensures Sound(HoldUnarmed(g, l))
  {
    if l !in g.held {
      var v := HoldUnarmed(g, l);
      forall m ensures Explained(v, m) {
        if m == l {
          ExplainedAnew(v, m);
        } else {
          ExplainedStays(g, v, Created(l), m);
        }
      }
      ShownMore(g.log, Created(l));
    }
  }

  lemma NotifySound(g: Gate, l: Label, n: Option<Generation>)
    requires Sound(g)
    ensures Sound(Notify(g, l, n))
  {
    var v := Notify(g, l, n);
    forall m ensures Explained(v, m) {
      ExplainedStays(g, v, Noticed(l, n), m);
    }
    ShownMore(g.log, Noticed(l, n));
  }

  lemma WaitingStands(g: Gate, l: Label, t: Ticket)
    requires Sound(g) && IsWaiting(g.held, l, t)
    ensures Standing(g.log, |g.log|, l, t)
  {
    assert Explained(g, l);
    var i :| LastTouch(g.log, i, l) && Explains(g, l, i);
    assert g.log[i] == Installed(l, t);
  }

  lemma StandingWaits(g: Gate, l: Label, t: Ticket)
    requires Sound(g) && Standing(g.log, |g.log|, l, t)
    ensures IsWaiting(g.held, l, t)
  {
    var i :| 0 <= i < |g.log| && g.log[i] == Installed(l, t) && forall j :: i < j < |g.log| ==> !Touches(g.log[j], l);
    assert Explained(g, l) && Touches(g.log[i], l);
    var k :| LastTouch(g.log, k, l) && Explains(g, l, k);
    assert k == i;
  }

  lemma ShowSound(g: Gate, l: Label, t: Ticket)
    requires Sound(g)
    ensures Sound(Show(g, l, t))
  {
    if IsWaiting(g.held, l, t) {
      var v := Show(g, l, t);
      forall m ensures Explained(v, m) {
        if m == l {
          ExplainedAnew(v, m);
        } else {
          ExplainedStays(g, v, Shown(l, t), m);
        }
      }
      WaitingStands(g, l, t);
      ShownMore(g.log, Shown(l, t));
    }
  }

  lemma CancelSound(g: Gate, l: Label)
    requires Sound(g)
    ensures Sound(Cancel(g, l))
  {
    var v := Cancel(g, l);
    forall m ensures Explained(v, m) {
      if m == l {
        ExplainedAnew(v, m);
      } else {
        ExplainedStays(g, v, Cancelled(l), m);
      }
    }
    ShownMore(g.log, Cancelled(l));
  }

  lemma StepSound(g: Gate, e: Event)
    requires Sound(g)
    ensures Sound(Next(g, e))
  {
    match e
    case Draws(want) => SoundWith(g, Draw(g, want));
    case Installs(t) =>
      if t in g.drawn {
        InstallSound(g, t);
      }
    case Keeps(l) => KeepSound(g, l);
    case Notifies(l, n) => NotifySound(g, l, n);
    case Shows(l, t) => ShowSound(g, l, t);
    case Cancels(l) => CancelSound(g, l);
  }

  lemma {:induction false} RunSound(es: seq<Event>)
    ensures Sound(Run(es))
  {
    if es != [] {
      RunSound(es[..|es| - 1]);
      StepSound(Run(es[..|es| - 1]), es[|es| - 1]);
    }
  }

  // ── What follows for every run ─────────────────────────────────────────────

  /**
   A queued show with ticket `t` succeeds if and only if `t` was the last ticket installed for the window and nothing
   has cancelled, shown or re-held the window since.
   */
  lemma ShowSucceedsIff(es: seq<Event>, l: Label, t: Ticket)
    ensures IsWaiting(Run(es).held, l, t) <==> Standing(Run(es).log, |Run(es).log|, l, t)
  {
    RunSound(es);
    if IsWaiting(Run(es).held, l, t) {
      WaitingStands(Run(es), l, t);
    }
    if Standing(Run(es).log, |Run(es).log|, l, t) {
      StandingWaits(Run(es), l, t);
    }
  }

  lemma ShownOnceInLog(g: Gate, i: nat, j: nat)
    requires Sound(g) && i < j < |g.log| && g.log[i].Shown? && g.log[j].Shown?
    ensures g.log[i].ticket != g.log[j].ticket
  {
    var log := g.log;
    assert Standing(log, i, log[i].window, log[i].ticket) && Standing(log, j, log[j].window, log[j].ticket);
    var a :| 0 <= a < i && a < |log| && log[a] == Installed(log[i].window, log[i].ticket)
      && forall x :: a < x < i && x < |log| ==> !Touches(log[x], log[i].window);
    var b :| 0 <= b < j && b < |log| && log[b] == Installed(log[j].window, log[j].ticket)
      && forall x :: b < x < j && x < |log| ==> !Touches(log[x], log[j].window);
    assert log[a].ticket == log[b].ticket ==> a == b;
    assert Touches(log[i], log[i].window);
  }

  /** Each ticket shows a window at most once. */
  lemma ShownOnce(es: seq<Event>, i: nat, j: nat)
    requires i < j < |Run(es).log| && Run(es).log[i].Shown? && Run(es).log[j].Shown?
    ensures Run(es).log[i].ticket != Run(es).log[j].ticket
  {
    RunSound(es);
    ShownOnceInLog(Run(es), i, j);
  }

  /** The ticket has been installed and the window is no longer held with it. */
  ghost predicate Spent(g: Gate, l: Label, t: Ticket) {
    (exists i :: 0 <= i < |g.log| && g.log[i] == Installed(l, t)) && !IsWaiting(g.held, l, t)
  }

  lemma StepSpent(g: Gate, e: Event, l: Label, t: Ticket)
    requires Sound(g) && Spent(g, l, t)
    ensures Spent(Next(g, e), l, t)
  {
    var i :| 0 <= i < |g.log| && g.log[i] == Installed(l, t);
    assert t !in g.drawn;
    assert Next(g, e).log[i] == Installed(l, t);
  }

  /** Once an installed ticket is no longer waiting it never waits again. */
  lemma {:induction false} SpentForGood(es: seq<Event>, fs: seq<Event>, l: Label, t: Ticket)
    requires Spent(Run(es), l, t)
    ensures Spent(Run(es + fs), l, t)
    decreases |fs|
  {
    if fs == [] {
      assert es + fs == es;
    } else {
      var n := |fs| - 1;
      var before := es + fs[..n];
      SpentForGood(es, fs[..n], l, t);
      RunSound(before);
      assert es + fs == before + [fs[n]];
      RunSnoc(before, fs[n]);
      StepSpent(Run(before), fs[n], l, t);
    }
  }

  lemma RunSnoc(es: seq<Event>, e: Event)
    ensures Run(es + [e]) == Next(Run(es), e)
  {
    assert (es + [e])[..|es|] == es;
  }

  /**
   Adopting from a keeping hold answers `Painted` exactly when the last numbered notice since that hold was created
   carries the adopted generation.
   */
  lemma AdoptionAnswer(es: seq<Event>, t: Ticket, l: Label, n: Generation, activate: bool)
    requires var g := Run(es); t in g.drawn && g.drawn[t] == ToAdopt(l, n, activate) && l in g.held && g.held[l].Unarmed?
    ensures var g := Run(es);
      InstallAnswer(g, t) == Some(Painted(t)) <==>
      exists i, k :: LastTouch(g.log, i, l) && g.log[i] == Created(l) && LastNumbered(g.log, i, k, l, n)
  {
    RunSound(es);
    KeptExplained(Run(es), l, n);
  }

  lemma KeptExplained(g: Gate, l: Label, n: Generation)
    requires Sound(g) && l in g.held && g.held[l].Unarmed?
    ensures HeardOf(g.held, l, n) <==>
      exists i, k :: LastTouch(g.log, i, l) && g.log[i] == Created(l) && LastNumbered(g.log, i, k, l, n)
  {
    assert Explained(g, l);
    var i :| LastTouch(g.log, i, l) && Explains(g, l, i);
    var painted := g.held[l].painted;
    assert Remembers(g.log, i, l, painted);
    if HeardOf(g.held, l, n) {
      var k :| LastNumbered(g.log, i, k, l, n);
    } else if exists i', k :: LastTouch(g.log, i', l) && g.log[i'] == Created(l) && LastNumbered(g.log, i', k, l, n) {
      var i', k :| LastTouch(g.log, i', l) && g.log[i'] == Created(l) && LastNumbered(g.log, i', k, l, n);
      assert i' == i;
      NumberedHeard(g.log, i, k, l, n, painted);
    }
  }

  lemma NumberedHeard(log: seq<Sign>, i: int, k: int, l: Label, n: Generation, painted: Notice)
    requires LastNumbered(log, i, k, l, n) && Remembers(log, i, l, painted)
    ensures painted == Numbered(n)
  {
    assert log[k].Noticed?;
    if painted.Numbered? {
      var k' :| LastNumbered(log, i, k', l, painted.generation);
      assert k == k';
    }
  }

  /** Arming a keeping hold answers `Painted` exactly when any notice, numbered or not, came since it was created. */
  lemma ArmingAnswer(es: seq<Event>, t: Ticket, l: Label)
    requires var g := Run(es); t in g.drawn && g.drawn[t] == ToArm(l) && l in g.held && g.held[l].Unarmed?
    ensures var g := Run(es);
      InstallAnswer(g, t) == Some(Painted(t)) <==>
      exists i :: LastTouch(g.log, i, l) && g.log[i] == Created(l) && AnyNotice(g.log, i, l)
  {
    RunSound(es);
    var g := Run(es);
    assert Explained(g, l);
    var i :| LastTouch(g.log, i, l) && Explains(g, l, i);
    if g.held[l].painted.Numbered? {
      var k :| LastNumbered(g.log, i, k, l, g.held[l].painted.generation);
      assert AnyNotice(g.log, i, l);
    }
  }

  /** A hold armed for generation `n` yields its ticket to exactly that number, and no notice changes it. */
  lemma ArmedForOneGeneration(g: Gate, l: Label, t: Ticket, n: Generation, activate: bool, notice: Option<Generation>)
    requires l in g.held && g.held[l] == Armed(t, Adopted(n, activate))
    ensures NotifyAnswer(g, l, notice) == Release(t) <==> notice == Some(n)
    ensures Notify(g, l, notice).held == g.held
  {
  }

  /** A window asked to be held is held with the ticket drawn for it, and a show with that ticket then succeeds. */
  lemma DrawnIsHeld(es: seq<Event>, want: Want)
    requires !want.ToAdopt? || want.window in Run(es).held
    ensures var t := Run(es).next;
      var v := Run(es + [Draws(want)] + [Installs(t)]);
      IsWaiting(v.held, want.window, t) && want.window !in Show(v, want.window, t).held
  {
    RunSnoc(es, Draws(want));
    RunSnoc(es + [Draws(want)], Installs(Run(es).next));
  }
}
