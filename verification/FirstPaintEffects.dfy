/**
 The gate's whole history and all its answers as functions of the events: which tickets were drawn for what, what each
 event writes down, and what a notice or an arming is answered.  Nothing here looks at what the gate holds.
 */
module FirstPaintEffects {
  import opened Wrappers
  import opened FirstPaintSpec
  import opened FirstPaintHistory

  /** What tickets were drawn for, in order: ticket `t` is the one drawn by the `t`-th drawing. */
  ghost function Wants(es: seq<Event>): seq<Want> {
    if es == [] then []
    else
      var front := Wants(es[..|es| - 1]);
      if es[|es| - 1].Draws? then front + [es[|es| - 1].want] else front
  }

  /** The tickets drawn and not used yet. */
  ghost function Unused(es: seq<Event>): set<Ticket> {
    if es == [] then {}
    else
      var front := es[..|es| - 1];
      match es[|es| - 1]
      case Draws(_) => Unused(front) + {|Wants(front)|}
      case Installs(t) => Unused(front) - {t}
      case _ => Unused(front)
  }

  /** The last entry about `l` holds it back. */
  ghost predicate HeldBy(log: seq<Sign>, l: Label) {
    exists i :: LastTouch(log, i, l) && (log[i].Created? || log[i].Installed?)
  }

  /** What has happened: adopting a window that is not held, and keeping one that is, leave no trace. */
  ghost function LogOf(es: seq<Event>): seq<Sign> {
    if es == [] then []
    else
      var front := es[..|es| - 1];
      var log, wants := LogOf(front), Wants(front);
      match es[|es| - 1]
      case Draws(_) => log
      case Installs(t) =>
        if t in Unused(front) && t < |wants| && (wants[t].ToAdopt? ==> HeldBy(log, wants[t].window)) then
          log + [Installed(wants[t].window, t)]
        else log
      case Keeps(l) => if HeldBy(log, l) then log else log + [Created(l)]
      case Notifies(l, n) => log + [Noticed(l, n)]
      case Shows(l, t) => if Standing(log, |log|, l, t) then log + [Shown(l, t)] else log
      case Cancels(l) => log + [Cancelled(l)]
  }

  function Manner(want: Want): Reveal {
    match want
    case ToHold(_, manner) => manner
    case ToArm(_) => Placed
    case ToAdopt(_, n, activate) => Adopted(n, activate)
  }

  ghost predicate TicketsFit(g: Gate, wants: seq<Want>, unused: set<Ticket>) {
    && g.next == |wants| && g.drawn.Keys == unused
    && forall t :: t in g.drawn ==> t < |wants| && g.drawn[t] == wants[t]
  }

  /** A window is held with a ticket drawn for it, in the manner that was wanted. */
  ghost predicate HoldsFit(g: Gate, wants: seq<Want>) {
    forall l :: l in g.held && g.held[l].Armed? ==> HoldFits(g.held[l], wants, l)
  }

  ghost predicate HoldFits(h: Hold, wants: seq<Want>, l: Label)
    requires h.Armed?
  {
    h.ticket < |wants| && wants[h.ticket].window == l && h.manner == Manner(wants[h.ticket])
  }

  /** Over every run tickets are numbered as they are drawn, and a window is held for what its ticket was drawn for. */
  lemma {:induction false} RunTickets(es: seq<Event>)
    ensures TicketsFit(Run(es), Wants(es), Unused(es)) && HoldsFit(Run(es), Wants(es))
  {
    if es != [] {
      var front := es[..|es| - 1];
      RunTickets(front);
      assert Wants(front) <= Wants(es);
      StepTickets(Run(front), Wants(front), es[|es| - 1], Wants(es));
    }
  }

  lemma StepTickets(g: Gate, wants: seq<Want>, e: Event, more: seq<Want>)
    requires TicketsFit(g, wants, g.drawn.Keys) && HoldsFit(g, wants)
    requires more == if e.Draws? then wants + [e.want] else wants
    ensures var v := Next(g, e);
      && v.next == |more| && HoldsFit(v, more)
      && v.drawn.Keys == (match e case Draws(_) => g.drawn.Keys + {|wants|} case Installs(t) => g.drawn.Keys - {t} case _ => g.drawn.Keys)
      && forall t :: t in v.drawn ==> t < |more| && v.drawn[t] == more[t]
  {
    var v := Next(g, e);
    forall l | l in v.held && v.held[l].Armed? ensures HoldFits(v.held[l], more, l) {
      if l in g.held && v.held[l] == g.held[l] {
        assert HoldFits(g.held[l], wants, l);
      }
    }
  }

  /** What is held, and by what, shows in the history. */
  lemma HeldShows(g: Gate, l: Label)
    requires Sound(g)
    ensures l in g.held <==> HeldBy(g.log, l)
    ensures l in g.held && g.held[l].Unarmed? ==> exists i :: LastTouch(g.log, i, l) && g.log[i] == Created(l)
  {
    assert Explained(g, l);
    if exists i :: LastTouch(g.log, i, l) && Explains(g, l, i) {
      var i :| LastTouch(g.log, i, l) && Explains(g, l, i);
      forall k | LastTouch(g.log, k, l) ensures k == i {
      }
    }
  }

  lemma StepLogged(g: Gate, e: Event)
    requires Sound(g)
    ensures Next(g, e).log == match e
      case Draws(_) => g.log
      case Installs(t) =>
        if t in g.drawn && (g.drawn[t].ToAdopt? ==> HeldBy(g.log, g.drawn[t].window)) then
          g.log + [Installed(g.drawn[t].window, t)]
        else g.log
      case Keeps(l) => if HeldBy(g.log, l) then g.log else g.log + [Created(l)]
      case Notifies(l, n) => g.log + [Noticed(l, n)]
      case Shows(l, t) => if Standing(g.log, |g.log|, l, t) then g.log + [Shown(l, t)] else g.log
      case Cancels(l) => g.log + [Cancelled(l)]
  {
    match e
    case Installs(t) =>
      if t in g.drawn {
        HeldShows(g, g.drawn[t].window);
      }
    case Keeps(l) => HeldShows(g, l);
    case Shows(l, t) =>
      if IsWaiting(g.held, l, t) {
        WaitingStands(g, l, t);
      }
      if Standing(g.log, |g.log|, l, t) {
        StandingWaits(g, l, t);
      }
    case _ =>
  }

  /** Over every run the gate's history is the one the events alone give. */
  lemma {:induction false} RunLogged(es: seq<Event>)
    ensures Run(es).log == LogOf(es)
  {
    if es != [] {
      var front := es[..|es| - 1];
      RunLogged(front);
      RunTickets(front);
      RunSound(front);
      StepLogged(Run(front), es[|es| - 1]);
    }
  }

  // ── Answers ────────────────────────────────────────────────────────────────

  /** The ticket that holds `l` back, after these events. */
  ghost predicate HoldsBack(es: seq<Event>, l: Label, t: Ticket) {
    Standing(LogOf(es), |LogOf(es)|, l, t)
  }

  lemma HeldWith(es: seq<Event>, l: Label, t: Ticket)
    requires HoldsBack(es, l, t)
    ensures var g := Run(es);
      t < |Wants(es)| && l in g.held && g.held[l] == Armed(t, Manner(Wants(es)[t])) && Wants(es)[t].window == l
  {
    RunSound(es);
    RunLogged(es);
    RunTickets(es);
    StandingWaits(Run(es), l, t);
    assert HoldFits(Run(es).held[l], Wants(es), l);
  }

  /** What notice `n` gets from ticket `t`, which was drawn for `want`. */
  function Releases(want: Want, t: Ticket, n: Option<Generation>): Signal {
    match Manner(want)
    case Adopted(g, _) => if n == Some(g) then Release(t) else Mismatch(g, n)
    case _ => Release(t)
  }

  /**
   A paint notice for a window held back by ticket `t` releases that ticket, except that a ticket drawn for adopting a
   generation is released by that number alone and any other is a mismatch.
   */
  lemma NoticeReleases(es: seq<Event>, l: Label, t: Ticket, n: Option<Generation>)
    requires HoldsBack(es, l, t)
    ensures t < |Wants(es)| && NotifyAnswer(Run(es), l, n) == Releases(Wants(es)[t], t, n)
  {
    HeldWith(es, l, t);
  }

  /** After any run a window asked to be held or armed gets its ticket from the very next notice, numbered or not. */
  lemma FirstPaintReleases(es: seq<Event>, want: Want, n: Option<Generation>)
    requires !Manner(want).Adopted?
    ensures var t := |Wants(es)|;
      NotifyAnswer(Run(es + [Draws(want)] + [Installs(t)]), want.window, n) == Release(t)
  {
    RunTickets(es);
    RunSnoc(es, Draws(want));
    RunSnoc(es + [Draws(want)], Installs(|Wants(es)|));
  }

  /** A window that no ticket holds back has its notice recorded if it is kept, and ignored if it is not held. */
  lemma NoticeRecorded(es: seq<Event>, l: Label, n: Option<Generation>)
    requires forall t: Ticket :: !HoldsBack(es, l, t)
    ensures NotifyAnswer(Run(es), l, n) == if HeldBy(LogOf(es), l) then Recorded else Ignored
  {
    RunSound(es);
    RunLogged(es);
    HeldShows(Run(es), l);
    if l in Run(es).held && Run(es).held[l].Armed? {
      var t := Run(es).held[l].ticket;
      WaitingStands(Run(es), l, t);
      assert HoldsBack(es, l, t);
    }
  }

  /** No notice changes who holds a window back. */
  lemma NoticeKeepsHold(es: seq<Event>, l: Label, n: Option<Generation>, m: Label, t: Ticket)
    ensures HoldsBack(es + [Notifies(l, n)], m, t) <==> HoldsBack(es, m, t)
  {
    RunLogged(es);
    RunLogged(es + [Notifies(l, n)]);
    ShowSucceedsIff(es, m, t);
    ShowSucceedsIff(es + [Notifies(l, n)], m, t);
    RunSnoc(es, Notifies(l, n));
  }

  /** A keeping hold for `l`, made at entry `i`, is what the history ends with. */
  ghost predicate KeptSince(log: seq<Sign>, i: int, l: Label) {
    LastTouch(log, i, l) && log[i] == Created(l)
  }

  /**
   Using an unused ticket: arming answers painted exactly when a keeping hold has had a notice, adopting exactly when
   its last number is the adopted one, and adopting a window that is not held answers nothing.
   */
  lemma ArmingAnswered(es: seq<Event>, t: Ticket)
    requires t in Unused(es)
    ensures t in Run(es).drawn && t < |Wants(es)|
    ensures var log, l := LogOf(es), Wants(es)[t].window;
      InstallAnswer(Run(es), t) == match Wants(es)[t]
        case ToHold(_, _) => Some(Waiting(t))
        case ToArm(_) =>
          Some(if exists i :: KeptSince(log, i, l) && AnyNotice(log, i, l) then Painted(t) else Waiting(t))
        case ToAdopt(_, n, _) =>
          if !HeldBy(log, l) then None
          else Some(if exists i, k :: KeptSince(log, i, l) && LastNumbered(log, i, k, l, n) then Painted(t) else Waiting(t))
  {
    RunTickets(es);
    RunLogged(es);
    RunSound(es);
    var g, l := Run(es), Wants(es)[t].window;
    HeldShows(g, l);
    if l in g.held && g.held[l].Unarmed? {
      KeptAnswers(es, t, l);
    } else {
      NotKept(g, l);
    }
  }

  lemma KeptAnswers(es: seq<Event>, t: Ticket, l: Label)
    requires var g := Run(es); t in g.drawn && g.drawn[t].window == l && l in g.held && g.held[l].Unarmed?
    ensures var g := Run(es);
      match g.drawn[t]
      case ToHold(_, _) => InstallAnswer(g, t) == Some(Waiting(t))
      case ToArm(_) =>
        InstallAnswer(g, t) == Some(if exists i :: KeptSince(g.log, i, l) && AnyNotice(g.log, i, l) then Painted(t) else Waiting(t))
      case ToAdopt(_, n, _) =>
        InstallAnswer(g, t) == Some(if exists i, k :: KeptSince(g.log, i, l) && LastNumbered(g.log, i, k, l, n)
                                    then Painted(t) else Waiting(t))
  {
    var g := Run(es);
    match g.drawn[t]
    case ToHold(_, _) =>
    case ToArm(_) => ArmingAnswer(es, t, l);
    case ToAdopt(_, n, activate) => AdoptionAnswer(es, t, l, n, activate);
  }

  lemma NotKept(g: Gate, l: Label)
    requires Sound(g) && !(l in g.held && g.held[l].Unarmed?)
    ensures forall i :: !KeptSince(g.log, i, l)
  {
    assert Explained(g, l);
  }

  /** What is shown is shown in the manner its ticket was drawn for. */
  lemma ShownAsWanted(es: seq<Event>, l: Label, t: Ticket)
    requires HoldsBack(es, l, t)
    ensures t < |Wants(es)| && Wants(es)[t].window == l
    ensures l in Run(es).held && Run(es).held[l] == Armed(t, Manner(Wants(es)[t]))
    ensures LogOf(es + [Shows(l, t)]) == LogOf(es) + [Shown(l, t)] && !HeldBy(LogOf(es + [Shows(l, t)]), l)
  {
    HeldWith(es, l, t);
    RunLogged(es);
    RunSnoc(es, Shows(l, t));
    RunLogged(es + [Shows(l, t)]);
    RunSound(es + [Shows(l, t)]);
    HeldShows(Run(es + [Shows(l, t)]), l);
  }

  /** After a cancel the window is not held, whatever held it. */
  lemma CancelLetsGo(es: seq<Event>, l: Label, t: Ticket)
    ensures !HeldBy(LogOf(es + [Cancels(l)]), l) && !HoldsBack(es + [Cancels(l)], l, t)
  {
    RunSnoc(es, Cancels(l));
    RunLogged(es + [Cancels(l)]);
    RunSound(es + [Cancels(l)]);
    HeldShows(Run(es + [Cancels(l)]), l);
    ShowSucceedsIff(es + [Cancels(l)], l, t);
  }
}
