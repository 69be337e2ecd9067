/**
 The first-paint gate of src-tauri/src/first_paint.rs: a window is held back until it reports its first paint or a
 deadline passes, and a queued show succeeds only with the ticket the window is still held with.

 A ticket is drawn outside the lock, so drawing and installing are two steps and installs may overtake each other.
 Every other operation is one locked section.
 */
module FirstPaintSpec {
  import opened Wrappers

  type Label = string
  type Ticket = nat
  type Generation = nat

  datatype Reveal = Placed | Raised | Adopted(generation: Generation, activate: bool)
  datatype Notice = NotYet | Numberless | Numbered(generation: Generation)
  datatype Hold = Armed(ticket: Ticket, manner: Reveal) | Unarmed(painted: Notice)

  datatype Arming = Painted(ticket: Ticket) | Waiting(ticket: Ticket)
  datatype Signal = Release(ticket: Ticket) | Recorded | Mismatch(expected: Generation, got: Option<Generation>) | Ignored

  /** What a drawn ticket is for. */
  datatype Want =
    | ToHold(window: Label, manner: Reveal)
    | ToArm(window: Label)
    | ToAdopt(window: Label, generation: Generation, activate: bool)

  datatype Sign =
    | Created(window: Label)
    | Installed(window: Label, ticket: Ticket)
    | Noticed(window: Label, generation: Option<Generation>)
    | Cancelled(window: Label)
    | Shown(window: Label, ticket: Ticket)

  datatype Gate = Gate(held: map<Label, Hold>, next: Ticket, drawn: map<Ticket, Want>, log: seq<Sign>)

  const EMPTY := Gate(map[], 0, map[], [])

  ghost function Draw(g: Gate, want: Want): Gate {
    g.(next := g.next + 1, drawn := g.drawn[g.next := want])
  }

  ghost function Put(g: Gate, l: Label, t: Ticket, manner: Reveal): Gate {
    g.(held := g.held[l := Armed(t, manner)], log := g.log + [Installed(l, t)])
  }

  /** Has the keeping hold of `l` heard of any paint? */
  predicate Heard(held: map<Label, Hold>, l: Label) {
    l in held && held[l].Unarmed? && !held[l].painted.NotYet?
  }

  /** Has the keeping hold of `l` heard of generation `n` last? */
  predicate HeardOf(held: map<Label, Hold>, l: Label, n: Generation) {
    l in held && held[l] == Unarmed(Numbered(n))
  }

  /** The locked section that ticket `t` was drawn for. */
  ghost function Install(g: Gate, t: Ticket): Gate
    requires t in g.drawn
  {
    var v := g.(drawn := g.drawn - {t});
    match g.drawn[t]
    case ToHold(l, manner) => Put(v, l, t, manner)
    case ToArm(l) => Put(v, l, t, Placed)
    case ToAdopt(l, n, activate) => if l in g.held then Put(v, l, t, Adopted(n, activate)) else v
  }

  /** What the caller who drew `t` is told; adopting a window that is not held answers nothing. */
  ghost function InstallAnswer(g: Gate, t: Ticket): Option<Arming>
    requires t in g.drawn
  {
    match g.drawn[t]
    case ToHold(l, manner) => Some(Waiting(t))
    case ToArm(l) => Some(if Heard(g.held, l) then Painted(t) else Waiting(t))
    case ToAdopt(l, n, activate) =>
      if l !in g.held then None else Some(if HeardOf(g.held, l, n) then Painted(t) else Waiting(t))
  }

  ghost function HoldUnarmed(g: Gate, l: Label): Gate {
    if l in g.held then g else g.(held := g.held[l := Unarmed(NotYet)], log := g.log + [Created(l)])
  }

  /** What a keeping hold remembers: a notice without a number does not erase a number. */
  function Kept(painted: Notice, n: Option<Generation>): Notice {
    if n.Some? then Numbered(n.value) else if painted.NotYet? then Numberless else painted
  }

  ghost function Notify(g: Gate, l: Label, n: Option<Generation>): Gate {
    var v := g.(log := g.log + [Noticed(l, n)]);
    if l in g.held && g.held[l].Unarmed? then v.(held := g.held[l := Unarmed(Kept(g.held[l].painted, n))]) else v
  }

  ghost function NotifyAnswer(g: Gate, l: Label, n: Option<Generation>): Signal {
    if l !in g.held then Ignored
    else
      match g.held[l]
      case Unarmed(_) => Recorded
      case Armed(t, Adopted(expected, _)) => if n == Some(expected) then Release(t) else Mismatch(expected, n)
      case Armed(t, _) => Release(t)
  }

  predicate IsWaiting(held: map<Label, Hold>, l: Label, t: Ticket) {
    l in held && held[l].Armed? && held[l].ticket == t
  }

  /** A queued show runs. */
  ghost function Show(g: Gate, l: Label, t: Ticket): Gate {
    if IsWaiting(g.held, l, t) then g.(held := g.held - {l}, log := g.log + [Shown(l, t)]) else g
  }

  ghost function Cancel(g: Gate, l: Label): Gate {
    g.(held := g.held - {l}, log := g.log + [Cancelled(l)])
  }

  /** Shows may be queued by a notice, by a deadline or by an arming, and run whenever: any ticket, any time. */
  datatype Event =
    | Draws(want: Want)
    | Installs(ticket: Ticket)
    | Keeps(window: Label)
    | Notifies(window: Label, generation: Option<Generation>)
    | Shows(window: Label, ticket: Ticket)
    | Cancels(window: Label)

  ghost function Next(g: Gate, e: Event): Gate {
    match e
    case Draws(want) => Draw(g, want)
    case Installs(t) => if t in g.drawn then Install(g, t) else g
    case Keeps(l) => HoldUnarmed(g, l)
    case Notifies(l, n) => Notify(g, l, n)
    case Shows(l, t) => Show(g, l, t)
    case Cancels(l) => Cancel(g, l)
  }

  ghost function Run(es: seq<Event>): Gate {
    if es == [] then EMPTY else Next(Run(es[..|es| - 1]), es[|es| - 1])
  }
}
