/**
 * The ticket lifecycle state machine: the six values of `TicketStatus`
 * and the fixed transition table behind `Ticket.can_transition_to`.
 */
module Lifecycle {
  import opened Wrappers

  /** The six values of `TicketStatus`. */
  datatype Status = New | Open | InProgress | Resolved | Closed | Reopened

  /** The text stored in the `status` column for each status. */
  function Label(s: Status): (r: string)
    ensures 0 < |r| <= StatusMaxLength
  {
    match s
    case New => "New"
    case Open => "Open"
    case InProgress => "In Progress"
    case Resolved => "Resolved"
    case Closed => "Closed"
    case Reopened => "Reopened"
  }

  /** The width of the `status` column and of a history record's status columns. */
  const StatusMaxLength: nat := 20

  /** The status a stored text names, or None for any other text. */
  function ParseStatus(raw: string): (r: Option<Status>)
    ensures r.Some? ==> Label(r.value) == raw
    ensures r.None? ==> forall s: Status :: Label(s) != raw
  {
    if raw == "New" then Some(New)
    else if raw == "Open" then Some(Open)
    else if raw == "In Progress" then Some(InProgress)
    else if raw == "Resolved" then Some(Resolved)
    else if raw == "Closed" then Some(Closed)
    else if raw == "Reopened" then Some(Reopened)
    else None
  }

  /** Labels are distinct, so a label determines its status. */
  lemma LabelRoundTrip(s: Status)
    ensures ParseStatus(Label(s)) == Some(s)
  {
  }

  /** The `allowed` table: the statuses each status may move to. */
  function Successors(s: Status): (r: set<Status>)
    ensures r != {} && s !in r && New !in r
  {
    match s
    case New => {Open}
    case Open => {InProgress, Closed}
    case InProgress => {Resolved}
    case Resolved => {Closed, Reopened}
    case Closed => {Reopened}
    case Reopened => {InProgress, Resolved}
  }

  /** Whether the table allows moving from `from` to `to`. */
  predicate CanTransition(from: Status, to: Status): (b: bool)
    ensures b ==> to != from && to != New
  {
    to in Successors(from)
  }

  /**
   * The check on stored texts: a current text that names no status has
   * the empty set of successors (`allowed.get(self.status, set())`), and a
   * target text that names no status is in no successor set.
   */
  function CanTransitionLabels(current: string, target: string): (r: bool)
    ensures r <==> exists c: Status, t: Status :: Label(c) == current && Label(t) == target && CanTransition(c, t)
    ensures ParseStatus(current).None? ==> !r
  {
    match ParseStatus(current)
    case None => false
    case Some(c) =>
      match ParseStatus(target)
      case None => false
      case Some(t) => CanTransition(c, t)
  }

  /** The table holds for exactly these nine pairs. */
  lemma TransitionPairs(from: Status, to: Status)
    ensures CanTransition(from, to) <==>
      || (from == New && to == Open)
      || (from == Open && to == InProgress)
      || (from == Open && to == Closed)
      || (from == InProgress && to == Resolved)
      || (from == Resolved && to == Closed)
      || (from == Resolved && to == Reopened)
      || (from == Closed && to == Reopened)
      || (from == Reopened && to == InProgress)
      || (from == Reopened && to == Resolved)
  {
  }

  /** No status may move to itself. */
  lemma NoSelfLoop(s: Status)
    ensures !CanTransition(s, s)
  {
  }

  /** `New` is never the target of a transition. */
  lemma NewNeverReentered(s: Status)
    ensures !CanTransition(s, New)
  {
  }

  /** No status is terminal: each one has an allowed successor. */
  lemma NoTerminalStatus(s: Status)
    ensures exists t: Status :: CanTransition(s, t)
  {
    match s
    case New => assert CanTransition(s, Open);
    case Open => assert CanTransition(s, Closed);
    case InProgress => assert CanTransition(s, Resolved);
    case Resolved => assert CanTransition(s, Closed);
    case Closed => assert CanTransition(s, Reopened);
    case Reopened => assert CanTransition(s, Resolved);
  }

  /** Every status except `New` has an incoming transition. */
  lemma OnlyNewIsUnreachable(t: Status)
    ensures t != New <==> exists s: Status :: CanTransition(s, t)
  {
    match t
    case New =>
    case Open => assert CanTransition(New, t);
    case InProgress => assert CanTransition(Open, t);
    case Resolved => assert CanTransition(InProgress, t);
    case Closed => assert CanTransition(Open, t);
    case Reopened => assert CanTransition(Closed, t);
  }
}
