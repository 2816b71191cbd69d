/**
 * The view-level workflows: creating a ticket together with its creation
 * record, assigning or reassigning a technician with the conditional
 * `New -> Open` move, and the role-scoped, filtered ticket list. The
 * database is an in-memory `HelpDesk`: the ticket table, the status
 * history table and the user table.
 */
module Views {
  import opened Wrappers
  import opened Lifecycle
  import opened Accounts
  import opened Tickets
  import opened Audit
  import opened Forms

  // ---------- Assignment policy ----------

  /** Membership of the eligible pool: a Technician `UserRole`, or the staff flag. */
  predicate Eligible(u: User): (b: bool)
    ensures UserHasRole(u, Technician) ==> b
    ensures u.isStaff ==> b
    ensures b && !UserHasRole(u, Technician) ==> u.isStaff
  {
    u.role == Some(Technician) || u.isStaff
  }

  /** `tech_qs`: the users eligible for assignment, in table order. */
  function EligiblePool(users: seq<User>): (pool: seq<User>)
    ensures forall u :: u in pool <==> u in users && Eligible(u)
    ensures |pool| <= |users|
  {
    if users == [] then []
    else (if Eligible(users[0]) then [users[0]] else []) + EligiblePool(users[1..])
  }

  /** Who may assign: a superuser or a holder of the Admin role. */
  predicate MayAssign(actor: User): (b: bool)
    ensures b <==> actor.isSuperuser || actor.role == Some(Admin)
  {
    actor.isSuperuser || UserHasRole(actor, Admin)
  }

  /** The request to the assignment page: show the form, or submit a chosen user's primary key. */
  datatype AssignRequest = ShowForm | Submit(technician: Option<nat>)

  /** What the assignment page reports back. */
  datatype AssignOutcome =
    | NotFound                              // no ticket with that primary key
    | PermissionDenied                      // actor is neither superuser nor Admin
    | NoTechnicians                         // the eligible pool is empty
    | FormShown                             // the form is rendered; nothing submitted
    | ChoiceRejected                        // the submitted user is not in the pool
    | StatusLocked(status: Status)          // only New or Open tickets may be (re)assigned
    | AssignFailed(error: LifecycleError)   // the assignment raised and was rolled back
    | Assigned(technician: User, movedToOpen: bool)

  /**
   * The outcome of `ticket_assign_technician` for a ticket whose status is
   * `current` (None when the ticket does not exist), in the order the view
   * checks its conditions.
   */
  function AssignVerdict(users: seq<User>, actor: User, current: Option<Status>, request: AssignRequest): (r: AssignOutcome)
    ensures r == NotFound <==> current.None?
    ensures r == PermissionDenied <==> current.Some? && !MayAssign(actor)
    ensures r == NoTechnicians <==> current.Some? && MayAssign(actor) && (forall u :: u in users ==> !Eligible(u))
    ensures r == FormShown <==> current.Some? && MayAssign(actor) && EligiblePool(users) != [] && request == ShowForm
    ensures r == ChoiceRejected <==>
      && current.Some? && MayAssign(actor) && EligiblePool(users) != [] && request.Submit?
      && CleanTechnician(EligiblePool(users), request.technician).None?
    ensures r.StatusLocked? ==> current == Some(r.status) && r.status != New && r.status != Open
    ensures current.Some? && MayAssign(actor) && request.Submit?
      && CleanTechnician(EligiblePool(users), request.technician).Some?
      && current.value != New && current.value != Open
      ==> r == StatusLocked(current.value)
    ensures r.Assigned? ==>
      && MayAssign(actor)
      && current.Some? && (current.value == New || current.value == Open)
      && r.movedToOpen == (current.value == New)
      && request == Submit(Some(r.technician.id))
      && r.technician in users && Eligible(r.technician)
      && UserHasRole(r.technician, Technician)
    ensures r.AssignFailed? ==>
      && r.error == InvalidAssignee
      && MayAssign(actor)
      && current.Some? && (current.value == New || current.value == Open)
      && request.Submit? && request.technician.Some?
      && exists u :: u in users && Eligible(u) && u.id == request.technician.value && !UserHasRole(u, Technician)
  {
    if current.None? then NotFound
    else if !MayAssign(actor) then PermissionDenied
    else if EligiblePool(users) == [] then NoTechnicians
    else
      assert EligiblePool(users)[0] in EligiblePool(users);
      match request
      case ShowForm => FormShown
      case Submit(choice) =>
        match CleanTechnician(EligiblePool(users), choice)
        case None => ChoiceRejected
        case Some(technician) =>
          if current.value != New && current.value != Open then StatusLocked(current.value)
          else if !UserHasRole(technician, Technician) then AssignFailed(InvalidAssignee)
          else Assigned(technician, current.value == New)
  }

  /** Users are told apart by primary key. */
  ghost predicate DistinctIds(users: seq<User>) {
    forall v, w :: v in users && w in users && v.id == w.id ==> v == w
  }

  /** The form accepts every eligible user, and selects exactly that user. */
  lemma EligibleUserIsAccepted(users: seq<User>, u: User)
    requires DistinctIds(users)
    requires u in users && Eligible(u)
    ensures CleanTechnician(EligiblePool(users), Some(u.id)) == Some(u)
  {
    var pool := EligiblePool(users);
    assert u in pool;
    var r := CleanTechnician(pool, Some(u.id));
    assert r.Some?;
    assert r.value in users;
  }

  /**
   * The pool admits staff users, but the model's assignee check wants an
   * explicit Technician role: choosing a staff-only user passes the form
   * and then fails, on a ticket that may otherwise be assigned.
   */
  lemma StaffOnlyChoiceFails(users: seq<User>, actor: User, current: Status, u: User)
    requires DistinctIds(users)
    requires u in users && u.isStaff && u.role != Some(Technician)
    requires MayAssign(actor) && (current == New || current == Open)
    ensures AssignVerdict(users, actor, Some(current), Submit(Some(u.id))) == AssignFailed(InvalidAssignee)
  {
    EligibleUserIsAccepted(users, u);
  }

  /**
   * An Admin choosing a user with the Technician role on a `New` or `Open`
   * ticket assigns that user, and moves the ticket to `Open` exactly when
   * it was `New`.
   */
  lemma TechnicianChoiceSucceeds(users: seq<User>, actor: User, current: Status, u: User)
    requires DistinctIds(users)
    requires u in users && u.role == Some(Technician)
    requires MayAssign(actor) && (current == New || current == Open)
    ensures AssignVerdict(users, actor, Some(current), Submit(Some(u.id))) == Assigned(u, current == New)
  {
    EligibleUserIsAccepted(users, u);
  }

  /** A ticket past `Open` is never (re)assigned, whoever asks and whoever is chosen. */
  lemma LockedStatusNeverAssigned(users: seq<User>, actor: User, current: Status, request: AssignRequest)
    requires current != New && current != Open
    ensures !AssignVerdict(users, actor, Some(current), request).Assigned?
  {
  }

  // ---------- Ticket list ----------

  /** Whether an optional user reference names `actor` (compared by primary key). */
  predicate Refers(u: Option<User>, actor: User) {
    u.Some? && u.value.id == actor.id
  }

  /** The role scope: Admins see everything, Technicians their assigned tickets, anyone else their reported tickets. */
  predicate InScope(actor: User, t: Ticket): (b: bool)
    reads t
    ensures UserHasRole(actor, Admin) ==> b
    ensures !UserHasRole(actor, Admin) && UserHasRole(actor, Technician) ==> (b <==> Refers(t.assignee, actor))
    ensures !UserHasRole(actor, Admin) && !UserHasRole(actor, Technician) ==> (b <==> Refers(t.reporter, actor))
  {
    if UserHasRole(actor, Admin) then true
    else if UserHasRole(actor, Technician) then Refers(t.assignee, actor)
    else Refers(t.reporter, actor)
  }

  /**
   * The query-string filters, already stripped; an empty text or None means
   * the filter is not applied.
   */
  datatype ListQuery = ListQuery(status: string, category: Option<nat>, priority: Option<nat>, q: string)

  /** One narrowing step of the list query. */
  datatype Criterion =
    | ScopeOf(actor: User)
    | StatusIs(statusLabel: string)
    | CategoryIs(categoryId: nat)
    | PriorityIs(priorityId: nat)
    | TextContains(q: string, icontains: (string, string) -> bool)

  /** Whether ticket `t` passes criterion `c`; `icontains(s, q)` stands for case-insensitive containment. */
  predicate Meets(t: Ticket, c: Criterion): (b: bool)
    reads t
    ensures c.StatusIs? ==> (b <==> ParseStatus(c.statusLabel) == Some(t.status))
  {
    LabelRoundTrip(t.status);
    match c
    case ScopeOf(actor) => InScope(actor, t)
    case StatusIs(wanted) => Label(t.status) == wanted
    case CategoryIs(id) => t.category.id == id
    case PriorityIs(id) => t.priority.id == id
    case TextContains(q, icontains) =>
      || icontains(t.title, q)
      || icontains(t.description, q)
      || (t.reporter.Some? && icontains(t.reporter.value.username, q))
      || (t.assignee.Some? && icontains(t.assignee.value.username, q))
  }

  /** `filter(...)`: the tickets of `ts` that pass `c`, in their order. */
  function Select(ts: seq<Ticket>, c: Criterion): (r: seq<Ticket>)
    reads set t | t in ts
    ensures forall t :: t in r ==> t in ts && Meets(t, c)
    ensures forall t :: t in ts ==> (t in r <==> Meets(t, c))
    ensures |r| <= |ts|
  {
    if ts == [] then []
    else (if Meets(ts[0], c) then [ts[0]] else []) + Select(ts[1..], c)
  }

  /** Whether `t` passes every filter the query applies. */
  predicate MatchesQuery(t: Ticket, query: ListQuery, icontains: (string, string) -> bool): (b: bool)
    reads t
    ensures query == NoFilters ==> b
    ensures query.status != "" && ParseStatus(query.status).None? ==> !b
  {
    && (query.status == "" || Meets(t, StatusIs(query.status)))
    && (query.category.None? || Meets(t, CategoryIs(query.category.value)))
    && (query.priority.None? || Meets(t, PriorityIs(query.priority.value)))
    && (query.q == "" || Meets(t, TextContains(query.q, icontains)))
  }

  /** The query that applies no filter. */
  const NoFilters := ListQuery("", None, None, "")

  /**
   * `ticket_list`: the role scope of `actor`, then each filter the query
   * applies, over the ticket table `ts`.
   */
  function TicketList(ts: seq<Ticket>, actor: User, query: ListQuery, icontains: (string, string) -> bool): (r: seq<Ticket>)
    reads set t | t in ts
    ensures forall t :: t in r ==> t in ts && InScope(actor, t)
    ensures forall t :: t in ts ==> (t in r <==> InScope(actor, t) && MatchesQuery(t, query, icontains))
    ensures |r| <= |ts|
  {
    var scoped := Select(ts, ScopeOf(actor));
    var byStatus := if query.status != "" then Select(scoped, StatusIs(query.status)) else scoped;
    var byCategory := if query.category.Some? then Select(byStatus, CategoryIs(query.category.value)) else byStatus;
    var byPriority := if query.priority.Some? then Select(byCategory, PriorityIs(query.priority.value)) else byCategory;
    if query.q != "" then Select(byPriority, TextContains(query.q, icontains)) else byPriority
  }

  /** Filters only narrow: every listed ticket is also listed with no filter applied. */
  lemma FiltersOnlyNarrow(ts: seq<Ticket>, actor: User, query: ListQuery, icontains: (string, string) -> bool, t: Ticket)
    requires t in TicketList(ts, actor, query, icontains)
    ensures t in TicketList(ts, actor, NoFilters, icontains)
  {
  }

  /** A Technician who is not an Admin sees, with no filter, exactly the tickets assigned to them. */
  lemma TechnicianSeesAssigned(ts: seq<Ticket>, actor: User, icontains: (string, string) -> bool, t: Ticket)
    requires !UserHasRole(actor, Admin) && UserHasRole(actor, Technician) && t in ts
    ensures t in TicketList(ts, actor, NoFilters, icontains) <==> Refers(t.assignee, actor)
  {
  }

  /** Anyone who is neither Admin nor Technician sees, with no filter, exactly the tickets they reported. */
  lemma ReporterSeesReported(ts: seq<Ticket>, actor: User, icontains: (string, string) -> bool, t: Ticket)
    requires !UserHasRole(actor, Admin) && !UserHasRole(actor, Technician) && t in ts
    ensures t in TicketList(ts, actor, NoFilters, icontains) <==> Refers(t.reporter, actor)
  {
  }

  /** An Admin with no filter sees every ticket. */
  lemma AdminSeesAll(ts: seq<Ticket>, actor: User, icontains: (string, string) -> bool, t: Ticket)
    requires UserHasRole(actor, Admin) && t in ts
    ensures t in TicketList(ts, actor, NoFilters, icontains)
  {
  }

  // ---------- The store and the two workflows ----------

  /** What the create page reports back for a submitted form. */
  datatype CreateOutcome = Created(pk: nat) | FormInvalid(errors: set<FormError>)

  class HelpDesk {
    var tickets: seq<Ticket>            // the ticket table; the ticket with primary key k is tickets[k - 1]
    var history: seq<StatusRecord>      // the status history table, in insertion order
    const users: seq<User>              // the user table
    ghost var statuses: seq<Status>     // statuses[k - 1] is the status of the ticket with primary key k

    /**
     * The store's invariant: primary keys follow the table order, every saved
     * ticket has a reporter, user primary keys are unique, every record
     * refers to a saved ticket, and each ticket's records form a contiguous
     * history ending at its status.
     */
    ghost predicate Valid()
      reads this, tickets
    {
      && DistinctIds(users)
      && |statuses| == |tickets|
      && (forall i :: 0 <= i < |tickets| ==> tickets[i].pk == Some(i + 1) && tickets[i].reporter.Some?)
      && (forall i :: 0 <= i < |tickets| ==> tickets[i].status == statuses[i])
      && HistoryAgrees(history, statuses)
    }

    /** An empty store over a given user table. */
    constructor (users: seq<User>)
      requires DistinctIds(users)
      ensures Valid() && this.users == users && tickets == [] && history == []
    {
      this.users := users;
      tickets := [];
      history := [];
      statuses := [];
    }

    /** The status of the ticket with primary key `pk`, or None when there is none. */
    function StatusOf(pk: nat): (r: Option<Status>)
      reads this, tickets
      ensures r.Some? <==> 1 <= pk <= |tickets|
    {
      if 1 <= pk <= |tickets| then Some(tickets[pk - 1].status) else None
    }

    /**
     * `ticket_create` for a submitted form: a valid form yields a new saved
     * ticket in `New`, reported by `actor` and unassigned, together with its
     * one `None -> New` record; an invalid form changes nothing.
     */
    method CreateTicket(actor: User, form: TicketForm) returns (outcome: CreateOutcome)
      requires Valid()
      modifies this
      ensures Valid()
      ensures outcome == (if CreateFormValid(form) then Created(|old(tickets)| + 1) else FormInvalid(CreateFormErrors(form)))
      ensures outcome.FormInvalid? ==> tickets == old(tickets) && history == old(history)
      ensures outcome.Created? ==>
        && |tickets| == |old(tickets)| + 1
        && tickets[..|old(tickets)|] == old(tickets)
        && fresh(tickets[outcome.pk - 1])
        && history == old(history) + [StatusRecord(outcome.pk, None, New, actor)]
      ensures outcome.Created? ==>
        var t := tickets[outcome.pk - 1];
        && t.pk == Some(outcome.pk) && t.status == New
        && t.reporter == Some(actor) && t.assignee == None && t.assignedAt == None
        && t.title == form.title && t.description == form.description
        && t.category == form.category && t.priority == form.priority
    {
      var errors := CreateFormErrors(form);
      if errors != {} {
        return FormInvalid(errors);
      }
      var ticket := new Ticket(form.title, form.description, form.category, form.priority);
      ticket.reporter := Some(actor);
      var o := ticket.InitialiseStatus(New);
      assert o == Pass;
      var pk := SaveWithCreationRecord(ticket, actor);
      return Created(pk);
    }

    /**
     * The transaction of `ticket_create`: save the new ticket under the next
     * primary key and write its `None -> New` record.
     */
    method SaveWithCreationRecord(ticket: Ticket, actor: User) returns (pk: nat)
      requires Valid()
      requires ticket !in tickets && ticket.pk == None
      requires ticket.status == New && ticket.reporter == Some(actor)
      modifies this, ticket`pk
      ensures Valid()
      ensures pk == |old(tickets)| + 1 && ticket.pk == Some(pk)
      ensures tickets == old(tickets) + [ticket]
      ensures history == old(history) + [StatusRecord(pk, None, New, actor)]
    {
      pk := |tickets| + 1;
      ticket.pk := Some(pk);
      CreateKeepsAgreement(history, statuses, actor);
      tickets := tickets + [ticket];
      history := history + [StatusRecord(pk, None, New, actor)];
      statuses := statuses + [New];
    }

    /**
     * `ticket_assign_technician`: the outcome is `AssignVerdict` of the
     * ticket's status before the call. Only an `Assigned` outcome changes
     * anything: the assignee and assignment time are set, and when the
     * ticket was `New` it becomes `Open` with one `New -> Open` record.
     * Every other outcome leaves the ticket and the history as they were.
     */
    method AssignTechnician(actor: User, ticketId: nat, request: AssignRequest, now: Time) returns (outcome: AssignOutcome)
      requires Valid()
      modifies this, if 1 <= ticketId <= |tickets| then {tickets[ticketId - 1]} else {}
      ensures Valid()
      ensures tickets == old(tickets)
      ensures outcome == AssignVerdict(users, actor, old(StatusOf(ticketId)), request)
      ensures outcome.Assigned? ==> forall u :: u in users && request == Submit(Some(u.id)) ==> outcome.technician == u
      ensures !outcome.Assigned? ==> history == old(history)
      ensures !outcome.Assigned? && 1 <= ticketId <= |tickets| ==> unchanged(tickets[ticketId - 1])
      ensures outcome.Assigned? ==>
        var t: Ticket := tickets[ticketId - 1];
        && t.assignee == Some(outcome.technician) && t.assignedAt == Some(now) && t.status == Open
        && t.pk == old(t.pk) && t.reporter == old(t.reporter)
        && t.title == old(t.title) && t.description == old(t.description)
        && t.category == old(t.category) && t.priority == old(t.priority)
        && history == old(history) + (if outcome.movedToOpen then [StatusRecord(ticketId, Some(New), Open, actor)] else [])
    {
      if !(1 <= ticketId <= |tickets|) {
        return NotFound;
      }
      var ticket := tickets[ticketId - 1];
      if !(actor.isSuperuser || UserHasRole(actor, Admin)) {
        return PermissionDenied;
      }
      var pool := EligiblePool(users);
      if pool == [] {
        return NoTechnicians;
      }
      if request.ShowForm? {
        return FormShown;
      }
      var technician := CleanTechnician(pool, request.technician);
      if technician.None? {
        return ChoiceRejected;
      }
      if ticket.status != New && ticket.status != Open {
        return StatusLocked(ticket.status);
      }
      var assignResult, movedToOpen := AssignAtomically(ticket, ticketId, technician.value, actor, now);
      if assignResult.Fail? {
        // the exception is caught; the transaction left nothing behind
        return AssignFailed(assignResult.error);
      }
      return Assigned(technician.value, movedToOpen);
    }

    /**
     * The transaction of `ticket_assign_technician`: always (re)assign, and
     * only from `New` also move to `Open` and write the one record whose
     * `fromStatus` is the status before the call. If the assignment raises,
     * neither the ticket nor the history changes.
     */
    method AssignAtomically(ticket: Ticket, ticketId: nat, technician: User, actor: User, now: Time) returns (o: Outcome, movedToOpen: bool)
      requires Valid()
      requires 1 <= ticketId <= |tickets| && ticket == tickets[ticketId - 1]
      requires ticket.status == New || ticket.status == Open
      modifies this`history, this`statuses, ticket`status, ticket`assignee, ticket`assignedAt
      ensures Valid()
      ensures o == (if UserHasRole(technician, Technician) then Pass else Fail(InvalidAssignee))
      ensures movedToOpen == (o.Pass? && old(ticket.status) == New)
      ensures o.Fail? ==> history == old(history) && unchanged(ticket)
      ensures o.Pass? ==>
        && ticket.assignee == Some(technician) && ticket.assignedAt == Some(now) && ticket.status == Open
        && history == old(history) + (if movedToOpen then [StatusRecord(ticketId, Some(New), Open, actor)] else [])
    {
      // distinct primary keys: no other row is this object
      assert forall i :: 0 <= i < |tickets| && i != ticketId - 1 ==> tickets[i].pk != ticket.pk;
      assert forall i :: 0 <= i < |tickets| && i != ticketId - 1 ==> tickets[i] != ticket;
      var fromStatus := ticket.status;
      o := ticket.AssignTechnician(technician, now);
      if o.Fail? {
        assert forall i :: 0 <= i < |tickets| ==> tickets[i].status == statuses[i];
        return o, false;
      }
      if ticket.status == New {
        var changed := ticket.ChangeStatus(Open);
        assert changed == Pass;
        var record := StatusRecord(ticketId, Some(fromStatus), Open, actor);
        TransitionKeepsAgreement(history, statuses, ticketId, Open, actor);
        history := history + [record];
        statuses := statuses[ticketId - 1 := Open];
        assert forall i :: 0 <= i < |tickets| ==> tickets[i].status == statuses[i];
        return o, true;
      }
      assert forall i :: 0 <= i < |tickets| ==> tickets[i].status == statuses[i];
      return o, false;
    }
  }

  /**
   * Create, assign, then reassign: the ticket ends `Open` with the second
   * technician, and its history holds exactly the creation record and one
   * `New -> Open` record.
   */
  method AssignThenReassign(reporter: User, admin: User, first: User, second: User, form: TicketForm, t1: Time, t2: Time)
    returns (status: Status, assignee: Option<User>, records: seq<StatusRecord>)
    requires CreateFormValid(form)
    requires UserHasRole(admin, Admin)
    requires first.role == Some(Technician) && second.role == Some(Technician) && first.id != second.id
    ensures status == Open && assignee == Some(second)
    ensures records == [StatusRecord(1, None, New, reporter), StatusRecord(1, Some(New), Open, admin)]
  {
    var desk := new HelpDesk([first, second]);
    var created := desk.CreateTicket(reporter, form);
    assert desk.history == [StatusRecord(1, None, New, reporter)];
    assert desk.StatusOf(1) == Some(New);
    assert DistinctIds(desk.users);
    TechnicianChoiceSucceeds(desk.users, admin, New, first);
    var a := desk.AssignTechnician(admin, 1, Submit(Some(first.id)), t1);
    assert a == Assigned(first, true);
    assert desk.history == [StatusRecord(1, None, New, reporter), StatusRecord(1, Some(New), Open, admin)];
    assert desk.StatusOf(1) == Some(Open);
    TechnicianChoiceSucceeds(desk.users, admin, Open, second);
    var b := desk.AssignTechnician(admin, 1, Submit(Some(second.id)), t2);
    assert b == Assigned(second, false);
    status := desk.tickets[0].status;
    assignee := desk.tickets[0].assignee;
    records := desk.history;
  }
}
