# Helpdesk ticket lifecycle — a Dafny model

A model of the core of a helpdesk ticket tracker. Reporters file tickets. Admins
assign technicians. Each ticket moves through a fixed six-state lifecycle, and an
append-only status history records every status change.

The model covers four pieces:

- **The lifecycle state machine** (`lifecycle.dfy`). The six `TicketStatus` values
  are `New`, `Open`, `In Progress`, `Resolved`, `Closed` and `Reopened`. The fixed
  transition table is behind `can_transition_to`. There is also a check at the
  level of the stored text, where a status text outside the table has no
  successor.
- **Roles** (`accounts.dfy`). `user_has_role` treats a superuser as an Admin.
  Otherwise a role holds only when the user's single `UserRole` names it.
- **The `Ticket` entity** (`tickets.dfy`). This is a class whose fields the
  lifecycle methods update in place:
  - `initialise_status` works only before the first save.
  - `change_status` is guarded by the table.
  - `assign_technician` is guarded by the Technician role.
- **The workflows of the web layer** (`views.dfy`, `forms.dfy`, `audit.dfy`):
  - `ticket_create` saves a `New` ticket and writes its `None -> New` record.
  - `ticket_assign_technician` authorises the actor and builds the eligible pool
    (a Technician role or the staff flag). It refuses tickets past `Open` and always
    reassigns. Only on the first assignment does it move `New -> Open`, writing one
    record. When the assignment raises, the ticket and the history are left as they
    were.
  - `ticket_list` scopes the list by role and narrows it by the query-string
    filters.

The database is an in-memory `HelpDesk` holding three tables. `tickets`: the
ticket with primary key `k` is `tickets[k - 1]`. `history`: the status-history
table, in insertion order. `users`: the user table. Its invariant `Valid()`
includes unique user keys and the audit-trail property. Every ticket's own records are contiguous:

- the first record is `None -> New`;
- each later record starts where the previous one ended, along an allowed
  transition;
- the last record ends at the ticket's current status.

`CreateTicket` and `AssignTechnician` both keep this invariant.

One inconsistency in the code is kept on purpose. The eligible pool admits
staff-only users (`views.py:119-121`). `Ticket.assign_technician` rejects anyone
without an explicit Technician role (`models.py:119-120`). So a staff-only choice
passes the form and then ends in the caught-exception path (`views.py:170-172`);
see `Views.StaffOnlyChoiceFails`. The view's own comment (`views.py:118`,
"technicians by role OR staff users") and its error message (`views.py:126`,
"or set a user as staff/technician role") suggest that staff were meant to be
assignable. The check in `Ticket.assign_technician` (`models.py:119-120`) still demands the
Technician role, and the model follows that code.

The ticket methods' unused `changed_by` / `assigned_by` parameters are dropped.
Clock readings are a `now: Time` parameter.

## Model

| member | source | states |
|---|---|---|
| `Lifecycle.Label` | tickets/models.py:15-21 | the stored text of each `TicketStatus` value: non-empty and within the 20-character `status` column (models.py:71) |
| `Lifecycle.ParseStatus` | tickets/models.py:15-21 | a stored text maps to the status whose label it is, and to None exactly when no status has that label |
| `Lifecycle.LabelRoundTrip` | tickets/models.py:15-21 | every status's label reads back as that status (labels are distinct) |
| `Lifecycle.CanTransitionLabels` | tickets/models.py:94-103 | on stored texts, the check holds iff both texts label statuses joined by the table; a current text that is no status has no successor (the `allowed.get(..., set())` fallback) |
| `Lifecycle.Successors` | tickets/models.py:95-102 | the `allowed` table: every status has a successor, none lists itself, none lists `New` |
| `Lifecycle.CanTransition` | tickets/models.py:95-103 | a move allowed by the table changes the status and never enters `New` |
| `Lifecycle.TransitionPairs` | tickets/models.py:94-103 | the table allows exactly the nine listed pairs and no other |
| `Lifecycle.NoSelfLoop` | tickets/models.py:95-102 | no status may move to itself |
| `Lifecycle.NewNeverReentered` | tickets/models.py:95-102 | no transition targets `New` |
| `Lifecycle.NoTerminalStatus` | tickets/models.py:95-102 | every status has at least one allowed successor |
| `Lifecycle.OnlyNewIsUnreachable` | tickets/models.py:95-102 | a status has an incoming transition iff it is not `New` |
| `Accounts.UserHasRole` | tickets/models.py:42-47 | a superuser always holds Admin; otherwise a role holds iff the user's `UserRole` names it; a user without one holds a role only as a superuser asking for Admin |
| `Accounts.NoRoleNoPrivilege` | tickets/models.py:42-47 | a user without a `UserRole` holds no role, not even Reporter, except Admin for a superuser |
| `Accounts.FlagsDoNotMakeTechnician` | tickets/models.py:42-47 | Technician holds iff the `UserRole` names it; the superuser and staff flags do not grant it |
| `Tickets.Ticket.constructor` | tickets/views.py:83 | the unsaved instance `form.save(commit=False)` builds: the form's four fields, no primary key, status `New` (the field default of models.py:71), no reporter, assignee or assignment time |
| `Tickets.Ticket.CanTransitionTo` | tickets/models.py:94-103 | on the ticket's own status, the check agrees with the check on stored texts: it holds iff the two labels are joined by the table |
| `Tickets.Ticket.InitialiseStatus` | tickets/models.py:105-111 | raises `AlreadySaved` on a ticket with a primary key and leaves the status; otherwise sets the status to the given initial status; no other field may change |
| `Tickets.Ticket.ChangeStatus` | tickets/models.py:113-116 | raises `InvalidTransition(from, to)` and leaves the status when the table forbids it; otherwise sets the new status; no other field may change |
| `Tickets.Ticket.AssignTechnician` | tickets/models.py:118-122 | raises `InvalidAssignee` with assignee and assignment time unchanged unless the user holds Technician; otherwise sets both; the status may not change |
| `Audit.HistoryOf` | tickets/models.py:145-146 | a ticket's `status_history` relation: its records, in table order, never more than the table holds |
| `Audit.HistoryOfMembers` | tickets/models.py:145-150 | a ticket's history holds exactly the table's records that refer to it |
| `Audit.HistoryOfAppend` | tickets/views.py:88-93 | appending a record extends its own ticket's history by it and no other ticket's |
| `Audit.HistoryOfAbsent` | tickets/views.py:86-93 | a ticket with no records yet has an empty history |
| `Audit.ChainStart` | tickets/views.py:88-93 | the creation record alone is a contiguous history ending at `New` |
| `Audit.ChainExtend` | tickets/views.py:145-159 | recording an allowed move from the current status keeps the history contiguous and ends it at the new status |
| `Audit.ChainNewOnlyAtStart` | tickets/models.py:95-102 | in a contiguous history only the first record enters `New` |
| `Audit.CreateKeepsAgreement` | tickets/views.py:82-93 | saving a `New` ticket under the next key with its `None -> New` record keeps every ticket's history contiguous |
| `Audit.TransitionKeepsAgreement` | tickets/views.py:144-159 | moving one ticket along an allowed transition with a record from its old status keeps every ticket's history contiguous |
| `Forms.CleanCategory` | tickets/forms.py:19-23 | fails with `CategoryNotActive` iff the category is inactive; otherwise returns the very same category |
| `Forms.CreateFormErrors` | tickets/forms.py:8-23 | `TitleRequired` is reported iff the title is empty, `TitleTooLong` iff it exceeds 120 characters, `DescriptionRequired` iff the description is empty, `CategoryNotActive` iff `clean_category` refuses; the form is valid iff none is reported |
| `Forms.CreateFormValid` | tickets/views.py:81 | `form.is_valid()`: the create form reports no error |
| `Forms.CreateFormValidMeans` | tickets/views.py:81 | a create form is valid iff the title is non-empty and at most 120 characters, the description is non-empty and the category is active |
| `Forms.LookupUser` | tickets/forms.py:27-35 | finds a user with the submitted key among the choices, and finds none exactly when no choice has that key |
| `Forms.CleanTechnician` | tickets/forms.py:26-35 | an accepted technician is always one of the choices the form was built with, with the submitted key; a missing or unknown key is refused |
| `Forms.NoChoicesNoTechnician` | tickets/forms.py:28-35 | a form built without choices accepts no technician |
| `Views.Eligible` | tickets/views.py:119-121 | every holder of the Technician role and every staff user is eligible; an eligible user without the Technician role is a staff user |
| `Views.MayAssign` | tickets/views.py:115 | an actor may assign iff it is a superuser or its `UserRole` is Admin |
| `Views.EligiblePool` | tickets/views.py:119-121 | a user is in the pool iff it is in the user table and has the Technician role or the staff flag |
| `Views.AssignVerdict` | tickets/views.py:111-176 | in the view's order: `NotFound` iff no ticket; `PermissionDenied` iff the actor is neither superuser nor Admin; `NoTechnicians` iff the pool is empty; `FormShown` iff the request is not a submission; `ChoiceRejected` iff the submission carries no key or a key outside the pool; an accepted choice on a ticket past `Open` is always `StatusLocked` with that status; an assignment requires a `New`/`Open` ticket and a submitted pool member holding Technician, and moves to `Open` iff the ticket was `New`; `AssignFailed` happens only on a `New`/`Open` ticket, for an eligible submitted user without Technician |
| `Views.EligibleUserIsAccepted` | tickets/views.py:119-133 | with distinct user keys, the form accepts every eligible user and selects exactly that user |
| `Views.StaffOnlyChoiceFails` | tickets/views.py:143-172 | choosing a staff-only user on an assignable ticket ends in `AssignFailed(InvalidAssignee)` |
| `Views.TechnicianChoiceSucceeds` | tickets/views.py:143-166 | choosing a Technician on a `New` or `Open` ticket assigns that user, moving to `Open` iff it was `New` |
| `Views.LockedStatusNeverAssigned` | tickets/views.py:135-141 | a ticket in `In Progress`, `Resolved`, `Closed` or `Reopened` is never assigned, whatever the request |
| `Views.InScope` | tickets/views.py:37-45 | an Admin sees every ticket; a Technician who is not an Admin exactly the tickets assigned to them; anyone else exactly the tickets they reported |
| `Views.Meets` | tickets/views.py:52-64 | one filter step; the status filter on a raw text keeps a ticket iff the text reads back as the ticket's status |
| `Views.MatchesQuery` | tickets/views.py:52-64 | the query without filters keeps every ticket; a status text that names no status keeps none |
| `Views.Select` | tickets/views.py:52-64 | a filter keeps exactly the tickets of its input that pass the criterion, and no others |
| `Views.TicketList` | tickets/views.py:37-64 | every listed ticket is in the table and in the actor's role scope; a ticket of the table is listed iff it is in scope and passes every applied filter |
| `Views.FiltersOnlyNarrow` | tickets/views.py:52-64 | every ticket listed under some filters is listed with no filter |
| `Views.TechnicianSeesAssigned` | tickets/views.py:40-42 | a non-Admin Technician's unfiltered list holds a ticket of the table iff it is assigned to them |
| `Views.ReporterSeesReported` | tickets/views.py:43-45 | the unfiltered list of anyone neither Admin nor Technician holds a ticket of the table iff they reported it |
| `Views.AdminSeesAll` | tickets/views.py:37-39 | an Admin with no filter sees every ticket |
| `Views.HelpDesk.constructor` | tickets/models.py:145-150 | an empty ticket table and status history over a user table with unique primary keys, satisfying the store invariant |
| `Views.HelpDesk.StatusOf` | tickets/views.py:112 | the `get_object_or_404` lookup: a status exactly when a ticket has that primary key |
| `Views.HelpDesk.CreateTicket` | tickets/views.py:78-100 | an invalid form reports its errors and changes nothing; a valid one appends a fresh saved ticket in `New`, reported by the actor, unassigned, with the form's four fields, and exactly one `None -> New` record by the actor; the store invariant is kept |
| `Views.HelpDesk.SaveWithCreationRecord` | tickets/views.py:82-93 | the new ticket gets the next primary key and is appended with its creation record, keeping the store invariant |
| `Views.HelpDesk.AssignTechnician` | tickets/views.py:111-176 | the outcome is `AssignVerdict` of the ticket's prior status; an assigned technician is exactly the user whose key was submitted; any outcome but `Assigned` leaves the ticket and the history unchanged; `Assigned` sets assignee and time, leaves the ticket `Open` with its other fields unchanged, and adds one `New -> Open` record iff it moved to `Open`; the store invariant is kept |
| `Views.HelpDesk.AssignAtomically` | tickets/views.py:143-172 | always reassigns; only from `New` moves to `Open` and writes the record whose from-status is the prior status; when the assignment raises, neither ticket nor history changes |
| `Views.AssignThenReassign` | tickets/views.py:144-166 | create, assign, then reassign: the ticket ends `Open` with the second technician, and the history holds exactly the creation record and one `New -> Open` record |

## Left out

- ORM querysets, `select_related`, `distinct` and `transaction.atomic` are not modelled as code. Tables are sequences. Atomicity is stated as "on every error outcome neither the ticket nor the history changes".
- `order_by` in `ticket_list` and in the eligible pool is not modelled. Lists keep table order, and the contracts speak about membership.
- Only POST for `ticket_create` is modelled: the GET branch renders an empty form and changes nothing. HTTP handling, `render`, `redirect`, the `messages` texts and `login_required` are presentation. Outcomes are result datatypes instead.
- Clock readings (`timezone.now()` for `created_at`, `assigned_at`, `changed_at`) are not modelled. `assigned_at` takes a caller-supplied `now`. `created_at`, `updated_at` and `changed_at` are left out.
- `icontains` is not defined here. It is a parameter `icontains(text, q)`, because case-insensitive Unicode matching is library behaviour.
- Query-string parsing is left out. The `status` and `q` filters arrive already stripped. A category or priority filter arrives as an optional primary key, so a non-numeric value, which the ORM would reject, is not modelled.
- Tickets.Ticket.InitialiseStatus: the default `initial_status=TicketStatus.NEW` (models.py:105) is not modelled; the status is always passed explicitly, as the one call site (views.py:85) does.
- Forms.CreateFormErrors: does not model Django's whitespace stripping of text fields, or the check that the chosen category and priority rows exist, because both are form-library behaviour.
- A status text outside the six labels is modelled only by `Lifecycle.CanTransitionLabels`. The `Ticket.status` field has the enumerated type.
- `Comment` and `Attachment` are left out: plain records with no lifecycle coupling.
- `ticket_detail` is left out: it only renders.
- The superuser bootstrap command is left out: environment variables, password hashing and output.
- `admin.py` and `urls.py` are left out: registrations and routing. The admin site (admin.py:14-22) can edit a ticket's `status` and add or delete `StatusHistory` rows without the views' records. So the contiguous-history invariant of `HelpDesk.Valid()` holds only across the modelled workflows, not across admin edits.
- Concurrent requests and last-writer-wins on reassignment are left out. They depend on the store's transaction isolation.
