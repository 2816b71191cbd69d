/**
 * The `Ticket` entity and its lifecycle rules: the transition guard, the
 * creation-only status initialiser, the guarded status change and the
 * role-checked assignee setter. Each updates the ticket in place.
 */
module Tickets {
  import opened Wrappers
  import opened Lifecycle
  import opened Accounts

  /** An instant read from the clock by the caller; its structure does not matter here. */
  type Time = nat

  /** A category row: name and active flag. */
  datatype Category = Category(id: nat, name: string, isActive: bool)

  /** A priority row: name and rank. */
  datatype Priority = Priority(id: nat, name: string, rank: nat)

  /** The errors the lifecycle operations raise (`ValidationError` with these messages). */
  datatype LifecycleError =
    | AlreadySaved                                  // initialise_status on a saved ticket
    | InvalidTransition(from: Status, to: Status)   // "Invalid transition: <from> -> <to>"
    | InvalidAssignee                               // "Assignee must have Technician role."

  /** Either the operation completed or it raised the given error. */
  datatype Outcome = Pass | Fail(error: LifecycleError)

  class Ticket {
    var pk: Option<nat>          // None until the ticket is saved
    var title: string
    var description: string
    var status: Status
    var reporter: Option<User>   // mandatory once saved; unset on an unsaved form instance
    var assignee: Option<User>
    var assignedAt: Option<Time>
    var category: Category
    var priority: Priority

    /** An unsaved ticket as the create form builds it: defaults for every field the form does not set. */
    constructor (title: string, description: string, category: Category, priority: Priority)
      ensures this.title == title && this.description == description
      ensures this.category == category && this.priority == priority
      ensures pk == None && status == New && reporter == None
      ensures assignee == None && assignedAt == None
    {
      this.pk := None;
      this.title := title;
      this.description := description;
      this.status := New;
      this.reporter := None;
      this.assignee := None;
      this.assignedAt := None;
      this.category := category;
      this.priority := priority;
    }

    /** `can_transition_to`: whether the table allows the current status to move to `newStatus`. */
    predicate CanTransitionTo(newStatus: Status): (b: bool)
      reads this
      ensures b <==> CanTransitionLabels(Label(status), Label(newStatus))
    {
      LabelRoundTrip(status);
      LabelRoundTrip(newStatus);
      CanTransition(status, newStatus)
    }

    /** `initialise_status`: only an unsaved ticket may have its status set directly. */
    method InitialiseStatus(initialStatus: Status) returns (o: Outcome)
      modifies this`status
      ensures o == (if old(pk).None? then Pass else Fail(AlreadySaved))
      ensures status == (if o.Pass? then initialStatus else old(status))
    {
      if pk != None {
        return Fail(AlreadySaved);
      }
      status := initialStatus;
      return Pass;
    }

    /** `change_status`: moves to `newStatus` only when the table allows it. */
    method ChangeStatus(newStatus: Status) returns (o: Outcome)
      modifies this`status
      ensures o == (if CanTransition(old(status), newStatus) then Pass else Fail(InvalidTransition(old(status), newStatus)))
      ensures status == (if o.Pass? then newStatus else old(status))
    {
      if !CanTransitionTo(newStatus) {
        return Fail(InvalidTransition(status, newStatus));
      }
      status := newStatus;
      return Pass;
    }

    /**
     * `assign_technician`: the assignee must hold the Technician role through
     * its `UserRole`; on success the assignee and assignment time are set and
     * the status is left alone.
     */
    method AssignTechnician(technician: User, now: Time) returns (o: Outcome)
      modifies this`assignee, this`assignedAt
      ensures o == (if UserHasRole(technician, Technician) then Pass else Fail(InvalidAssignee))
      ensures assignee == (if o.Pass? then Some(technician) else old(assignee))
      ensures assignedAt == (if o.Pass? then Some(now) else old(assignedAt))
    {
      if !UserHasRole(technician, Technician) {
        return Fail(InvalidAssignee);
      }
      assignee := Some(technician);
      assignedAt := Some(now);
      return Pass;
    }
  }
}
