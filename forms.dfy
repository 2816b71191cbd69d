/**
 * The two forms: `TicketCreateForm`, through which a reporter supplies a
 * ticket's own fields, and `AssignTechnicianForm`, whose one choice field
 * is limited to the users it is given.
 */
module Forms {
  import opened Wrappers
  import opened Accounts
  import opened Tickets

  /**
   * The cleaned data of `TicketCreateForm`: exactly the four fields a
   * reporter may set. Status, reporter and assignee are not among them.
   */
  datatype TicketForm = TicketForm(title: string, description: string, category: Category, priority: Priority)

  /** The validation errors the create form can report. */
  datatype FormError = TitleRequired | TitleTooLong | DescriptionRequired | CategoryNotActive

  /** The length limit of `Ticket.title`. */
  const TitleMaxLength: nat := 120

  /** `clean_category`: an inactive category is refused; an active one is returned as it is. */
  function CleanCategory(cat: Category): (r: Result<Category, FormError>)
    ensures r.Success? <==> cat.isActive
    ensures r.Success? ==> r.value == cat
    ensures r.Failure? ==> r.error == CategoryNotActive
  {
    if !cat.isActive then Failure(CategoryNotActive) else Success(cat)
  }

  /**
   * The errors the create form reports: the required and length checks the
   * model's field declarations imply, and the one `clean_category` adds.
   */
  function CreateFormErrors(f: TicketForm): (errs: set<FormError>)
    ensures CategoryNotActive in errs <==> CleanCategory(f.category).Failure?
    ensures TitleRequired in errs <==> |f.title| == 0
    ensures TitleTooLong in errs <==> |f.title| > TitleMaxLength
    ensures DescriptionRequired in errs <==> |f.description| == 0
    ensures errs == {} <==> 0 < |f.title| <= TitleMaxLength && |f.description| > 0 && f.category.isActive
  {
    (if |f.title| == 0 then {TitleRequired} else {})
    + (if |f.title| > TitleMaxLength then {TitleTooLong} else {})
    + (if |f.description| == 0 then {DescriptionRequired} else {})
    + (match CleanCategory(f.category) case Success(_) => {} case Failure(e) => {e})
  }

  /** `form.is_valid()` for the create form. */
  predicate CreateFormValid(f: TicketForm) {
    CreateFormErrors(f) == {}
  }

  /**
   * A create form is valid exactly when the title is non-empty and within
   * its length limit, the description is non-empty and the category is active.
   */
  lemma CreateFormValidMeans(f: TicketForm)
    ensures CreateFormValid(f) <==> 0 < |f.title| <= TitleMaxLength && |f.description| > 0 && f.category.isActive
  {
  }

  /** The first user among `choices` with primary key `id`. */
  function LookupUser(choices: seq<User>, id: nat): (r: Option<User>)
    ensures r.Some? ==> r.value in choices && r.value.id == id
    ensures r.None? <==> forall u :: u in choices ==> u.id != id
  {
    if choices == [] then None
    else if choices[0].id == id then Some(choices[0])
    else LookupUser(choices[1..], id)
  }

  /**
   * The `technician` field of `AssignTechnicianForm`: the submitted primary
   * key, if any, must name a user among the choices the form was built
   * with (`tech_qs`, or nothing when none was passed).
   */
  function CleanTechnician(choices: seq<User>, submitted: Option<nat>): (r: Option<User>)
    ensures r.Some? ==> submitted.Some? && r.value in choices && r.value.id == submitted.value
    ensures r.None? <==> submitted.None? || forall u :: u in choices ==> u.id != submitted.value
  {
    match submitted
    case None => None
    case Some(id) => LookupUser(choices, id)
  }

  /** A form built without choices accepts no technician at all. */
  lemma NoChoicesNoTechnician(submitted: Option<nat>)
    ensures CleanTechnician([], submitted) == None
  {
  }
}
