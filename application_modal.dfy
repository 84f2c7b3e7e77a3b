/** The contributor application form (`ContributorApplicationModal.tsx`): its checks, the request it sends and its outcome. */
module ApplicationModal {
  import opened Wrappers
  import opened Entities
  import opened Applications
  import opened Service

  datatype ApplicationForm = ApplicationForm(
    name: string,
    collegeRollNumber: string,
    universityRollNumber: string,
    batch: string,
    semester: string)

  /** The form opens with the user's display name as the name and every other field empty. */
  function InitialForm(user: Option<User>): ApplicationForm {
    ApplicationForm(if user.Some? then user.value.displayName else "", "", "", "", "")
  }

  const NotSignedInMessage := "You must be logged in to apply"
  const MissingFieldsMessage := "Please fill in all required fields"

  /** Name, college roll number, university roll number and batch are required; only the empty string counts as missing. */
  predicate RequiredFilled(form: ApplicationForm) {
    form.name != "" && form.collegeRollNumber != "" && form.universityRollNumber != "" && form.batch != ""
  }

  /** The checks of `handleSubmit` and the request it passes to `submitContributorApplication`. */
  function BuildRequest(user: Option<User>, form: ApplicationForm): (r: Result<ApplicationRequest, string>)
    ensures user.None? ==> r == Failure(NotSignedInMessage)
    ensures user.Some? && !RequiredFilled(form) ==> r == Failure(MissingFieldsMessage)
    ensures r.Success? <==> user.Some? && RequiredFilled(form)
    ensures r.Success? ==>
      && r.value.userId == user.value.uid && r.value.userEmail == user.value.email
      && r.value.userName == user.value.displayName
      && r.value.name == form.name && r.value.batch == form.batch
      && r.value.collegeRollNumber == form.collegeRollNumber
      && r.value.universityRollNumber == form.universityRollNumber
      && (r.value.semester.None? <==> form.semester == "")
      && (r.value.semester.Some? ==> r.value.semester.value == form.semester)
  {
    if user.None? then Failure(NotSignedInMessage)
    else if !RequiredFilled(form) then Failure(MissingFieldsMessage)
    else
      var u := user.value;
      Success(ApplicationRequest(u.uid, u.displayName, u.email, form.name, form.collegeRollNumber,
        form.universityRollNumber, form.batch, if form.semester == "" then None else Some(form.semester)))
  }

  class Modal {
    const store: Store
    const user: Option<User>
    var form: ApplicationForm
    var error: string
    /** `onSuccess` has been called (at least once). */
    var succeeded: bool

    constructor (store: Store, user: Option<User>)
      ensures this.store == store && this.user == user
      ensures form == InitialForm(user) && error == "" && !succeeded
    {
      this.store := store;
      this.user := user;
      form := InitialForm(user);
      error := "";
      succeeded := false;
    }

    /**
     * `handleSubmit`: a failed check shows its message and sends nothing; otherwise the request goes to the
     * service, and its refusal shows the service's message.
     */
    method HandleSubmit()
      requires store.Valid()
      modifies this`error, this`succeeded, store
      ensures store.Valid()
      ensures BuildRequest(user, form).Failure? ==>
        && error == BuildRequest(user, form).error && succeeded == old(succeeded)
        && store.applications == old(store.applications)
      ensures BuildRequest(user, form).Success? && !HasActiveApplication(old(store.applications), user.value.uid) ==>
        && succeeded && error == ""
        && store.applications == old(store.applications) + [NewApplication(|old(store.applications)|, BuildRequest(user, form).value, old(store.clock))]
      ensures BuildRequest(user, form).Success? && HasActiveApplication(old(store.applications), user.value.uid) ==>
        && succeeded == old(succeeded) && error == AlreadyAppliedMessage
        && store.applications == old(store.applications)
      ensures store.users == old(store.users) && store.resources == old(store.resources)
      ensures store.ratings == old(store.ratings)
    {
      var request := BuildRequest(user, form);
      if request.Failure? {
        error := request.error;
        return;
      }
      error := "";
      var res := store.SubmitContributorApplication(request.value);
      if res.Success? {
        succeeded := true;
      } else {
        error := Message(res.error);
      }
    }
  }
}
