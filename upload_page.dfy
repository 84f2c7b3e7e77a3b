/** The upload page (`Upload.tsx`): the file checks, the tag editor, the submit checks and the resource it stores. */
module UploadPage {
  import opened Wrappers
  import opened Entities
  import opened Sequences
  import opened Text
  import opened Service
  import opened AuthContext

  const MaxFileSize: nat := 10 * 1024 * 1024
  const PdfType := "application/pdf"

  const NotPdfMessage := "Please upload only PDF files"
  const TooLargeMessage := "File size must be less than 10MB"
  const NotSignedInMessage := "You must be logged in to upload resources"
  const NoFileMessage := "Please select a file to upload"
  const MissingFieldsMessage := "Please fill in all required fields"
  const UploadFailedMessage := "Failed to upload resource"

  datatype UploadForm = UploadForm(
    title: string,
    description: string,
    resourceType: ResourceType,
    subject: string,
    semester: string,
    year: string,
    tags: seq<string>,
    showContact: bool)

  const InitialForm := UploadForm("", "", Notes, "", "", "", [], false)

  /** A file `handleFileChange` keeps: a PDF of at most 10 MiB. */
  predicate Acceptable(f: FileInfo) {
    f.mimeType == PdfType && f.size <= MaxFileSize
  }

  /** The size limit is inclusive: a PDF of exactly 10 MiB is kept, one byte more is refused. */
  lemma SizeLimitInclusive(name: string)
    ensures Acceptable(FileInfo(name, PdfType, MaxFileSize))
    ensures !Acceptable(FileInfo(name, PdfType, MaxFileSize + 1))
  {
  }

  /** A tag as `addTag` stores it: trimmed and not empty. */
  predicate TrimmedTag(t: string) {
    t != [] && !IsSpace(t[0]) && !IsSpace(t[|t| - 1])
  }

  /** The tag list the editor maintains: trimmed tags, none twice. */
  predicate TagsWellFormed(tags: seq<string>) {
    Distinct(tags) && forall i :: 0 <= i < |tags| ==> TrimmedTag(tags[i])
  }

  /**
   * `addTag`: the trimmed input is appended when it is not blank and not already a tag, and the input box
   * is cleared; otherwise tags and input stay as they are.
   */
  function AddTag(tags: seq<string>, input: string): (r: (seq<string>, string))
    ensures r.0 == tags || r.0 == tags + [Trim(input)]
    ensures r.0 != tags <==> Trim(input) != "" && Trim(input) !in tags
    ensures r.1 == (if r.0 == tags then input else "")
    ensures TagsWellFormed(tags) ==> TagsWellFormed(r.0)
  {
    var t := Trim(input);
    if t != "" && t !in tags then
      AppendKeepsWellFormed(tags, t);
      (tags + [t], "")
    else (tags, input)
  }

  lemma AppendKeepsWellFormed(tags: seq<string>, t: string)
    requires TrimmedTag(t) && t !in tags
    ensures TagsWellFormed(tags) ==> TagsWellFormed(tags + [t])
  {
    var r := tags + [t];
    assert r[|tags|] == t;
    assert forall i :: 0 <= i < |tags| ==> r[i] == tags[i];
  }

  /** `removeTag`: every occurrence of the tag removed, the rest in order. */
  function RemoveTag(tags: seq<string>, tag: string): (r: seq<string>)
    ensures IsSubsequence(r, tags)
    ensures tag !in r && forall t :: t != tag ==> (t in r <==> t in tags)
    ensures TagsWellFormed(tags) ==> TagsWellFormed(r)
  {
    WithoutKeepsWellFormed(tags, tag);
    Without(tags, tag)
  }

  lemma WithoutKeepsWellFormed(tags: seq<string>, tag: string)
    ensures TagsWellFormed(tags) ==> TagsWellFormed(Without(tags, tag))
  {
    if TagsWellFormed(tags) {
      WithoutKeepsDistinct(tags, tag);
      forall i | 0 <= i < |Without(tags, tag)| ensures TrimmedTag(Without(tags, tag)[i]) {
        assert Without(tags, tag)[i] in tags;
      }
    }
  }

  /** Adding a new tag and removing it again gives back the tag list. */
  lemma RemoveUndoesAdd(tags: seq<string>, input: string)
    requires Trim(input) != "" && Trim(input) !in tags
    ensures RemoveTag(AddTag(tags, input).0, Trim(input)) == tags
  {
    WithoutAppended(tags, Trim(input));
  }

  /** A second `addTag` with the same input changes nothing. */
  lemma AddTagIdempotent(tags: seq<string>, input: string)
    ensures AddTag(AddTag(tags, input).0, input).0 == AddTag(tags, input).0
  {
    if Trim(input) != "" && Trim(input) !in tags {
      assert (tags + [Trim(input)])[|tags|] == Trim(input);
    }
  }

  /** Title, subject and semester are required; only the empty string counts as missing. */
  predicate RequiredFilled(form: UploadForm) {
    form.title != "" && form.subject != "" && form.semester != ""
  }

  /**
   * `resourceData`: the form's fields under the signed-in uploader; the uploader's email and phone are
   * stored only when the form asks to show them, and an empty year becomes the current year as a number.
   */
  function BuildResourceData(form: UploadForm, user: User, currentYear: int): (d: ResourceData)
    ensures d.uploaderUID == user.uid && d.uploaderName == user.displayName
    ensures d.showUploaderContact == form.showContact
    ensures !form.showContact ==> d.uploaderEmail == "" && d.uploaderPhone == ""
    ensures form.showContact ==> d.uploaderEmail == user.email && d.uploaderPhone == user.phoneNumber
    ensures d.year.Entered? <==> form.year != ""
    ensures d.year.Entered? ==> d.year.text == form.year
    ensures d.year.CurrentYear? ==> d.year.year == currentYear
    ensures d.tags == form.tags && d.resourceType == form.resourceType
    ensures d.title == form.title && d.description == form.description
    ensures d.subject == form.subject && d.semester == form.semester
  {
    ResourceData(
      form.title, form.description, form.resourceType, form.subject, form.semester,
      if form.year != "" then Entered(form.year) else CurrentYear(currentYear),
      form.tags, user.uid, user.displayName,
      if form.showContact then user.email else "",
      if form.showContact then user.phoneNumber else "",
      form.showContact)
  }

  /** Where the page goes after a successful upload: the listing page of the resource's type. */
  function RedirectPath(t: ResourceType): (p: string)
    ensures p == "/" + TypeName(t)
  {
    match t
    case Notes => "/notes"
    case Pyq => "/pyq"
    case Syllabus => "/syllabus"
  }

  /** The page sends a signed-in user who is not a contributor home. */
  predicate RedirectsHome(user: Option<User>) {
    user.Some? && user.value.role != Contributor
  }

  /** The page shows the form only to a signed-in contributor. */
  predicate FormShown(user: Option<User>) {
    user.Some? && user.value.role == Contributor
  }

  /** A new account is a viewer, so its first visit to the page sends it home. */
  lemma NewAccountSentHome(a: AuthUser, now: Time)
    ensures RedirectsHome(Some(FirstSignInProfile(a, now))) && !FormShown(Some(FirstSignInProfile(a, now)))
  {
  }

  /**
   * The gate follows the role lifecycle: once an admin approves an applicant's pending application, the
   * applicant's next sign-in holds a contributor profile, and the page shows the form instead of sending
   * the applicant home.
   */
  method ApprovalOpensForm(store: Store, provider: Provider, applicationId: ApplicationId, reviewerId: Uid,
                           account: AuthUser, now: Time)
    requires store.Valid() && provider.store == store
    requires applicationId < |store.applications| && store.applications[applicationId].status == Pending
    requires account.uid == store.applications[applicationId].request.userId && account.uid in store.users
    modifies store, provider`user, provider`loading
    ensures store.Valid()
    ensures FormShown(provider.user) && !RedirectsHome(provider.user)
  {
    var res := store.ApproveContributorApplication(applicationId, account.uid, reviewerId);
    provider.OnAuthStateChanged(Some(account), now);
  }

  /**
   * A resource stored with its year left empty holds a number, which the `year` equality filter
   * (a string) never matches.
   */
  lemma DefaultYearNeverMatchesYearFilter(form: UploadForm, user: User, currentYear: int, r: Resource, f: FilterOptions)
    requires form.year == "" && r.data == BuildResourceData(form, user, currentYear) && f.year != ""
    ensures !MatchesFilters(r, f)
  {
  }

  class Page {
    const store: Store
    const user: Option<User>
    var form: UploadForm
    var tagInput: string
    var file: Option<FileInfo>
    var error: string
    /** The path `navigate` was called with, once it has been. */
    var navigatedTo: Option<string>

    /** The chosen file passed the checks and the tag list is well formed. */
    predicate Valid()
      reads this
    {
      (file.Some? ==> Acceptable(file.value)) && TagsWellFormed(form.tags)
    }

    constructor (store: Store, user: Option<User>)
      ensures Valid()
      ensures this.store == store && this.user == user
      ensures form == InitialForm && tagInput == "" && file == None && error == "" && navigatedTo == None
    {
      this.store := store;
      this.user := user;
      form := InitialForm;
      tagInput := "";
      file := None;
      error := "";
      navigatedTo := None;
    }

    /** `handleFileChange`: a rejected file leaves the earlier choice in place and shows why. */
    method HandleFileChange(selected: Option<FileInfo>)
      requires Valid()
      modifies this`file, this`error
      ensures Valid()
      ensures selected.None? ==> file == old(file) && error == old(error)
      ensures selected.Some? && selected.value.mimeType != PdfType ==> file == old(file) && error == NotPdfMessage
      ensures selected.Some? && selected.value.mimeType == PdfType && selected.value.size > MaxFileSize ==>
        file == old(file) && error == TooLargeMessage
      ensures selected.Some? && Acceptable(selected.value) ==> file == selected && error == ""
    {
      if selected.Some? {
        var f := selected.value;
        if f.mimeType != PdfType {
          error := NotPdfMessage;
          return;
        }
        if f.size > MaxFileSize {
          error := TooLargeMessage;
          return;
        }
        file := selected;
        error := "";
      }
    }

    method AddTagClicked()
      requires Valid()
      modifies this`form, this`tagInput
      ensures Valid()
      ensures (form.tags, tagInput) == AddTag(old(form.tags), old(tagInput))
      ensures form == old(form).(tags := form.tags)
    {
      var r := AddTag(form.tags, tagInput);
      form := form.(tags := r.0);
      tagInput := r.1;
    }

    method RemoveTagClicked(tag: string)
      requires Valid()
      modifies this`form
      ensures Valid()
      ensures form == old(form).(tags := RemoveTag(old(form.tags), tag))
    {
      form := form.(tags := RemoveTag(form.tags, tag));
    }

    /**
     * `handleSubmit`: the three checks in order, then the upload. `storageError` is the outcome of the file
     * upload to storage (not modelled), `fileURL` the download URL it yields, `currentYear` the clock's year.
     */
    method HandleSubmit(storageError: Option<string>, fileURL: string, currentYear: int)
      requires Valid() && store.Valid()
      modifies this`error, this`navigatedTo, store
      ensures Valid() && store.Valid()
      ensures user.None? ==>
        error == NotSignedInMessage && store.resources == old(store.resources) && navigatedTo == old(navigatedTo)
      ensures user.Some? && file.None? ==>
        error == NoFileMessage && store.resources == old(store.resources) && navigatedTo == old(navigatedTo)
      ensures user.Some? && file.Some? && !RequiredFilled(form) ==>
        error == MissingFieldsMessage && store.resources == old(store.resources) && navigatedTo == old(navigatedTo)
      ensures user.Some? && file.Some? && RequiredFilled(form) && storageError.Some? ==>
        && error == (if storageError.value != "" then storageError.value else UploadFailedMessage)
        && store.resources == old(store.resources) && navigatedTo == old(navigatedTo)
      ensures user.Some? && file.Some? && RequiredFilled(form) && storageError.None? ==>
        && store.resources == old(store.resources)[old(store.nextResourceId) :=
             Resource(old(store.nextResourceId), BuildResourceData(form, user.value, currentYear), fileURL,
               file.value.name, file.value.size, 0, 0.0, 0, old(store.clock), old(store.clock))]
        && navigatedTo == Some(RedirectPath(form.resourceType)) && error == ""
      ensures store.users == old(store.users) && store.applications == old(store.applications)
      ensures store.ratings == old(store.ratings)
    {
      if user.None? {
        error := NotSignedInMessage;
        return;
      }
      if file.None? {
        error := NoFileMessage;
        return;
      }
      if !RequiredFilled(form) {
        error := MissingFieldsMessage;
        return;
      }
      error := "";
      if storageError.Some? {
        error := if storageError.value != "" then storageError.value else UploadFailedMessage;
        return;
      }
      var data := BuildResourceData(form, user.value, currentYear);
      var id := store.UploadResource(file.value, fileURL, data);
      navigatedTo := Some(RedirectPath(form.resourceType));
    }
  }
}
