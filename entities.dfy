/**
 * The documents of the four collections the core reads and writes (`users`, `contributorApplications`,
 * `resources`, `ratings`), with the field names the service and the pages actually write.
 * Timestamps (`Timestamp.now()`, `new Date()`) are values of an abstract monotone clock.
 */
module Entities {
  import opened Wrappers

  type Uid = string
  type ApplicationId = nat
  type ResourceId = nat
  type Time = nat

  datatype Role = Viewer | Contributor | Admin

  datatype Status = Pending | Approved | Rejected

  datatype ResourceType = Notes | Pyq | Syllabus

  /** The string stored in a resource's `type` field. */
  function TypeName(t: ResourceType): string {
    match t
    case Notes => "notes"
    case Pyq => "pyq"
    case Syllabus => "syllabus"
  }

  /** A `users` document together with its id. `photoURL` is `None` where the code writes `undefined`. */
  datatype User = User(
    uid: Uid,
    email: string,
    displayName: string,
    photoURL: Option<string>,
    bio: string,
    role: Role,
    showContactInfo: bool,
    phoneNumber: string,
    createdAt: Time,
    updatedAt: Time)

  /** `Partial<User>` as passed to `updateUserProfile`: `None` marks a field the caller did not give. */
  datatype ProfilePatch = ProfilePatch(
    email: Option<string>,
    displayName: Option<string>,
    photoURL: Option<string>,
    bio: Option<string>,
    role: Option<Role>,
    showContactInfo: Option<bool>,
    phoneNumber: Option<string>)

  /** `{ ...user, ...data }`: the given fields of the patch overwrite those of the profile. */
  function Merge(u: User, p: ProfilePatch): User {
    u.(email := p.email.GetOr(u.email),
       displayName := p.displayName.GetOr(u.displayName),
       photoURL := if p.photoURL.Some? then p.photoURL else u.photoURL,
       bio := p.bio.GetOr(u.bio),
       role := p.role.GetOr(u.role),
       showContactInfo := p.showContactInfo.GetOr(u.showContactInfo),
       phoneNumber := p.phoneNumber.GetOr(u.phoneNumber))
  }

  const NoChanges := ProfilePatch(None, None, None, None, None, None, None)

  /**
   * Merging overwrites exactly the fields the patch gives: each given field takes the patch's value, each
   * absent field keeps the profile's value, and the identity and timestamps are left alone.
   */
  lemma MergeKeepsUnpatched(u: User, p: ProfilePatch)
    ensures Merge(u, p).uid == u.uid && Merge(u, p).createdAt == u.createdAt && Merge(u, p).updatedAt == u.updatedAt
    ensures Merge(u, p).email == (if p.email.Some? then p.email.value else u.email)
    ensures Merge(u, p).displayName == (if p.displayName.Some? then p.displayName.value else u.displayName)
    ensures Merge(u, p).photoURL == (if p.photoURL.Some? then p.photoURL else u.photoURL)
    ensures Merge(u, p).bio == (if p.bio.Some? then p.bio.value else u.bio)
    ensures Merge(u, p).role == (if p.role.Some? then p.role.value else u.role)
    ensures Merge(u, p).showContactInfo == (if p.showContactInfo.Some? then p.showContactInfo.value else u.showContactInfo)
    ensures Merge(u, p).phoneNumber == (if p.phoneNumber.Some? then p.phoneNumber.value else u.phoneNumber)
    ensures Merge(u, NoChanges) == u
    ensures Merge(Merge(u, p), p) == Merge(u, p)
  {
  }

  /** What the application form sends: `Omit<ContributorApplication, 'id' | 'status' | ...>`. */
  datatype ApplicationRequest = ApplicationRequest(
    userId: Uid,
    userName: string,
    userEmail: string,
    name: string,
    collegeRollNumber: string,
    universityRollNumber: string,
    batch: string,
    semester: Option<string>)

  /** A `contributorApplications` document with its id. */
  datatype Application = Application(
    id: ApplicationId,
    request: ApplicationRequest,
    status: Status,
    appliedAt: Time,
    reviewedAt: Option<Time>,
    reviewedBy: Option<Uid>)

  /** `year: formData.year || new Date().getFullYear()`: the entered text, or the current year as a number. */
  datatype YearValue = Entered(text: string) | CurrentYear(year: int)

  /** The `resourceData` the upload page builds. */
  datatype ResourceData = ResourceData(
    title: string,
    description: string,
    resourceType: ResourceType,
    subject: string,
    semester: string,
    year: YearValue,
    tags: seq<string>,
    uploaderUID: Uid,
    uploaderName: string,
    uploaderEmail: string,
    uploaderPhone: string,
    showUploaderContact: bool)

  /** A file chosen in the browser: its name, MIME type and size in bytes. */
  datatype FileInfo = FileInfo(name: string, mimeType: string, size: nat)

  /** A `resources` document with its id; `averageRating` is kept exact. */
  datatype Resource = Resource(
    id: ResourceId,
    data: ResourceData,
    fileURL: string,
    fileName: string,
    fileSize: nat,
    downloads: nat,
    averageRating: real,
    totalRatings: nat,
    createdAt: Time,
    updatedAt: Time)

  /** A `ratings` document. */
  datatype Rating = Rating(resourceId: ResourceId, userId: Uid, rating: int, createdAt: Time)

  /** The filter object shared by the filter panel and `getResources`; `""` and `[]` stand for an absent filter. */
  datatype FilterOptions = FilterOptions(
    resourceType: string,
    subject: string,
    semester: string,
    year: string,
    tags: seq<string>,
    search: string)
}
