# StudyStack core in Dafny

StudyStack is a web app for sharing study material (notes, previous-year question papers, syllabi) over a
Firestore document store. This project models its core and proves properties of the model:

- the service layer (`src/services/firebase.ts`), as a `Store` class whose fields are the `users`,
  `contributorApplications`, `resources` and `ratings` collections and an abstract clock;
- the logic of the pages that drive it: the upload page, the filter panel, the admin dashboard, the
  contributor application form and the authentication context.

The modules:

- `Wrappers`: `Option` and `Result`.
- `Sequences`: subsequences and the `filter(x => x !== v)` idiom.
- `Text`: JavaScript's `trim`, `toLowerCase`, `includes` and the default `sort` order.
- `Entities`: the documents.
- `Ratings`: the rating collection and its aggregates.
- `Applications`: the contributor-application rules.
- `Service`: the store and `getResources`.
- `FilterPanel`, `AdminDashboard`, `ApplicationModal`, `UploadPage`, `AuthContext`: the pages.

The store invariant `Service.Store.Valid()` holds after every operation. It says:

- at most one pending or approved application per user, with applications in `appliedAt` order;
- at most one rating per (resource, user) pair, each value in 1..5;
- every resource's `totalRatings` and `averageRating` are the count and the exact mean of its stored ratings.

Two rules are enforced only by the user interface, not by the service:

- the 1..5 rating range (`src/components/UI/ResourceModal.tsx:231-234`);
- approving or rejecting only pending applications (`src/components/Admin/AdminDashboard.tsx:285`).

These are preconditions (`requires`) of the service methods. `Applications.ApprovingRejectedBreaksUniqueness`
shows what goes wrong without the pending gate.

## Model

| member | source | states |
|---|---|---|
| Entities.MergeKeepsUnpatched | src/contexts/AuthContext.tsx:115-119 | `{ ...user, ...data }` overwrites exactly the given fields: each of the seven patchable fields takes the patch's value when given and keeps its own otherwise; uid and timestamps keep their values; an empty patch changes nothing; merging twice equals merging once |
| Sequences.Without | src/pages/Upload.tsx:82-87 | `filter(x => x !== v)`: an in-order subsequence that drops every copy of the value and keeps every copy of every other element |
| Sequences.WithoutAppended | src/components/UI/FilterPanel.tsx:48-55 | filtering out a value that was just appended (and was absent before) restores the original list |
| Sequences.WithoutKeepsDistinct | src/pages/Upload.tsx:82-87 | removing a value keeps a duplicate-free list duplicate-free |
| Text.Trim | src/pages/Upload.tsx:73 | the trimmed text is the part of the text that begins at its first non-space, and everything before and after it is white space; it is `""` exactly when the text is all white space (tab, vertical tab, form feed, every Unicode space separator, line feed, carriage return, the line and paragraph separators and the byte order mark), and otherwise it neither starts nor ends with white space |
| Text.TrimSpaceSeparators | src/pages/Upload.tsx:73 | the ideographic space alone trims to `""`, and an em space and a no-break space around a letter are removed |
| Text.Insert | src/services/firebase.ts:369-378 | adding a value to a set kept as a strictly sorted list keeps it strictly sorted, and the members are the old ones plus the value |
| Text.StrictlySortedIsDistinct | src/services/firebase.ts:368-377 | a listing sorted strictly in increasing order holds no value twice, as `Array.from(new Set(...)).sort()` does |
| Ratings.Find | src/services/firebase.ts:303-314 | the (resource, user) query returns the first matching rating, and nothing exactly when no rating matches |
| Ratings.Upsert | src/services/firebase.ts:303-329 | the write adds one rating exactly when the pair has none, and that new rating, at the end, holds the pair, the value and the current time; an existing rating of the pair keeps its place, its pair and its `createdAt` and only its value is overwritten; every rating of another pair stays where and as it was |
| Ratings.UpsertKeepsBound | src/services/firebase.ts:303-329 | a rating written for an issued resource keeps every stored rating on an issued resource |
| Ratings.FindIsFirst | src/services/firebase.ts:303-314 | the first rating of the pair is the one the query returns |
| Ratings.Aggregate | src/services/firebase.ts:347-366 | the loop's `count` is the number of ratings of the resource and `averageRating` their sum over that count, or 0 with no ratings |
| Ratings.UpsertThenRatingOf | src/services/firebase.ts:303-345 | after `addOrUpdateRating(r, u, v)`, `getUserRating(r, u)` returns `v` |
| Ratings.UpsertKeepsUnique | src/services/firebase.ts:303-329 | at most one rating per (resource, user) pair before an upsert means the same after it |
| Ratings.UpsertAggregates | src/services/firebase.ts:303-329 | the count grows by one exactly for a first rating; the sum swaps the user's old value for the new one |
| Ratings.UpsertOtherResource | src/services/firebase.ts:303-329 | an upsert leaves the count and sum of every other resource unchanged |
| Ratings.UpsertKeepsRange | src/components/UI/ResourceModal.tsx:231-234 | with a star value in 1..5, every stored rating stays in 1..5 |
| Ratings.SumBounds | src/services/firebase.ts:354-357 | with values in 1..5, the sum of a resource's ratings lies between its count and five times its count |
| Ratings.MeanInRange | src/services/firebase.ts:360 | the average is 0 for an unrated resource and lies in 1..5 once it has a rating |
| Ratings.CountIsRaters | src/services/firebase.ts:347-366 | with one rating per pair, `totalRatings` is the number of distinct users who rated the resource |
| Ratings.NoRatingsForUnrated | src/services/firebase.ts:169-171 | a resource without stored ratings has count 0 and average 0, the values a new resource starts with |
| Ratings.ThreeRatingsScenario | src/services/firebase.ts:303-366 | three users rating 5, 3 and 4 give an average of 4 over 3 ratings |
| Ratings.ResubmitScenario | src/services/firebase.ts:303-366 | A rates 5, B rates 3, A re-rates 1: two ratings remain, average 2 |
| Applications.LatestFor | src/services/firebase.ts:102-124 | the index of the user's last application, none exactly when the user has no application |
| Applications.NewestFirst | src/services/firebase.ts:84-100 | the listing holds every application, last-created first |
| Applications.NewestFirstIsDescending | src/services/firebase.ts:84-100 | with increasing timestamps the listing is in strictly descending `appliedAt` order |
| Applications.LatestIsNewest | src/services/firebase.ts:102-124 | the application returned for a user has the latest `appliedAt` of all that user's applications |
| Applications.OnlyRejectedPasses | src/services/firebase.ts:63-73 | a user whose applications are all rejected passes the duplicate check |
| Applications.SubmitThenConflict | src/services/firebase.ts:59-82 | once a submission is stored, the same user's next submission fails the duplicate check |
| Applications.SubmitKeepsAtMostOne | src/services/firebase.ts:59-82 | a submission that passes the duplicate check keeps at most one active application per user |
| Applications.ReviewKeepsAtMostOne | src/services/firebase.ts:126-150 | approving or rejecting a pending application keeps at most one active application per user |
| Applications.ApprovingRejectedBreaksUniqueness | src/services/firebase.ts:126-141 | without the pending gate, approving a rejected application of a user who applied again leaves two active applications |
| Applications.Review | src/services/firebase.ts:126-150 | the review's `updateDoc`: only the named application changes, keeping its id, request and `appliedAt`, and takes the status, the reviewer and the review time |
| Applications.ReviewTransition | src/services/firebase.ts:126-150 | a review changes only the named application, from pending to the given status, with the reviewer recorded |
| Service.Store.CreateUserProfile | src/services/firebase.ts:24-30 | the profile is written under the uid (overwriting), with both timestamps from the clock; no other collection changes |
| Service.Store.UserProfile | src/services/firebase.ts:32-48 | a profile exactly when one is stored under the uid, and it carries that uid |
| Service.Store.UpdateUserProfile | src/services/firebase.ts:50-56 | the stored profile is merged with the patch and `updatedAt` stamped; a missing profile is an error with no change |
| Service.Store.SubmitContributorApplication | src/services/firebase.ts:59-82 | with a pending or approved application present it fails and stores nothing; otherwise it appends one pending application with the request's fields and returns its id |
| Service.Store.ContributorApplications | src/services/firebase.ts:84-100 | every application exactly once, in strictly descending `appliedAt` order |
| Service.Store.UserContributorApplication | src/services/firebase.ts:102-124 | one of the user's applications, the most recent one, and none exactly when the user never applied |
| Service.Store.ApproveContributorApplication | src/services/firebase.ts:126-141 | the named application becomes approved by the reviewer, then the applicant (only) becomes a contributor; a missing application changes nothing; a missing user leaves the approval written |
| Service.Store.RejectContributorApplication | src/services/firebase.ts:143-150 | the named application becomes rejected by the reviewer; no user changes |
| Service.Store.UploadResource | src/services/firebase.ts:164-176 | a new resource under a fresh id with the page's data, the file's name and size, and downloads, average and count zero |
| Service.Store.UpdateResourceDownloads | src/services/firebase.ts:251-256 | `downloads` of the resource grows by exactly one and nothing else changes; a missing resource is an error |
| Service.Store.DeleteResource | src/services/firebase.ts:258-265 | the resource document is removed and its ratings stay |
| Service.Store.AddOrUpdateRating | src/services/firebase.ts:303-329 | the ratings become the upsert of the old ones, `getUserRating` then returns the value, the resource's count and average are recomputed from all its ratings, and a missing resource is an error after the rating is written |
| Service.Store.UpdateResourceRating | src/services/firebase.ts:347-366 | writes the count and mean of the resource's ratings onto it, and nothing else; a missing resource is an error |
| Service.Store.UserRating | src/services/firebase.ts:331-345 | the value of the user's one rating of the resource, in 1..5, and nothing exactly when the user has not rated it |
| Service.Store.DistinctValues | src/services/firebase.ts:369-389 | `getSubjects`/`getSemesters`: a strictly sorted list whose elements are exactly the subjects (semesters) of the stored resources |
| Service.Store.AllTags | src/services/firebase.ts:391-401 | a strictly sorted list whose elements are exactly the tags of the stored resources |
| Service.UpsertThenRefresh | src/services/firebase.ts:303-366 | a rating write followed by the recomputation keeps every resource's count and average equal to those of its ratings |
| Service.RatingWriteKeepsConsistent | src/services/firebase.ts:303-366 | a star rating of an issued resource keeps ratings on issued resources, one per pair, in 1..5, with every aggregate current |
| Service.Matching | src/services/firebase.ts:180-197 | the query returns, in store order, exactly the resources that pass every set filter |
| Service.MatchingMultiplicity | src/services/firebase.ts:180-197 | the query keeps every copy of a matching resource and drops every other one |
| Service.NoFiltersMatchAll | src/services/firebase.ts:183-197 | with no filter set, no `where` clause is added and the query is the whole ordered collection |
| Service.TagFilterIsAnyOf | src/services/firebase.ts:195-197 | `array-contains-any`: a resource carrying any one of the chosen tags passes the tag filter |
| Service.FetchPage | src/services/firebase.ts:199-206 | the page is the next matches after the skipped ones, in order: as many as remain but at most 20, so 20 exactly when at least 20 remain |
| Service.PagesAreMatchingPrefix | src/services/firebase.ts:199-206 | paging on with the last document as cursor shows every match once and in order: the first n pages are the first 20·n matches |
| Service.KeepHits | src/services/firebase.ts:223-225 | an in-order subsequence holding exactly the resources whose lower-cased text contains the lower-cased search |
| Service.KeepHitsMultiplicity | src/services/firebase.ts:223-225 | the search keeps every copy of a hit and drops every other resource |
| Service.SearchFilter | src/services/firebase.ts:219-226 | an in-order subsequence of the fetched page; a blank search keeps the page as it is |
| Service.GetResources | src/services/firebase.ts:179-233 | the result is the search applied to the fetched page, holding exactly the page's hits (the whole page for a blank search), all passing the filters; `hasMore` holds exactly when 20 documents were fetched; the cursor is the last fetched document, absent exactly when nothing was fetched |
| Service.HasMoreIgnoresSearch | src/services/firebase.ts:228-232 | `hasMore` is the same whatever the search text |
| FilterPanel.HandleFilterChange | src/components/UI/FilterPanel.tsx:41-46 | the named key takes the value and every other key keeps its value |
| FilterPanel.HandleTagToggle | src/components/UI/FilterPanel.tsx:48-55 | a selected tag is removed (the rest in order), an unselected one appended; other tags and filters stay |
| FilterPanel.ToggleTwice | src/components/UI/FilterPanel.tsx:48-55 | toggling an unselected tag twice gives back the original filters |
| FilterPanel.ActiveMeansSomeKeySet | src/components/UI/FilterPanel.tsx:68-69 | `hasActiveFilters` holds exactly when some key other than the type differs from its unset value |
| FilterPanel.ClearFilters | src/components/UI/FilterPanel.tsx:57-66 | every key but the type is unset, the type is the page's type or `''`, and no filter is active afterwards |
| AdminDashboard.FilteredApplications | src/components/Admin/AdminDashboard.tsx:46-49 | an in-order subsequence holding exactly the applications of the chosen status, each as many times as listed; `all` keeps the list |
| AdminDashboard.ComputeStats | src/components/Admin/AdminDashboard.tsx:51-56 | `total` is the length, each status count is the size of that status's filtered view, and the counts sum to the total |
| AdminDashboard.StatusCountsSum | src/components/Admin/AdminDashboard.tsx:51-56 | pending, approved and rejected counts add up to the number of applications |
| AdminDashboard.CountIsFilteredLength | src/components/Admin/AdminDashboard.tsx:51-56 | the count of a status equals the length of that status's filtered view |
| AdminDashboard.RejectedLeavesPendingView | src/components/Admin/AdminDashboard.tsx:46-49 | a rejected application no longer shows in the default pending view |
| AdminDashboard.ReviewClosesActions | src/components/Admin/AdminDashboard.tsx:285 | after a review the application no longer offers approve and reject, and every other application offers them as before |
| AdminDashboard.NoRoleWriteGrantsAccess | src/components/Admin/AdminDashboard.tsx:61-74 | the dashboard stays closed to a first-sign-in profile and to an approved applicant: no role the app writes is admin |
| AdminDashboard.Dashboard.constructor | src/components/Admin/AdminDashboard.tsx:9-26 | the dashboard opens on the pending filter with the store's listing |
| AdminDashboard.Dashboard.HandleApprove | src/components/Admin/AdminDashboard.tsx:28-35 | an admin approves the application's own applicant as reviewer with their own uid; on success only that applicant's profile changes, to the contributor role with a new `updatedAt`, and the listing is reloaded; on an error the users and the listing stay; resources and ratings never change |
| AdminDashboard.Dashboard.HandleReject | src/components/Admin/AdminDashboard.tsx:37-44 | an admin rejects as reviewer with their own uid; users, resources and ratings stay as they were, and the listing is reloaded on success |
| ApplicationModal.BuildRequest | src/components/UI/ContributorApplicationModal.tsx:34-60 | no user gives the login error, a missing required field the fields error, and otherwise the request with the user's uid, name and email, the form's fields, and an empty semester left out |
| ApplicationModal.Modal.constructor | src/components/UI/ContributorApplicationModal.tsx:15-24 | the form starts with the user's display name and every other field empty |
| ApplicationModal.Modal.HandleSubmit | src/components/UI/ContributorApplicationModal.tsx:34-68 | a failed check shows its message and stores nothing; otherwise `onSuccess` is called and one application stored exactly when the duplicate check passes, and the service's message is shown when it does not; users, resources and ratings never change |
| UploadPage.SizeLimitInclusive | src/pages/Upload.tsx:62-65 | a PDF of exactly 10 MiB is accepted, one byte more is refused |
| UploadPage.AddTag | src/pages/Upload.tsx:72-80 | the trimmed input is appended exactly when it is not blank and not yet a tag, and the input is cleared only then; a well-formed tag list stays well formed |
| UploadPage.RemoveTag | src/pages/Upload.tsx:82-87 | every occurrence of the tag is removed, the other tags kept in order; a well-formed tag list stays well formed |
| UploadPage.RemoveUndoesAdd | src/pages/Upload.tsx:72-87 | adding a new tag and removing it again restores the tag list |
| UploadPage.AddTagIdempotent | src/pages/Upload.tsx:72-80 | a second `addTag` with the same input leaves the tags unchanged |
| UploadPage.BuildResourceData | src/pages/Upload.tsx:111-124 | title, description, subject and semester are the form's; the uploader is the signed-in user; email and phone are empty unless contact is shown; an empty year becomes the current year as a number |
| UploadPage.RedirectPath | src/pages/Upload.tsx:129-131 | the redirect is `/` followed by the type's stored name |
| UploadPage.NewAccountSentHome | src/pages/Upload.tsx:28-33 | a new account is a viewer, so the page sends it home and does not show the form |
| UploadPage.ApprovalOpensForm | src/pages/Upload.tsx:139 | once an admin approves an applicant's pending application, the applicant's next sign-in holds a contributor profile and the page shows the form without a redirect |
| UploadPage.DefaultYearNeverMatchesYearFilter | src/pages/Upload.tsx:117 | a resource stored with an empty year never passes a `year` filter |
| UploadPage.Page.constructor | src/pages/Upload.tsx:12-26 | the page starts with the initial form, no file, no error |
| UploadPage.Page.HandleFileChange | src/pages/Upload.tsx:52-70 | a non-PDF or a file over 10 MiB sets its error and keeps the earlier file; an acceptable file becomes the selection and clears the error; the selection is always acceptable |
| UploadPage.Page.AddTagClicked | src/pages/Upload.tsx:72-80 | the form's tags and the input become those `AddTag` gives, and the rest of the form stays |
| UploadPage.Page.RemoveTagClicked | src/pages/Upload.tsx:82-87 | the form's tags become those `RemoveTag` gives, and the rest of the form stays |
| UploadPage.Page.HandleSubmit | src/pages/Upload.tsx:89-137 | no user, then no file, then a missing title, subject or semester stop with their errors, store nothing and stay on the page; a storage failure shows its message and stays; otherwise the built resource is stored and the page goes to its type's listing; users, applications and ratings never change |
| AuthContext.NonEmpty | src/contexts/AuthContext.tsx:98 | `x \|\| undefined`: present exactly when given and not empty |
| AuthContext.ViewerProfile | src/contexts/AuthContext.tsx:37-47 | a new profile is a viewer with empty bio and phone and contact details hidden |
| AuthContext.Provider.constructor | src/contexts/AuthContext.tsx:25-26 | the session starts with no user, loading |
| AuthContext.Provider.OnAuthStateChanged | src/contexts/AuthContext.tsx:29-57 | a stored profile becomes the user unchanged; an account without one gets a viewer profile, stored and held; signing out clears the user; loading ends |
| AuthContext.Provider.SignOut | src/contexts/AuthContext.tsx:111-113 | after signing out there is no user, and the store's users, applications, resources and ratings are unchanged |
| AuthContext.Provider.SignUp | src/contexts/AuthContext.tsx:62-82 | a viewer profile with the given email and name is always written under the new uid, and nothing else in the store changes |
| AuthContext.Provider.SignInWithGoogle | src/contexts/AuthContext.tsx:88-109 | a viewer profile is written only when the account has none, so an existing profile and its role are never overwritten; nothing else in the store changes |
| AuthContext.Provider.UpdateUserProfile | src/contexts/AuthContext.tsx:115-128 | without a user it fails with "No user logged in"; otherwise the stored and the held profile are both merged with the patch, and they agree apart from `updatedAt` when they agreed before; applications, resources and ratings never change |

## Left out

- The Firebase SDK, the network and blob storage (`uploadBytes`, `getDownloadURL`, `deleteObject`) are not modelled. A file's download URL is a parameter, and the outcome of the storage upload is a parameter of `UploadPage.Page.HandleSubmit`.
- Firebase Auth is not modelled: account creation, `signIn`, the Firebase Auth `updateProfile` call and the listener subscription. The uid of a new account is a parameter.
- Concurrency and atomicity are not modelled. Calls run one after another. This hides the check-then-add race in `submitContributorApplication` and the read-then-write race in the rating aggregation. The two separate writes of approve appear as a possible partial state.
- Timestamps come from an abstract counter (`Store.clock`, and a `now` parameter for the browser's `new Date()`). They are not wall-clock times.
- Firestore rejects `undefined` field values unless configured otherwise. That would make some writes throw: the application form's `semester: undefined` and the Google sign-in's `photoURL: undefined`. The model stores these as absent values.
- `averageRating` is an exact rational number, not a floating-point one. `formatFileSize`, the `toFixed` display and Profile's average of averages are not modelled.
- `JSON.stringify(resource)` is an uninterpreted function parameter (`text`). `toLowerCase` is modelled on ASCII letters only.
- The `sort()` order is modelled as code-point order over characters. It is not UTF-16 code-unit order, so it differs only for characters outside the Basic Multilingual Plane.
- `getResources` has two simplifications. The store's `createdAt`-descending order is a parameter sequence, and the `startAfter` cursor is a count of already-shown matches.
- The `tags || []` fallback in `getAllTags` is not modelled, because every modelled resource has a tag list.
- Service.Store.AddOrUpdateRating: requires the resource id to have been issued by the store. Rating an id that was never uploaded is not modelled.
- Service.Store.AddOrUpdateRating: the 1..5 rating range is a precondition. The service does not check it; only the rating stars limit it.
- Service.Store.ApproveContributorApplication: the pending status of the application is a precondition. The service does not check it; only the dashboard's buttons enforce it.
- Service.Store.RejectContributorApplication: the pending status of the application is a precondition, for the same reason.
- Service.Store.DeleteResource: cascading deletion of ratings and comments is not modelled, and neither is the deletion of the stored file.
- `updateUserProfile` accepts any `Partial<User>`. The model's patch covers only the editable profile fields: uid and timestamps cannot be patched.
- Not modelled:
  - the comments collection (`addComment`, `getComments`, `deleteComment`);
  - `getResourceById`;
  - the Profile page, including its role selector, which lets users change their own role;
  - the markup-only pages and components.
- Form input handlers (`handleInputChange`) and loading flags are not modelled, except `loading` in the authentication context.
