/**
 * The service layer (`src/services/firebase.ts`) over an in-memory document store.
 * Each exported operation is a method of `Store` (or, for the query-only parts of `getResources`,
 * a function); `Store.Valid()` collects the invariants the operations keep.
 */
module Service {
  import opened Wrappers
  import opened Entities
  import opened Sequences
  import opened Text
  import opened Applications
  import opened Ratings

  /** What the service throws: the duplicate-application error, and `updateDoc` on a missing document. */
  datatype ServiceError = AlreadyApplied | NoDocument(collection: string)

  const AlreadyAppliedMessage := "You already have a pending or approved application"

  function Message(e: ServiceError): string {
    match e
    case AlreadyApplied => AlreadyAppliedMessage
    case NoDocument(c) => "No document to update in " + c
  }

  /** Each stored resource carries the count and the mean of the ratings stored for it. */
  ghost predicate AggregatesCurrent(resources: map<ResourceId, Resource>, ratings: seq<Rating>) {
    forall id :: id in resources ==>
      resources[id].totalRatings == CountFor(ratings, id) && resources[id].averageRating == MeanFor(ratings, id)
  }

  /** What `updateResourceRating` leaves in the resources: the rated resource's aggregates recomputed. */
  function Refreshed(resources: map<ResourceId, Resource>, ratings: seq<Rating>, id: ResourceId): (r: map<ResourceId, Resource>)
    ensures r.Keys == resources.Keys
    ensures forall k :: k in r ==> r[k].id == resources[k].id
  {
    if id in resources
    then resources[id := resources[id].(averageRating := MeanFor(ratings, id), totalRatings := CountFor(ratings, id))]
    else resources
  }

  /** A rating write followed by the recomputation of its resource keeps every stored aggregate current. */
  lemma UpsertThenRefresh(resources: map<ResourceId, Resource>, rs: seq<Rating>, id: ResourceId, userId: Uid, value: int, now: Time)
    requires AggregatesCurrent(resources, rs)
    ensures AggregatesCurrent(Refreshed(resources, Upsert(rs, id, userId, value, now), id), Upsert(rs, id, userId, value, now))
  {
    var rs' := Upsert(rs, id, userId, value, now);
    forall k | k != id ensures CountFor(rs', k) == CountFor(rs, k) && SumFor(rs', k) == SumFor(rs, k) {
      UpsertOtherResource(rs, id, userId, value, now, k);
    }
    RefreshKeepsCurrent(resources, rs, rs', id);
  }

  /** Recomputing the aggregates of `id` keeps every aggregate current when only the ratings of `id` changed. */
  lemma RefreshKeepsCurrent(resources: map<ResourceId, Resource>, rs: seq<Rating>, rs': seq<Rating>, id: ResourceId)
    requires AggregatesCurrent(resources, rs)
    requires forall k :: k != id ==> CountFor(rs', k) == CountFor(rs, k) && SumFor(rs', k) == SumFor(rs, k)
    ensures AggregatesCurrent(Refreshed(resources, rs', id), rs')
  {
    var refreshed := Refreshed(resources, rs', id);
    forall k | k in refreshed
      ensures refreshed[k].totalRatings == CountFor(rs', k) && refreshed[k].averageRating == MeanFor(rs', k)
    {
      if k == id {
        assert refreshed[k] == resources[id].(averageRating := MeanFor(rs', id), totalRatings := CountFor(rs', id));
      } else {
        assert refreshed[k] == resources[k];
      }
    }
  }

  /**
   * The rating side of the store invariant: ratings only of issued resources, one per (resource, user)
   * pair, each in 1..5, and every resource's aggregates current.
   */
  ghost predicate RatingsConsistent(resources: map<ResourceId, Resource>, ratings: seq<Rating>, next: ResourceId) {
    && (forall i :: 0 <= i < |ratings| ==> ratings[i].resourceId < next)
    && UniquePairs(ratings)
    && InRange(ratings)
    && AggregatesCurrent(resources, ratings)
  }

  /** `addOrUpdateRating` with a star value, on an issued resource, keeps the rating side of the invariant. */
  lemma RatingWriteKeepsConsistent(resources: map<ResourceId, Resource>, rs: seq<Rating>, next: ResourceId,
                                   id: ResourceId, userId: Uid, value: int, now: Time)
    requires RatingsConsistent(resources, rs, next) && 1 <= value <= 5 && id < next
    ensures RatingsConsistent(Refreshed(resources, Upsert(rs, id, userId, value, now), id), Upsert(rs, id, userId, value, now), next)
  {
    UpsertKeepsUnique(rs, id, userId, value, now);
    UpsertKeepsRange(rs, id, userId, value, now);
    UpsertKeepsBound(rs, id, userId, value, now, next);
    UpsertThenRefresh(resources, rs, id, userId, value, now);
  }

  /** The two text fields `getSubjects` and `getSemesters` collect. */
  datatype TextField = SubjectField | SemesterField

  function FieldOf(r: Resource, field: TextField): string {
    match field
    case SubjectField => r.data.subject
    case SemesterField => r.data.semester
  }

  class Store {
    var users: map<Uid, User>
    var applications: seq<Application>
    var resources: map<ResourceId, Resource>
    var ratings: seq<Rating>
    /** Resource ids are issued in order; every id below this one has been handed out. */
    var nextResourceId: ResourceId
    /** The abstract `Timestamp.now()`: every timestamped write reads it, then it advances. */
    var clock: Time

    ghost predicate Valid()
      reads this
    {
      && (forall u :: u in users ==> users[u].uid == u)
      && (forall i :: 0 <= i < |applications| ==> applications[i].id == i && applications[i].appliedAt < clock)
      && AppliedInOrder(applications)
      && AtMostOneActive(applications)
      && (forall id :: id in resources ==> resources[id].id == id && id < nextResourceId)
      && RatingsConsistent(resources, ratings, nextResourceId)
    }

    constructor ()
      ensures Valid()
      ensures users == map[] && applications == [] && resources == map[] && ratings == []
    {
      users := map[];
      applications := [];
      resources := map[];
      ratings := [];
      nextResourceId := 0;
      clock := 0;
    }

    // -------------------------------------------------------------------------------------------
    // Users

    /** `createUserProfile`: `setDoc` writes (or overwrites) the profile under `uid`, stamping both times. */
    method CreateUserProfile(uid: Uid, profile: User)
      requires Valid()
      modifies this
      ensures Valid()
      ensures users == old(users)[uid := profile.(uid := uid, createdAt := old(clock), updatedAt := old(clock))]
      ensures clock == old(clock) + 1
      ensures unchanged(this`applications, this`resources, this`ratings, this`nextResourceId)
    {
      users := users[uid := profile.(uid := uid, createdAt := clock, updatedAt := clock)];
      clock := clock + 1;
    }

    /** `getUserProfile`. */
    function UserProfile(uid: Uid): (r: Option<User>)
      reads this
      requires Valid()
      ensures r.Some? <==> uid in users
      ensures r.Some? ==> r.value == users[uid] && r.value.uid == uid
    {
      if uid in users then Some(users[uid]) else None
    }

    /** `updateUserProfile`: `updateDoc` merges the given fields and stamps `updatedAt`; it fails on a missing profile. */
    method UpdateUserProfile(uid: Uid, patch: ProfilePatch) returns (res: Result<(), ServiceError>)
      requires Valid()
      modifies this
      ensures Valid()
      ensures uid !in old(users) ==> res == Failure(NoDocument("users")) && users == old(users)
      ensures uid in old(users) ==>
        res == Success(()) && users == old(users)[uid := Merge(old(users)[uid], patch).(updatedAt := old(clock))]
      ensures unchanged(this`applications, this`resources, this`ratings, this`nextResourceId)
    {
      if uid !in users {
        return Failure(NoDocument("users"));
      }
      users := users[uid := Merge(users[uid], patch).(updatedAt := clock)];
      clock := clock + 1;
      return Success(());
    }

    // -------------------------------------------------------------------------------------------
    // Contributor applications

    /**
     * `submitContributorApplication`: refuses while the user has a pending or approved application,
     * otherwise stores a pending application with the request's fields and returns its id.
     */
    method SubmitContributorApplication(req: ApplicationRequest) returns (res: Result<ApplicationId, ServiceError>)
      requires Valid()
      modifies this
      ensures Valid()
      ensures HasActiveApplication(old(applications), req.userId) ==>
        res == Failure(AlreadyApplied) && applications == old(applications) && clock == old(clock)
      ensures !HasActiveApplication(old(applications), req.userId) ==>
        && res == Success(|old(applications)|)
        && applications == old(applications) + [NewApplication(|old(applications)|, req, old(clock))]
        && clock == old(clock) + 1
      ensures unchanged(this`users, this`resources, this`ratings, this`nextResourceId)
    {
      var existing := HasActiveApplication(applications, req.userId);
      if existing {
        return Failure(AlreadyApplied);
      }
      SubmitKeepsAtMostOne(applications, req, clock);
      var id := |applications|;
      applications := applications + [NewApplication(id, req, clock)];
      clock := clock + 1;
      return Success(id);
    }

    /** `getContributorApplications`: every application, newest first. */
    function ContributorApplications(): (r: seq<Application>)
      reads this
      requires Valid()
      ensures |r| == |applications|
      ensures forall a :: a in r <==> a in applications
      ensures forall i, j :: 0 <= i < j < |r| ==> r[i].appliedAt > r[j].appliedAt
    {
      NewestFirstIsDescending(applications);
      var r := NewestFirst(applications);
      assert forall a :: a in applications ==> a in r by {
        forall a | a in applications ensures a in r {
          var k :| 0 <= k < |applications| && applications[k] == a;
          assert r[|applications| - 1 - k] == a;
        }
      }
      r
    }

    /** `getUserContributorApplication`: the user's most recent application, or none. */
    function UserContributorApplication(userId: Uid): (r: Option<Application>)
      reads this
      requires Valid()
      ensures r.Some? ==> r.value in applications && r.value.request.userId == userId
      ensures r.Some? ==> forall a :: a in applications && a.request.userId == userId ==> a.appliedAt <= r.value.appliedAt
      ensures r.None? <==> forall a :: a in applications ==> a.request.userId != userId
    {
      LatestIsNewest(applications, userId);
      match LatestFor(applications, userId)
      case None => None
      case Some(i) => Some(applications[i])
    }

    /**
     * `approveContributorApplication`: first marks the application approved by `reviewerId`, then makes
     * `userId` a contributor. The two writes are separate: a missing user leaves the approval in place.
     */
    method ApproveContributorApplication(applicationId: ApplicationId, userId: Uid, reviewerId: Uid)
      returns (res: Result<(), ServiceError>)
      requires Valid()
      requires applicationId < |applications| ==> applications[applicationId].status == Pending
      modifies this
      ensures Valid()
      ensures applicationId >= |old(applications)| ==>
        res == Failure(NoDocument("contributorApplications")) && applications == old(applications) && users == old(users)
      ensures applicationId < |old(applications)| ==>
        applications == Review(old(applications), applicationId, Approved, reviewerId, old(clock))
      ensures applicationId < |old(applications)| && userId in old(users) ==>
        res == Success(()) && users == old(users)[userId := old(users)[userId].(role := Contributor, updatedAt := old(clock) + 1)]
      ensures applicationId < |old(applications)| && userId !in old(users) ==>
        res == Failure(NoDocument("users")) && users == old(users)
      ensures unchanged(this`resources, this`ratings, this`nextResourceId)
    {
      if applicationId >= |applications| {
        return Failure(NoDocument("contributorApplications"));
      }
      ReviewKeepsAtMostOne(applications, applicationId, Approved, reviewerId, clock);
      applications := Review(applications, applicationId, Approved, reviewerId, clock);
      clock := clock + 1;
      if userId !in users {
        return Failure(NoDocument("users"));
      }
      users := users[userId := users[userId].(role := Contributor, updatedAt := clock)];
      clock := clock + 1;
      return Success(());
    }

    /** `rejectContributorApplication`: marks the application rejected by `reviewerId`; no user changes. */
    method RejectContributorApplication(applicationId: ApplicationId, reviewerId: Uid)
      returns (res: Result<(), ServiceError>)
      requires Valid()
      requires applicationId < |applications| ==> applications[applicationId].status == Pending
      modifies this
      ensures Valid()
      ensures applicationId >= |old(applications)| ==>
        res == Failure(NoDocument("contributorApplications")) && applications == old(applications)
      ensures applicationId < |old(applications)| ==>
        res == Success(()) && applications == Review(old(applications), applicationId, Rejected, reviewerId, old(clock))
      ensures unchanged(this`users, this`resources, this`ratings, this`nextResourceId)
    {
      if applicationId >= |applications| {
        return Failure(NoDocument("contributorApplications"));
      }
      ReviewKeepsAtMostOne(applications, applicationId, Rejected, reviewerId, clock);
      applications := Review(applications, applicationId, Rejected, reviewerId, clock);
      clock := clock + 1;
      return Success(());
    }

    // -------------------------------------------------------------------------------------------
    // Resources

    /**
     * The document part of `uploadResource`: a new resource with the page's data, the stored file's
     * URL, name and size, and zeroed counters. The file upload itself is outside the model.
     */
    method UploadResource(file: FileInfo, fileURL: string, data: ResourceData) returns (id: ResourceId)
      requires Valid()
      modifies this
      ensures Valid()
      ensures id == old(nextResourceId) && id !in old(resources)
      ensures resources == old(resources)[id := Resource(id, data, fileURL, file.name, file.size, 0, 0.0, 0, old(clock), old(clock))]
      ensures resources[id].downloads == 0 && resources[id].averageRating == 0.0 && resources[id].totalRatings == 0
      ensures unchanged(this`users, this`applications, this`ratings)
    {
      id := nextResourceId;
      NoRatingsForUnrated(ratings, id);
      resources := resources[id := Resource(id, data, fileURL, file.name, file.size, 0, 0.0, 0, clock, clock)];
      nextResourceId := nextResourceId + 1;
      clock := clock + 1;
    }

    /** `updateResourceDownloads`: `increment(1)` on `downloads`, nothing else; fails on a missing resource. */
    method UpdateResourceDownloads(resourceId: ResourceId) returns (res: Result<(), ServiceError>)
      requires Valid()
      modifies this
      ensures Valid()
      ensures resourceId !in old(resources) ==> res == Failure(NoDocument("resources")) && resources == old(resources)
      ensures resourceId in old(resources) ==>
        res == Success(()) && resources == old(resources)[resourceId := old(resources)[resourceId].(downloads := old(resources)[resourceId].downloads + 1)]
      ensures unchanged(this`users, this`applications, this`ratings, this`nextResourceId, this`clock)
    {
      if resourceId !in resources {
        return Failure(NoDocument("resources"));
      }
      resources := resources[resourceId := resources[resourceId].(downloads := resources[resourceId].downloads + 1)];
      return Success(());
    }

    /** The document part of `deleteResource`: the resource goes, its ratings stay behind. */
    method DeleteResource(resourceId: ResourceId)
      requires Valid()
      modifies this
      ensures Valid()
      ensures resources == old(resources) - {resourceId}
      ensures unchanged(this`users, this`applications, this`ratings, this`nextResourceId, this`clock)
    {
      resources := resources - {resourceId};
    }

    // -------------------------------------------------------------------------------------------
    // Ratings

    /**
     * `addOrUpdateRating`: adds the user's rating of the resource or overwrites its value, then
     * recomputes the resource's `averageRating` and `totalRatings` from all its stored ratings.
     * The rating write stays even when the resource is gone and the recomputation fails.
     */
    method AddOrUpdateRating(resourceId: ResourceId, userId: Uid, value: int) returns (res: Result<(), ServiceError>)
      requires Valid()
      requires 1 <= value <= 5
      requires resourceId < nextResourceId
      modifies this
      ensures Valid()
      ensures ratings == Upsert(old(ratings), resourceId, userId, value, old(clock))
      ensures RatingOf(ratings, resourceId, userId) == Some(value)
      ensures resources == Refreshed(old(resources), ratings, resourceId)
      ensures res == if resourceId in old(resources) then Success(()) else Failure(NoDocument("resources"))
      ensures unchanged(this`users, this`applications, this`nextResourceId)
    {
      var existing := Find(ratings, resourceId, userId);
      UpsertThenRatingOf(ratings, resourceId, userId, value, clock);
      RatingWriteKeepsConsistent(resources, ratings, nextResourceId, resourceId, userId, value, clock);
      ratings := Upsert(ratings, resourceId, userId, value, clock);
      if existing.None? {
        clock := clock + 1;
      }
      res := UpdateResourceRating(resourceId);
    }

    /** `updateResourceRating`: count and mean of the resource's ratings written onto the resource. */
    method UpdateResourceRating(resourceId: ResourceId) returns (res: Result<(), ServiceError>)
      modifies this`resources
      ensures resources == Refreshed(old(resources), ratings, resourceId)
      ensures res == if resourceId in old(resources) then Success(()) else Failure(NoDocument("resources"))
    {
      var averageRating, count := Aggregate(ratings, resourceId);
      if resourceId !in resources {
        return Failure(NoDocument("resources"));
      }
      resources := resources[resourceId := resources[resourceId].(averageRating := averageRating, totalRatings := count)];
      return Success(());
    }

    /**
     * `getUserRating`: the value of the user's rating of the resource, which is unique, or nothing when the
     * user has not rated it.
     */
    function UserRating(resourceId: ResourceId, userId: Uid): (r: Option<int>)
      reads this
      requires Valid()
      ensures r.None? <==> forall i :: 0 <= i < |ratings| ==> !IsFor(ratings[i], resourceId, userId)
      ensures forall i :: 0 <= i < |ratings| && IsFor(ratings[i], resourceId, userId) ==> r == Some(ratings[i].rating)
      ensures r.Some? ==> 1 <= r.value <= 5
    {
      var k := Find(ratings, resourceId, userId);
      assert k.Some? ==> forall i :: 0 <= i < |ratings| && IsFor(ratings[i], resourceId, userId) ==> i == k.value by {
        if k.Some? {
          forall i | 0 <= i < |ratings| && IsFor(ratings[i], resourceId, userId) ensures i == k.value {
            UniqueMatch(ratings, resourceId, userId, i, k.value);
          }
        }
      }
      RatingOf(ratings, resourceId, userId)
    }

    // -------------------------------------------------------------------------------------------
    // Search and filter helpers

    /** `getSubjects` (field `subject`) and `getSemesters` (field `semester`): the distinct values, sorted. */
    method DistinctValues(field: TextField) returns (values: seq<string>)
      ensures StrictlySorted(values)
      ensures forall s :: s in values <==> exists id :: id in resources && FieldOf(resources[id], field) == s
    {
      values := [];
      var pending := resources.Keys;
      while pending != {}
        invariant pending <= resources.Keys
        invariant StrictlySorted(values)
        invariant forall s :: s in values <==> exists id :: id in resources && id !in pending && FieldOf(resources[id], field) == s
        decreases |pending|
      {
        var id :| id in pending;
        values := Insert(values, FieldOf(resources[id], field));
        pending := pending - {id};
      }
    }

    /** `getAllTags`: every tag of every resource, once each, sorted. */
    method AllTags() returns (tags: seq<string>)
      ensures StrictlySorted(tags)
      ensures forall t :: t in tags <==> exists id :: id in resources && t in resources[id].data.tags
    {
      tags := [];
      var pending := resources.Keys;
      while pending != {}
        invariant pending <= resources.Keys
        invariant StrictlySorted(tags)
        invariant forall t :: t in tags <==> exists id :: id in resources && id !in pending && t in resources[id].data.tags
        decreases |pending|
      {
        var id :| id in pending;
        var resourceTags := resources[id].data.tags;
        for j := 0 to |resourceTags|
          invariant StrictlySorted(tags)
          invariant forall t :: t in tags <==>
            (exists k :: k in resources && k !in pending && t in resources[k].data.tags) || t in resourceTags[..j]
        {
          tags := Insert(tags, resourceTags[j]);
        }
        assert resourceTags[..|resourceTags|] == resourceTags;
        pending := pending - {id};
      }
    }
  }

  // ---------------------------------------------------------------------------------------------
  // getResources: the query's filters and page, and the client-side search

  const PageSize := 20

  /** The `where` clauses `getResources` adds for each filter that is set. */
  predicate MatchesFilters(r: Resource, f: FilterOptions) {
    && (f.resourceType == "" || TypeName(r.data.resourceType) == f.resourceType)
    && (f.subject == "" || r.data.subject == f.subject)
    && (f.semester == "" || r.data.semester == f.semester)
    && (f.year == "" || r.data.year == Entered(f.year))
    && (f.tags == [] || exists t :: t in f.tags && t in r.data.tags)
  }

  /** The resources, in the store's `createdAt`-descending order, that pass the filters. */
  function Matching(ordered: seq<Resource>, f: FilterOptions): (r: seq<Resource>)
    ensures IsSubsequence(r, ordered)
    ensures forall x :: x in r <==> x in ordered && MatchesFilters(x, f)
    decreases |ordered|
  {
    if ordered == [] then []
    else
      var rest := Matching(ordered[1..], f);
      assert ordered == [ordered[0]] + ordered[1..];
      if MatchesFilters(ordered[0], f) then [ordered[0]] + rest
      else
        SkipHead(rest, ordered);
        rest
  }

  /** With no filter set the query is the whole `createdAt`-ordered collection. */
  lemma {:induction false} NoFiltersMatchAll(ordered: seq<Resource>, f: FilterOptions)
    requires f.resourceType == "" && f.subject == "" && f.semester == "" && f.year == "" && f.tags == []
    ensures Matching(ordered, f) == ordered
    decreases |ordered|
  {
    if ordered != [] {
      NoFiltersMatchAll(ordered[1..], f);
      assert ordered == [ordered[0]] + ordered[1..];
    }
  }

  /** A tag filter matches a resource that carries any one of the chosen tags (`array-contains-any`). */
  lemma TagFilterIsAnyOf(r: Resource, f: FilterOptions, t: string)
    requires f.resourceType == "" && f.subject == "" && f.semester == "" && f.year == ""
    requires t in f.tags && t in r.data.tags
    ensures MatchesFilters(r, f)
  {
  }

  /** The filter keeps every copy of a matching resource and none of the others. */
  lemma {:induction false} MatchingMultiplicity(ordered: seq<Resource>, f: FilterOptions, x: Resource)
    ensures multiset(Matching(ordered, f))[x] == if MatchesFilters(x, f) then multiset(ordered)[x] else 0
    decreases |ordered|
  {
    if ordered != [] {
      MatchingMultiplicity(ordered[1..], f, x);
      assert ordered == [ordered[0]] + ordered[1..];
    }
  }

  /**
   * The fetched page: `startAfter` the `skip` matches already shown, then `limit(20)`. The page is the
   * next run of matches in order: as many as remain, but at most 20.
   */
  function FetchPage(ordered: seq<Resource>, f: FilterOptions, skip: nat): (page: seq<Resource>)
    ensures |page| == if skip >= |Matching(ordered, f)| then 0 else Min(PageSize, |Matching(ordered, f)| - skip)
    ensures forall i :: 0 <= i < |page| ==> page[i] == Matching(ordered, f)[skip + i]
    ensures forall x :: x in page ==> x in ordered && MatchesFilters(x, f)
    ensures |page| == PageSize <==> |Matching(ordered, f)| >= skip + PageSize
  {
    var m := Matching(ordered, f);
    if skip >= |m| then []
    else
      var end := Min(skip + PageSize, |m|);
      SliceOf(m, skip, end);
      m[skip..end]
  }

  /** A slice holds the elements at its positions, and only elements of the sequence it is cut from. */
  lemma SliceOf<T>(m: seq<T>, from: nat, to: nat)
    requires from <= to <= |m|
    ensures |m[from..to]| == to - from
    ensures forall i :: 0 <= i < to - from ==> m[from..to][i] == m[from + i]
    ensures forall x :: x in m[from..to] ==> x in m
  {
  }

  function Min(a: int, b: int): int {
    if a <= b then a else b
  }

  /** The first `n` pages, each fetched after the documents of the pages before it. */
  function Pages(ordered: seq<Resource>, f: FilterOptions, n: nat): seq<Resource> {
    if n == 0 then [] else Pages(ordered, f, n - 1) + FetchPage(ordered, f, (n - 1) * PageSize)
  }

  /**
   * Paging through the matches with the last document as the cursor shows each of them once, in order:
   * the first `n` pages are the first `20 * n` matches (or all of them).
   */
  lemma {:induction false} PagesAreMatchingPrefix(ordered: seq<Resource>, f: FilterOptions, n: nat)
    ensures Pages(ordered, f, n) == Matching(ordered, f)[..Min(n * PageSize, |Matching(ordered, f)|)]
  {
    if n > 0 {
      var m := Matching(ordered, f);
      var start := (n - 1) * PageSize;
      var page := FetchPage(ordered, f, start);
      assert Pages(ordered, f, n) == Pages(ordered, f, n - 1) + page;
      PagesAreMatchingPrefix(ordered, f, n - 1);
      assert n * PageSize == start + PageSize;
      if start >= |m| {
        assert page == [];
      } else {
        assert |page| == Min(start + PageSize, |m|) - start;
        SliceThenNext(m, start, page, Min(start + PageSize, |m|));
      }
    }
  }

  /** A prefix followed by the next `e - k` elements is the longer prefix. */
  lemma SliceThenNext<T>(m: seq<T>, k: nat, next: seq<T>, e: nat)
    requires k <= e <= |m| && |next| == e - k
    requires forall i :: 0 <= i < |next| ==> next[i] == m[k + i]
    ensures m[..k] + next == m[..e]
  {
    assert forall i :: 0 <= i < e ==> (m[..k] + next)[i] == m[i] by {
      forall i | 0 <= i < e ensures (m[..k] + next)[i] == m[i] {
        if i >= k {
          assert (m[..k] + next)[i] == next[i - k];
        }
      }
    }
  }

  /** The search is applied only when the search text is not blank. */
  predicate SearchActive(search: string) {
    Trim(search) != ""
  }

  /** `JSON.stringify(resource).toLowerCase().includes(search.toLowerCase())`; `text` stands for the serialisation. */
  predicate SearchHit(r: Resource, search: string, text: Resource -> string) {
    Contains(Lower(text(r)), Lower(search))
  }

  function KeepHits(rs: seq<Resource>, search: string, text: Resource -> string): (r: seq<Resource>)
    ensures IsSubsequence(r, rs)
    ensures forall x :: x in r <==> x in rs && SearchHit(x, search, text)
    decreases |rs|
  {
    if rs == [] then []
    else
      var rest := KeepHits(rs[1..], search, text);
      assert rs == [rs[0]] + rs[1..];
      if SearchHit(rs[0], search, text) then [rs[0]] + rest
      else
        SkipHead(rest, rs);
        rest
  }

  /** The search keeps every copy of a hit and none of the others. */
  lemma {:induction false} KeepHitsMultiplicity(rs: seq<Resource>, search: string, text: Resource -> string, x: Resource)
    ensures multiset(KeepHits(rs, search, text))[x] == if SearchHit(x, search, text) then multiset(rs)[x] else 0
    decreases |rs|
  {
    if rs != [] {
      KeepHitsMultiplicity(rs[1..], search, text, x);
      assert rs == [rs[0]] + rs[1..];
    }
  }

  /** The client-side search step: an in-order subsequence of the fetched page. */
  function SearchFilter(rs: seq<Resource>, search: string, text: Resource -> string): (r: seq<Resource>)
    ensures IsSubsequence(r, rs)
    ensures forall x :: x in r <==> x in rs && (!SearchActive(search) || SearchHit(x, search, text))
    ensures !SearchActive(search) ==> r == rs
  {
    if SearchActive(search) then KeepHits(rs, search, text)
    else
      SubsequenceRefl(rs);
      rs
  }

  datatype Page = Page(resources: seq<Resource>, lastDoc: Option<Resource>, hasMore: bool)

  /**
   * `getResources`: the searched page, the last fetched document as the next cursor, and `hasMore`,
   * which looks at the fetched page before the search.
   */
  function GetResources(ordered: seq<Resource>, f: FilterOptions, skip: nat, text: Resource -> string): (p: Page)
    ensures p.resources == SearchFilter(FetchPage(ordered, f, skip), f.search, text)
    ensures forall x :: x in p.resources <==>
      x in FetchPage(ordered, f, skip) && (!SearchActive(f.search) || SearchHit(x, f.search, text))
    ensures forall x :: x in p.resources ==> x in ordered && MatchesFilters(x, f)
    ensures p.hasMore <==> |FetchPage(ordered, f, skip)| == PageSize
    ensures p.lastDoc.None? <==> FetchPage(ordered, f, skip) == []
    ensures p.lastDoc.Some? ==> p.lastDoc.value == Matching(ordered, f)[skip + |FetchPage(ordered, f, skip)| - 1]
  {
    var fetched := FetchPage(ordered, f, skip);
    var found := SearchFilter(fetched, f.search, text);
    Page(found, if fetched == [] then None else Some(fetched[|fetched| - 1]), |fetched| == PageSize)
  }

  /** `hasMore` does not depend on the search text. */
  lemma HasMoreIgnoresSearch(ordered: seq<Resource>, f: FilterOptions, skip: nat, text: Resource -> string, search: string)
    ensures GetResources(ordered, f, skip, text).hasMore == GetResources(ordered, f.(search := search), skip, text).hasMore
  {
    assert Matching(ordered, f) == Matching(ordered, f.(search := search)) by {
      MatchingIgnoresSearch(ordered, f, search);
    }
  }

  lemma {:induction false} MatchingIgnoresSearch(ordered: seq<Resource>, f: FilterOptions, search: string)
    ensures Matching(ordered, f) == Matching(ordered, f.(search := search))
    decreases |ordered|
  {
    if ordered != [] {
      MatchingIgnoresSearch(ordered[1..], f, search);
    }
  }
}
