/** The admin dashboard (`AdminDashboard.tsx`): its status filter, its counters, its gate and its two actions. */
module AdminDashboard {
  import opened Wrappers
  import opened Entities
  import opened Sequences
  import opened Applications
  import opened Service
  import opened AuthContext

  /** The dashboard's filter buttons; it opens on `pending`. */
  datatype StatusFilter = All | Only(status: Status)

  const InitialFilter := Only(Pending)

  predicate Shown(a: Application, filter: StatusFilter) {
    filter.All? || a.status == filter.status
  }

  /** `filteredApplications`: the listed applications the filter lets through, in listing order. */
  function FilteredApplications(apps: seq<Application>, filter: StatusFilter): (r: seq<Application>)
    ensures IsSubsequence(r, apps)
    ensures forall a :: a in r <==> a in apps && Shown(a, filter)
    ensures forall a :: multiset(r)[a] == if Shown(a, filter) then multiset(apps)[a] else 0
    ensures filter.All? ==> r == apps
    decreases |apps|
  {
    if apps == [] then []
    else
      var rest := FilteredApplications(apps[1..], filter);
      assert apps == [apps[0]] + apps[1..];
      if Shown(apps[0], filter) then [apps[0]] + rest
      else
        SkipHead(rest, apps);
        rest
  }

  /** How many listed applications have the status. */
  function CountStatus(apps: seq<Application>, s: Status): nat
    decreases |apps|
  {
    if apps == [] then 0 else (if apps[0].status == s then 1 else 0) + CountStatus(apps[1..], s)
  }

  datatype Stats = Stats(total: nat, pending: nat, approved: nat, rejected: nat)

  /** `stats`: the number of listed applications, and of those in each status. */
  function ComputeStats(apps: seq<Application>): (s: Stats)
    ensures s.total == |apps|
    ensures s.pending + s.approved + s.rejected == s.total
    ensures s.pending == |FilteredApplications(apps, Only(Pending))|
    ensures s.approved == |FilteredApplications(apps, Only(Approved))|
    ensures s.rejected == |FilteredApplications(apps, Only(Rejected))|
  {
    StatusCountsSum(apps);
    CountIsFilteredLength(apps, Pending);
    CountIsFilteredLength(apps, Approved);
    CountIsFilteredLength(apps, Rejected);
    Stats(|apps|, CountStatus(apps, Pending), CountStatus(apps, Approved), CountStatus(apps, Rejected))
  }

  lemma {:induction false} StatusCountsSum(apps: seq<Application>)
    ensures CountStatus(apps, Pending) + CountStatus(apps, Approved) + CountStatus(apps, Rejected) == |apps|
    decreases |apps|
  {
    if apps != [] {
      StatusCountsSum(apps[1..]);
    }
  }

  lemma {:induction false} CountIsFilteredLength(apps: seq<Application>, s: Status)
    ensures CountStatus(apps, s) == |FilteredApplications(apps, Only(s))|
    decreases |apps|
  {
    if apps != [] {
      CountIsFilteredLength(apps[1..], s);
    }
  }

  /** The dashboard renders only for a signed-in admin; everyone else sees "Access Denied". */
  predicate AccessGranted(user: Option<User>) {
    user.Some? && user.value.role == Admin
  }

  /** Approve and reject buttons appear on pending applications only. */
  predicate ActionsOffered(a: Application) {
    a.status == Pending
  }

  /** A review closes the buttons of the reviewed application and leaves those of every other one as they were. */
  lemma ReviewClosesActions(apps: seq<Application>, id: ApplicationId, status: Status, reviewerId: Uid, now: Time)
    requires id < |apps| && status != Pending
    ensures !ActionsOffered(Review(apps, id, status, reviewerId, now)[id])
    ensures forall j :: 0 <= j < |apps| && j != id ==>
      ActionsOffered(Review(apps, id, status, reviewerId, now)[j]) == ActionsOffered(apps[j])
  {
  }

  /**
   * Neither way the app writes a role opens the dashboard: a first sign-in stores a viewer, and an approval
   * makes a contributor. Admins are made outside the app.
   */
  lemma NoRoleWriteGrantsAccess(a: AuthUser, now: Time, u: User)
    ensures !AccessGranted(Some(FirstSignInProfile(a, now)))
    ensures !AccessGranted(Some(u.(role := Contributor, updatedAt := now)))
  {
  }

  class Dashboard {
    const store: Store
    const user: Option<User>
    var applications: seq<Application>
    var filter: StatusFilter

    /** Mounting the dashboard loads the listing. */
    constructor (store: Store, user: Option<User>)
      requires store.Valid()
      ensures this.store == store && this.user == user
      ensures applications == store.ContributorApplications() && filter == InitialFilter
    {
      this.store := store;
      this.user := user;
      applications := store.ContributorApplications();
      filter := InitialFilter;
    }

    /**
     * `handleApprove`: approve as the signed-in admin, then reload the listing. When the service throws,
     * the error is logged and the listing on screen stays as it was. The button passes the application's
     * own applicant as `userId`.
     */
    method HandleApprove(applicationId: ApplicationId, userId: Uid)
      requires store.Valid() && AccessGranted(user)
      requires applicationId < |store.applications| ==> ActionsOffered(store.applications[applicationId])
      requires applicationId < |store.applications| ==> userId == store.applications[applicationId].request.userId
      modifies this`applications, store
      ensures store.Valid()
      ensures applicationId < |old(store.applications)| ==>
        store.applications == Review(old(store.applications), applicationId, Approved, user.value.uid, old(store.clock))
      ensures applicationId < |old(store.applications)| && userId in old(store.users) ==>
        var applicant := store.applications[applicationId].request.userId;
        && applicant in store.users && store.users[applicant].role == Contributor
        && applications == store.ContributorApplications()
      ensures applicationId < |old(store.applications)| && userId in old(store.users) ==>
        store.users == old(store.users)[userId := old(store.users)[userId].(role := Contributor, updatedAt := old(store.clock) + 1)]
      ensures !(applicationId < |old(store.applications)| && userId in old(store.users)) ==>
        applications == old(applications) && store.users == old(store.users)
      ensures store.resources == old(store.resources) && store.ratings == old(store.ratings)
    {
      var res := store.ApproveContributorApplication(applicationId, userId, user.value.uid);
      if res.Success? {
        applications := store.ContributorApplications();
      }
    }

    /** `handleReject`: reject as the signed-in admin, then reload the listing; on an error nothing is reloaded. */
    method HandleReject(applicationId: ApplicationId)
      requires store.Valid() && AccessGranted(user)
      requires applicationId < |store.applications| ==> ActionsOffered(store.applications[applicationId])
      modifies this`applications, store
      ensures store.Valid()
      ensures applicationId < |old(store.applications)| ==>
        && store.applications == Review(old(store.applications), applicationId, Rejected, user.value.uid, old(store.clock))
        && applications == store.ContributorApplications()
      ensures applicationId >= |old(store.applications)| ==> applications == old(applications)
      ensures store.users == old(store.users)
      ensures store.resources == old(store.resources) && store.ratings == old(store.ratings)
    {
      var res := store.RejectContributorApplication(applicationId, user.value.uid);
      if res.Success? {
        applications := store.ContributorApplications();
      }
    }
  }

  /** Rejecting a listed pending application takes it off the dashboard's default (pending) view. */
  lemma RejectedLeavesPendingView(apps: seq<Application>, id: ApplicationId, reviewerId: Uid, now: Time)
    requires id < |apps| && apps[id].status == Pending
    ensures Review(apps, id, Rejected, reviewerId, now)[id] !in FilteredApplications(Review(apps, id, Rejected, reviewerId, now), InitialFilter)
  {
  }
}
