/**
 * The `contributorApplications` collection as a sequence in creation order (the id of an application is
 * its position), and the rules `submitContributorApplication`, `approveContributorApplication`,
 * `rejectContributorApplication` and the two listing queries apply to it.
 */
module Applications {
  import opened Wrappers
  import opened Entities

  /** The statuses the duplicate check looks for: `where('status', 'in', ['pending', 'approved'])`. */
  predicate Active(a: Application) {
    a.status == Pending || a.status == Approved
  }

  /** The duplicate-check query finds a document. */
  predicate HasActiveApplication(apps: seq<Application>, userId: Uid) {
    exists i :: 0 <= i < |apps| && apps[i].request.userId == userId && Active(apps[i])
  }

  /** At most one pending or approved application per user. */
  predicate AtMostOneActive(apps: seq<Application>) {
    forall i, j :: 0 <= i < j < |apps| && Active(apps[i]) && Active(apps[j]) ==>
      apps[i].request.userId != apps[j].request.userId
  }

  /** Later applications carry later `appliedAt` timestamps. */
  predicate AppliedInOrder(apps: seq<Application>) {
    forall i, j :: 0 <= i < j < |apps| ==> apps[i].appliedAt < apps[j].appliedAt
  }

  /** The document `addDoc` stores: the request's fields, `status: 'pending'`, `appliedAt: now`. */
  function NewApplication(id: ApplicationId, req: ApplicationRequest, now: Time): Application {
    Application(id, req, Pending, now, None, None)
  }

  /** The `updateDoc` of approve and reject: status, review time and reviewer of one application. */
  function Review(apps: seq<Application>, id: ApplicationId, status: Status, reviewerId: Uid, now: Time): (r: seq<Application>)
    requires id < |apps|
    ensures |r| == |apps| && forall j :: 0 <= j < |apps| && j != id ==> r[j] == apps[j]
    ensures r[id].id == apps[id].id && r[id].request == apps[id].request && r[id].appliedAt == apps[id].appliedAt
    ensures r[id].status == status && r[id].reviewedBy == Some(reviewerId) && r[id].reviewedAt == Some(now)
  {
    apps[id := apps[id].(status := status, reviewedAt := Some(now), reviewedBy := Some(reviewerId))]
  }

  /** `getUserContributorApplication`'s query (`orderBy('appliedAt', 'desc'), limit(1)`): the user's last application. */
  function LatestFor(apps: seq<Application>, userId: Uid): (r: Option<nat>)
    ensures r.Some? ==> r.value < |apps| && apps[r.value].request.userId == userId
    ensures r.Some? ==> forall j :: r.value < j < |apps| ==> apps[j].request.userId != userId
    ensures r.None? <==> forall j :: 0 <= j < |apps| ==> apps[j].request.userId != userId
    decreases |apps|
  {
    if apps == [] then None
    else if apps[|apps| - 1].request.userId == userId then Some(|apps| - 1)
    else LatestFor(apps[..|apps| - 1], userId)
  }

  /** `getContributorApplications`' order, `orderBy('appliedAt', 'desc')`. */
  function NewestFirst(apps: seq<Application>): (r: seq<Application>)
    ensures |r| == |apps|
    ensures forall i :: 0 <= i < |apps| ==> r[i] == apps[|apps| - 1 - i]
    decreases |apps|
  {
    if apps == [] then [] else [apps[|apps| - 1]] + NewestFirst(apps[..|apps| - 1])
  }

  // ---------------------------------------------------------------------------------------------
  // Properties

  /** Under increasing timestamps the listing runs from the newest application to the oldest. */
  lemma NewestFirstIsDescending(apps: seq<Application>)
    requires AppliedInOrder(apps)
    ensures forall i, j :: 0 <= i < j < |apps| ==> NewestFirst(apps)[i].appliedAt > NewestFirst(apps)[j].appliedAt
  {
  }

  /** The application `getUserContributorApplication` returns is the user's most recent one. */
  lemma LatestIsNewest(apps: seq<Application>, userId: Uid)
    requires AppliedInOrder(apps)
    ensures LatestFor(apps, userId).Some? ==>
      forall j :: 0 <= j < |apps| && apps[j].request.userId == userId ==>
        apps[j].appliedAt <= apps[LatestFor(apps, userId).value].appliedAt
  {
  }

  /** A user whose only earlier applications were rejected passes the duplicate check. */
  lemma OnlyRejectedPasses(apps: seq<Application>, userId: Uid)
    requires forall i :: 0 <= i < |apps| && apps[i].request.userId == userId ==> apps[i].status == Rejected
    ensures !HasActiveApplication(apps, userId)
  {
  }

  /** Once a submission is stored, the next submission of the same user fails the duplicate check. */
  lemma SubmitThenConflict(apps: seq<Application>, req: ApplicationRequest, now: Time)
    ensures HasActiveApplication(apps + [NewApplication(|apps|, req, now)], req.userId)
  {
    assert (apps + [NewApplication(|apps|, req, now)])[|apps|] == NewApplication(|apps|, req, now);
  }

  /** A submission that passed the duplicate check keeps at most one active application per user. */
  lemma SubmitKeepsAtMostOne(apps: seq<Application>, req: ApplicationRequest, now: Time)
    requires AtMostOneActive(apps) && !HasActiveApplication(apps, req.userId)
    ensures AtMostOneActive(apps + [NewApplication(|apps|, req, now)])
  {
    var apps' := apps + [NewApplication(|apps|, req, now)];
    forall i, j | 0 <= i < j < |apps'| && Active(apps'[i]) && Active(apps'[j])
      ensures apps'[i].request.userId != apps'[j].request.userId
    {
      assert apps'[i] == apps[i];
      if j < |apps| {
        assert apps'[j] == apps[j];
      }
    }
  }

  /** Approving or rejecting a pending application keeps at most one active application per user. */
  lemma ReviewKeepsAtMostOne(apps: seq<Application>, id: ApplicationId, status: Status, reviewerId: Uid, now: Time)
    requires AtMostOneActive(apps) && id < |apps| && apps[id].status == Pending
    ensures AtMostOneActive(Review(apps, id, status, reviewerId, now))
  {
    var apps' := Review(apps, id, status, reviewerId, now);
    forall i, j | 0 <= i < j < |apps'| && Active(apps'[i]) && Active(apps'[j])
      ensures apps'[i].request.userId != apps'[j].request.userId
    {
      assert Active(apps[i]) && Active(apps[j]);
    }
  }

  /**
   * Why approval needs the pending gate: approving an already rejected application of a user who has
   * applied again leaves two active applications for that user.
   */
  lemma ApprovingRejectedBreaksUniqueness(req: ApplicationRequest, reviewerId: Uid)
    ensures var apps := [Application(0, req, Rejected, 0, Some(1), Some(reviewerId)), NewApplication(1, req, 2)];
            AtMostOneActive(apps) && !AtMostOneActive(Review(apps, 0, Approved, reviewerId, 3))
  {
    var apps := [Application(0, req, Rejected, 0, Some(1), Some(reviewerId)), NewApplication(1, req, 2)];
    var apps' := Review(apps, 0, Approved, reviewerId, 3);
    assert Active(apps'[0]) && Active(apps'[1]);
  }

  /** A stored application's status can only go from pending to approved or rejected. */
  lemma ReviewTransition(apps: seq<Application>, id: ApplicationId, status: Status, reviewerId: Uid, now: Time, k: nat)
    requires id < |apps| && apps[id].status == Pending && status != Pending && k < |apps|
    ensures var r := Review(apps, id, status, reviewerId, now);
            r[k] == apps[k] || (k == id && apps[k].status == Pending && r[k].status == status && r[k].reviewedBy == Some(reviewerId))
  {
  }
}
