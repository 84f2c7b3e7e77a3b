/**
 * The rating collection as a sequence of `ratings` documents in store order, and the functions that
 * `addOrUpdateRating`, `getUserRating` and `updateResourceRating` compute from it.
 */
module Ratings {
  import opened Wrappers
  import opened Entities

  predicate IsFor(r: Rating, resourceId: ResourceId, userId: Uid) {
    r.resourceId == resourceId && r.userId == userId
  }

  /** At most one rating per (resource, user) pair. */
  predicate UniquePairs(rs: seq<Rating>) {
    forall i, j :: 0 <= i < j < |rs| ==> !IsFor(rs[j], rs[i].resourceId, rs[i].userId)
  }

  /** Under unique pairs, two ratings of the same pair are the same rating. */
  lemma UniqueMatch(rs: seq<Rating>, resourceId: ResourceId, userId: Uid, i: nat, j: nat)
    requires UniquePairs(rs) && i < |rs| && j < |rs|
    requires IsFor(rs[i], resourceId, userId) && IsFor(rs[j], resourceId, userId)
    ensures i == j
  {
  }

  /** Every stored value lies in the 1..5 range the rating stars offer. */
  predicate InRange(rs: seq<Rating>) {
    forall i :: 0 <= i < |rs| ==> 1 <= rs[i].rating <= 5
  }

  /** Number of ratings stored for a resource. */
  function CountFor(rs: seq<Rating>, resourceId: ResourceId): nat
    decreases |rs|
  {
    if rs == [] then 0
    else CountFor(rs[..|rs| - 1], resourceId) + (if rs[|rs| - 1].resourceId == resourceId then 1 else 0)
  }

  /** Sum of the values stored for a resource. */
  function SumFor(rs: seq<Rating>, resourceId: ResourceId): int
    decreases |rs|
  {
    if rs == [] then 0
    else SumFor(rs[..|rs| - 1], resourceId) + (if rs[|rs| - 1].resourceId == resourceId then rs[|rs| - 1].rating else 0)
  }

  /** The mean of the values stored for a resource, 0 when there are none. */
  function MeanFor(rs: seq<Rating>, resourceId: ResourceId): real {
    var n := CountFor(rs, resourceId);
    if n > 0 then SumFor(rs, resourceId) as real / n as real else 0.0
  }

  /** The users who rated a resource. */
  ghost function RatersOf(rs: seq<Rating>, resourceId: ResourceId): set<Uid> {
    set i | 0 <= i < |rs| && rs[i].resourceId == resourceId :: rs[i].userId
  }

  /** The query `where resourceId == ... && userId == ...`, taking its first document. */
  function Find(rs: seq<Rating>, resourceId: ResourceId, userId: Uid): (r: Option<nat>)
    ensures r.Some? ==> r.value < |rs| && IsFor(rs[r.value], resourceId, userId)
    ensures r.Some? ==> forall j :: 0 <= j < r.value ==> !IsFor(rs[j], resourceId, userId)
    ensures r.None? <==> forall j :: 0 <= j < |rs| ==> !IsFor(rs[j], resourceId, userId)
    decreases |rs|
  {
    if rs == [] then None
    else if IsFor(rs[0], resourceId, userId) then Some(0)
    else
      match Find(rs[1..], resourceId, userId)
      case None => None
      case Some(i) => Some(i + 1)
  }

  /** The first document of the pair is the one the query returns. */
  lemma FindIsFirst(rs: seq<Rating>, resourceId: ResourceId, userId: Uid, i: nat)
    requires i < |rs| && IsFor(rs[i], resourceId, userId)
    requires forall j :: 0 <= j < i ==> !IsFor(rs[j], resourceId, userId)
    ensures Find(rs, resourceId, userId) == Some(i)
  {
    var k := Find(rs, resourceId, userId);
    assert k.Some?;
  }

  /** `getUserRating`: the value of the user's rating for the resource, if any. */
  function RatingOf(rs: seq<Rating>, resourceId: ResourceId, userId: Uid): Option<int> {
    match Find(rs, resourceId, userId)
    case None => None
    case Some(i) => Some(rs[i].rating)
  }

  /**
   * The writes of `addOrUpdateRating`: add a new rating stamped `now` when none exists for the pair,
   * otherwise overwrite only the `rating` field of the one the query returns.
   */
  function Upsert(rs: seq<Rating>, resourceId: ResourceId, userId: Uid, value: int, now: Time): (r: seq<Rating>)
    ensures |r| == if Find(rs, resourceId, userId).None? then |rs| + 1 else |rs|
    ensures forall i :: 0 <= i < |rs| && !IsFor(rs[i], resourceId, userId) ==> r[i] == rs[i]
    ensures Find(rs, resourceId, userId).None? ==> r[|rs|] == Rating(resourceId, userId, value, now)
    ensures Find(rs, resourceId, userId).Some? ==>
      var k := Find(rs, resourceId, userId).value;
      r[k] == rs[k].(rating := value) && r[k].createdAt == rs[k].createdAt && IsFor(r[k], resourceId, userId)
  {
    match Find(rs, resourceId, userId)
    case None => rs + [Rating(resourceId, userId, value, now)]
    case Some(i) => rs[i := rs[i].(rating := value)]
  }

  /** An upsert for a resource below `bound` keeps every stored rating's resource below `bound`. */
  lemma UpsertKeepsBound(rs: seq<Rating>, resourceId: ResourceId, userId: Uid, value: int, now: Time, bound: nat)
    requires resourceId < bound && forall i :: 0 <= i < |rs| ==> rs[i].resourceId < bound
    ensures forall i :: 0 <= i < |Upsert(rs, resourceId, userId, value, now)| ==>
      Upsert(rs, resourceId, userId, value, now)[i].resourceId < bound
  {
  }

  /** The loop of `updateResourceRating`: sum and count the ratings of the resource. */
  method Aggregate(rs: seq<Rating>, resourceId: ResourceId) returns (averageRating: real, count: nat)
    ensures count == CountFor(rs, resourceId)
    ensures averageRating == MeanFor(rs, resourceId)
  {
    var totalRating := 0;
    count := 0;
    for i := 0 to |rs|
      invariant totalRating == SumFor(rs[..i], resourceId)
      invariant count == CountFor(rs[..i], resourceId)
    {
      assert rs[..i + 1][..i] == rs[..i];
      if rs[i].resourceId == resourceId {
        totalRating := totalRating + rs[i].rating;
        count := count + 1;
      }
    }
    assert rs[..|rs|] == rs;
    averageRating := if count > 0 then totalRating as real / count as real else 0.0;
  }

  // ---------------------------------------------------------------------------------------------
  // Properties of the upsert and of the aggregate

  /** Updating one document changes the count and sum of a resource only through that document. */
  lemma {:induction false} UpdateAt(rs: seq<Rating>, i: nat, x: Rating, resourceId: ResourceId)
    requires i < |rs|
    ensures CountFor(rs[i := x], resourceId) ==
      CountFor(rs, resourceId) - (if rs[i].resourceId == resourceId then 1 else 0) + (if x.resourceId == resourceId then 1 else 0)
    ensures SumFor(rs[i := x], resourceId) ==
      SumFor(rs, resourceId) - (if rs[i].resourceId == resourceId then rs[i].rating else 0) + (if x.resourceId == resourceId then x.rating else 0)
    decreases |rs|
  {
    var n := |rs| - 1;
    var rs' := rs[i := x];
    if i < n {
      assert rs'[..n] == rs[..n][i := x];
      UpdateAt(rs[..n], i, x, resourceId);
    } else {
      assert rs'[..n] == rs[..n];
    }
  }

  lemma AppendOne(rs: seq<Rating>, x: Rating, resourceId: ResourceId)
    ensures CountFor(rs + [x], resourceId) == CountFor(rs, resourceId) + (if x.resourceId == resourceId then 1 else 0)
    ensures SumFor(rs + [x], resourceId) == SumFor(rs, resourceId) + (if x.resourceId == resourceId then x.rating else 0)
  {
    assert (rs + [x])[..|rs|] == rs;
  }

  /** After an upsert, `getUserRating` returns the submitted value. */
  lemma UpsertThenRatingOf(rs: seq<Rating>, resourceId: ResourceId, userId: Uid, value: int, now: Time)
    ensures RatingOf(Upsert(rs, resourceId, userId, value, now), resourceId, userId) == Some(value)
  {
    var rs' := Upsert(rs, resourceId, userId, value, now);
    match Find(rs, resourceId, userId)
    case None =>
      assert forall j :: 0 <= j < |rs| ==> rs'[j] == rs[j];
      FindIsFirst(rs', resourceId, userId, |rs|);
    case Some(i) =>
      assert forall j :: 0 <= j < i ==> rs'[j] == rs[j];
      FindIsFirst(rs', resourceId, userId, i);
  }

  /** An upsert never creates a second rating for a pair. */
  lemma UpsertKeepsUnique(rs: seq<Rating>, resourceId: ResourceId, userId: Uid, value: int, now: Time)
    requires UniquePairs(rs)
    ensures UniquePairs(Upsert(rs, resourceId, userId, value, now))
  {
    var rs' := Upsert(rs, resourceId, userId, value, now);
    match Find(rs, resourceId, userId)
    case None =>
      forall i, j | 0 <= i < j < |rs'| ensures !IsFor(rs'[j], rs'[i].resourceId, rs'[i].userId) {
        if j == |rs| {
          assert rs'[i] == rs[i];
        } else {
          assert rs'[i] == rs[i] && rs'[j] == rs[j];
        }
      }
    case Some(k) =>
      forall i, j | 0 <= i < j < |rs'| ensures !IsFor(rs'[j], rs'[i].resourceId, rs'[i].userId) {
        assert !IsFor(rs[j], rs[i].resourceId, rs[i].userId);
      }
  }

  /**
   * The count for the rated resource grows by one exactly when the user had not rated it, and the sum
   * replaces the user's previous value by the new one.
   */
  lemma UpsertAggregates(rs: seq<Rating>, resourceId: ResourceId, userId: Uid, value: int, now: Time)
    ensures CountFor(Upsert(rs, resourceId, userId, value, now), resourceId) ==
      CountFor(rs, resourceId) + (if RatingOf(rs, resourceId, userId).None? then 1 else 0)
    ensures SumFor(Upsert(rs, resourceId, userId, value, now), resourceId) ==
      SumFor(rs, resourceId) + value - RatingOf(rs, resourceId, userId).GetOr(0)
  {
    match Find(rs, resourceId, userId)
    case None =>
      AppendOne(rs, Rating(resourceId, userId, value, now), resourceId);
    case Some(i) =>
      UpdateAt(rs, i, rs[i].(rating := value), resourceId);
  }

  /** The ratings of every other resource are untouched by an upsert. */
  lemma UpsertOtherResource(rs: seq<Rating>, resourceId: ResourceId, userId: Uid, value: int, now: Time, other: ResourceId)
    requires other != resourceId
    ensures CountFor(Upsert(rs, resourceId, userId, value, now), other) == CountFor(rs, other)
    ensures SumFor(Upsert(rs, resourceId, userId, value, now), other) == SumFor(rs, other)
  {
    match Find(rs, resourceId, userId)
    case None =>
      AppendOne(rs, Rating(resourceId, userId, value, now), other);
    case Some(i) =>
      UpdateAt(rs, i, rs[i].(rating := value), other);
  }

  /** An upsert with a value in 1..5 keeps every stored value in range. */
  lemma UpsertKeepsRange(rs: seq<Rating>, resourceId: ResourceId, userId: Uid, value: int, now: Time)
    requires InRange(rs) && 1 <= value <= 5
    ensures InRange(Upsert(rs, resourceId, userId, value, now))
  {
  }

  lemma {:induction false} SumBounds(rs: seq<Rating>, resourceId: ResourceId)
    requires InRange(rs)
    ensures CountFor(rs, resourceId) <= SumFor(rs, resourceId) <= 5 * CountFor(rs, resourceId)
    decreases |rs|
  {
    if rs != [] {
      SumBounds(rs[..|rs| - 1], resourceId);
    }
  }

  /** With every value in 1..5, a resource's average lies in 1..5 once it has a rating, and is 0 before. */
  lemma MeanInRange(rs: seq<Rating>, resourceId: ResourceId)
    requires InRange(rs)
    ensures CountFor(rs, resourceId) == 0 ==> MeanFor(rs, resourceId) == 0.0
    ensures CountFor(rs, resourceId) > 0 ==> 1.0 <= MeanFor(rs, resourceId) <= 5.0
  {
    if CountFor(rs, resourceId) > 0 {
      SumBounds(rs, resourceId);
      QuotientBounds(SumFor(rs, resourceId) as real, CountFor(rs, resourceId) as real);
    }
  }

  lemma QuotientBounds(s: real, n: real)
    requires 0.0 < n && n <= s <= 5.0 * n
    ensures 1.0 <= s / n <= 5.0
  {
    assert s / n * n == s;
  }

  lemma RatersSnoc(rs: seq<Rating>, resourceId: ResourceId)
    requires rs != []
    ensures var n := |rs| - 1;
            RatersOf(rs, resourceId) ==
            RatersOf(rs[..n], resourceId) + (if rs[n].resourceId == resourceId then {rs[n].userId} else {})
  {
    var n := |rs| - 1;
    var extra: set<Uid> := if rs[n].resourceId == resourceId then {rs[n].userId} else {};
    forall u | u in RatersOf(rs, resourceId) ensures u in RatersOf(rs[..n], resourceId) + extra {
      var i :| 0 <= i < |rs| && rs[i].resourceId == resourceId && rs[i].userId == u;
      if i < n {
        assert rs[..n][i] == rs[i];
      }
    }
    forall u | u in RatersOf(rs[..n], resourceId) ensures u in RatersOf(rs, resourceId) {
      var i :| 0 <= i < n && rs[..n][i].resourceId == resourceId && rs[..n][i].userId == u;
      assert rs[i] == rs[..n][i];
    }
  }

  lemma UniquePrefix(rs: seq<Rating>, n: nat)
    requires UniquePairs(rs) && n <= |rs|
    ensures UniquePairs(rs[..n])
  {
    forall i, j | 0 <= i < j < n ensures !IsFor(rs[..n][j], rs[..n][i].resourceId, rs[..n][i].userId) {
      assert rs[..n][i] == rs[i] && rs[..n][j] == rs[j];
    }
  }

  /** With one rating per pair, the last rating's user has no earlier rating of the same resource. */
  lemma LastRaterIsNew(rs: seq<Rating>)
    requires UniquePairs(rs) && rs != []
    ensures rs[|rs| - 1].userId !in RatersOf(rs[..|rs| - 1], rs[|rs| - 1].resourceId)
  {
    var n := |rs| - 1;
    forall i | 0 <= i < n && rs[..n][i].resourceId == rs[n].resourceId
      ensures rs[..n][i].userId != rs[n].userId
    {
      assert rs[..n][i] == rs[i];
    }
  }

  /** With one rating per pair, `totalRatings` is the number of distinct users who rated the resource. */
  lemma {:induction false} CountIsRaters(rs: seq<Rating>, resourceId: ResourceId)
    requires UniquePairs(rs)
    ensures CountFor(rs, resourceId) == |RatersOf(rs, resourceId)|
    decreases |rs|
  {
    if rs != [] {
      var n := |rs| - 1;
      UniquePrefix(rs, n);
      CountIsRaters(rs[..n], resourceId);
      RatersSnoc(rs, resourceId);
      if rs[n].resourceId == resourceId {
        LastRaterIsNew(rs);
      }
    }
  }

  /** No ratings stored for a resource: average and count are both 0. */
  lemma {:induction false} NoRatingsForUnrated(rs: seq<Rating>, resourceId: ResourceId)
    requires forall i :: 0 <= i < |rs| ==> rs[i].resourceId != resourceId
    ensures CountFor(rs, resourceId) == 0 && MeanFor(rs, resourceId) == 0.0
    decreases |rs|
  {
    if rs != [] {
      NoRatingsForUnrated(rs[..|rs| - 1], resourceId);
    }
  }

  /** Three users rate one resource 5, 3 and 4: the average is 4 over 3 ratings. */
  lemma ThreeRatingsScenario(r: ResourceId, a: Uid, b: Uid, c: Uid)
    requires a != b && b != c && a != c
    ensures var rs := Upsert(Upsert(Upsert([], r, a, 5, 0), r, b, 3, 1), r, c, 4, 2);
            CountFor(rs, r) == 3 && MeanFor(rs, r) == 4.0
  {
    var rs1 := Upsert([], r, a, 5, 0);
    assert rs1 == [Rating(r, a, 5, 0)];
    var rs2 := Upsert(rs1, r, b, 3, 1);
    assert Find(rs1, r, b) == None;
    assert rs2 == [Rating(r, a, 5, 0), Rating(r, b, 3, 1)];
    var rs3 := Upsert(rs2, r, c, 4, 2);
    assert Find(rs2, r, c) == None;
    assert rs3 == rs2 + [Rating(r, c, 4, 2)];
    AppendOne([], Rating(r, a, 5, 0), r);
    AppendOne(rs1, Rating(r, b, 3, 1), r);
    AppendOne(rs2, Rating(r, c, 4, 2), r);
  }

  /** A rates 5, B rates 3, then A re-rates 1: two ratings remain and the average is 2. */
  lemma ResubmitScenario(r: ResourceId, a: Uid, b: Uid)
    requires a != b
    ensures var rs := Upsert(Upsert(Upsert([], r, a, 5, 0), r, b, 3, 1), r, a, 1, 2);
            CountFor(rs, r) == 2 && MeanFor(rs, r) == 2.0
  {
    var rs1 := Upsert([], r, a, 5, 0);
    assert rs1 == [Rating(r, a, 5, 0)];
    var rs2 := Upsert(rs1, r, b, 3, 1);
    assert Find(rs1, r, b) == None;
    assert rs2 == [Rating(r, a, 5, 0), Rating(r, b, 3, 1)];
    var rs3 := Upsert(rs2, r, a, 1, 2);
    assert Find(rs2, r, a) == Some(0);
    assert rs3 == [Rating(r, a, 1, 0)] + [Rating(r, b, 3, 1)];
    AppendOne([], Rating(r, a, 1, 0), r);
    AppendOne([Rating(r, a, 1, 0)], Rating(r, b, 3, 1), r);
  }
}
