/** The Feedback record (models/Feedback.js) and the rating aggregation that
    both the feedback route and the Feedback post-save hook perform: a driver's
    average rating is the sum of all ratings given to that driver divided by
    their count. */
module Feedbacks {
  import opened Common
  import opened Drivers

  /** `rideId`, `userId`, `driverId` and `rating` are required; `rating` is a
      Number, so it is a real here, and the schema bounds it to [1, 5]. */
  datatype Feedback = Feedback(
    rideId: RideId,
    userId: UserId,
    driverId: DriverId,
    rating: real,
    comment: Option<string>)

  /** The `min: 1, max: 5` validators of `rating`. */
  predicate RatingAllowed(x: real) {
    1.0 <= x <= 5.0
  }

  /** The schema constraints over the whole collection, kept in insertion
      order: every rating is allowed and `rideId` is unique. */
  ghost predicate WellFormed(fs: seq<Feedback>) {
    && (forall i :: 0 <= i < |fs| ==> RatingAllowed(fs[i].rating))
    && (forall i, j :: 0 <= i < j < |fs| ==> fs[i].rideId != fs[j].rideId)
  }

  /** The lookup `Feedback.findOne({ rideId })` finds something. */
  predicate HasFeedbackFor(fs: seq<Feedback>, rideId: RideId) {
    exists i :: 0 <= i < |fs| && fs[i].rideId == rideId
  }

  /** Appending a valid record for a ride that has none keeps the collection
      well formed: at most one feedback per ride, every rating in [1, 5]. */
  lemma AppendKeepsWellFormed(fs: seq<Feedback>, f: Feedback)
    requires WellFormed(fs) && !HasFeedbackFor(fs, f.rideId) && RatingAllowed(f.rating)
    ensures WellFormed(fs + [f])
    ensures forall i :: 0 <= i < |fs + [f]| && (fs + [f])[i].rideId == f.rideId ==> i == |fs|
  {
    var gs := fs + [f];
    forall i, j | 0 <= i < j < |gs| ensures gs[i].rideId != gs[j].rideId {
      if j == |fs| {
        assert gs[i] == fs[i];
      }
    }
  }

  /** The ratings of the feedback records of driver `d`, in collection order:
      the items `Feedback.find({ driverId })` returns. */
  function RatingsOf(fs: seq<Feedback>, d: DriverId): seq<real>
  {
    if |fs| == 0 then []
    else
      var last := fs[|fs| - 1];
      RatingsOf(fs[..|fs| - 1], d) + (if last.driverId == d then [last.rating] else [])
  }

  /** `reduce((acc, item) => acc + item.rating, 0)`: a left fold from 0. */
  function Sum(xs: seq<real>): real
  {
    if |xs| == 0 then 0.0 else Sum(xs[..|xs| - 1]) + xs[|xs| - 1]
  }

  /** `totalRating / feedbacks.length`, exactly (the source then rounds it to
      two decimals). */
  function Mean(xs: seq<real>): real
    requires |xs| > 0
  {
    Sum(xs) / (|xs| as real)
  }

  /** The positions of the records of driver `d` in the collection. */
  function RecordsOf(fs: seq<Feedback>, d: DriverId): set<nat>
  {
    set i: nat | i < |fs| && fs[i].driverId == d
  }

  /** The list of driver `d` has one rating per record of `d`, so its length
      is the divisor `feedbacks.length`; and a rating is in it exactly when
      some record for `d` carries it. */
  lemma {:induction false} RatingsOfMembers(fs: seq<Feedback>, d: DriverId)
    ensures |RatingsOf(fs, d)| == |RecordsOf(fs, d)| <= |fs|
    ensures forall x :: x in RatingsOf(fs, d) <==>
      exists i :: 0 <= i < |fs| && fs[i].driverId == d && fs[i].rating == x
  {
    if |fs| == 0 {
      assert RecordsOf(fs, d) == {};
    } else {
      var init := fs[..|fs| - 1];
      RatingsOfMembers(init, d);
      var last := |fs| - 1;
      var tail: set<nat> := if fs[last].driverId == d then {last} else {};
      assert RecordsOf(fs, d) == RecordsOf(init, d) + tail by {
        forall i: nat | i < last ensures fs[i] == init[i] { }
      }
      assert last !in RecordsOf(init, d);
      forall x ensures x in RatingsOf(fs, d) <==>
        exists i :: 0 <= i < |fs| && fs[i].driverId == d && fs[i].rating == x
      {
        if x in RatingsOf(fs, d) && x !in RatingsOf(init, d) {
          assert fs[|fs| - 1].driverId == d && fs[|fs| - 1].rating == x;
        }
        if exists i :: 0 <= i < |fs| && fs[i].driverId == d && fs[i].rating == x {
          var i :| 0 <= i < |fs| && fs[i].driverId == d && fs[i].rating == x;
          if i < |fs| - 1 {
            assert init[i] == fs[i];
          }
        }
      }
    }
  }

  /** Saving one more record extends the list of its own driver by its rating
      and leaves every other driver's list as it was. */
  lemma RatingsOfAppend(fs: seq<Feedback>, f: Feedback, d: DriverId)
    ensures RatingsOf(fs + [f], d) == RatingsOf(fs, d) + (if f.driverId == d then [f.rating] else [])
  {
    assert (fs + [f])[..|fs|] == fs;
  }

  /** Once a record for `d` is stored, `d` has at least one rating, so the
      division by the count is defined. */
  lemma {:induction false} RatingsOfNonEmpty(fs: seq<Feedback>, i: nat)
    requires i < |fs|
    ensures |RatingsOf(fs, fs[i].driverId)| > 0
  {
    if i < |fs| - 1 {
      var init := fs[..|fs| - 1];
      assert init[i] == fs[i];
      RatingsOfNonEmpty(init, i);
    }
  }

  /** Every rating in the list of a driver is allowed when the collection is. */
  lemma {:induction false} RatingsOfAllowed(fs: seq<Feedback>, d: DriverId)
    requires forall i :: 0 <= i < |fs| ==> RatingAllowed(fs[i].rating)
    ensures forall k :: 0 <= k < |RatingsOf(fs, d)| ==> RatingAllowed(RatingsOf(fs, d)[k])
  {
    if |fs| > 0 {
      var init := fs[..|fs| - 1];
      assert forall i :: 0 <= i < |init| ==> init[i] == fs[i];
      RatingsOfAllowed(init, d);
    }
  }

  /** Summing n ratings of 1 to 5 gives between n and 5n. */
  lemma {:induction false} SumBounds(xs: seq<real>)
    requires forall k :: 0 <= k < |xs| ==> RatingAllowed(xs[k])
    ensures |xs| as real <= Sum(xs) <= 5.0 * (|xs| as real)
  {
    if |xs| > 0 {
      var init := xs[..|xs| - 1];
      assert forall k :: 0 <= k < |init| ==> init[k] == xs[k];
      SumBounds(init);
    }
  }

  /** The mean of allowed ratings is itself an allowed rating. */
  lemma MeanInRange(xs: seq<real>)
    requires |xs| > 0
    requires forall k :: 0 <= k < |xs| ==> RatingAllowed(xs[k])
    ensures RatingAllowed(Mean(xs))
  {
    SumBounds(xs);
    QuotientBounds(Sum(xs), |xs| as real);
  }

  /** A total between n and 5n, shared out over n, lies between 1 and 5. */
  lemma QuotientBounds(total: real, n: real)
    requires n > 0.0 && n <= total <= 5.0 * n
    ensures 1.0 <= total / n <= 5.0
  {
    var m := total / n;
    assert (m - 5.0) * n == total - 5.0 * n;
    assert (m - 1.0) * n == total - n;
  }

  /** The recomputation of the route and of the post-save hook: driver `d`
      (when it exists) gets the mean of all its ratings, nothing else changes. */
  function Recomputed(drivers: map<DriverId, Driver>, fs: seq<Feedback>, d: DriverId): (m: map<DriverId, Driver>)
    requires |RatingsOf(fs, d)| > 0
    ensures m.Keys == drivers.Keys
    ensures d in drivers ==> m[d].averageRating == Mean(RatingsOf(fs, d))
    ensures forall e :: e in drivers && e != d ==> m[e] == drivers[e]
    ensures d in drivers ==> m[d] == drivers[d].(averageRating := m[d].averageRating)
  {
    if d in drivers then drivers[d := drivers[d].(averageRating := Mean(RatingsOf(fs, d)))]
    else drivers
  }

  /** Running the recomputation a second time, as the route does after the
      hook, changes nothing. */
  lemma RecomputeIdempotent(drivers: map<DriverId, Driver>, fs: seq<Feedback>, d: DriverId)
    requires |RatingsOf(fs, d)| > 0
    ensures Recomputed(Recomputed(drivers, fs, d), fs, d) == Recomputed(drivers, fs, d)
  {
  }
}
