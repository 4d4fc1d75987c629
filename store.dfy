/** The four record collections of the backend (rides, drivers, feedback,
    payments) and the request handlers that read and update them: the ride
    controller, the driver-profile controller, the feedback route with the
    Feedback post-save hook, and the payment routes. Each handler is a method
    that checks, then updates the collections in place. */
module Dispatch {
  import opened Common
  import opened Rides
  import opened Drivers
  import opened Feedbacks
  import Payments
  import Visibility

  /** The database's 2dsphere test, supplied from outside: whether a driver
      at `location` lies within `metres` of `centre`. */
  type Within = (seq<real>, seq<real>, nat) -> bool

  /** Search radius of `requestRide`, in metres. */
  const RequestRadius: nat := 20000
  /** Search radius of `getNearbyDrivers`, in metres. */
  const NearbyRadius: nat := 10000

  /** The placeholder estimate: an integer from 100 to 350. */
  predicate FareInRange(fare: real) {
    100.0 <= fare <= 350.0 && fare.Floor as real == fare
  }

  /** The drivers `Driver.find({ currentLocation: { $near ... }, isAvailable: true })`
      returns, as a set: the result order of `$near` is not modelled. */
  function AvailableNear(drivers: map<DriverId, Driver>, centre: seq<real>, within: Within, metres: nat): (ds: set<DriverId>)
    ensures forall d :: d in ds <==> d in drivers && drivers[d].isAvailable && within(drivers[d].location, centre, metres)
  {
    set d | d in drivers && drivers[d].isAvailable && within(drivers[d].location, centre, metres)
  }

  /** The drivers after cancelling `ride`: an accepted or ongoing ride frees its
      driver (when that record still exists); a pending ride frees nobody. */
  function Released(drivers: map<DriverId, Driver>, ride: Ride): (m: map<DriverId, Driver>)
    ensures m.Keys == drivers.Keys
    ensures !InProgress(ride.status) ==> m == drivers
    ensures InProgress(ride.status) && ride.driverId.Some? && ride.driverId.value in drivers ==>
      m == drivers[ride.driverId.value := drivers[ride.driverId.value].(isAvailable := true)]
    ensures forall d :: d in drivers && Some(d) != ride.driverId ==> m[d] == drivers[d]
  {
    if InProgress(ride.status) && ride.driverId.Some? && ride.driverId.value in drivers then
      var d := ride.driverId.value;
      drivers[d := drivers[d].(isAvailable := true)]
    else drivers
  }

  class Store {
    var rides: map<RideId, Ride>
    var drivers: map<DriverId, Driver>
    /** The feedback collection in insertion order; records are never updated. */
    var feedback: seq<Feedback>
    var payments: map<PaymentId, Payments.Payment>
    /** Every id handed out so far is below this; new records take it. */
    var nextId: nat

    /** What the handlers keep true: every ride has a driver exactly when it is
        not pending, every rating is in [1, 5], a user owns at most one driver
        profile, at most one feedback exists per ride, and order ids identify
        payments. */
    ghost predicate Valid()
      reads this
    {
      && (forall r :: r in rides ==> r < nextId && Consistent(rides[r]))
      && (forall d :: d in drivers ==> d < nextId && RatingInRange(drivers[d]))
      && (forall p :: p in payments ==> p < nextId)
      && OneProfilePerUser(drivers)
      && WellFormed(feedback)
      && Payments.OrderIdsUnique(payments)
    }

    constructor ()
      ensures Valid()
      ensures rides == map[] && drivers == map[] && feedback == [] && payments == map[]
    {
      rides, drivers, feedback, payments, nextId := map[], map[], [], map[], 0;
    }

    /** Registering a user with the driver role creates that user's profile
        with the schema defaults; the user is new, so it has none yet. */
    method AddDriver(userId: UserId) returns (d: DriverId)
      requires Valid() && !HasProfile(drivers, userId)
      modifies this
      ensures Valid()
      ensures d !in old(drivers) && drivers == old(drivers)[d := NewDriver(userId)]
      ensures rides == old(rides) && feedback == old(feedback) && payments == old(payments)
    {
      d := nextId;
      nextId := nextId + 1;
      drivers := drivers[d := NewDriver(userId)];
    }

    /** `requestRide` (role `user`): both locations are required, some
        available driver must be within 20 km of the pickup, and then one
        pending ride is created with a random fare from 100 to 350. */
    method RequestRide(caller: Caller, pickup: Option<Point>, dropoff: Option<Point>, within: Within)
      returns (res: Result<RideId>)
      requires Valid() && caller.role == UserRole
      modifies this
      ensures Valid()
      ensures drivers == old(drivers) && feedback == old(feedback) && payments == old(payments)
      ensures pickup == None || dropoff == None ==> res == Err(MissingLocations)
      ensures pickup.Some? && dropoff.Some? && AvailableNear(drivers, pickup.value.coordinates, within, RequestRadius) == {} ==>
        res == Err(NoDriversNearby)
      ensures res.Err? ==> rides == old(rides)
      ensures res.Ok? <==>
        pickup.Some? && dropoff.Some? && AvailableNear(drivers, pickup.value.coordinates, within, RequestRadius) != {}
      ensures res.Ok? ==>
        && res.value !in old(rides)
        && res.value in rides
        && rides == old(rides)[res.value := NewRide(caller.id, pickup.value, dropoff.value, rides[res.value].estimatedFare)]
        && FareInRange(rides[res.value].estimatedFare)
    {
      if pickup.None? || dropoff.None? {
        return Err(MissingLocations);
      }
      var nearby := AvailableNear(drivers, pickup.value.coordinates, within, RequestRadius);
      if nearby == {} {
        return Err(NoDriversNearby);
      }
      var fare: int :| 100 <= fare <= 350;
      var id := nextId;
      nextId := nextId + 1;
      rides := rides[id := NewRide(caller.id, pickup.value, dropoff.value, fare as real)];
      res := Ok(id);
    }

    /** `getNearbyDrivers` (role `user`): the available drivers within 10 km of
        the query point, given as latitude and longitude; reads only. */
    method GetNearbyDrivers(caller: Caller, lat: Option<real>, lng: Option<real>, within: Within)
      returns (res: Result<set<DriverId>>)
      requires caller.role == UserRole
      ensures res.Err? <==> lat == None || lng == None
      ensures res.Err? ==> res.error == MissingCoordinates
      ensures res.Ok? ==> forall d :: d in res.value <==>
        d in drivers && drivers[d].isAvailable && within(drivers[d].location, [lng.value, lat.value], NearbyRadius)
    {
      if lat.None? || lng.None? {
        return Err(MissingCoordinates);
      }
      // GeoJSON order: longitude first
      res := Ok(AvailableNear(drivers, [lng.value, lat.value], within, NearbyRadius));
    }

    /** `getPendingRides` (role `driver`): every pending ride; none of them has
        a driver yet. Reads only. */
    method GetPendingRides(caller: Caller) returns (ids: set<RideId>)
      requires Valid() && caller.role == DriverRole
      ensures forall r :: r in ids <==> r in rides && rides[r].status == Pending
      ensures forall r :: r in ids ==> rides[r].driverId == None
    {
      ids := set r | r in rides && rides[r].status == Pending;
    }

    /** `acceptRide` (role `driver`): the ride must exist and be pending and the
        caller must own a driver profile; then the ride is assigned to that
        driver and accepted, and the driver is marked unavailable. Whether the
        driver was available before is not checked. */
    method AcceptRide(caller: Caller, rideId: RideId) returns (res: Result<Ride>)
      requires Valid() && caller.role == DriverRole
      modifies this
      ensures Valid()
      ensures feedback == old(feedback) && payments == old(payments)
      ensures rideId !in old(rides) ==> res == Err(RideNotFound)
      ensures rideId in old(rides) && old(rides)[rideId].status != Pending ==> res == Err(RideNotPending)
      ensures rideId in old(rides) && old(rides)[rideId].status == Pending && !HasProfile(old(drivers), caller.id) ==>
        res == Err(DriverProfileNotFound)
      ensures res.Err? ==> rides == old(rides) && drivers == old(drivers)
      ensures res.Ok? <==>
        rideId in old(rides) && old(rides)[rideId].status == Pending && HasProfile(old(drivers), caller.id)
      ensures res.Ok? ==>
        var d := ProfileOf(old(drivers), caller.id);
        && rides == old(rides)[rideId := Assign(old(rides)[rideId], d)]
        && drivers == old(drivers)[d := old(drivers)[d].(isAvailable := false)]
        && res.value == rides[rideId]
    {
      if rideId !in rides {
        return Err(RideNotFound);
      }
      var ride := rides[rideId];
      if ride.status != Pending {
        return Err(RideNotPending);
      }
      if !HasProfile(drivers, caller.id) {
        return Err(DriverProfileNotFound);
      }
      var d :| d in drivers && drivers[d].userId == caller.id;
      rides := rides[rideId := Assign(ride, d)];
      drivers := drivers[d := drivers[d].(isAvailable := false)];
      res := Ok(rides[rideId]);
    }

    /** `getRideStatus` (role `user`): only the booking user may read it. */
    method GetRideStatus(caller: Caller, rideId: RideId) returns (res: Result<Ride>)
      requires caller.role == UserRole
      ensures rideId !in rides ==> res == Err(RideNotFound)
      ensures rideId in rides && rides[rideId].userId != caller.id ==> res == Err(NotAuthorized)
      ensures res.Ok? <==> rideId in rides && rides[rideId].userId == caller.id
      ensures res.Ok? ==> res.value == rides[rideId]
    {
      if rideId !in rides {
        return Err(RideNotFound);
      }
      if rides[rideId].userId != caller.id {
        return Err(NotAuthorized);
      }
      res := Ok(rides[rideId]);
    }

    /** `cancelRide` (role `user`): only the booking user may cancel. The ride
        is deleted whatever its status (it is never marked cancelled), and an
        accepted or ongoing ride first frees its driver. */
    method CancelRide(caller: Caller, rideId: RideId) returns (res: Result<()>)
      requires Valid() && caller.role == UserRole
      modifies this
      ensures Valid()
      ensures feedback == old(feedback) && payments == old(payments)
      ensures rideId !in old(rides) ==> res == Err(RideNotFound)
      ensures rideId in old(rides) && old(rides)[rideId].userId != caller.id ==> res == Err(NotAuthorized)
      ensures res.Err? ==> rides == old(rides) && drivers == old(drivers)
      ensures res.Ok? <==> rideId in old(rides) && old(rides)[rideId].userId == caller.id
      ensures res.Ok? ==>
        && rides == old(rides) - {rideId}
        && drivers == Released(old(drivers), old(rides)[rideId])
    {
      if rideId !in rides {
        return Err(RideNotFound);
      }
      var ride := rides[rideId];
      if ride.userId != caller.id {
        return Err(NotAuthorized);
      }
      if ride.status == Accepted || ride.status == Ongoing {
        var d := ride.driverId.value;
        if d in drivers {
          drivers := drivers[d := drivers[d].(isAvailable := true)];
        }
      }
      rides := rides - {rideId};
      res := Ok(());
    }

    /** `getRideById` (any role), with the driver branch of its test as the
        handler documents it: the booking user or the assigned driver's user
        may read the ride. */
    method GetRideById(caller: Caller, rideId: RideId) returns (res: Result<Ride>)
      ensures rideId !in rides ==> res == Err(RideNotFound)
      ensures rideId in rides && !Visibility.MayView(rides[rideId], drivers, caller.id) ==> res == Err(NotAuthorized)
      ensures res.Ok? <==>
        && rideId in rides
        && (rides[rideId].userId == caller.id || Visibility.AssignedDriverUser(rides[rideId], drivers) == Some(caller.id))
      ensures res.Ok? ==> res.value == rides[rideId]
    {
      if rideId !in rides {
        return Err(RideNotFound);
      }
      var ride := rides[rideId];
      if ride.userId != caller.id && (ride.driverId.None? || ride.driverId.value !in drivers ||
                                      drivers[ride.driverId.value].userId != caller.id) {
        return Err(NotAuthorized);
      }
      res := Ok(ride);
    }

    /** Sets the average rating of driver `d` (when the record exists) to the
        mean of every feedback rating of that driver. */
    method RecomputeAverage(d: DriverId)
      requires Valid() && |RatingsOf(feedback, d)| > 0
      modifies this
      ensures Valid()
      ensures rides == old(rides) && feedback == old(feedback) && payments == old(payments)
      ensures drivers == Recomputed(old(drivers), feedback, d)
    {
      if d in drivers {
        var ratings := RatingsOf(feedback, d);
        RatingsOfAllowed(feedback, d);
        MeanInRange(ratings);
        drivers := drivers[d := drivers[d].(averageRating := Mean(ratings))];
      }
    }

    /** The Feedback post-save hook: recompute the average of the saved
        record's driver. A storage fault inside the hook is logged and
        swallowed, leaving the driver as it was. */
    method PostSaveHook(f: Feedback, fault: bool)
      requires Valid() && f in feedback
      modifies this
      ensures Valid()
      ensures rides == old(rides) && feedback == old(feedback) && payments == old(payments)
      ensures |RatingsOf(feedback, f.driverId)| > 0
      ensures drivers == if fault then old(drivers) else Recomputed(old(drivers), feedback, f.driverId)
    {
      ghost var i :| 0 <= i < |feedback| && feedback[i] == f;
      RatingsOfNonEmpty(feedback, i);
      if !fault {
        RecomputeAverage(f.driverId);
      }
    }

    /** POST /feedback (any role): the ride must exist, belong to the caller,
        be completed and have no feedback yet, checked in that order. The new
        record names the caller and the ride's driver; creating it runs the
        post-save hook, and then the route recomputes the driver's average
        itself, to the same value. A missing or out-of-range rating fails
        schema validation, reported as a server error. */
    method SubmitFeedback(caller: Caller, rideId: RideId, rating: Option<real>, comment: Option<string>, hookFault: bool)
      returns (res: Result<Feedback>)
      requires Valid()
      modifies this
      ensures Valid()
      ensures rides == old(rides) && payments == old(payments)
      ensures rideId !in rides ==> res == Err(RideNotFound)
      ensures rideId in rides && rides[rideId].userId != caller.id ==> res == Err(NotAuthorized)
      ensures rideId in rides && rides[rideId].userId == caller.id && rides[rideId].status != Completed ==>
        res == Err(RideNotCompleted)
      ensures (rideId in rides && rides[rideId].userId == caller.id && rides[rideId].status == Completed &&
               HasFeedbackFor(old(feedback), rideId)) ==> res == Err(FeedbackAlreadyGiven)
      // a missing or out-of-range rating fails the schema validators: a server error
      ensures (rideId in rides && rides[rideId].userId == caller.id && rides[rideId].status == Completed &&
               !HasFeedbackFor(old(feedback), rideId) && (rating.None? || !RatingAllowed(rating.value))) ==>
        res == Err(ServerError)
      ensures res.Err? ==> feedback == old(feedback) && drivers == old(drivers)
      ensures res.Ok? <==>
        && rideId in rides && rides[rideId].userId == caller.id && rides[rideId].status == Completed
        && !HasFeedbackFor(old(feedback), rideId)
        && rating.Some? && RatingAllowed(rating.value)
      ensures res.Ok? ==>
        && res.value == Feedback(rideId, caller.id, rides[rideId].driverId.value, rating.value, comment)
        && feedback == old(feedback) + [res.value]
        && |RatingsOf(feedback, res.value.driverId)| > 0
        && drivers == Recomputed(old(drivers), feedback, res.value.driverId)
    {
      if rideId !in rides {
        return Err(RideNotFound);
      }
      var ride := rides[rideId];
      if ride.userId != caller.id {
        return Err(NotAuthorized);
      }
      if ride.status != Completed {
        return Err(RideNotCompleted);
      }
      if HasFeedbackFor(feedback, rideId) {
        return Err(FeedbackAlreadyGiven);
      }
      if rating.None? || !RatingAllowed(rating.value) {
        return Err(ServerError);
      }
      // a completed ride has a driver, so the required driverId is present
      var f := Feedback(rideId, caller.id, ride.driverId.value, rating.value, comment);
      AppendKeepsWellFormed(feedback, f);
      feedback := feedback + [f];
      assert feedback[|feedback| - 1] == f;
      PostSaveHook(f, hookFault);
      RecomputeAverage(f.driverId);
      RecomputeIdempotent(old(drivers), feedback, f.driverId);
      res := Ok(f);
    }

    /** POST /payments/order (any role): for an existing ride, ask the gateway
        for an order of the fare in paise; once it answers, record a pending
        payment of the fare in rupees under the gateway's order id. The
        gateway's answer is a parameter: its order id, or None when the call
        fails. The gateway never reuses an order id. */
    method OpenOrder(caller: Caller, rideId: RideId, gatewayOrder: Option<string>)
      returns (res: Result<(PaymentId, Payments.Order)>)
      requires Valid()
      requires gatewayOrder.Some? ==> !Payments.HasOrder(payments, gatewayOrder.value)
      modifies this
      ensures Valid()
      ensures rides == old(rides) && drivers == old(drivers) && feedback == old(feedback)
      ensures rideId !in rides ==> res == Err(RideNotFound)
      ensures rideId in rides && gatewayOrder == None ==> res == Err(ServerError)
      ensures res.Err? ==> payments == old(payments)
      ensures res.Ok? <==> rideId in rides && gatewayOrder.Some?
      ensures res.Ok? ==>
        && res.value.1 == Payments.Order(gatewayOrder.value, Payments.AmountInPaise(rides[rideId]))
        && res.value.0 !in old(payments)
        && payments == old(payments)[res.value.0 :=
             Payments.NewPayment(rideId, Payments.ChargeableFare(rides[rideId]), gatewayOrder.value)]
    // the gateway is asked for exactly the recorded amount when the fare is in whole paise
    ensures res.Ok? && Payments.WholePaise(Payments.ChargeableFare(rides[rideId])) ==>
      res.value.1.amountInPaise as real == payments[res.value.0].amount * 100.0
    {
      if rideId !in rides {
        return Err(RideNotFound);
      }
      var ride := rides[rideId];
      var amount := Payments.AmountInPaise(ride);
      if Payments.WholePaise(Payments.ChargeableFare(ride)) {
        Payments.PaiseExact(ride);
      }
      if gatewayOrder.None? {
        return Err(ServerError);
      }
      var p := nextId;
      nextId := nextId + 1;
      payments := payments[p := Payments.NewPayment(rideId, Payments.ChargeableFare(ride), gatewayOrder.value)];
      res := Ok((p, Payments.Order(gatewayOrder.value, amount)));
    }

    /** POST /payments/verify (the gateway's unauthenticated callback): the
        callback is genuine when its signature is the HMAC of
        `order_id|payment_id` under the shared secret. The payment with that
        order id is then settled: successful with the payment id and signature
        stored, or failed. The write that links the payment to its ride names a
        field the Ride schema lacks and is dropped, so rides do not change. */
    method VerifyPayment(orderId: string, paymentId: string, signature: string,
                         secret: string, sign: (string, string) -> string)
      returns (verified: bool)
      requires Valid()
      modifies this
      ensures Valid()
      ensures verified == Payments.Genuine(sign, secret, orderId, paymentId, signature)
      ensures payments == Payments.AfterCallback(old(payments), orderId, paymentId, signature, verified)
      ensures rides == old(rides) && drivers == old(drivers) && feedback == old(feedback)
    {
      verified := sign(secret, Payments.SignedMessage(orderId, paymentId)) == signature;
      var after := Payments.AfterCallback(payments, orderId, paymentId, signature, verified);
      if Payments.HasOrder(payments, orderId) {
        var p :| p in payments && payments[p].orderId == Some(orderId);
        payments := payments[p := Payments.Settled(payments[p], paymentId, signature, verified)];
        assert payments == after;
      }
    }

    /** `getMyDriverProfile` (role `driver`): the caller's own profile. */
    method GetMyDriverProfile(caller: Caller) returns (res: Result<Driver>)
      requires caller.role == DriverRole
      ensures res.Err? <==> !HasProfile(drivers, caller.id)
      ensures res.Err? ==> res.error == DriverProfileNotFound
      ensures res.Ok? ==> res.value in drivers.Values && res.value.userId == caller.id
    {
      if !HasProfile(drivers, caller.id) {
        return Err(DriverProfileNotFound);
      }
      var d :| d in drivers && drivers[d].userId == caller.id;
      res := Ok(drivers[d]);
    }

    /** `updateMyDriverProfile` (role `driver`, onboarding): replace the
        caller's vehicle details and, when coordinates are supplied, the
        position. */
    method UpdateMyDriverProfile(caller: Caller, vehicleModel: Option<string>, licensePlate: Option<string>,
                                 vehicleColor: Option<string>, coordinates: Option<seq<real>>)
      returns (res: Result<Driver>)
      requires Valid() && caller.role == DriverRole
      modifies this
      ensures Valid()
      ensures rides == old(rides) && feedback == old(feedback) && payments == old(payments)
      ensures res.Err? <==> !HasProfile(old(drivers), caller.id)
      ensures res.Err? ==> res.error == DriverProfileNotFound && drivers == old(drivers)
      ensures res.Ok? ==>
        var d := ProfileOf(old(drivers), caller.id);
        && drivers == old(drivers)[d := Onboarded(old(drivers)[d], Vehicle(vehicleModel, licensePlate, vehicleColor), coordinates)]
        && res.value == drivers[d]
    {
      if !HasProfile(drivers, caller.id) {
        return Err(DriverProfileNotFound);
      }
      var d :| d in drivers && drivers[d].userId == caller.id;
      var driver := drivers[d];
      driver := driver.(vehicle := Some(Vehicle(vehicleModel, licensePlate, vehicleColor)));
      if coordinates.Some? {
        driver := driver.(location := coordinates.value);
      }
      drivers := drivers[d := driver];
      res := Ok(driver);
    }
  }

  /** A walk through the dispatch flow: a driver next to the pickup, a
      request, an accept and a second accept of the same ride. */
  method AcceptWalkthrough(within: Within, rider: UserId, driverUser: UserId)
    requires within([0.0, 0.0], [0.001, 0.0], RequestRadius)
    requires rider != driverUser
  {
    var store := new Store();
    var d := store.AddDriver(driverUser);
    assert d in AvailableNear(store.drivers, [0.001, 0.0], within, RequestRadius);
    var requested := store.RequestRide(Caller(rider, UserRole), Some(Point([0.001, 0.0], None)),
                                       Some(Point([0.01, 0.01], None)), within);
    var r := requested.value;
    assert store.rides[r].status == Pending && store.rides[r].userId == rider;

    var accepted := store.AcceptRide(Caller(driverUser, DriverRole), r);
    assert accepted.Ok? && store.rides[r].driverId == Some(d) && !store.drivers[d].isAvailable;
    var again := store.AcceptRide(Caller(driverUser, DriverRole), r);
    assert again == Err(RideNotPending);
  }

  /** Continuing from an accepted ride: both parties may read it, a stranger
      may not, and the rider's cancellation removes it and frees the driver. */
  method CancelWalkthrough(store: Store, r: RideId, d: DriverId, stranger: UserId)
    requires store.Valid() && r in store.rides && d in store.drivers
    requires store.rides[r].status == Accepted && store.rides[r].driverId == Some(d)
    requires stranger != store.rides[r].userId && stranger != store.drivers[d].userId
    modifies store
  {
    var rider, driverUser := store.rides[r].userId, store.drivers[d].userId;
    var byRider := store.GetRideById(Caller(rider, UserRole), r);
    var byDriver := store.GetRideById(Caller(driverUser, DriverRole), r);
    var byStranger := store.GetRideById(Caller(stranger, UserRole), r);
    assert byRider.Ok? && byDriver.Ok? && byStranger == Err(NotAuthorized);

    var cancelled := store.CancelRide(Caller(rider, UserRole), r);
    assert cancelled.Ok? && r !in store.rides && store.drivers[d].isAvailable;
  }

  /** Accept does not look at the driver's availability and cancel frees the
      driver unconditionally, so a driver can hold two accepted rides and, after
      one is cancelled, be available while still assigned to the other. */
  method AvailabilityGapWalkthrough(store: Store, r1: RideId, r2: RideId, driverUser: UserId)
    requires store.Valid() && r1 != r2 && r1 in store.rides && r2 in store.rides
    requires store.rides[r1].status == Pending && store.rides[r2].status == Pending
    requires HasProfile(store.drivers, driverUser)
    modifies store
  {
    ghost var d := ProfileOf(store.drivers, driverUser);
    var first := store.AcceptRide(Caller(driverUser, DriverRole), r1);
    assert !store.drivers[d].isAvailable;
    var second := store.AcceptRide(Caller(driverUser, DriverRole), r2);
    assert second.Ok?;
    var cancelled := store.CancelRide(Caller(store.rides[r1].userId, UserRole), r1);
    assert store.drivers[d].isAvailable;
    assert store.rides[r2].status == Accepted && store.rides[r2].driverId == Some(d);
  }
}
