/** The Ride record (models/Ride.js): a trip requested by a user, with its
    pickup and dropoff points, the driver assigned to it and its status. */
module Rides {
  import opened Common

  /** A GeoJSON point: coordinates in [longitude, latitude] order and an
      optional human-readable address attached by the geocoding collaborator. */
  datatype Point = Point(coordinates: seq<real>, address: Option<string>)

  /** The five values of the status enum; the type admits no other. */
  datatype RideStatus = Pending | Accepted | Ongoing | Completed | Cancelled

  datatype Ride = Ride(
    userId: UserId,
    driverId: Option<DriverId>,
    pickup: Point,
    dropoff: Point,
    status: RideStatus,
    estimatedFare: real,
    finalFare: Option<real>)

  /** A ride that has a driver working on it: cancelling it frees that driver. */
  predicate InProgress(s: RideStatus) {
    s == Accepted || s == Ongoing
  }

  /** The invariant the ride handlers keep: no driver exactly while pending. */
  predicate Consistent(r: Ride) {
    r.driverId.None? <==> r.status == Pending
  }

  /** A freshly created ride: the schema defaults for driver, status and final fare. */
  function NewRide(userId: UserId, pickup: Point, dropoff: Point, estimatedFare: real): (r: Ride)
    ensures Consistent(r) && r.status == Pending && r.driverId == None && r.finalFare == None
    ensures r.userId == userId && r.pickup == pickup && r.dropoff == dropoff
    ensures r.estimatedFare == estimatedFare
  {
    Ride(userId, None, pickup, dropoff, Pending, estimatedFare, None)
  }

  /** The ride after a driver has accepted it. */
  function Assign(r: Ride, d: DriverId): (r': Ride)
    requires Consistent(r) && r.status == Pending
    ensures Consistent(r') && r'.status == Accepted && r'.driverId == Some(d)
    ensures r'.userId == r.userId && r'.pickup == r.pickup && r'.dropoff == r.dropoff
    ensures r'.estimatedFare == r.estimatedFare && r'.finalFare == r.finalFare
  {
    r.(driverId := Some(d), status := Accepted)
  }
}
