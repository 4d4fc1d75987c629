/** The Driver record (models/Driver.js): the driver profile that belongs to
    one user account, with its vehicle, position, availability and rating. */
module Drivers {
  import opened Common

  /** The vehicle sub-record; each field is an optional string. */
  datatype Vehicle = Vehicle(model: Option<string>, licensePlate: Option<string>, color: Option<string>)

  /** `vehicle` is None until onboarding; `location` holds the coordinates of a
      GeoJSON point, [longitude, latitude]. */
  datatype Driver = Driver(
    userId: UserId,
    vehicle: Option<Vehicle>,
    location: seq<real>,
    isAvailable: bool,
    averageRating: real)

  /** The driver profile created when a user registers with the driver role:
      only the owner is given, every other field takes its schema default. */
  function NewDriver(userId: UserId): (d: Driver)
    ensures d.userId == userId && d.vehicle == None
    ensures d.isAvailable && d.averageRating == 5.0
    ensures |d.location| == 2 && d.location[0] == 0.0 && d.location[1] == 0.0
    ensures RatingInRange(d)
  {
    Driver(userId, None, [0.0, 0.0], true, 5.0)
  }

  /** Ratings are 1 to 5, so every average of them (and the default 5) is too. */
  predicate RatingInRange(d: Driver) {
    1.0 <= d.averageRating <= 5.0
  }

  /** The lookup `Driver.findOne({ userId })` finds something. */
  predicate HasProfile(drivers: map<DriverId, Driver>, u: UserId) {
    exists d :: d in drivers && drivers[d].userId == u
  }

  /** Registration creates one profile per new user, so the owner identifies it. */
  ghost predicate OneProfilePerUser(drivers: map<DriverId, Driver>) {
    forall d, e :: d in drivers && e in drivers && drivers[d].userId == drivers[e].userId ==> d == e
  }

  /** The profile `Driver.findOne({ userId })` returns. */
  ghost function ProfileOf(drivers: map<DriverId, Driver>, u: UserId): (d: DriverId)
    requires HasProfile(drivers, u) && OneProfilePerUser(drivers)
    ensures d in drivers && drivers[d].userId == u
    ensures forall e :: e in drivers && drivers[e].userId == u ==> e == d
  {
    var d :| d in drivers && drivers[d].userId == u; d
  }

  /** The profile after onboarding: the vehicle replaced as a whole, the
      position replaced only when new coordinates are given, and nothing else
      (owner, availability, rating) touched. */
  function Onboarded(d: Driver, vehicle: Vehicle, coordinates: Option<seq<real>>): (d': Driver)
    ensures d'.vehicle == Some(vehicle)
    ensures d'.location == (if coordinates.Some? then coordinates.value else d.location)
    ensures d'.userId == d.userId && d'.isAvailable == d.isAvailable && d'.averageRating == d.averageRating
  {
    var v := d.(vehicle := Some(vehicle));
    if coordinates.Some? then v.(location := coordinates.value) else v
  }
}
