/** Shared vocabulary of the ride-dispatch backend: identifiers, the
    authenticated caller handed to every handler, and typed handler outcomes. */
module Common {

  /** Record identifiers (MongoDB ObjectIds), modelled as natural numbers. */
  type UserId = nat
  type RideId = nat
  type DriverId = nat
  type PaymentId = nat

  datatype Option<+T> = None | Some(value: T)

  /** The account roles of the User schema. */
  datatype Role = UserRole | AdminRole | DriverRole

  /** The verified (id, role) pair the authentication middleware attaches to a request. */
  datatype Caller = Caller(id: UserId, role: Role)

  /** The failures the handlers report, one per distinct error response. */
  datatype Error =
    | RideNotFound            // 404 'Ride not found'
    | RideNotPending          // 400 'Ride is no longer pending.'
    | DriverProfileNotFound   // 404 'Driver profile not found'
    | MissingLocations        // 400 'Please provide pickup and dropoff locations'
    | NoDriversNearby         // 404 'No available drivers found nearby.'
    | MissingCoordinates      // 400 'Please provide latitude and longitude'
    | NotAuthorized           // 403 on the ownership and visibility checks
    | RideNotCompleted        // 400 'Feedback can only be submitted for completed rides.'
    | FeedbackAlreadyGiven    // 400 'Feedback has already been submitted for this ride.'
    | ServerError             // 500: a schema validation error or a failed gateway call

  datatype Result<+T> = Ok(value: T) | Err(error: Error)
}
