# Ride dispatch backend: a Dafny model

This project models the domain logic of a car-rental backend. Riders request trips. Available drivers near the pickup are found, a driver accepts a pending ride, and the rider may cancel it. After a completed ride the rider leaves feedback, which updates the driver's average rating. Payments are opened with a payment gateway and settled by the gateway's signed callback.

The backend keeps four record collections, and the model holds them in one class, `Dispatch.Store`:

- `rides`, `drivers` and `payments` are maps keyed by record id;
- `feedback` is a sequence in insertion order, because feedback records are only ever appended;
- `nextId` stands for the database's id generator.

Each request handler is a method of the class. It checks its inputs against the collections, then updates them in place. Its postconditions give every error case, the new state of each collection, and which collections stay unchanged. `Store.Valid()` is the invariant every handler keeps:

- a ride has a driver exactly when it is not pending;
- every driver's average rating lies in [1, 5];
- a user owns at most one driver profile;
- at most one feedback record exists per ride, and every rating lies in [1, 5];
- no two payments share a gateway order id.

Per source file:

- `rides.dfy` (models/Ride.js): the ride record, its status enum, its defaults, and the accept transition.
- `drivers.dfy` (models/Driver.js): the driver profile, its defaults, owner lookup, and onboarding.
- `feedback.dfy` (models/Feedback.js, routes/feedback.js): the feedback record and its schema constraints. It also holds the rating aggregation the route and the post-save hook share: a left-fold `Sum` over a driver's ratings, divided by their count.
- `payments.dfy` (models/Payment.js, routes/payments.js): the payment record, the amount in paise, signature checking, and the effect of a verification callback.
- `visibility.dfy` (controllers/rideController.js): the read-access test of `getRideById`, as written and as documented.
- `store.dfy`: the class and its handlers, plus three walkthrough methods. The walkthroughs run the handlers in sequence and assert what the contracts let a caller conclude:
  - a second accept of the same ride fails;
  - under the documented rule that `GetRideById` follows, the two parties of a ride may read it and a third user may not (the test as written refuses the assigned driver; see Findings);
  - cancelling an accepted ride frees its driver;
  - a driver can end up available while still assigned to an accepted ride.

Everything outside the backend is a parameter:

- the caller's `(id, role)`, with the route role gates written as preconditions;
- the 2dsphere distance test (`within`);
- the HMAC (`sign`) and its secret;
- the gateway's answer to an order request;
- a storage fault inside the post-save hook.

The random fare is a nondeterministic choice of an integer in [100, 350].

Where the code and the design description of the system disagree, the model follows the code:

- `acceptRide` reads the ride and then writes it. It is not a conditional update, and it does not check that the driver is available. So one driver can accept several rides. `AvailabilityGapWalkthrough` shows the design's rule "unavailable exactly while assigned to an active ride" failing.
- `cancelRide` deletes the ride whatever its status, completed rides included. It never writes `cancelled`.
- The verification callback overwrites the payment's status whatever it was, so a forged callback turns a successful payment into a failed one (`Payments.ForgedCallbackRevokesSuccess`). It compares signatures with `===`, which is not a constant-time comparison.
- The average rating is stored rounded to two decimals. The model keeps the exact mean (see Left out).
- No handler here produces `ongoing` or `completed`. Completion happens outside this code, so `SubmitFeedback` accepts any store that satisfies `Valid()`.

## Model

| member | source | states |
|---|---|---|
| `Rides.NewRide` | rental-backend/models/Ride.js:12-21 | a new ride has the owner, points and fare it is given, with the defaults: status pending, no driver, no final fare; so it satisfies the ride invariant |
| `Rides.Assign` | rental-backend/controllers/rideController.js:22-23 | accepting a pending ride gives it the driver and status accepted and keeps owner, points and fares; the ride invariant still holds |
| `Drivers.NewDriver` | rental-backend/models/Driver.js:5-37 | a new profile has only its owner set: no vehicle, position [0, 0] (longitude, latitude), available, average rating 5, which lies in [1, 5] |
| `Drivers.HasProfile` | rental-backend/controllers/driverController.js:13 | `findOne({ userId })` finds something exactly when some stored profile has that owner |
| `Drivers.ProfileOf` | rental-backend/controllers/driverController.js:13 | when a user owns a profile and each user owns at most one, the lookup by owner finds that user's only profile |
| `Drivers.Onboarded` | rental-backend/controllers/driverController.js:42-54 | onboarding replaces the vehicle as a whole; it replaces the position only when coordinates are given, otherwise keeps it; it never touches owner, availability or rating |
| `Dispatch.Store.AddDriver` | rental-backend/controllers/authController.js:32-36 | registering a driver adds exactly one new profile with the schema defaults; rides, feedback and payments are unchanged |
| `Dispatch.Store.Valid` | rental-backend/models/Feedback.js:5-34 | the invariant every handler keeps: a ride has a driver exactly when it is not pending, every average rating is in [1, 5], one profile per user, every feedback rating in [1, 5] with `rideId` unique, order ids unique among payments. Beyond the cited schema (rating bounds, unique `rideId`), the conjuncts come from models/Ride.js:14,17 with controllers/rideController.js:22-23 (driver set exactly when not pending), models/Driver.js:31-34 with routes/feedback.js:51-56 (average in [1, 5]), controllers/authController.js:32-36 (one profile per user) and routes/payments.js:43-51 (one payment per gateway order) |
| `Dispatch.AvailableNear` | rental-backend/controllers/rideController.js:81-92 | a driver is in the result exactly when it exists, is available and lies within the radius of the centre |
| `Dispatch.Store.RequestRide` | rental-backend/controllers/rideController.js:41-66 | missing pickup or dropoff fails with MissingLocations; no available driver within 20000 m of the pickup fails with NoDriversNearby; on either failure no ride is created. Otherwise exactly one new ride is added: owned by the caller, pending, without driver, with a whole-number fare in [100, 350]. Drivers, feedback and payments never change |
| `Dispatch.Store.GetNearbyDrivers` | rental-backend/controllers/rideController.js:73-99 | fails with MissingCoordinates exactly when latitude or longitude is missing. Otherwise it returns exactly the available drivers within 10000 m of [longitude, latitude]. It reads only |
| `Dispatch.Store.GetPendingRides` | rental-backend/controllers/rideController.js:106-113 | returns exactly the pending rides, and none of them has a driver; it reads only |
| `Dispatch.Store.AcceptRide` | rental-backend/controllers/rideController.js:14-36 | checks in order: a missing ride fails with RideNotFound, a ride that is not pending with RideNotPending, a caller without a driver profile with DriverProfileNotFound; each failure leaves rides and drivers unchanged (the ride stays pending without driver). Success sets that ride to accepted with the caller's driver, and that driver to unavailable whatever it was before. Every other ride and driver, feedback and payments stay unchanged |
| `Dispatch.Store.GetRideStatus` | rental-backend/controllers/rideController.js:125-130 | a missing ride fails with RideNotFound. The ride is returned exactly when the caller booked it; any other caller fails with NotAuthorized |
| `Dispatch.Released` | rental-backend/controllers/rideController.js:150-157 | cancelling an accepted or ongoing ride makes its existing driver available; for any other status no driver changes; no other driver ever changes |
| `Dispatch.Store.CancelRide` | rental-backend/controllers/rideController.js:137-162 | a missing ride fails with RideNotFound and another user's ride with NotAuthorized; both change nothing. The booking user's ride is removed whatever its status, and its driver is freed as `Released` says |
| `Dispatch.Store.GetRideById` | rental-backend/controllers/rideController.js:169-202 | a missing ride fails with RideNotFound. The ride is returned exactly to its booking user or to the user of its assigned driver; anyone else fails with NotAuthorized. This is the documented rule, not the test as written (see Findings) |
| `Visibility.IdText` | rental-backend/controllers/rideController.js:128 | `ObjectId.toString()`: a non-empty lower-case hexadecimal text |
| `Visibility.MayViewAsWritten` | rental-backend/controllers/rideController.js:190-193 | the authorization test as written: the booker's id text equals the requester's, or the text of the assigned driver's populated user document does |
| `Visibility.MayView` | rental-backend/controllers/rideController.js:189 | the documented rule: the requester booked the ride or is the user of its assigned driver |
| `Visibility.IdTextInjective` | rental-backend/controllers/rideController.js:128 | two ids have equal hexadecimal text exactly when they are equal, so the `toString()` comparisons compare ids |
| `Visibility.DocumentTextIsNoId` | rental-backend/controllers/rideController.js:192 | the text form of a populated user document never equals the text of an id |
| `Visibility.AsWrittenOnlyBooker` | rental-backend/controllers/rideController.js:190-193 | the test as written passes exactly for the booking user |
| `Visibility.AssignedDriverRefusedAsWritten` | rental-backend/controllers/rideController.js:189-196 | the user of a ride's assigned driver (not its booker) may view it under the documented rule but is refused by the test as written |
| `Feedbacks.AppendKeepsWellFormed` | rental-backend/models/Feedback.js:5-34 | adding a record with an allowed rating, for a ride that has no feedback, keeps every rating in [1, 5] and rideId unique; the new record is the only one for its ride |
| `Feedbacks.HasFeedbackFor` | rental-backend/routes/feedback.js:36 | the lookup by ride finds a record exactly when some stored feedback names that ride |
| `Feedbacks.RecordsOf` | rental-backend/models/Feedback.js:40 | the positions of the records `find({ driverId })` returns: exactly those whose driver is the given one |
| `Feedbacks.RatingsOf` | rental-backend/routes/feedback.js:53 | the ratings of the records of one driver, in collection order |
| `Feedbacks.Sum` | rental-backend/routes/feedback.js:54 | the `reduce` over those ratings: a left fold from 0 |
| `Feedbacks.Mean` | rental-backend/routes/feedback.js:55 | the total divided by the number of ratings, defined only for a non-empty list |
| `Feedbacks.RatingsOfMembers` | rental-backend/models/Feedback.js:40-43 | a driver's list has as many ratings as that driver has records, so its length is the divisor `feedbacks.length`; a value occurs in it exactly when one of that driver's records carries it |
| `Feedbacks.RatingsOfAppend` | rental-backend/routes/feedback.js:53 | after a save, the new record's driver has the new rating appended to its list; every other driver's list is unchanged |
| `Feedbacks.RatingsOfNonEmpty` | rental-backend/routes/feedback.js:53-55 | a driver with a stored record has at least one rating, so the division by the count is defined |
| `Feedbacks.RatingsOfAllowed` | rental-backend/models/Feedback.js:22-27 | all of a driver's ratings are allowed when every stored rating is |
| `Feedbacks.SumBounds` | rental-backend/models/Feedback.js:42 | the sum of n ratings in [1, 5] lies in [n, 5n] |
| `Feedbacks.MeanInRange` | rental-backend/models/Feedback.js:42-43 | the mean of ratings in [1, 5] lies in [1, 5] |
| `Feedbacks.Recomputed` | rental-backend/routes/feedback.js:51-56 | after recomputation the driver, if it exists, has the mean of all its ratings as its average; nothing else in that driver or in any other driver changes |
| `Feedbacks.RecomputeIdempotent` | rental-backend/models/Feedback.js:40-47 | recomputing twice gives the same drivers as recomputing once, so the hook and the route agree |
| `Dispatch.Store.RecomputeAverage` | rental-backend/routes/feedback.js:50-57 | sets the driver's average to the mean of its ratings, exactly as `Recomputed` describes, and keeps the store invariant |
| `Dispatch.Store.PostSaveHook` | rental-backend/models/Feedback.js:37-51 | without a fault the driver's average becomes the mean of all its ratings; with a fault the drivers are left as they were; nothing else changes |
| `Dispatch.Store.SubmitFeedback` | rental-backend/routes/feedback.js:15-65 | checks in order: RideNotFound, NotAuthorized (caller did not book the ride), RideNotCompleted, FeedbackAlreadyGiven; an invalid rating gives ServerError; every failure changes nothing. On success exactly one record is appended, carrying the caller and the ride's driver; the driver's average is the mean of all its ratings, the new one included. Rides and payments never change |
| `Payments.NewPayment` | rental-backend/routes/payments.js:43-51 | a new payment is pending, on Razorpay, for the given ride and amount, with only the order id correlated |
| `Payments.ChargeableFare` | rental-backend/routes/payments.js:31 | the final fare is charged when it is set and not 0; otherwise the estimated fare is charged |
| `Payments.RoundHalfUp` | rental-backend/routes/payments.js:31 | `Math.round` gives an integer within half a unit of its argument, rounding halves up |
| `Payments.AmountInPaise` | rental-backend/routes/payments.js:31 | the order amount is the chargeable fare times 100, rounded to the nearest paisa |
| `Payments.PaiseExact` | rental-backend/routes/payments.js:31 | a fare of whole paise is ordered exactly: the order amount is the fare times 100, and converting it back gives the fare |
| `Dispatch.Store.OpenOrder` | rental-backend/routes/payments.js:21-59 | a missing ride fails with RideNotFound and a failed gateway call with ServerError; neither creates a payment. Otherwise exactly one new pending payment is added for the chargeable fare under the gateway's order id, and the order amount is that fare in paise; when the fare is a whole number of paise the gateway is asked for exactly the recorded amount |
| `Payments.SignedMessage` | rental-backend/routes/payments.js:72 | the signed message is the order id, a `|`, then the payment id |
| `Payments.Genuine` | rental-backend/routes/payments.js:70-75 | a callback is genuine exactly when its signature equals the HMAC, under the secret, of `order_id|payment_id` |
| `Payments.Settled` | rental-backend/routes/payments.js:77-97 | a genuine callback marks the payment successful and stores payment id and signature; any other marks it failed; ride, amount, gateway and order id are kept |
| `Payments.AfterCallback` | rental-backend/routes/payments.js:75-97 | only the payment with the callback's order id changes; a forged callback never makes any payment successful; a callback for an unknown order id changes nothing; order ids stay unique |
| `Payments.ReplayIsHarmless` | rental-backend/routes/payments.js:77-85 | replaying an identical callback leaves the payments as the first delivery left them |
| `Payments.ForgedCallbackRevokesSuccess` | rental-backend/routes/payments.js:94-97 | the status is never consulted: a forged callback for the order of a successful payment marks it failed |
| `Dispatch.Store.VerifyPayment` | rental-backend/routes/payments.js:67-100 | the result is true exactly when the signature equals the HMAC of `order_id|payment_id`; payments change exactly as `AfterCallback` says; rides, drivers and feedback are unchanged |
| `Dispatch.Store.GetMyDriverProfile` | rental-backend/controllers/driverController.js:11-24 | fails with DriverProfileNotFound exactly when the caller owns no profile; otherwise it returns a stored profile owned by the caller |
| `Dispatch.Store.UpdateMyDriverProfile` | rental-backend/controllers/driverController.js:32-63 | a caller without a profile fails with DriverProfileNotFound and nothing changes. Otherwise only the caller's profile changes, as `Onboarded` says, and the updated profile is returned |

## Findings

| source | as written | input that shows it | evidently intended | confidence | as-written member | corrected member |
|---|---|---|---|---|---|---|
| rental-backend/controllers/rideController.js:190-193 | The driver branch compares `ride.driverId.userId.toString()` with the requester's id. That operand is the populated user document, and its text form is the printed document, never an id. | A ride accepted by a driver whose user U did not book it; U requests the ride by id and is refused (`Visibility.AssignedDriverRefusedAsWritten`) | compare the populated user's `_id`, so the assigned driver may view the ride, as the handler's own comment says | medium, not executed | `Visibility.MayViewAsWritten` | `Dispatch.Store.GetRideById` |

## Left out

- The spherical geometry of `$near`/`$maxDistance` is not modelled. The distance test is the parameter `within`, and results are sets, so the distance order is lost.
- HMAC-SHA256 is not modelled; it is the parameter `sign`. The Razorpay order call is not modelled; its answer is a parameter. `OpenOrder` requires that the gateway never reuses an order id. That makes the order id identify one payment, which `VerifyPayment` relies on.
- `Math.random` is not modelled; the fare is any integer in [100, 350].
- Feedbacks.Recomputed: the model stores the exact mean. The source stores it rounded to two decimals by `toFixed(2)` on a binary float, because float rounding is not modelled. Ratings and fares are reals, with no float error.
- Concurrency is left out. The handlers run one at a time, so the race between two accepts, and between the ride save and the driver save, is not modelled.
- Authentication and the `User` records are left out. The role gates of routes/rides.js and routes/driver.js are preconditions. Every referenced user account is assumed to exist. In the source, a deleted account makes `getRideById` fail with a server error.
- Response shaping is left out: populated names and emails, counts, HTTP status codes. Errors are typed outcomes.
- Timestamps (`requestedAt`, `createdAt`, `updatedAt`) are left out because they come from the clock.
- Mongoose casting and validation of request values are not modelled: the `type: 'Point'` tag, numeric strings, NaN. Nor is MongoDB's rejection of coordinates that are not a valid [longitude, latitude] position, such as `[200, 0]` or `[]`. In the source, `driver.save()` in `updateMyDriverProfile` then fails against the 2dsphere index and changes nothing, and the `$near` queries of `requestRide` and `getNearbyDrivers` fail; all three answer 500. The model accepts any coordinate sequence, and `within` is total. Pickup, dropoff, latitude, longitude and rating are optional values, and "missing" includes an empty query string.
- The `trim` option on the feedback comment is not modelled; comments are stored as given.
- Dispatch.Store.VerifyPayment: the ride link `findByIdAndUpdate(payment.rideId, { paymentId })` names a path the Ride schema lacks. Strict mode drops it, so rides stay unchanged and no ride records its payment.
- Storage faults other than the one swallowed by the post-save hook are not modelled. In the source, a fault after the feedback record is saved answers 500 but keeps the record.
- Completing a ride, and the `ongoing` status, come from no handler in this code. They are not modelled as operations.
- The admin routes, the map link controller, the seeder, server wiring and the whole frontend are not part of this model.
