/** Who may read a ride through `getRideById` (controllers/rideController.js).

    The handler loads the ride with its booking user and its driver populated,
    and the driver's own user populated inside the driver. It then compares
    `ride.userId._id.toString()` (an id rendered as text) with the requester's
    id, and `ride.driverId.userId.toString()` with the same id. The second
    operand is a populated user document, and a document's text form is its
    printed record, not its id, so the driver branch never matches. */
module Visibility {
  import opened Common
  import Rides
  import Drivers

  predicate IsHexDigit(c: char) {
    '0' <= c <= '9' || 'a' <= c <= 'f'
  }

  function HexDigit(n: nat): (c: char)
    requires n < 16
    ensures IsHexDigit(c)
  {
    if n < 10 then ('0' as int + n) as char else ('a' as int + n - 10) as char
  }

  function HexValue(c: char): (n: nat)
    requires IsHexDigit(c)
    ensures n < 16 && HexDigit(n) == c
  {
    if c <= '9' then c as int - '0' as int else c as int - 'a' as int + 10
  }

  /** `ObjectId.toString()`: the id in lower-case hexadecimal. */
  function IdText(n: nat): (s: string)
    ensures |s| > 0
    ensures forall i :: 0 <= i < |s| ==> IsHexDigit(s[i])
  {
    if n < 16 then [HexDigit(n)] else IdText(n / 16) + [HexDigit(n % 16)]
  }

  /** Reads hexadecimal text back into a number. */
  function ParseHex(s: string): nat
    requires forall i :: 0 <= i < |s| ==> IsHexDigit(s[i])
  {
    if |s| == 0 then 0 else ParseHex(s[..|s| - 1]) * 16 + HexValue(s[|s| - 1])
  }

  /** Reading an id's text gives the id back. */
  lemma {:induction false} ParseIdText(n: nat)
    ensures ParseHex(IdText(n)) == n
  {
    if n >= 16 {
      var s := IdText(n);
      assert s[..|s| - 1] == IdText(n / 16);
      assert HexValue(HexDigit(n % 16)) == n % 16;
      ParseIdText(n / 16);
    } else {
      assert HexValue(HexDigit(n)) == n;
    }
  }

  /** Two ids are equal exactly when their texts are, so comparing
      `x.toString()` with a requester id compares the ids. */
  lemma IdTextInjective(a: nat, b: nat)
    ensures IdText(a) == IdText(b) <==> a == b
  {
    if IdText(a) == IdText(b) {
      ParseIdText(a);
      ParseIdText(b);
    }
  }

  /** `toString()` of a populated user document: its printed record, which
      opens with a brace. */
  function UserDocumentText(u: UserId): (s: string)
    ensures |s| > 0 && s[0] == '{'
  {
    "{ _id: new ObjectId('" + IdText(u) + "') }"
  }

  /** A document's text is never an id's text. */
  lemma DocumentTextIsNoId(u: UserId, v: UserId)
    ensures UserDocumentText(u) != IdText(v)
  {
    assert IsHexDigit(IdText(v)[0]);
  }

  /** The user account behind the ride's assigned driver, when the driver
      record exists. */
  function AssignedDriverUser(ride: Rides.Ride, drivers: map<DriverId, Drivers.Driver>): Option<UserId>
  {
    if ride.driverId.Some? && ride.driverId.value in drivers then Some(drivers[ride.driverId.value].userId)
    else None
  }

  /** The authorization test of `getRideById` as written. */
  predicate MayViewAsWritten(ride: Rides.Ride, drivers: map<DriverId, Drivers.Driver>, requester: UserId) {
    || IdText(ride.userId) == IdText(requester)
    || (AssignedDriverUser(ride, drivers).Some? &&
        UserDocumentText(AssignedDriverUser(ride, drivers).value) == IdText(requester))
  }

  /** As written, only the booking user ever passes the test. */
  lemma {:induction false} AsWrittenOnlyBooker(ride: Rides.Ride, drivers: map<DriverId, Drivers.Driver>, requester: UserId)
    ensures MayViewAsWritten(ride, drivers, requester) <==> ride.userId == requester
  {
    IdTextInjective(ride.userId, requester);
    if AssignedDriverUser(ride, drivers).Some? {
      DocumentTextIsNoId(AssignedDriverUser(ride, drivers).value, requester);
    }
  }

  /** The counterexample: the driver who accepted a ride is refused it. */
  lemma AssignedDriverRefusedAsWritten(ride: Rides.Ride, drivers: map<DriverId, Drivers.Driver>, requester: UserId)
    requires AssignedDriverUser(ride, drivers) == Some(requester) && ride.userId != requester
    ensures MayView(ride, drivers, requester)
    ensures !MayViewAsWritten(ride, drivers, requester)
  {
    AsWrittenOnlyBooker(ride, drivers, requester);
  }

  /** The documented rule: the booking user or the assigned driver's user. */
  predicate MayView(ride: Rides.Ride, drivers: map<DriverId, Drivers.Driver>, requester: UserId) {
    ride.userId == requester || AssignedDriverUser(ride, drivers) == Some(requester)
  }
}
