/** The Payment record (models/Payment.js) and the pure parts of the payment
    routes (routes/payments.js): the amount charged for a ride and the effect
    of a gateway verification callback on the payment collection. */
module Payments {
  import opened Common
  import Rides

  datatype PaymentStatus = Pending | Successful | Failed

  datatype Gateway = Razorpay | Stripe | Other

  /** `rideId` and `amount` are required; the gateway correlation fields
      (`razorpay.orderId`, `.paymentId`, `.signature`) are optional strings. */
  datatype Payment = Payment(
    rideId: RideId,
    amount: real,
    gateway: Gateway,
    orderId: Option<string>,
    paymentId: Option<string>,
    signature: Option<string>,
    status: PaymentStatus)

  /** The gateway's answer to an order request: its order id and the amount
      ordered, in paise. */
  datatype Order = Order(id: string, amountInPaise: int)

  /** The record `/order` creates once the gateway has opened an order: the
      schema defaults for gateway and status, only the order id correlated. */
  function NewPayment(rideId: RideId, amount: real, orderId: string): (p: Payment)
    ensures p.status == Pending && p.gateway == Razorpay
    ensures p.rideId == rideId && p.amount == amount && p.orderId == Some(orderId)
    ensures p.paymentId == None && p.signature == None
  {
    Payment(rideId, amount, Razorpay, Some(orderId), None, None, Pending)
  }

  /** `ride.finalFare || ride.estimatedFare`: JavaScript's `||` falls back to
      the estimate when the final fare is null and also when it is 0. */
  function ChargeableFare(r: Rides.Ride): (fare: real)
    ensures r.finalFare.Some? && r.finalFare.value != 0.0 ==> fare == r.finalFare.value
    ensures r.finalFare == None || r.finalFare == Some(0.0) ==> fare == r.estimatedFare
  {
    if r.finalFare.Some? && r.finalFare.value != 0.0 then r.finalFare.value else r.estimatedFare
  }

  /** `Math.round`: the nearest integer, halves rounded up. */
  function RoundHalfUp(x: real): (n: int)
    ensures x - 0.5 < n as real <= x + 0.5
  {
    (x + 0.5).Floor
  }

  /** The order amount in paise, the smallest currency unit. */
  function AmountInPaise(r: Rides.Ride): (paise: int)
    ensures ChargeableFare(r) * 100.0 - 0.5 < paise as real <= ChargeableFare(r) * 100.0 + 0.5
  {
    RoundHalfUp(ChargeableFare(r) * 100.0)
  }

  /** An amount that is a whole number of paise. */
  predicate WholePaise(x: real) {
    (x * 100.0).Floor as real == x * 100.0
  }

  /** A fare given in whole paise is ordered exactly: the order amount is the
      fare times 100, so converting it back yields the fare. */
  lemma PaiseExact(r: Rides.Ride)
    requires WholePaise(ChargeableFare(r))
    ensures AmountInPaise(r) as real == ChargeableFare(r) * 100.0
    ensures AmountInPaise(r) as real / 100.0 == ChargeableFare(r)
  {
    var k := (ChargeableFare(r) * 100.0).Floor;
    assert k - 1 < AmountInPaise(r) < k + 1;
  }

  /** The message the gateway signs, `order_id + "|" + payment_id`. */
  function SignedMessage(orderId: string, paymentId: string): (m: string)
    ensures |m| == |orderId| + 1 + |paymentId|
    ensures m[..|orderId|] == orderId && m[|orderId|] == '|' && m[|orderId| + 1..] == paymentId
  {
    orderId + "|" + paymentId
  }

  /** The callback's signature equals the HMAC of the message under the secret. */
  predicate Genuine(sign: (string, string) -> string, secret: string,
                    orderId: string, paymentId: string, signature: string)
  {
    sign(secret, SignedMessage(orderId, paymentId)) == signature
  }

  /** The gateway's order ids identify payments: no two records share one. */
  predicate OrderIdsUnique(ps: map<PaymentId, Payment>) {
    forall p, q :: p in ps && q in ps && ps[p].orderId.Some? && ps[p].orderId == ps[q].orderId ==> p == q
  }

  predicate HasOrder(ps: map<PaymentId, Payment>, orderId: string) {
    exists p :: p in ps && ps[p].orderId == Some(orderId)
  }

  /** What one payment record becomes under a callback: a genuine one marks it
      successful and stores the payment id and signature, any other marks it
      failed. The current status is not consulted. */
  function Settled(p: Payment, paymentId: string, signature: string, genuine: bool): (p': Payment)
    ensures genuine ==> p'.status == Successful && p'.paymentId == Some(paymentId) && p'.signature == Some(signature)
    ensures !genuine ==> p'.status == Failed && p'.paymentId == p.paymentId && p'.signature == p.signature
    ensures p'.rideId == p.rideId && p'.amount == p.amount && p'.gateway == p.gateway && p'.orderId == p.orderId
  {
    if genuine then p.(status := Successful, paymentId := Some(paymentId), signature := Some(signature))
    else p.(status := Failed)
  }

  /** The payment collection after a callback for `orderId`: the record with
      that order id is settled, every other record is untouched. */
  function AfterCallback(ps: map<PaymentId, Payment>, orderId: string, paymentId: string,
                         signature: string, genuine: bool): (ps': map<PaymentId, Payment>)
    ensures ps'.Keys == ps.Keys
    ensures forall p :: p in ps && ps[p].orderId != Some(orderId) ==> ps'[p] == ps[p]
    ensures forall p :: p in ps && ps[p].orderId == Some(orderId) ==>
      ps'[p] == Settled(ps[p], paymentId, signature, genuine)
    // a forged callback never makes a payment successful
    ensures !genuine ==> forall p :: p in ps' && ps'[p].status == Successful ==> ps[p].status == Successful
    // a callback for an order nobody opened changes nothing
    ensures !HasOrder(ps, orderId) ==> ps' == ps
    ensures OrderIdsUnique(ps) ==> OrderIdsUnique(ps')
  {
    map p | p in ps :: if ps[p].orderId == Some(orderId) then Settled(ps[p], paymentId, signature, genuine) else ps[p]
  }

  /** Replaying an identical callback leaves the collection as the first
      delivery left it. */
  lemma {:induction false} ReplayIsHarmless(ps: map<PaymentId, Payment>, orderId: string, paymentId: string,
                                           signature: string, genuine: bool)
    ensures var once := AfterCallback(ps, orderId, paymentId, signature, genuine);
            AfterCallback(once, orderId, paymentId, signature, genuine) == once
  {
    var once := AfterCallback(ps, orderId, paymentId, signature, genuine);
    var twice := AfterCallback(once, orderId, paymentId, signature, genuine);
    forall p | p in once ensures twice[p] == once[p] {
      if ps[p].orderId == Some(orderId) {
        assert once[p] == Settled(ps[p], paymentId, signature, genuine);
      }
    }
  }

  /** The callback overwrites whatever status the record had: a later forged
      callback for the order of a successful payment marks it failed. */
  lemma ForgedCallbackRevokesSuccess(ps: map<PaymentId, Payment>, p: PaymentId, orderId: string,
                                     paymentId: string, signature: string)
    requires p in ps && ps[p].status == Successful && ps[p].orderId == Some(orderId)
    ensures AfterCallback(ps, orderId, paymentId, signature, false)[p].status == Failed
  {
  }
}
