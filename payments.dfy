/**
 * The escrow payment store of src/services/paymentService.ts: a keyed map
 * from payment id to a hold record.
 *
 * - holdPayment puts a record in escrow.
 * - releasePayment pays it out to the provider.
 * - refundPayment returns it to the customer.
 *
 * The functions below say what each operation does to the map. The class
 * PaymentService holds the map as a field and performs the same operations
 * in place.
 */
module Payments {
  import opened Js

  /** PaymentStatus; `Pending` is declared by the source but never assigned. */
  datatype PaymentStatus = Pending | Escrowed | Released | Refunded

  /** One hold record of the `payments` map. */
  datatype Payment = Payment(bookingId: string, amount: int, status: PaymentStatus, providerId: string)

  type Store = map<string, Payment>

  /** The three ways a release or refund can fail; the first is a 404, the others a 400. */
  datatype PaymentError = PaymentNotFound | BookingMismatch | NotInEscrow

  function Code(e: PaymentError): (code: int)
    ensures code == NotFound <==> e == PaymentNotFound
    ensures code == BadRequest <==> e != PaymentNotFound
  {
    match e
    case PaymentNotFound => NotFound
    case BookingMismatch => BadRequest
    case NotInEscrow => BadRequest
  }

  datatype Outcome = Done | Failed(error: PaymentError)

  /** The store never holds a record in the `Pending` status. */
  ghost predicate NoPending(m: Store)
  {
    forall k :: k in m ==> m[k].status != Pending
  }

  /**
   * m' is m with the escrowed hold k moved to status s: the hold's
   * bookingId, amount and providerId, and every other hold, are unchanged.
   */
  ghost predicate Settles(m: Store, m': Store, k: string, s: PaymentStatus)
  {
    && k in m && m[k].status == Escrowed
    && m'.Keys == m.Keys
    && m'[k].status == s
    && m'[k].bookingId == m[k].bookingId
    && m'[k].amount == m[k].amount
    && m'[k].providerId == m[k].providerId
    && forall j :: j in m && j != k ==> m'[j] == m[j]
  }

  /**
   * holdPayment as the source writes it: the record is stored under
   * paymentId whether or not that id is already in use.
   */
  function Hold(m: Store, paymentId: string, bookingId: string, amount: int, providerId: string): (m': Store)
    ensures m'.Keys == m.Keys + {paymentId}
    ensures m'[paymentId] == Payment(bookingId, amount, Escrowed, providerId)
    ensures forall j :: j in m && j != paymentId ==> m'[j] == m[j]
  {
    m[paymentId := Payment(bookingId, amount, Escrowed, providerId)]
  }

  /**
   * A payment id not in `taken`, obtained from the drawn id by extending it
   * until it is unused; when the drawn id is unused it is returned as is.
   */
  function FreshId(taken: set<string>, draw: string): (id: string)
    ensures id !in taken
    ensures |id| >= |draw|
    ensures draw !in taken ==> id == draw
    decreases taken
  {
    if draw !in taken then draw else FreshId(taken - {draw}, draw + "0")
  }

  /** holdPayment with a collision-free id: no existing hold is ever overwritten. */
  function HoldFresh(m: Store, draw: string, bookingId: string, amount: int, providerId: string): (r: (string, Store))
    ensures r.0 !in m
    ensures r.1.Keys == m.Keys + {r.0}
    ensures r.1[r.0] == Payment(bookingId, amount, Escrowed, providerId)
    ensures forall j :: j in m ==> r.1[j] == m[j]
  {
    var id := FreshId(m.Keys, draw);
    (id, Hold(m, id, bookingId, amount, providerId))
  }

  /**
   * releasePayment. The guards run in this order: unknown id (404), then a
   * bookingId that differs from the stored one (400), then a hold that is
   * not in escrow (400).
   */
  function Release(m: Store, paymentId: string, bookingId: string): (r: (Outcome, Store))
    ensures r.0 == Failed(PaymentNotFound) <==> paymentId !in m
    ensures r.0 == Failed(BookingMismatch) <==> paymentId in m && m[paymentId].bookingId != bookingId
    ensures r.0 == Failed(NotInEscrow) <==>
      paymentId in m && m[paymentId].bookingId == bookingId && m[paymentId].status != Escrowed
    ensures r.0.Failed? ==> r.1 == m
    ensures r.0 == Done ==> Settles(m, r.1, paymentId, Released)
  {
    if paymentId !in m then (Failed(PaymentNotFound), m)
    else if m[paymentId].bookingId != bookingId then (Failed(BookingMismatch), m)
    else if m[paymentId].status != Escrowed then (Failed(NotInEscrow), m)
    else (Done, m[paymentId := m[paymentId].(status := Released)])
  }

  /** refundPayment: unknown id (404), then a hold that is not in escrow (400). */
  function Refund(m: Store, paymentId: string): (r: (Outcome, Store))
    ensures r.0 == Failed(PaymentNotFound) <==> paymentId !in m
    ensures r.0 == Failed(NotInEscrow) <==> paymentId in m && m[paymentId].status != Escrowed
    ensures r.0 != Failed(BookingMismatch)
    ensures r.0.Failed? ==> r.1 == m
    ensures r.0 == Done ==> Settles(m, r.1, paymentId, Refunded)
  {
    if paymentId !in m then (Failed(PaymentNotFound), m)
    else if m[paymentId].status != Escrowed then (Failed(NotInEscrow), m)
    else (Done, m[paymentId := m[paymentId].(status := Refunded)])
  }

  /** After a successful release, every further release or refund of that hold fails and changes nothing. */
  lemma ReleaseHappensOnce(m: Store, paymentId: string, bookingId: string, other: string)
    requires Release(m, paymentId, bookingId).0 == Done
    ensures var m' := Release(m, paymentId, bookingId).1;
      && Release(m', paymentId, bookingId) == (Failed(NotInEscrow), m')
      && Release(m', paymentId, other).0.Failed? && Release(m', paymentId, other).1 == m'
      && Refund(m', paymentId) == (Failed(NotInEscrow), m')
  {
  }

  /** After a successful refund, every further release or refund of that hold fails and changes nothing. */
  lemma RefundHappensOnce(m: Store, paymentId: string, other: string)
    requires Refund(m, paymentId).0 == Done
    ensures var m' := Refund(m, paymentId).1;
      && Release(m', paymentId, other).0.Failed? && Release(m', paymentId, other).1 == m'
      && Refund(m', paymentId) == (Failed(NotInEscrow), m')
  {
  }

  /** One call on the store. `HoldOp` draws an id that is then made fresh. */
  datatype Op =
    | HoldOp(draw: string, bookingId: string, amount: int, providerId: string)
    | ReleaseOp(paymentId: string, bookingId: string)
    | RefundOp(paymentId: string)

  function Step(m: Store, op: Op): Store
  {
    match op
    case HoldOp(draw, b, a, p) => HoldFresh(m, draw, b, a, p).1
    case ReleaseOp(id, b) => Release(m, id, b).1
    case RefundOp(id) => Refund(m, id).1
  }

  function Run(m: Store, ops: seq<Op>): Store
    decreases |ops|
  {
    if ops == [] then m else Run(Step(m, ops[0]), ops[1..])
  }

  /** No hold is ever removed, and a hold that has left escrow is never touched again by one step. */
  lemma StepKeepsSettled(m: Store, op: Op, k: string)
    requires k in m && m[k].status != Escrowed
    ensures k in Step(m, op) && Step(m, op)[k] == m[k]
  {
  }

  /**
   * Once a hold leaves escrow its record, and so its status, never changes
   * again, over any sequence of holds, releases and refunds.
   */
  lemma {:induction false} SettledHoldsAreFinal(m: Store, ops: seq<Op>, k: string)
    requires k in m && m[k].status != Escrowed
    ensures k in Run(m, ops) && Run(m, ops)[k] == m[k]
    decreases |ops|
  {
    if ops != [] {
      StepKeepsSettled(m, ops[0], k);
      SettledHoldsAreFinal(Step(m, ops[0]), ops[1..], k);
    }
  }

  /** `Pending` is never assigned: a store without pending holds stays so over any sequence of operations. */
  lemma {:induction false} RunKeepsNoPending(m: Store, ops: seq<Op>)
    requires NoPending(m)
    ensures NoPending(Run(m, ops))
    decreases |ops|
  {
    if ops != [] {
      var m' := Step(m, ops[0]);
      assert NoPending(m') by {
        match ops[0]
        case HoldOp(draw, b, a, p) =>
        case ReleaseOp(id, b) =>
        case RefundOp(id) =>
      }
      RunKeepsNoPending(m', ops[1..]);
    }
  }

  /**
   * holdPayment as written: a drawn id that collides with a released hold
   * overwrites it with a fresh escrowed record, so the same payment id can
   * be released a second time.
   */
  lemma CollidingHoldReopensReleasedPayment()
    ensures var m := map["k3x9q" := Payment("booking-a", 30, Escrowed, "3")];
      var released := Release(m, "k3x9q", "booking-a");
      var reopened := Hold(released.1, "k3x9q", "booking-b", 30, "3");
      && released.0 == Done
      && released.1["k3x9q"].status == Released
      && reopened["k3x9q"].status == Escrowed
      && Release(reopened, "k3x9q", "booking-b").0 == Done
  {
  }

  /**
   * The static `payments` map of PaymentService, as an object whose field
   * the operations update in place.
   */
  class PaymentService {
    var payments: Store

    ghost predicate Valid()
      reads this
    {
      NoPending(payments)
    }

    constructor ()
      ensures Valid() && payments == map[]
    {
      payments := map[];
    }

    /**
     * holdPayment with the drawn random id made fresh. The new hold is
     * escrowed with exactly the given bookingId, amount and providerId,
     * and no existing hold is overwritten.
     */
    method HoldPayment(draw: string, bookingId: string, amount: int, providerId: string) returns (paymentId: string)
      requires Valid()
      modifies this
      ensures Valid()
      ensures paymentId !in old(payments)
      ensures old(draw !in payments) ==> paymentId == draw
      ensures payments == Hold(old(payments), paymentId, bookingId, amount, providerId)
    {
      paymentId := FreshId(payments.Keys, draw);
      var payment := Payment(bookingId, amount, Escrowed, providerId);
      payments := payments[paymentId := payment];
    }

    /** releasePayment: fails and changes nothing, or moves exactly this hold from escrow to released. */
    method ReleasePayment(paymentId: string, bookingId: string) returns (outcome: Outcome)
      requires Valid()
      modifies this
      ensures Valid()
      ensures (outcome, payments) == Release(old(payments), paymentId, bookingId)
    {
      if paymentId !in payments {
        return Failed(PaymentNotFound);
      }
      var payment := payments[paymentId];
      if payment.bookingId != bookingId {
        return Failed(BookingMismatch);
      }
      if payment.status != Escrowed {
        return Failed(NotInEscrow);
      }
      payment := payment.(status := Released);
      payments := payments[paymentId := payment];
      outcome := Done;
    }

    /** refundPayment: fails and changes nothing, or moves exactly this hold from escrow to refunded. */
    method RefundPayment(paymentId: string) returns (outcome: Outcome)
      requires Valid()
      modifies this
      ensures Valid()
      ensures (outcome, payments) == Refund(old(payments), paymentId)
    {
      if paymentId !in payments {
        return Failed(PaymentNotFound);
      }
      var payment := payments[paymentId];
      if payment.status != Escrowed {
        return Failed(NotInEscrow);
      }
      payment := payment.(status := Refunded);
      payments := payments[paymentId := payment];
      outcome := Done;
    }
  }
}
