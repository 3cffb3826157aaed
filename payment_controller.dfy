/** The payment endpoints: the required-field gates, the transaction around
    adding a payment (commit on success, abort on any failure) and the
    status of the first response each handler sends. */
module PaymentController {
  import opened Common
  import opened PaymentModel
  import opened PaymentService

  /** The payment fields of a request body. */
  datatype PaymentBody = PaymentBody(
    amountPaid: Option<int>,
    paymentMethod: Option<string>,
    referenceNumber: Option<string>,
    notes: Option<string>)

  datatype AddRequest = AddRequest(propertyId: Option<Id>, reservationId: Option<Id>, body: PaymentBody)

  datatype UpdateRequest = UpdateRequest(
    propertyId: Option<Id>, reservationId: Option<Id>, paymentId: Option<Id>, body: PaymentBody)

  datatype CancelRequest = CancelRequest(
    propertyId: Option<Id>, reservationId: Option<Id>, paymentId: Option<Id>)

  /** The gate shared by add and update: property, reservation, amount,
      method and reference must all be truthy; `notes` is not looked at. */
  predicate FieldsGate(propertyId: Option<Id>, reservationId: Option<Id>, body: PaymentBody) {
    && Truthy(propertyId)
    && Truthy(reservationId)
    && TruthyNumber(body.amountPaid)
    && Truthy(body.paymentMethod)
    && Truthy(body.referenceNumber)
  }

  predicate AddGate(req: AddRequest) {
    FieldsGate(req.propertyId, req.reservationId, req.body)
  }

  predicate UpdateGate(req: UpdateRequest) {
    FieldsGate(req.propertyId, req.reservationId, req.body)
  }

  predicate CancelGate(req: CancelRequest) {
    Truthy(req.propertyId) && Truthy(req.reservationId) && Truthy(req.paymentId)
  }

  /** An amount of 0 is falsy and so turned away; notes never matter. */
  lemma GatesOnAmountAndNotes(req: AddRequest, notes: Option<string>)
    ensures req.body.amountPaid == Some(0) ==> !AddGate(req)
    ensures AddGate(req) <==> AddGate(req.(body := req.body.(notes := notes)))
  {
  }

  /** The update gate does not look at the payment id at all. */
  lemma UpdateGateIgnoresPaymentId(req: UpdateRequest, paymentId: Option<Id>)
    ensures UpdateGate(req) <==> UpdateGate(req.(paymentId := paymentId))
  {
  }

  /** What the add handler gives the service, once the gate has passed. */
  function AddFields(req: AddRequest, userId: Id): PaymentFields
    requires AddGate(req)
  {
    PaymentFields(req.reservationId, req.propertyId, req.body.amountPaid, req.body.paymentMethod,
                  req.body.referenceNumber, req.body.notes, Some(userId))
  }

  /** `ADD_PAYMENT`: 400 when the gate fails; otherwise the payment insert
      and the append to the reservation run in one transaction, which is
      committed (201 with the payment) or aborted (500, neither write
      kept). */
  method AddPaymentHandler(ledger: PaymentLedger, req: AddRequest, userId: Id, now: int,
                           newId: Id, fault: StoreFault)
    returns (status: int, data: Option<Payment>)
    requires ledger.Valid()
    modifies ledger
    ensures ledger.Valid()
    ensures status == CREATED || status == BAD_REQUEST || status == INTERNAL_ERROR
    ensures status == BAD_REQUEST <==> !AddGate(req)
    ensures status != CREATED ==>
      data == None &&
      ledger.payments == old(ledger.payments) &&
      ledger.reservationPayments == old(ledger.reservationPayments)
    ensures status == CREATED <==>
      && AddGate(req)
      && fault == NoFault
      && req.body.paymentMethod.value in ledger.methods
      && newId !in old(ledger.payments)
    ensures status == CREATED ==>
      && data == CreatePayment(ledger.methods, AddFields(req, userId), now)
      && ledger.payments == old(ledger.payments)[newId := data.value]
      && var r := req.reservationId.value;
         ledger.reservationPayments ==
           if r in old(ledger.reservationPayments)
           then old(ledger.reservationPayments)[r := old(ledger.reservationPayments)[r] + [newId]]
           else old(ledger.reservationPayments)
  {
    if !AddGate(req) {
      return BAD_REQUEST, None;
    }
    var session := ledger.State();
    var payment := ledger.AddPayment(req.propertyId.value, req.reservationId.value, req.body.amountPaid.value,
                                     req.body.paymentMethod.value, req.body.referenceNumber.value,
                                     req.body.notes, userId, now, newId, fault);
    if payment.None? {
      ledger.Restore(session);
      return INTERNAL_ERROR, None;
    }
    return CREATED, payment;
  }

  /** `UPDATE_PAYMENT`: 400 when the gate fails; 404 when the service finds
      no matching payment (absent, of another reservation or property, or
      void); otherwise 200 with the updated payment. An absent payment id
      matches no payment. */
  method UpdatePaymentHandler(ledger: PaymentLedger, req: UpdateRequest, userId: Id)
    returns (status: int, data: Option<Payment>)
    requires ledger.Valid()
    modifies ledger
    ensures ledger.Valid()
    ensures ledger.reservationPayments == old(ledger.reservationPayments)
    ensures Frozen(old(ledger.payments), ledger.payments)
    ensures status == OK || status == BAD_REQUEST || status == NOT_FOUND
    ensures status == BAD_REQUEST <==> !UpdateGate(req)
    ensures status == OK <==>
      UpdateGate(req) && req.paymentId.Some? &&
      Matches(old(ledger.payments), req.paymentId.value, req.reservationId.value, req.propertyId.value)
    ensures status != OK ==> data == None && ledger.payments == old(ledger.payments)
    ensures status == OK ==>
      var id := req.paymentId.value;
      && data == Some(Amended(old(ledger.payments)[id], req.body.amountPaid.value, req.body.paymentMethod.value,
                              req.body.referenceNumber.value, req.body.notes, userId))
      && ledger.payments == old(ledger.payments)[id := data.value]
  {
    if !UpdateGate(req) {
      return BAD_REQUEST, None;
    }
    if req.paymentId.None? {
      return NOT_FOUND, None;
    }
    var payment := ledger.UpdatePayment(req.propertyId.value, req.reservationId.value, req.paymentId.value,
                                        req.body.amountPaid.value, req.body.paymentMethod.value,
                                        req.body.referenceNumber.value, req.body.notes, userId);
    if payment.None? {
      return NOT_FOUND, None;
    }
    return OK, payment;
  }

  /** `CANCEL_PAYMENT`: 400 when property, reservation or payment id is
      missing; 404 when no matching payment that is not yet void exists;
      otherwise 200 with the voided payment. */
  method CancelPaymentHandler(ledger: PaymentLedger, req: CancelRequest, userId: Id)
    returns (status: int, data: Option<Payment>)
    requires ledger.Valid()
    modifies ledger
    ensures ledger.Valid()
    ensures ledger.reservationPayments == old(ledger.reservationPayments)
    ensures Frozen(old(ledger.payments), ledger.payments)
    ensures status == OK || status == BAD_REQUEST || status == NOT_FOUND
    ensures status == BAD_REQUEST <==> !CancelGate(req)
    ensures status == OK <==>
      CancelGate(req) &&
      Matches(old(ledger.payments), req.paymentId.value, req.reservationId.value, req.propertyId.value)
    ensures status != OK ==> data == None && ledger.payments == old(ledger.payments)
    ensures status == OK ==>
      var id := req.paymentId.value;
      && data == Some(Voided(old(ledger.payments)[id], userId))
      && ledger.payments == old(ledger.payments)[id := data.value]
  {
    if !CancelGate(req) {
      return BAD_REQUEST, None;
    }
    var payment := ledger.CancelPayment(req.propertyId.value, req.reservationId.value, req.paymentId.value, userId);
    if payment.None? {
      return NOT_FOUND, None;
    }
    return OK, payment;
  }
}
