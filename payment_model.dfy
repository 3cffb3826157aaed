/** The payment record: one payment against a reservation, with the
    defaults the schema fills in when a payment is created. */
module PaymentModel {
  import opened Common

  /** A stored payment. `transactionDate` is a timestamp; money is in minor
      units. */
  datatype Payment = Payment(
    reservationRef: Id,
    propertyRef: Id,
    amountPaid: int,
    paymentMethod: string,
    isVoid: bool,
    transactionDate: int,
    referenceNumber: Option<string>,
    notes: Option<string>,
    createdBy: Id,
    updatedBy: Option<Id>)

  /** The fields handed to `Payment.create`; any of them may be missing. */
  datatype PaymentFields = PaymentFields(
    reservationRef: Option<Id>,
    propertyRef: Option<Id>,
    amountPaid: Option<int>,
    paymentMethod: Option<string>,
    referenceNumber: Option<string>,
    notes: Option<string>,
    createdBy: Option<Id>)

  /** Validation on create: the required fields are present and the payment
      method is one of `methods`, the values of the payment-method enum. */
  predicate Acceptable(methods: set<string>, f: PaymentFields) {
    && f.reservationRef.Some?
    && f.propertyRef.Some?
    && f.amountPaid.Some?
    && f.createdBy.Some?
    && f.paymentMethod.Some?
    && f.paymentMethod.value in methods
  }

  /** The document `Payment.create(f)` stores at time `now`: `None` on a
      validation error, otherwise the given fields, not void, dated `now`,
      never updated. */
  function CreatePayment(methods: set<string>, f: PaymentFields, now: int): (r: Option<Payment>)
    ensures r.Some? <==> Acceptable(methods, f)
    ensures r.Some? ==>
      && !r.value.isVoid
      && r.value.transactionDate == now
      && r.value.updatedBy == None
      && r.value.paymentMethod in methods
    ensures r.Some? ==>
      && Some(r.value.reservationRef) == f.reservationRef
      && Some(r.value.propertyRef) == f.propertyRef
      && Some(r.value.amountPaid) == f.amountPaid
      && Some(r.value.paymentMethod) == f.paymentMethod
      && Some(r.value.createdBy) == f.createdBy
      && r.value.referenceNumber == f.referenceNumber
      && r.value.notes == f.notes
  {
    if !Acceptable(methods, f) then None
    else
      Some(Payment(
        reservationRef := f.reservationRef.value,
        propertyRef := f.propertyRef.value,
        amountPaid := f.amountPaid.value,
        paymentMethod := f.paymentMethod.value,
        isVoid := false,
        transactionDate := now,
        referenceNumber := f.referenceNumber,
        notes := f.notes,
        createdBy := f.createdBy.value,
        updatedBy := None))
  }
}
