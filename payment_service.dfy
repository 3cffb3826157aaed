/** The payment ledger: adding a payment (which also appends its id to the
    reservation's payment list), updating it, and voiding it. Updates and
    voids go through a filter that only matches a payment that is not void,
    so a void is final. */
module PaymentService {
  import opened Common
  import opened PaymentModel

  /** Store failures other than validation and duplicate keys, injected by
      the caller: the payment insert or the reservation update throws. */
  datatype StoreFault = NoFault | CreateFault | PushFault

  /** The filter of `updatePayment` and `cancelPayment`: this payment, of
      this reservation and property, and not void. */
  predicate Matches(payments: map<Id, Payment>, paymentId: Id, reservationId: Id, propertyId: Id): (m: bool)
    ensures m ==> paymentId in payments && !payments[paymentId].isVoid
    ensures m ==> payments[paymentId].reservationRef == reservationId && payments[paymentId].propertyRef == propertyId
  {
    && paymentId in payments
    && payments[paymentId].reservationRef == reservationId
    && payments[paymentId].propertyRef == propertyId
    && !payments[paymentId].isVoid
  }

  /** The `$set` of `updatePayment`. An absent `notes` leaves the stored
      notes as they were (an undefined key is dropped from the update). */
  function Amended(p: Payment, amountPaid: int, paymentMethod: string, referenceNumber: string,
                   notes: Option<string>, userId: Id): (q: Payment)
    ensures q.reservationRef == p.reservationRef && q.propertyRef == p.propertyRef
    ensures q.isVoid == p.isVoid && q.createdBy == p.createdBy
    ensures q.transactionDate == p.transactionDate
    ensures q.amountPaid == amountPaid && q.paymentMethod == paymentMethod
    ensures q.referenceNumber == Some(referenceNumber) && q.updatedBy == Some(userId)
    ensures q.notes == (if notes.Some? then notes else p.notes)
  {
    p.(amountPaid := amountPaid, paymentMethod := paymentMethod,
       referenceNumber := Some(referenceNumber),
       notes := if notes.Some? then notes else p.notes,
       updatedBy := Some(userId))
  }

  /** The `$set` of `cancelPayment`. */
  function Voided(p: Payment, userId: Id): (q: Payment)
    ensures q.isVoid && q.updatedBy == Some(userId)
    ensures q.(isVoid := p.isVoid, updatedBy := p.updatedBy) == p
  {
    p.(isVoid := true, updatedBy := Some(userId))
  }

  /** Once voided, a payment no longer matches the update/void filter, so
      every later update or void of it finds nothing. */
  lemma VoidedNeverMatches(payments: map<Id, Payment>, paymentId: Id, userId: Id,
                           reservationId: Id, propertyId: Id)
    requires paymentId in payments
    ensures !Matches(payments[paymentId := Voided(payments[paymentId], userId)],
                     paymentId, reservationId, propertyId)
  {
  }

  /** A void payment is never changed again: every payment that was void
      before is still there, exactly as it was. */
  predicate Frozen(before: map<Id, Payment>, after: map<Id, Payment>) {
    forall id :: id in before && before[id].isVoid ==> id in after && after[id] == before[id]
  }

  /** A state of the two collections, kept by a transaction so that it can
      be restored on abort. */
  datatype Snapshot = Snapshot(payments: map<Id, Payment>, reservationPayments: map<Id, seq<Id>>)

  /** The payment collection and each reservation's list of payment ids.
      `methods` holds the values of the payment-method enum. */
  class PaymentLedger {
    const methods: set<string>
    var payments: map<Id, Payment>
    var reservationPayments: map<Id, seq<Id>>

    /** Every id on a reservation's payment list is a payment of that
        reservation. It is an invariant every operation keeps; the
        operations' other clauses do not depend on it. */
    ghost predicate Valid()
      reads this
    {
      forall r, id :: r in reservationPayments && id in reservationPayments[r] ==>
        id in payments && payments[id].reservationRef == r
    }

    /** A ledger with the given reservations, none of which has a payment. */
    constructor (methods: set<string>, reservationIds: set<Id>)
      ensures Valid()
      ensures this.methods == methods && payments == map[]
      ensures reservationPayments == map r | r in reservationIds :: []
    {
      this.methods := methods;
      payments := map[];
      reservationPayments := map r | r in reservationIds :: [];
    }

    /** The state a transaction started now would restore on abort. */
    function State(): Snapshot
      reads this
    {
      Snapshot(payments, reservationPayments)
    }

    /** Abort: put back the state the transaction started from. */
    method Restore(s: Snapshot)
      modifies this
      ensures payments == s.payments && reservationPayments == s.reservationPayments
    {
      payments := s.payments;
      reservationPayments := s.reservationPayments;
    }

    /** `addPayment`, inside the caller's transaction. The store gives the
        new payment the id `newId`; an insert under an id in use fails like
        a duplicate key. A missing reservation is not an error: the append
        then updates nothing. `None` stands for a thrown error, after which
        the insert may already have happened: the caller aborts. */
    method AddPayment(propertyId: Id, reservationId: Id, amountPaid: int, paymentMethod: string,
                      referenceNumber: string, notes: Option<string>, userId: Id,
                      now: int, newId: Id, fault: StoreFault)
      returns (created: Option<Payment>)
      requires Valid()
      modifies this
      ensures Valid()
      ensures Frozen(old(payments), payments)
      ensures var fields := PaymentFields(Some(reservationId), Some(propertyId), Some(amountPaid),
                                          Some(paymentMethod), Some(referenceNumber), notes, Some(userId));
        var inserted := CreatePayment(methods, fields, now);
        && (created.Some? <==> fault == NoFault && inserted.Some? && newId !in old(payments))
        && (fault == CreateFault || inserted.None? || newId in old(payments) ==>
              payments == old(payments) && reservationPayments == old(reservationPayments))
        && (fault == PushFault && inserted.Some? && newId !in old(payments) ==>
              payments == old(payments)[newId := inserted.value] &&
              reservationPayments == old(reservationPayments))
        && (created.Some? ==>
              && created == inserted
              && payments == old(payments)[newId := inserted.value]
              && reservationPayments ==
                   if reservationId in old(reservationPayments)
                   then old(reservationPayments)[reservationId := old(reservationPayments)[reservationId] + [newId]]
                   else old(reservationPayments))
    {
      if fault == CreateFault {
        return None;
      }
      var fields := PaymentFields(Some(reservationId), Some(propertyId), Some(amountPaid),
                                  Some(paymentMethod), Some(referenceNumber), notes, Some(userId));
      var inserted := CreatePayment(methods, fields, now);
      if inserted.None? || newId in payments {
        return None;
      }
      payments := payments[newId := inserted.value];
      if fault == PushFault {
        return None;
      }
      if reservationId in reservationPayments {
        reservationPayments := reservationPayments[reservationId := reservationPayments[reservationId] + [newId]];
      }
      return inserted;
    }

    /** `updatePayment`: when the filter matches, set the amount, method,
        reference, notes and updater and return the updated payment;
        otherwise return `None` and change nothing. */
    method UpdatePayment(propertyId: Id, reservationId: Id, paymentId: Id, amountPaid: int,
                         paymentMethod: string, referenceNumber: string, notes: Option<string>, userId: Id)
      returns (updated: Option<Payment>)
      requires Valid()
      modifies this
      ensures Valid()
      ensures reservationPayments == old(reservationPayments)
      ensures updated.Some? <==> Matches(old(payments), paymentId, reservationId, propertyId)
      ensures updated.None? ==> payments == old(payments)
      ensures Frozen(old(payments), payments)
      ensures updated.Some? ==>
        && updated.value == Amended(old(payments)[paymentId], amountPaid, paymentMethod,
                                    referenceNumber, notes, userId)
        && payments == old(payments)[paymentId := updated.value]
    {
      if !Matches(payments, paymentId, reservationId, propertyId) {
        return None;
      }
      var p := Amended(payments[paymentId], amountPaid, paymentMethod, referenceNumber, notes, userId);
      payments := payments[paymentId := p];
      return Some(p);
    }

    /** `cancelPayment`: when the filter matches, mark the payment void and
        record who did it; otherwise return `None` and change nothing. */
    method CancelPayment(propertyId: Id, reservationId: Id, paymentId: Id, userId: Id)
      returns (voided: Option<Payment>)
      requires Valid()
      modifies this
      ensures Valid()
      ensures reservationPayments == old(reservationPayments)
      ensures voided.Some? <==> Matches(old(payments), paymentId, reservationId, propertyId)
      ensures voided.None? ==> payments == old(payments)
      ensures Frozen(old(payments), payments)
      ensures voided.Some? ==>
        && voided.value == Voided(old(payments)[paymentId], userId)
        && payments == old(payments)[paymentId := voided.value]
    {
      if !Matches(payments, paymentId, reservationId, propertyId) {
        return None;
      }
      var p := Voided(payments[paymentId], userId);
      payments := payments[paymentId := p];
      return Some(p);
    }
  }

  /** Voiding twice: the second void returns `None` and leaves the payment
      exactly as the first void left it; a later update finds nothing
      either. */
  method VoidTwice(ledger: PaymentLedger, propertyId: Id, reservationId: Id, paymentId: Id,
                   firstUser: Id, secondUser: Id, amountPaid: int, paymentMethod: string,
                   referenceNumber: string, notes: Option<string>)
    returns (first: Option<Payment>, second: Option<Payment>, update: Option<Payment>)
    requires ledger.Valid()
    requires Matches(ledger.payments, paymentId, reservationId, propertyId)
    modifies ledger
    ensures first.Some? && first.value.isVoid && first.value.updatedBy == Some(firstUser)
    ensures second.None? && update.None?
    ensures paymentId in ledger.payments && ledger.payments[paymentId] == first.value
  {
    first := ledger.CancelPayment(propertyId, reservationId, paymentId, firstUser);
    second := ledger.CancelPayment(propertyId, reservationId, paymentId, secondUser);
    update := ledger.UpdatePayment(propertyId, reservationId, paymentId, amountPaid, paymentMethod,
                                   referenceNumber, notes, secondUser);
  }
}
