/** The licence record: one room-type booking line of a reservation, with
    the defaults the schema fills in when a licence is created. */
module LicenseModel {
  import opened Common

  /** The values of the licence status enum. */
  datatype LicenseStatus = NotStarted | Started | Closed | Cancelled

  datatype Charges = Charges(
    baseRate: int,
    taxAmount: int,
    discountAmount: int,
    totalCharges: int)

  /** Filled in only when a licence is cancelled; empty on creation. */
  datatype CancelledCharges = CancelledCharges(
    baseRate: Option<int>,
    taxAmount: Option<int>,
    totalCharges: Option<int>)

  datatype AssignmentDetails = AssignmentDetails(
    assignedAt: Option<int>,
    assignedBy: Option<Id>)

  /** A stored licence. Dates are day numbers; money is in minor units. */
  datatype License = License(
    reservationId: Id,
    propertyRef: Id,
    roomTypeRef: Id,
    roomRef: Option<Id>,
    assignmentDetails: AssignmentDetails,
    guestList: seq<Id>,
    checkInDate: Option<int>,
    checkOutDate: Option<int>,
    charges: Charges,
    cancelledCharges: CancelledCharges,
    licenseStatus: LicenseStatus,
    notes: Option<string>,
    createdBy: Id,
    updatedBy: Option<Id>,
    isCancelled: bool,
    actualCheckInTime: Option<int>,
    actualCheckOutDate: Option<int>,
    checkedInBy: Option<Id>,
    checkedOutBy: Option<Id>,
    cancelledBy: Option<Id>)

  /** The fields handed to `License.create`; any of them may be missing. */
  datatype LicenseFields = LicenseFields(
    reservationId: Option<Id>,
    propertyRef: Option<Id>,
    roomTypeRef: Option<Id>,
    guestList: seq<Id>,
    checkInDate: Option<int>,
    checkOutDate: Option<int>,
    baseRate: Option<int>,
    taxAmount: Option<int>,
    discountAmount: Option<int>,
    totalCharges: Option<int>,
    createdBy: Option<Id>)

  /** The fields the schema marks as required. */
  predicate HasRequiredFields(f: LicenseFields) {
    && f.reservationId.Some?
    && f.propertyRef.Some?
    && f.roomTypeRef.Some?
    && f.createdBy.Some?
    && f.baseRate.Some?
    && f.taxAmount.Some?
    && f.totalCharges.Some?
  }

  /** The state every licence starts in: not started, no room, nobody has
      assigned, checked in, checked out or cancelled it, no cancelled
      charges and no update yet. */
  predicate IsFresh(l: License) {
    && l.licenseStatus == NotStarted
    && l.roomRef == None
    && l.assignmentDetails == AssignmentDetails(None, None)
    && !l.isCancelled
    && l.cancelledCharges == CancelledCharges(None, None, None)
    && l.actualCheckInTime == None && l.actualCheckOutDate == None
    && l.checkedInBy == None && l.checkedOutBy == None
    && l.cancelledBy == None && l.updatedBy == None
    && l.notes == None
  }

  function GetOr<T>(o: Option<T>, default: T): T {
    match o
    case Some(v) => v
    case None => default
  }

  /** The document `License.create(f)` stores: `None` when a required field
      is missing (a validation error), otherwise the given fields with the
      schema defaults for the rest. */
  function CreateLicense(f: LicenseFields): (r: Option<License>)
    ensures r.Some? <==> HasRequiredFields(f)
    ensures r.Some? ==> IsFresh(r.value)
    ensures r.Some? ==>
      && Some(r.value.reservationId) == f.reservationId
      && Some(r.value.propertyRef) == f.propertyRef
      && Some(r.value.roomTypeRef) == f.roomTypeRef
      && Some(r.value.createdBy) == f.createdBy
      && r.value.guestList == f.guestList
      && r.value.checkInDate == f.checkInDate
      && r.value.checkOutDate == f.checkOutDate
      && Some(r.value.charges.baseRate) == f.baseRate
      && Some(r.value.charges.taxAmount) == f.taxAmount
      && Some(r.value.charges.totalCharges) == f.totalCharges
    ensures r.Some? ==>
      r.value.charges.discountAmount == (if f.discountAmount.Some? then f.discountAmount.value else 0)
  {
    if !HasRequiredFields(f) then None
    else
      Some(License(
        reservationId := f.reservationId.value,
        propertyRef := f.propertyRef.value,
        roomTypeRef := f.roomTypeRef.value,
        roomRef := None,
        assignmentDetails := AssignmentDetails(None, None),
        guestList := f.guestList,
        checkInDate := f.checkInDate,
        checkOutDate := f.checkOutDate,
        charges := Charges(
          f.baseRate.value, f.taxAmount.value,
          GetOr(f.discountAmount, 0), f.totalCharges.value),
        cancelledCharges := CancelledCharges(None, None, None),
        licenseStatus := NotStarted,
        notes := None,
        createdBy := f.createdBy.value,
        updatedBy := None,
        isCancelled := false,
        actualCheckInTime := None,
        actualCheckOutDate := None,
        checkedInBy := None,
        checkedOutBy := None,
        cancelledBy := None))
  }
}
