/** Reservation creation: the request gates, the reservation record written
    with an empty licence list, one licence per requested room-type line
    with its charges, and the licence ids written back in request order. */
module ReservationController {
  import opened Common
  import opened LicenseModel

  /** Which profile collection the booker id refers to. */
  datatype BookerModel = IndividualProfile | CompanyProfile

  /** A stored reservation, with the fields the creation path writes. The
      reservation schema declares no guest list, so the guests the handler
      passes to the create are dropped and are not a field here. */
  datatype Reservation = Reservation(
    propertyRef: Id,
    bookerRef: Id,
    bookerModel: BookerModel,
    licenses: seq<Id>,
    createdBy: Id)

  /** One requested room-type line. Money is in minor units. */
  datatype LicenseLine = LicenseLine(
    roomTypeRef: Option<Id>,
    baseRate: int,
    taxAmount: int,
    discountAmount: int)

  /** The create-reservation request: the property from the path, the rest
      from the body. A date is `None` when absent or empty. An absent guest
      list is the empty list; the store never keeps it. */
  datatype ReservationRequest = ReservationRequest(
    propertyId: Id,
    bookerId: Option<Id>,
    bookerType: Option<string>,
    licenses: Option<seq<LicenseLine>>,
    checkInDate: Option<int>,
    checkOutDate: Option<int>,
    guests: seq<Id>)

  /** The booker-model enum of the reservation schema. */
  function BookerModelOf(s: string): (r: Option<BookerModel>)
    ensures r.Some? <==> s == "IndividualProfile" || s == "CompanyProfile"
  {
    if s == "IndividualProfile" then Some(IndividualProfile)
    else if s == "CompanyProfile" then Some(CompanyProfile)
    else None
  }

  /** The 401 checks, in the order the handler makes them: a booker id, a
      booker type and both dates must be present. Only presence is checked,
      not that check-in comes before check-out. */
  function Gate(req: ReservationRequest): (status: Option<int>)
    ensures status.None? <==>
      Truthy(req.bookerId) && Truthy(req.bookerType) &&
      req.checkInDate.Some? && req.checkOutDate.Some?
    ensures status.Some? ==> status.value == UNAUTHORIZED
  {
    if !Truthy(req.bookerId) then Some(UNAUTHORIZED)
    else if !Truthy(req.bookerType) then Some(UNAUTHORIZED)
    else if req.checkInDate.None? || req.checkOutDate.None? then Some(UNAUTHORIZED)
    else None
  }

  /** What `License.create` is given for one request line. */
  function LineFields(req: ReservationRequest, userId: Id, reservationId: Id, line: LicenseLine): LicenseFields {
    LicenseFields(
      reservationId := Some(reservationId),
      propertyRef := Some(req.propertyId),
      roomTypeRef := line.roomTypeRef,
      guestList := [],
      checkInDate := req.checkInDate,
      checkOutDate := req.checkOutDate,
      baseRate := Some(line.baseRate),
      taxAmount := Some(line.taxAmount),
      discountAmount := Some(line.discountAmount),
      totalCharges := Some(line.baseRate + line.taxAmount - line.discountAmount),
      createdBy := Some(userId))
  }

  /** The licence stored for one request line, or `None` when the line has
      no room type (a validation error). */
  function LineLicense(req: ReservationRequest, userId: Id, reservationId: Id, line: LicenseLine): (r: Option<License>)
    ensures r.Some? <==> line.roomTypeRef.Some?
    ensures r.Some? ==>
      && IsFresh(r.value)
      && r.value.charges.totalCharges == line.baseRate + line.taxAmount - line.discountAmount
      && r.value.charges.baseRate == line.baseRate
      && r.value.charges.taxAmount == line.taxAmount
      && r.value.charges.discountAmount == line.discountAmount
    ensures r.Some? ==>
      && r.value.reservationId == reservationId
      && r.value.propertyRef == req.propertyId
      && Some(r.value.roomTypeRef) == line.roomTypeRef
      && r.value.checkInDate == req.checkInDate
      && r.value.checkOutDate == req.checkOutDate
      && r.value.guestList == []
      && r.value.createdBy == userId
  {
    CreateLicense(LineFields(req, userId, reservationId, line))
  }

  /** Every line can be stored under its id: each has a room type, each id
      is new to the store, and no id is given to two lines. */
  predicate Creatable(lines: seq<LicenseLine>, ids: seq<Id>, existing: set<Id>)
    requires |lines| == |ids|
  {
    && (forall i :: 0 <= i < |lines| ==> lines[i].roomTypeRef.Some? && ids[i] !in existing)
    && (forall i, j :: 0 <= i < j < |ids| ==> ids[i] != ids[j])
  }

  /** Extending the lines by one keeps them creatable exactly when the new
      line has a room type and its id is neither in the store nor taken by
      an earlier line. */
  lemma CreatableStep(lines: seq<LicenseLine>, ids: seq<Id>, existing: set<Id>, i: nat)
    requires |lines| == |ids| && i < |lines|
    ensures Creatable(lines[..i + 1], ids[..i + 1], existing) <==>
      && Creatable(lines[..i], ids[..i], existing)
      && lines[i].roomTypeRef.Some?
      && ids[i] !in existing
      && ids[i] !in ids[..i]
  {
    assert lines[..i + 1] == lines[..i] + [lines[i]];
    assert ids[..i + 1] == ids[..i] + [ids[i]];
    if ids[i] in ids[..i] {
      var j :| 0 <= j < i && ids[..i][j] == ids[i];
      assert ids[..i + 1][j] == ids[..i + 1][i];
    }
  }

  /** The licence each request line gives, in line order. */
  function LineLicenses(req: ReservationRequest, userId: Id, reservationId: Id, lines: seq<LicenseLine>)
    : (r: seq<Option<License>>)
    ensures |r| == |lines|
    ensures forall i :: 0 <= i < |lines| ==> r[i] == LineLicense(req, userId, reservationId, lines[i])
  {
    seq(|lines|, i requires 0 <= i < |lines| => LineLicense(req, userId, reservationId, lines[i]))
  }

  /** The ids of the lines that give a licence. */
  function LicensedIds(licences: seq<Option<License>>, ids: seq<Id>): (r: set<Id>)
    requires |licences| == |ids|
    ensures forall i :: 0 <= i < |ids| && licences[i].Some? ==> ids[i] in r
    ensures forall k :: k in r ==> k in ids
  {
    if ids == [] then {}
    else
      var n := |ids| - 1;
      var before := LicensedIds(licences[..n], ids[..n]);
      assert forall i :: 0 <= i < n ==> licences[..n][i] == licences[i] && ids[..n][i] == ids[i];
      before + (if licences[n].Some? then {ids[n]} else {})
  }

  /** The licence collection once every line has been attempted in order,
      starting from `store`: a licence is stored under its line's id when
      the id is still free, and nothing is ever removed or overwritten. */
  function Attempted(licences: seq<Option<License>>, ids: seq<Id>, store: map<Id, License>): (r: map<Id, License>)
    requires |licences| == |ids|
    ensures forall k :: k in store ==> k in r && r[k] == store[k]
    ensures r.Keys == store.Keys + LicensedIds(licences, ids)
    decreases |ids|
  {
    if ids == [] then store
    else
      var n := |ids| - 1;
      var before := Attempted(licences[..n], ids[..n], store);
      if licences[n].Some? && ids[n] !in before then before[ids[n] := licences[n].value] else before
  }

  /** Every line, attempted in order from `store`, gave a licence under an
      id that was still free. */
  predicate AllStored(licences: seq<Option<License>>, ids: seq<Id>, store: map<Id, License>)
    requires |licences| == |ids|
    decreases |ids|
  {
    ids == [] ||
      var n := |ids| - 1;
      && AllStored(licences[..n], ids[..n], store)
      && licences[n].Some?
      && ids[n] !in Attempted(licences[..n], ids[..n], store)
  }

  /** Attempting one more line stores its licence exactly when it has one
      and its id is still free. */
  lemma AttemptedSnoc(licences: seq<Option<License>>, ids: seq<Id>, store: map<Id, License>, i: nat)
    requires |licences| == |ids| && i < |ids|
    ensures var before := Attempted(licences[..i], ids[..i], store);
      Attempted(licences[..i + 1], ids[..i + 1], store) ==
        if licences[i].Some? && ids[i] !in before then before[ids[i] := licences[i].value] else before
    ensures AllStored(licences[..i + 1], ids[..i + 1], store) <==>
      AllStored(licences[..i], ids[..i], store) && licences[i].Some? &&
      ids[i] !in Attempted(licences[..i], ids[..i], store)
  {
    assert licences[..i + 1][..i] == licences[..i] && ids[..i + 1][..i] == ids[..i];
    assert licences[..i + 1][i] == licences[i] && ids[..i + 1][i] == ids[i];
  }

  /** A line that gives a licence, under an id new to the store and to the
      earlier lines, leaves that licence under its id. */
  lemma {:induction false} AttemptedStores(licences: seq<Option<License>>, ids: seq<Id>,
                                           store: map<Id, License>, i: nat)
    requires |licences| == |ids| && i < |ids|
    requires licences[i].Some? && ids[i] !in store && ids[i] !in ids[..i]
    ensures var r := Attempted(licences, ids, store);
      ids[i] in r && r[ids[i]] == licences[i].value
    decreases |ids|
  {
    var n := |ids| - 1;
    var before := Attempted(licences[..n], ids[..n], store);
    var r := Attempted(licences, ids, store);
    assert r == if licences[n].Some? && ids[n] !in before then before[ids[n] := licences[n].value] else before;
    if i < n {
      assert licences[..n][i] == licences[i] && ids[..n][i] == ids[i] && ids[..n][..i] == ids[..i];
      AttemptedStores(licences[..n], ids[..n], store, i);
      assert ids[i] in before && before[ids[i]] == licences[i].value;
    } else {
      assert ids[..n] == ids[..i];
      assert ids[n] !in before;
    }
  }

  /** When every line is creatable, attempting them all stores exactly one
      licence per line, each under its own id and built from its line. */
  lemma AttemptedCreatable(req: ReservationRequest, userId: Id, reservationId: Id,
                           lines: seq<LicenseLine>, ids: seq<Id>, store: map<Id, License>)
    requires |lines| == |ids| && Creatable(lines, ids, store.Keys)
    ensures var r := Attempted(LineLicenses(req, userId, reservationId, lines), ids, store);
      && r.Keys == store.Keys + (set i | 0 <= i < |ids| :: ids[i])
      && forall i :: 0 <= i < |ids| ==> Some(r[ids[i]]) == LineLicense(req, userId, reservationId, lines[i])
  {
    var licences := LineLicenses(req, userId, reservationId, lines);
    assert LicensedIds(licences, ids) == (set i | 0 <= i < |ids| :: ids[i]);
    forall i | 0 <= i < |ids|
      ensures ids[i] in Attempted(licences, ids, store)
      ensures Some(Attempted(licences, ids, store)[ids[i]]) == licences[i]
    {
      assert ids[i] !in ids[..i];
      AttemptedStores(licences, ids, store, i);
    }
  }

  /** While the first `i` lines are creatable, the id of line `i` is taken
      after them exactly when it was in the store or given to one of them. */
  lemma CreatableKeys(req: ReservationRequest, userId: Id, reservationId: Id,
                      lines: seq<LicenseLine>, ids: seq<Id>, store: map<Id, License>, i: nat)
    requires |lines| == |ids| && i < |lines| && Creatable(lines[..i], ids[..i], store.Keys)
    ensures ids[i] in Attempted(LineLicenses(req, userId, reservationId, lines)[..i], ids[..i], store) <==>
      ids[i] in store || ids[i] in ids[..i]
  {
    var licences := LineLicenses(req, userId, reservationId, lines)[..i];
    if ids[i] in ids[..i] {
      var j :| 0 <= j < i && ids[..i][j] == ids[i];
      assert lines[..i][j].roomTypeRef.Some?;
      assert licences[j].Some?;
    }
  }

  /** The first `i + 1` lines are creatable exactly when the first `i`
      are and line `i` gives a licence under an id that attempting the first
      `i` left free. */
  lemma CreatableAttempt(req: ReservationRequest, userId: Id, reservationId: Id,
                         lines: seq<LicenseLine>, ids: seq<Id>, store: map<Id, License>, i: nat)
    requires |lines| == |ids| && i < |lines|
    ensures var all := LineLicenses(req, userId, reservationId, lines);
      Creatable(lines[..i + 1], ids[..i + 1], store.Keys) <==>
        && Creatable(lines[..i], ids[..i], store.Keys)
        && all[i].Some?
        && ids[i] !in Attempted(all[..i], ids[..i], store)
  {
    CreatableStep(lines, ids, store.Keys, i);
    if Creatable(lines[..i], ids[..i], store.Keys) {
      CreatableKeys(req, userId, reservationId, lines, ids, store, i);
    }
  }

  /** Attempting every line stores all of them exactly when the lines are
      creatable. */
  lemma {:induction false} AllStoredCreatable(req: ReservationRequest, userId: Id, reservationId: Id,
                                              lines: seq<LicenseLine>, ids: seq<Id>, store: map<Id, License>)
    requires |lines| == |ids|
    ensures AllStored(LineLicenses(req, userId, reservationId, lines), ids, store) <==>
      Creatable(lines, ids, store.Keys)
    decreases |lines|
  {
    if lines != [] {
      var n := |lines| - 1;
      var all := LineLicenses(req, userId, reservationId, lines);
      assert all[..n] == LineLicenses(req, userId, reservationId, lines[..n]);
      AllStoredCreatable(req, userId, reservationId, lines[..n], ids[..n], store);
      CreatableAttempt(req, userId, reservationId, lines, ids, store, n);
      assert lines[..n + 1] == lines && ids[..n + 1] == ids;
    }
  }

  /** Each line with a room type and an id new to the store and to the
      earlier lines leaves its licence behind, whatever the other lines do. */
  lemma LinesLeaveLicences(req: ReservationRequest, userId: Id, reservationId: Id,
                           lines: seq<LicenseLine>, ids: seq<Id>, store: map<Id, License>)
    requires |lines| == |ids|
    ensures var r := Attempted(LineLicenses(req, userId, reservationId, lines), ids, store);
      forall i :: 0 <= i < |lines| && lines[i].roomTypeRef.Some? && ids[i] !in store && ids[i] !in ids[..i] ==>
        ids[i] in r && Some(r[ids[i]]) == LineLicense(req, userId, reservationId, lines[i])
  {
    var licences := LineLicenses(req, userId, reservationId, lines);
    forall i | 0 <= i < |lines| && lines[i].roomTypeRef.Some? && ids[i] !in store && ids[i] !in ids[..i]
      ensures ids[i] in Attempted(licences, ids, store)
      ensures Some(Attempted(licences, ids, store)[ids[i]]) == LineLicense(req, userId, reservationId, lines[i])
    {
      AttemptedStores(licences, ids, store, i);
    }
  }

  /** The sum of the request lines' charges. */
  function LineChargesSum(lines: seq<LicenseLine>): int {
    if lines == [] then 0
    else
      var last := lines[|lines| - 1];
      LineChargesSum(lines[..|lines| - 1]) + last.baseRate + last.taxAmount - last.discountAmount
  }

  /** The sum of the stored licences' total charges. */
  function TotalChargesSum(ids: seq<Id>, store: map<Id, License>): int
    requires forall i :: 0 <= i < |ids| ==> ids[i] in store
  {
    if ids == [] then 0
    else TotalChargesSum(ids[..|ids| - 1], store) + store[ids[|ids| - 1]].charges.totalCharges
  }

  /** The licences a reservation was created with add up to the sum over
      its request lines of base rate plus tax minus discount. */
  lemma {:induction false} ChargesAddUp(req: ReservationRequest, userId: Id, reservationId: Id,
                                        lines: seq<LicenseLine>, ids: seq<Id>, store: map<Id, License>)
    requires |lines| == |ids|
    requires forall i :: 0 <= i < |ids| ==>
      ids[i] in store && Some(store[ids[i]]) == LineLicense(req, userId, reservationId, lines[i])
    ensures TotalChargesSum(ids, store) == LineChargesSum(lines)
  {
    if ids != [] {
      var n := |ids| - 1;
      ChargesAddUp(req, userId, reservationId, lines[..n], ids[..n], store);
      assert Some(store[ids[n]]) == LineLicense(req, userId, reservationId, lines[n]);
    }
  }

  /** The reservation and licence collections. */
  class ReservationStore {
    var reservations: map<Id, Reservation>
    var licenses: map<Id, License>

    constructor ()
      ensures reservations == map[] && licenses == map[]
    {
      reservations := map[];
      licenses := map[];
    }

    /** `Promise.all` over `License.create`, one licence per line: every
        line is attempted and none is rolled back, so when some line fails
        (no room type, or an id already taken) the lines that did succeed
        stay stored. The whole fails exactly when some line is not
        creatable. */
    method CreateLicences(req: ReservationRequest, userId: Id, reservationId: Id,
                          lines: seq<LicenseLine>, licenceIds: seq<Id>)
      returns (ids: seq<Id>, failed: bool)
      requires |licenceIds| == |lines|
      modifies this
      ensures reservations == old(reservations)
      ensures licenses == Attempted(LineLicenses(req, userId, reservationId, lines), licenceIds, old(licenses))
      ensures failed <==> !Creatable(lines, licenceIds, old(licenses).Keys)
      ensures !failed ==> ids == licenceIds
    {
      var all := LineLicenses(req, userId, reservationId, lines);
      ids := [];
      failed := false;
      var i := 0;
      while i < |lines|
        invariant 0 <= i <= |lines|
        invariant reservations == old(reservations)
        invariant licenses == Attempted(all[..i], licenceIds[..i], old(licenses))
        invariant failed <==> !AllStored(all[..i], licenceIds[..i], old(licenses))
        invariant !failed ==> ids == licenceIds[..i]
      {
        var licence := all[i];
        var id := licenceIds[i];
        AttemptedSnoc(all, licenceIds, old(licenses), i);
        if licence.Some? && id !in licenses {
          licenses := licenses[id := licence.value];
          ids := ids + [id];
        } else {
          failed := true;
        }
        assert licenceIds[..i + 1] == licenceIds[..i] + [id];
        i := i + 1;
      }
      assert all[..i] == all && licenceIds[..i] == licenceIds;
      AllStoredCreatable(req, userId, reservationId, lines, licenceIds, old(licenses));
    }

    /** `CREATE_RESERVATION`. The store assigns `reservationId` to the new
        reservation and `licenceIds[i]` to the licence of line `i`; a
        create under an id already in use fails like a duplicate key. The
        licence creations all run to completion, as under `Promise.all`;
        nothing is rolled back when one fails. */
    method CreateReservation(req: ReservationRequest, userId: Id, reservationId: Id, licenceIds: seq<Id>)
      returns (status: int, created: Option<Reservation>)
      requires req.licenses.Some? ==> |licenceIds| == |req.licenses.value|
      modifies this
      // the 401 gates write nothing
      ensures Gate(req).Some? ==>
        status == UNAUTHORIZED && created == None &&
        reservations == old(reservations) && licenses == old(licenses)
      // a booker type outside the enum or a taken id: 500, nothing written
      ensures Gate(req).None? &&
              (BookerModelOf(req.bookerType.value).None? || reservationId in old(reservations)) ==>
        status == INTERNAL_ERROR && created == None &&
        reservations == old(reservations) && licenses == old(licenses)
      // otherwise the reservation exists, and licences are only ever added
      ensures Gate(req).None? && BookerModelOf(req.bookerType.value).Some? &&
              reservationId !in old(reservations) ==>
        reservations.Keys == old(reservations).Keys + {reservationId}
      ensures forall k :: k in old(reservations) ==> k in reservations && reservations[k] == old(reservations)[k]
      ensures forall k :: k in old(licenses) ==> k in licenses && licenses[k] == old(licenses)[k]
      // once the reservation is written, every line is attempted, and the
      // licences of the lines that succeed stay stored whatever the outcome
      ensures Gate(req).None? && BookerModelOf(req.bookerType.value).Some? &&
              reservationId !in old(reservations) && req.licenses.Some? ==>
        licenses == Attempted(LineLicenses(req, userId, reservationId, req.licenses.value), licenceIds, old(licenses))
      ensures req.licenses.None? ==> licenses == old(licenses)
      ensures status == CREATED || status == UNAUTHORIZED || status == INTERNAL_ERROR
      ensures status == CREATED <==>
        && Gate(req).None?
        && BookerModelOf(req.bookerType.value).Some?
        && reservationId !in old(reservations)
        && req.licenses.Some?
        && Creatable(req.licenses.value, licenceIds, old(licenses).Keys)
      // success: the reservation as given, holding one licence id per line
      // in request order, each licence built from its line
      ensures status == CREATED ==>
        && created == Some(reservations[reservationId])
        && created.value == Reservation(req.propertyId, req.bookerId.value,
                                        BookerModelOf(req.bookerType.value).value,
                                        licenceIds, userId)
        && licenses.Keys == old(licenses).Keys + (set i | 0 <= i < |licenceIds| :: licenceIds[i])
        && forall i :: 0 <= i < |licenceIds| ==>
             Some(licenses[licenceIds[i]]) ==
             LineLicense(req, userId, reservationId, req.licenses.value[i])
      // a failure after the reservation was written leaves it stored as
      // given, with no licences
      ensures status == INTERNAL_ERROR && reservationId in reservations && reservationId !in old(reservations) ==>
        && reservations[reservationId] == Reservation(req.propertyId, req.bookerId.value,
                                                      BookerModelOf(req.bookerType.value).value,
                                                      [], userId)
        && created == None
    {
      var gate := Gate(req);
      if gate.Some? {
        return gate.value, None;
      }
      var booker := BookerModelOf(req.bookerType.value);
      if booker.None? || reservationId in reservations {
        return INTERNAL_ERROR, None;
      }
      var reservation := Reservation(req.propertyId, req.bookerId.value, booker.value, [], userId);
      reservations := reservations[reservationId := reservation];
      if req.licenses.None? {
        // `licenses.map` on an absent list throws after the reservation was stored
        return INTERNAL_ERROR, None;
      }
      var ids, failed := CreateLicences(req, userId, reservationId, req.licenses.value, licenceIds);
      if failed {
        return INTERNAL_ERROR, None;
      }
      AttemptedCreatable(req, userId, reservationId, req.licenses.value, licenceIds, old(licenses));
      reservation := reservation.(licenses := ids);
      reservations := reservations[reservationId := reservation];
      return CREATED, Some(reservation);
    }
  }
}
