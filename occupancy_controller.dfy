/** Room availability for a stay: for each room type of the property, the
    rooms of that type minus the licences of that type whose stay overlaps
    the queried one, never below zero. */
module OccupancyController {
  import opened Common
  import opened LicenseModel

  datatype RoomType = RoomType(id: Id, propertyRef: Id, name: string)

  datatype Room = Room(propertyRef: Id, roomTypeRef: Id)

  /** One entry of the report. */
  datatype Availability = Availability(roomType: RoomType, availableRooms: nat)

  /** The query dates (day numbers; `None` when absent or empty) and the
      property from the path. */
  datatype OccupancyQuery = OccupancyQuery(
    checkInDate: Option<int>,
    checkOutDate: Option<int>,
    propertyId: Option<Id>)

  datatype OccupancyReply =
    | Rejected(status: int)
    | Report(checkInDate: int, checkOutDate: int, availability: seq<Availability>)

  /** How many elements of `s` satisfy `p`. */
  function Count<T>(s: seq<T>, p: T -> bool): (n: nat)
    ensures n <= |s|
  {
    if s == [] then 0
    else Count(s[..|s| - 1], p) + (if p(s[|s| - 1]) then 1 else 0)
  }

  /** The indices of the elements of `s` that satisfy `p`. */
  function Hits<T>(s: seq<T>, p: T -> bool): set<nat> {
    set i: nat | i < |s| && p(s[i])
  }

  /** `Count` is the number of matching positions, as the store counts
      matching documents. */
  lemma {:induction false} CountIsCardinality<T>(s: seq<T>, p: T -> bool)
    ensures Count(s, p) == |Hits(s, p)|
  {
    if s != [] {
      var n := |s| - 1;
      CountIsCardinality(s[..n], p);
      if p(s[n]) {
        assert Hits(s, p) == Hits(s[..n], p) + {n};
        assert n !in Hits(s[..n], p);
      } else {
        assert Hits(s, p) == Hits(s[..n], p);
      }
    }
  }

  /** Appending one element raises the count by one exactly when it
      matches. */
  lemma CountSnoc<T>(s: seq<T>, x: T, p: T -> bool)
    ensures Count(s + [x], p) == Count(s, p) + (if p(x) then 1 else 0)
  {
    assert (s + [x])[..|s|] == s;
  }

  /** The rooms query: a room of this property and room type. */
  predicate IsRoomOf(r: Room, propertyId: Id, roomType: Id) {
    r.propertyRef == propertyId && r.roomTypeRef == roomType
  }

  /** The licence query: a licence of this property and room type whose stay
      touches the queried one, both ends inclusive. A licence without a
      check-in or check-out date never matches. Status and cancellation are
      not looked at. */
  predicate Overlaps(l: License, propertyId: Id, roomType: Id, checkIn: int, checkOut: int) {
    && l.propertyRef == propertyId
    && l.roomTypeRef == roomType
    && l.checkInDate.Some? && l.checkInDate.value <= checkOut
    && l.checkOutDate.Some? && l.checkOutDate.value >= checkIn
  }

  /** `Room.countDocuments` for the property and room type: the number of
      stored rooms that match. */
  function TotalRooms(rooms: seq<Room>, propertyId: Id, roomType: Id): (n: nat)
    ensures n == |set i: nat | i < |rooms| && IsRoomOf(rooms[i], propertyId, roomType)|
  {
    var p := (r: Room) => IsRoomOf(r, propertyId, roomType);
    CountIsCardinality(rooms, p);
    assert Hits(rooms, p) == set i: nat | i < |rooms| && IsRoomOf(rooms[i], propertyId, roomType);
    Count(rooms, p)
  }

  /** `License.countDocuments` for the overlap filter: the number of stored
      licences whose stay overlaps the queried one. */
  function BookedRooms(licences: seq<License>, propertyId: Id, roomType: Id, checkIn: int, checkOut: int): (n: nat)
    ensures n == |set i: nat | i < |licences| && Overlaps(licences[i], propertyId, roomType, checkIn, checkOut)|
  {
    var p := (l: License) => Overlaps(l, propertyId, roomType, checkIn, checkOut);
    CountIsCardinality(licences, p);
    assert Hits(licences, p) ==
      set i: nat | i < |licences| && Overlaps(licences[i], propertyId, roomType, checkIn, checkOut);
    Count(licences, p)
  }

  /** `max(0, total - booked)`. */
  function AvailableRooms(total: nat, booked: nat): (r: nat)
    ensures r <= total
    ensures r >= total - booked
    ensures r == 0 || r + booked == total
  {
    if booked <= total then total - booked else 0
  }

  /** The room types of the property, in stored order. */
  function PropertyRoomTypes(types: seq<RoomType>, propertyId: Id): (r: seq<RoomType>)
    ensures |r| <= |types|
    ensures forall t :: t in r <==> t in types && t.propertyRef == propertyId
  {
    if types == [] then []
    else
      var last := types[|types| - 1];
      PropertyRoomTypes(types[..|types| - 1], propertyId) + (if last.propertyRef == propertyId then [last] else [])
  }

  /** The availability entry of one room type. */
  function Entry(roomType: RoomType, rooms: seq<Room>, licences: seq<License>,
                 propertyId: Id, checkIn: int, checkOut: int): Availability
  {
    Availability(roomType,
      AvailableRooms(TotalRooms(rooms, propertyId, roomType.id),
                     BookedRooms(licences, propertyId, roomType.id, checkIn, checkOut)))
  }

  /** `GET_OCCUPANCY` over the stored room types, rooms and licences. */
  function GetOccupancy(q: OccupancyQuery, types: seq<RoomType>, rooms: seq<Room>, licences: seq<License>)
    : (reply: OccupancyReply)
    ensures reply == Rejected(BAD_REQUEST) <==>
      q.checkInDate.None? || q.checkOutDate.None? || !Truthy(q.propertyId) ||
      q.checkInDate.value >= q.checkOutDate.value
    ensures reply == Rejected(UNAUTHORIZED) <==>
      && q.checkInDate.Some? && q.checkOutDate.Some? && Truthy(q.propertyId)
      && q.checkInDate.value < q.checkOutDate.value
      && PropertyRoomTypes(types, q.propertyId.value) == []
    ensures reply.Rejected? ==> reply.status == BAD_REQUEST || reply.status == UNAUTHORIZED
    ensures reply.Report? ==>
      && reply.checkInDate == q.checkInDate.value
      && reply.checkOutDate == q.checkOutDate.value
      && var ts := PropertyRoomTypes(types, q.propertyId.value);
         && |reply.availability| == |ts| > 0
         && forall i :: 0 <= i < |ts| ==>
              && reply.availability[i].roomType == ts[i]
              && reply.availability[i].availableRooms <= TotalRooms(rooms, q.propertyId.value, ts[i].id)
              && reply.availability[i] ==
                   Entry(ts[i], rooms, licences, q.propertyId.value, q.checkInDate.value, q.checkOutDate.value)
  {
    if q.checkInDate.None? || q.checkOutDate.None? || !Truthy(q.propertyId) then Rejected(BAD_REQUEST)
    else if q.checkInDate.value >= q.checkOutDate.value then Rejected(BAD_REQUEST)
    else
      var propertyId := q.propertyId.value;
      var ts := PropertyRoomTypes(types, propertyId);
      if ts == [] then Rejected(UNAUTHORIZED)
      else
        Report(q.checkInDate.value, q.checkOutDate.value,
               seq(|ts|, i requires 0 <= i < |ts| =>
                 Entry(ts[i], rooms, licences, propertyId, q.checkInDate.value, q.checkOutDate.value)))
  }

  /** Neither the licence status nor its cancellation affects the overlap
      test: a cancelled licence still holds its room in the count. */
  lemma OverlapIgnoresStatus(l: License, status: LicenseStatus, cancelled: bool,
                             propertyId: Id, roomType: Id, checkIn: int, checkOut: int)
    ensures Overlaps(l.(licenseStatus := status, isCancelled := cancelled), propertyId, roomType, checkIn, checkOut)
        <==> Overlaps(l, propertyId, roomType, checkIn, checkOut)
  {
  }

  /** Stays that only touch at an end still overlap: a licence checking out
      on the queried check-in day is counted. */
  lemma TouchingStaysOverlap(l: License, propertyId: Id, roomType: Id, checkIn: int, checkOut: int)
    requires l.propertyRef == propertyId && l.roomTypeRef == roomType
    requires l.checkInDate.Some? && l.checkInDate.value < checkIn
    requires l.checkOutDate == Some(checkIn) && checkIn < checkOut
    ensures Overlaps(l, propertyId, roomType, checkIn, checkOut)
  {
  }

  /** One more licence never raises the availability of any room type, and
      lowers it by at most one. */
  lemma {:induction false} BookingNeverFreesRooms(rooms: seq<Room>, licences: seq<License>, l: License,
                                                  propertyId: Id, roomType: Id, checkIn: int, checkOut: int)
    ensures var total := TotalRooms(rooms, propertyId, roomType);
      var before := AvailableRooms(total, BookedRooms(licences, propertyId, roomType, checkIn, checkOut));
      var after := AvailableRooms(total, BookedRooms(licences + [l], propertyId, roomType, checkIn, checkOut));
      after <= before <= after + 1
  {
    CountSnoc(licences, l, (x: License) => Overlaps(x, propertyId, roomType, checkIn, checkOut));
  }

  /** With no overlapping licence every room of the type is available; with
      at least as many overlapping licences as rooms, none is. */
  lemma AvailabilityExtremes(rooms: seq<Room>, licences: seq<License>,
                             propertyId: Id, roomType: Id, checkIn: int, checkOut: int)
    ensures var total := TotalRooms(rooms, propertyId, roomType);
      var booked := BookedRooms(licences, propertyId, roomType, checkIn, checkOut);
      && (booked == 0 ==> AvailableRooms(total, booked) == total)
      && (booked >= total ==> AvailableRooms(total, booked) == 0)
  {
  }
}
