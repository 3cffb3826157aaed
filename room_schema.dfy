/** The room form: a trimmed room number, the id of its room type written
    as 24 hexadecimal digits, an availability flag that defaults to true,
    and an optional floor. */
module RoomSchema {
  import opened Common
  import opened Js
  import opened Zod

  datatype RoomForm = RoomForm(roomNumber: string, roomTypeRef: Id, isAvailable: bool, floor: Option<int>)

  datatype RoomInput = RoomInput(roomNumber: JsValue, roomTypeRef: JsValue, isAvailable: JsValue, floor: JsValue)

  /** `roomSchema.safeParse`. */
  function ParseRoom(input: RoomInput): (r: Option<RoomForm>)
    ensures r.Some? <==>
      && input.roomNumber.Str? && |input.roomNumber.s| >= 1
      && input.roomTypeRef.Str? && IsObjectIdText(input.roomTypeRef.s)
      && (input.isAvailable.Undefined? || input.isAvailable.Bool?)
      && (input.floor.Undefined? || input.floor.Num?)
    ensures r.Some? ==>
      && r.value.roomNumber == Trim(input.roomNumber.s)
      && r.value.roomTypeRef == input.roomTypeRef.s
      && r.value.isAvailable == (input.isAvailable.Undefined? || input.isAvailable.b)
      && r.value.floor == (if input.floor.Num? then Some(input.floor.n) else None)
  {
    var roomNumber := Text(input.roomNumber);
    var roomTypeRef := Text(input.roomTypeRef);
    var isAvailable := BoolOr(input.isAvailable, true);
    var floor := OptionalNumber(input.floor);
    if roomNumber.None? || |roomNumber.value| < 1 then None
    else if roomTypeRef.None? || !IsObjectIdText(roomTypeRef.value) then None
    else if isAvailable.None? || floor.None? then None
    else Some(RoomForm(Trim(roomNumber.value), roomTypeRef.value, isAvailable.value, floor.value))
  }

  type Byte = x: int | 0 <= x < 256

  function HexDigit(n: int): (c: char)
    requires 0 <= n < 16
    ensures IsHexDigit(c)
  {
    "0123456789abcdef"[n]
  }

  /** The text form of the bytes of an id: two lower-case hexadecimal digits
      per byte, high half first. */
  function HexText(bytes: seq<Byte>): (s: string)
    ensures |s| == 2 * |bytes|
  {
    seq(2 * |bytes|, i requires 0 <= i < 2 * |bytes| =>
      if i % 2 == 0 then HexDigit(bytes[i / 2] / 16) else HexDigit(bytes[i / 2] % 16))
  }

  /** Every ObjectId (12 bytes) passes the room-type id check, in lower case
      as written out and in upper case. */
  lemma ObjectIdTextAccepted(bytes: seq<Byte>)
    requires |bytes| == 12
    ensures IsObjectIdText(HexText(bytes))
    ensures IsObjectIdText(ToUpper(HexText(bytes)))
  {
    var s := HexText(bytes);
    assert forall i :: 0 <= i < |s| ==> IsHexDigit(s[i]);
  }

  /** An id one digit too short or too long, or with a digit outside
      0-9, a-f and A-F, is refused. */
  lemma MalformedIdRefused(roomNumber: JsValue, s: string, c: char)
    requires IsObjectIdText(s) && !IsHexDigit(c)
    ensures ParseRoom(RoomInput(roomNumber, Str(s[1..]), Undefined, Undefined)) == None
    ensures ParseRoom(RoomInput(roomNumber, Str(s + "0"), Undefined, Undefined)) == None
    ensures ParseRoom(RoomInput(roomNumber, Str([c] + s[1..]), Undefined, Undefined)) == None
  {
    assert ([c] + s[1..])[0] == c;
  }

  /** A room sent without an availability flag is available. */
  lemma AvailableByDefault(roomNumber: string, roomTypeRef: Id)
    requires |roomNumber| >= 1 && IsObjectIdText(roomTypeRef)
    ensures var r := ParseRoom(RoomInput(Str(roomNumber), Str(roomTypeRef), Undefined, Undefined));
      r.Some? && r.value.isAvailable && r.value.floor == None
  {
  }
}
