/** The room-type form: a name stored in lower case and a code stored in
    upper case, both trimmed; a base price of at least 0 (0 when absent); a
    maximum occupancy of at least 1; and optional description and lists. */
module RoomTypeSchema {
  import opened Common
  import opened Js
  import opened Zod

  datatype RoomTypeForm = RoomTypeForm(
    name: string,
    code: string,
    basePrice: int,
    maxOccupancy: int,
    description: Option<string>,
    amenities: Option<seq<string>>,
    images: Option<seq<string>>,
    policies: Option<seq<string>>)

  datatype RoomTypeInput = RoomTypeInput(
    name: JsValue,
    code: JsValue,
    basePrice: JsValue,
    maxOccupancy: JsValue,
    description: JsValue,
    amenities: JsValue,
    images: JsValue,
    policies: JsValue)

  /** `z.number().min(0).default(0)`: absent is 0; only a number is taken. */
  function BasePrice(v: JsValue): Option<int> {
    match v
    case Undefined => Some(0)
    case Num(n) => if n >= 0 then Some(n) else None
    case _ => None
  }

  /** `RoomTypeSchema.safeParse`. */
  function ParseRoomType(input: RoomTypeInput): (r: Option<RoomTypeForm>)
    ensures r.Some? <==>
      && input.name.Str? && |input.name.s| >= 1
      && input.code.Str? && |input.code.s| >= 1
      && (input.basePrice.Undefined? || (input.basePrice.Num? && input.basePrice.n >= 0))
      && input.maxOccupancy.Num? && input.maxOccupancy.n >= 1
      && OptionalText(input.description).Some?
      && OptionalTexts(input.amenities).Some?
      && OptionalTexts(input.images).Some?
      && OptionalTexts(input.policies).Some?
    ensures r.Some? ==>
      && r.value.name == ToLower(Trim(input.name.s))
      && r.value.code == ToUpper(Trim(input.code.s))
      && r.value.basePrice == (if input.basePrice.Undefined? then 0 else input.basePrice.n)
      && r.value.basePrice >= 0
      && r.value.maxOccupancy == input.maxOccupancy.n >= 1
      && Some(r.value.description) == OptionalText(input.description)
      && Some(r.value.amenities) == OptionalTexts(input.amenities)
      && Some(r.value.images) == OptionalTexts(input.images)
      && Some(r.value.policies) == OptionalTexts(input.policies)
  {
    var name := Text(input.name);
    var code := Text(input.code);
    var basePrice := BasePrice(input.basePrice);
    var description := OptionalText(input.description);
    var amenities := OptionalTexts(input.amenities);
    var images := OptionalTexts(input.images);
    var policies := OptionalTexts(input.policies);
    if name.None? || |name.value| < 1 || code.None? || |code.value| < 1 then None
    else if basePrice.None? || !input.maxOccupancy.Num? || input.maxOccupancy.n < 1 then None
    else if description.None? || amenities.None? || images.None? || policies.None? then None
    else
      Some(RoomTypeForm(ToLower(Trim(name.value)), ToUpper(Trim(code.value)), basePrice.value,
                        input.maxOccupancy.n, description.value, amenities.value, images.value,
                        policies.value))
  }

  /** The input that submits a form as it stands. */
  function Submitted(f: RoomTypeForm): RoomTypeInput {
    RoomTypeInput(Str(f.name), Str(f.code), Num(f.basePrice), Num(f.maxOccupancy),
                  OptionalTextValue(f.description), OptionalTextsValue(f.amenities),
                  OptionalTextsValue(f.images), OptionalTextsValue(f.policies))
  }

  /** A form whose name and code are already in normal form. */
  predicate Normal(f: RoomTypeForm) {
    && f.name != [] && f.name == ToLower(Trim(f.name))
    && f.code != [] && f.code == ToUpper(Trim(f.code))
    && f.basePrice >= 0 && f.maxOccupancy >= 1
  }

  /** A form in normal form is accepted as it stands and read back
      unchanged. */
  lemma ResubmitNormal(f: RoomTypeForm)
    requires Normal(f)
    ensures ParseRoomType(Submitted(f)) == Some(f)
  {
    var input := Submitted(f);
    assert Text(input.name) == Some(f.name) && Text(input.code) == Some(f.code);
    assert BasePrice(input.basePrice) == Some(f.basePrice);
    OptionalTextRoundTrip(f.description);
    OptionalTextsRoundTrip(f.amenities);
    OptionalTextsRoundTrip(f.images);
    OptionalTextsRoundTrip(f.policies);
  }

  /** Normalisation is idempotent: submitting a stored room type again (with
      a non-blank name and code) is accepted and stores exactly the same
      form. */
  lemma {:induction false} ResubmitRoomType(input: RoomTypeInput)
    requires ParseRoomType(input).Some?
    requires ParseRoomType(input).value.name != [] && ParseRoomType(input).value.code != []
    ensures ParseRoomType(Submitted(ParseRoomType(input).value)) == ParseRoomType(input)
  {
    TrimLowerIdempotent(input.name.s);
    TrimUpperIdempotent(input.code.s);
    ResubmitNormal(ParseRoomType(input).value);
  }

  /** A name of blanks passes the length check, which looks at the text as
      received, and is stored empty. */
  lemma BlankRoomTypeNameAccepted()
    ensures var r := ParseRoomType(RoomTypeInput(Str(" "), Str("DLX"), Undefined, Num(2),
                                                 Undefined, Undefined, Undefined, Undefined));
      r.Some? && r.value.name == "" && r.value.basePrice == 0
  {
  }
}
