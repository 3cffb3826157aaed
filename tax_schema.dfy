/** The tax form: a name, a percentage between 0 and 100 (coerced from text
    as well as numbers) and a non-empty list of the categories the tax
    applies to. */
module TaxSchema {
  import opened Common
  import opened Js
  import opened Zod

  datatype TaxCategory = RoomCategory | MealPlanCategory | OtherCategory

  datatype TaxForm = TaxForm(name: string, percentage: int, applicableCategories: seq<TaxCategory>)

  datatype TaxInput = TaxInput(name: JsValue, percentage: JsValue, applicableCategories: JsValue)

  /** The category enum: "Room", "Meal Plan" and "Other". */
  function CategoryOf(v: JsValue): (r: Option<TaxCategory>)
    ensures r.Some? <==> v == Str("Room") || v == Str("Meal Plan") || v == Str("Other")
  {
    if v == Str("Room") then Some(RoomCategory)
    else if v == Str("Meal Plan") then Some(MealPlanCategory)
    else if v == Str("Other") then Some(OtherCategory)
    else None
  }

  /** The category name a form is submitted with. */
  function CategoryName(c: TaxCategory): string {
    match c
    case RoomCategory => "Room"
    case MealPlanCategory => "Meal Plan"
    case OtherCategory => "Other"
  }

  /** Every element must be one of the categories; one bad element rejects
      the whole list. */
  function Categories(items: seq<JsValue>): (r: Option<seq<TaxCategory>>)
    ensures r.Some? <==> forall i :: 0 <= i < |items| ==> CategoryOf(items[i]).Some?
    ensures r.Some? ==>
      && |r.value| == |items|
      && forall i :: 0 <= i < |items| ==> Some(r.value[i]) == CategoryOf(items[i])
  {
    if items == [] then Some([])
    else
      var init := Categories(items[..|items| - 1]);
      var last := CategoryOf(items[|items| - 1]);
      if init.Some? && last.Some? then Some(init.value + [last.value]) else None
  }

  /** `TaxFormSchema.safeParse`: the name needs at least one character as
      received and is then trimmed; the percentage is `Number(...)` of the
      input and must lie in [0, 100]; the category list must be a
      non-empty array of known categories. */
  function ParseTax(input: TaxInput): (r: Option<TaxForm>)
    ensures r.Some? <==>
      && input.name.Str? && |input.name.s| >= 1
      && ToNumber(input.percentage).Some?
      && 0 <= ToNumber(input.percentage).value <= 100
      && input.applicableCategories.Arr? && |input.applicableCategories.items| >= 1
      && Categories(input.applicableCategories.items).Some?
    ensures r.Some? ==>
      && r.value.name == Trim(input.name.s)
      && Some(r.value.percentage) == ToNumber(input.percentage)
      && |r.value.applicableCategories| == |input.applicableCategories.items|
      && forall i :: 0 <= i < |r.value.applicableCategories| ==>
           Str(CategoryName(r.value.applicableCategories[i])) == input.applicableCategories.items[i]
  {
    var name := Text(input.name);
    var percentage := ToNumber(input.percentage);
    if name.None? || |name.value| < 1 then None
    else if percentage.None? || percentage.value < 0 || percentage.value > 100 then None
    else if !input.applicableCategories.Arr? || input.applicableCategories.items == [] then None
    else
      var categories := Categories(input.applicableCategories.items);
      if categories.None? then None
      else
        assert forall i :: 0 <= i < |categories.value| ==>
          Str(CategoryName(categories.value[i])) == input.applicableCategories.items[i] by {
          forall i | 0 <= i < |categories.value|
            ensures Str(CategoryName(categories.value[i])) == input.applicableCategories.items[i]
          {
            assert Some(categories.value[i]) == CategoryOf(input.applicableCategories.items[i]);
          }
        }
        Some(TaxForm(Trim(name.value), percentage.value, categories.value))
  }

  /** A percentage typed as text is read as the number it spells: every
      integer from 0 to 100 is accepted and kept, and every other integer is
      refused. */
  lemma {:induction false} PercentageFromText(name: string, x: int)
    requires |name| >= 1
    ensures var r := ParseTax(TaxInput(Str(name), Str(IntText(x)), Arr([Str("Room")])));
      (r.Some? <==> 0 <= x <= 100) && (r.Some? ==> r.value.percentage == x)
  {
    NumberOfIntText(x);
    RoomOnly();
  }

  /** The one-element list of the room category is accepted. */
  lemma RoomOnly()
    ensures Categories([Str("Room")]) == Some([RoomCategory])
  {
    var items := [Str("Room")];
    assert items[..|items| - 1] == [];
    assert CategoryOf(items[0]) == Some(RoomCategory);
    assert Categories(items) == Some([] + [RoomCategory]);
    assert [] + [RoomCategory] == [RoomCategory];
  }

  /** The length check comes before the trim: a name of blanks is accepted
      and stored as the empty name. */
  lemma BlankNameAccepted(percentage: int)
    requires 0 <= percentage <= 100
    ensures var r := ParseTax(TaxInput(Str("  "), Num(percentage), Arr([Str("Other")])));
      r.Some? && r.value.name == ""
  {
  }

  /** An empty category list is refused, and so is a missing percentage. */
  lemma EmptyCategoriesOrNoPercentageRefused(name: JsValue, percentage: JsValue)
    ensures ParseTax(TaxInput(name, percentage, Arr([]))) == None
    ensures ParseTax(TaxInput(name, Undefined, Arr([Str("Room")]))) == None
  {
  }
}
