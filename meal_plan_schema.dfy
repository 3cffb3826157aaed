/** The meal-plan form: a name stored in lower case and a code stored in
    upper case, both trimmed; a price coerced to a number, at least 0 and 0
    when absent; an optional description. */
module MealPlanSchema {
  import opened Common
  import opened Js
  import opened Zod

  datatype MealPlanForm = MealPlanForm(name: string, code: string, price: int, description: Option<string>)

  datatype MealPlanInput = MealPlanInput(name: JsValue, code: JsValue, price: JsValue, description: JsValue)

  /** `z.coerce.number().min(0).default(0)`: absent is 0, anything else is
      coerced with `Number(...)` and must not be negative. */
  function Price(v: JsValue): Option<int> {
    if v.Undefined? then Some(0)
    else
      var n := ToNumber(v);
      if n.Some? && n.value >= 0 then n else None
  }

  /** `MealPlanFormSchema.safeParse`. */
  function ParseMealPlan(input: MealPlanInput): (r: Option<MealPlanForm>)
    ensures r.Some? <==>
      && input.name.Str? && |input.name.s| >= 1
      && input.code.Str? && |input.code.s| >= 1
      && (input.price.Undefined? || (ToNumber(input.price).Some? && ToNumber(input.price).value >= 0))
      && OptionalText(input.description).Some?
    ensures r.Some? ==>
      && r.value.name == ToLower(Trim(input.name.s))
      && r.value.code == ToUpper(Trim(input.code.s))
      && r.value.price >= 0
      && r.value.price == (if input.price.Undefined? then 0 else ToNumber(input.price).value)
      && Some(r.value.description) == OptionalText(input.description)
  {
    var name := Text(input.name);
    var code := Text(input.code);
    var price := Price(input.price);
    var description := OptionalText(input.description);
    if name.None? || |name.value| < 1 || code.None? || |code.value| < 1 then None
    else if price.None? || description.None? then None
    else Some(MealPlanForm(ToLower(Trim(name.value)), ToUpper(Trim(code.value)), price.value, description.value))
  }

  /** The input that submits a form as it stands, with the price as text. */
  function Submitted(f: MealPlanForm): MealPlanInput {
    MealPlanInput(Str(f.name), Str(f.code), Str(IntText(f.price)), OptionalTextValue(f.description))
  }

  /** Submitting a stored meal plan again, with its price typed as text, is
      accepted and stores exactly the same form (for a non-blank name and
      code). */
  lemma {:induction false} ResubmitMealPlan(input: MealPlanInput)
    requires ParseMealPlan(input).Some?
    requires ParseMealPlan(input).value.name != [] && ParseMealPlan(input).value.code != []
    ensures ParseMealPlan(Submitted(ParseMealPlan(input).value)) == ParseMealPlan(input)
  {
    var f := ParseMealPlan(input).value;
    var again := Submitted(f);
    TrimLowerIdempotent(input.name.s);
    TrimUpperIdempotent(input.code.s);
    assert ToLower(Trim(again.name.s)) == f.name;
    assert ToUpper(Trim(again.code.s)) == f.code;
    NumberOfIntText(f.price);
    assert ToNumber(again.price) == Some(f.price);
    OptionalTextRoundTrip(f.description);
  }

  /** Coercion reads an empty price and a null price as 0. */
  lemma EmptyPriceIsZero(name: JsValue, code: JsValue)
    requires name.Str? && |name.s| >= 1 && code.Str? && |code.s| >= 1
    ensures var r := ParseMealPlan(MealPlanInput(name, code, Str(""), Undefined)); r.Some? && r.value.price == 0
    ensures var r := ParseMealPlan(MealPlanInput(name, code, Null, Undefined)); r.Some? && r.value.price == 0
  {
    assert |Trim("")| == 0;
    assert StringToNumber("") == Some(0);
    assert Price(Str("")) == Some(0) && Price(Null) == Some(0);
  }

  /** Text that is not a number and a negative price are refused. */
  lemma BadPriceRefused(name: JsValue, code: JsValue)
    ensures ParseMealPlan(MealPlanInput(name, code, Str("free"), Undefined)) == None
    ensures ParseMealPlan(MealPlanInput(name, code, Num(-1), Undefined)) == None
  {
    var t := "free";
    assert TrimStart(t) == t && TrimEnd(t) == t;
    assert Trim(t) == t;
    assert !AllDigits(t) by { assert !IsDigit(t[0]); }
    assert StringToNumber(t) == None;
  }
}
