/** The field rules the request schemas are built from: what each accepts
    and the value it hands on. Checks run in the order they are written in
    a schema, so a length bound written before `.trim()` is checked on the
    text as received. */
module Zod {
  import opened Common
  import opened Js

  /** `z.string()`. */
  function Text(v: JsValue): Option<string> {
    if v.Str? then Some(v.s) else None
  }

  /** `z.string().optional()`: an absent field gives `Some(None)`. */
  function OptionalText(v: JsValue): Option<Option<string>> {
    match v
    case Undefined => Some(None)
    case Str(s) => Some(Some(s))
    case _ => None
  }

  /** `z.boolean().default(d)`. */
  function BoolOr(v: JsValue, d: bool): Option<bool> {
    match v
    case Undefined => Some(d)
    case Bool(b) => Some(b)
    case _ => None
  }

  /** `z.number().optional()`. */
  function OptionalNumber(v: JsValue): Option<Option<int>> {
    match v
    case Undefined => Some(None)
    case Num(n) => Some(Some(n))
    case _ => None
  }

  /** The elements of a `z.array(z.string())`: every one must be a string. */
  function Texts(items: seq<JsValue>): (r: Option<seq<string>>)
    ensures r.Some? <==> forall i :: 0 <= i < |items| ==> items[i].Str?
    ensures r.Some? ==> |r.value| == |items| && forall i :: 0 <= i < |items| ==> r.value[i] == items[i].s
  {
    if items == [] then Some([])
    else
      var init := Texts(items[..|items| - 1]);
      var last := items[|items| - 1];
      if init.Some? && last.Str? then Some(init.value + [last.s]) else None
  }

  /** A list of strings as it is sent in a request body. */
  function TextValues(xs: seq<string>): (r: seq<JsValue>)
    ensures |r| == |xs| && forall i :: 0 <= i < |xs| ==> r[i] == Str(xs[i])
  {
    seq(|xs|, i requires 0 <= i < |xs| => Str(xs[i]))
  }

  /** Sending a list of strings and reading it back gives the same list. */
  lemma TextsRoundTrip(xs: seq<string>)
    ensures Texts(TextValues(xs)) == Some(xs)
  {
    var r := Texts(TextValues(xs));
    assert r.Some?;
    assert r.value == xs;
  }

  /** `z.array(z.string()).optional()`. */
  function OptionalTexts(v: JsValue): Option<Option<seq<string>>> {
    match v
    case Undefined => Some(None)
    case Arr(items) =>
      var r := Texts(items);
      if r.Some? then Some(Some(r.value)) else None
    case _ => None
  }

  /** An optional string as it is sent: absent, or the string. */
  function OptionalTextValue(o: Option<string>): JsValue {
    if o.Some? then Str(o.value) else Undefined
  }

  /** An optional list of strings as it is sent. */
  function OptionalTextsValue(o: Option<seq<string>>): JsValue {
    if o.Some? then Arr(TextValues(o.value)) else Undefined
  }

  lemma OptionalTextRoundTrip(o: Option<string>)
    ensures OptionalText(OptionalTextValue(o)) == Some(o)
  {
  }

  lemma OptionalTextsRoundTrip(o: Option<seq<string>>)
    ensures OptionalTexts(OptionalTextsValue(o)) == Some(o)
  {
    if o.Some? {
      TextsRoundTrip(o.value);
    }
  }
}
