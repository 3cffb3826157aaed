/** Shapes shared by every part of the model: optional values, object ids,
    JavaScript truthiness of request fields and the HTTP statuses the
    handlers answer with. */
module Common {

  datatype Option<+T> = None | Some(value: T)

  /** A document id (a MongoDB ObjectId) in its text form. */
  type Id = string

  /** `!!field` for an optional string field of a request: an absent field
      and the empty string are falsy. */
  predicate Truthy(field: Option<string>) {
    field.Some? && field.value != ""
  }

  /** `!!field` for an optional numeric field: absent and 0 are falsy
      (NaN is not modelled). */
  predicate TruthyNumber(field: Option<int>) {
    field.Some? && field.value != 0
  }

  predicate IsHexDigit(c: char) {
    '0' <= c <= '9' || 'a' <= c <= 'f' || 'A' <= c <= 'F'
  }

  /** The text form of an ObjectId: exactly 24 hexadecimal digits, in
      either case. */
  predicate IsObjectIdText(s: string) {
    |s| == 24 && forall i :: 0 <= i < |s| ==> IsHexDigit(s[i])
  }

  const OK: int := 200
  const CREATED: int := 201
  const BAD_REQUEST: int := 400
  const UNAUTHORIZED: int := 401
  const NOT_FOUND: int := 404
  const CONFLICT: int := 409
  const INTERNAL_ERROR: int := 500
}
