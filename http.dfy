/** What a request handler answers when it rejects a request
    (`createError({ statusCode, message })`), and the JavaScript truthiness
    tests the handlers apply to request body fields. */
module Http {
  import opened Wrappers
  import opened Text
  import opened Schema

  datatype HttpError = HttpError(statusCode: int, message: string)

  /** A store write the handler does not catch surfaces as a 500; the
      model keeps the refused column as its message. */
  function StoreFailure(e: DbError): (r: HttpError)
    ensures r.statusCode == 500 && r.message == e.column
  {
    HttpError(500, e.column)
  }

  /** JavaScript truthiness of an optional string. */
  predicate Truthy(s: Option<string>) {
    s.Some? && s.value != []
  }

  /** JavaScript truthiness of an optional number. */
  predicate TruthyId(n: Option<int>) {
    n.Some? && n.value != 0
  }

  /** `!s || s.trim() === ''`, which is also `!s?.trim()`: the field is
      missing or holds only whitespace. */
  predicate Blank(s: Option<string>) {
    s.None? || Trim(s.value) == []
  }

  /** `s || null` (or `s || undefined`) for a string: the empty string
      becomes absent. */
  function NonEmptyOrNull(s: string): (r: Option<string>)
    ensures r.None? <==> s == []
    ensures r.Some? ==> r.value == s
  {
    if s == [] then None else Some(s)
  }

  /** `value?.trim() || null`. */
  function TrimmedOrNull(s: Option<string>): (r: Option<string>)
    ensures r.Some? <==> !Blank(s)
    ensures r.Some? ==> r.value == Trim(s.value) && r.value != [] && Trim(r.value) == r.value
  {
    if s.Some? && Trim(s.value) != [] then
      TrimIdempotent(s.value);
      Some(Trim(s.value))
    else None
  }
}
