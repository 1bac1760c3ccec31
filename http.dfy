/** Requests and responses as the Express handlers see them. */
module Http {
  import opened Wrappers
  import Text

  /** A field of a JSON request body: missing (`undefined` in JavaScript), `null`, or a value. */
  datatype Field<T> = Absent | Null | Given(value: T)

  /** express-validator's conversion of a field to the string its validators test:
      `undefined` and `null` become the empty string. */
  function TextOf(f: Field<string>): (r: string)
    ensures f.Given? ==> r == f.value
    ensures !f.Given? ==> r == ""
  {
    if f.Given? then f.value else ""
  }

  /** The same conversion for a numeric field: the decimal digits of the number. */
  function NumberText(f: Field<int>): (r: string)
    ensures f.Given? ==> r == Text.IntToString(f.value) && r != ""
    ensures !f.Given? ==> r == ""
  {
    if f.Given? then Text.IntToString(f.value) else ""
  }

  /** Whether JavaScript treats the field as false in `field || fallback`. */
  predicate Falsy(f: Field<string>) {
    f.Absent? || f.Null? || f == Given("")
  }

  /** `field || fallback`. */
  function OrDefault(f: Field<string>, fallback: string): (r: string)
    ensures Falsy(f) ==> r == fallback
    ensures !Falsy(f) ==> f == Given(r)
  {
    if Falsy(f) then fallback else f.value
  }

  /** The mysql2 driver refuses a statement with an `undefined` parameter; `null` is
      sent as SQL NULL. */
  predicate Bound<T>(f: Field<T>) {
    !f.Absent?
  }

  /** The SQL value a bound parameter carries. */
  function Sql<T>(f: Field<T>): (r: Option<T>)
    requires Bound(f)
    ensures r.Some? <==> f.Given?
    ensures f.Given? ==> r.value == f.value
  {
    if f.Given? then Some(f.value) else None
  }

  /** One entry of `errors.array()`: the field and the message of the failed check. */
  datatype FieldError = FieldError(path: string, msg: string)

  /** A JSON response: status code, the `success` flag, an optional `message`, the
      validation `errors` and the `data` payload. */
  datatype Reply<D> = Reply(status: int, success: bool, message: Option<string>,
                            errors: seq<FieldError>, data: Option<D>)

  /** `res.status(400).json({ success: false, errors: errors.array() })`. */
  function Invalid<D>(errors: seq<FieldError>): Reply<D> {
    Reply(400, false, None, errors, None)
  }

  /** `res.status(status).json({ success: false, message })`. */
  function Failure<D>(status: int, message: string): Reply<D> {
    Reply(status, false, Some(message), [], None)
  }

  /** `res.status(status).json({ success: true, message, data })`. */
  function Success<D>(status: int, message: Option<string>, data: Option<D>): Reply<D> {
    Reply(status, true, message, [], data)
  }
}
