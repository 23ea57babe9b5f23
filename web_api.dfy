/**
 * What the React pages get back from the fetch wrappers of
 * frontend/src/services/auth.js, journal.js and user.js, and the JavaScript
 * reads the pages apply to it.
 */
module WebApi {
  import opened JsonValue

  /** How the promise of one wrapper call settles. */
  datatype Outcome =
    | Resolved(body: Json)      // the parsed JSON body (possibly null, a number, ...)
    | Undefined                 // a wrapper caught a network or parse error and returned nothing
    | Rejected(message: string) // a wrapper without try/catch let the error through

  /** `response.success` can be read without a TypeError: the value is neither undefined nor null. */
  predicate Readable(o: Outcome) {
    o.Resolved? && o.body != JNull
  }

  /** `v.key` on a value that is not null: a missing property, or any property of a non-object, is undefined. */
  function Member(v: Json, key: string): Json {
    if v.JObj? then Get(v.fields, key) else JNull
  }

  /** `response.key` of a readable response. */
  function Read(o: Outcome, key: string): Json
    requires Readable(o)
  {
    Member(o.body, key)
  }

  /** `response.success` is truthy. */
  predicate Succeeded(o: Outcome) {
    Readable(o) && JsTruthy(Read(o, "success"))
  }

  /**
   * The `message` of the error a page catches when the response cannot be
   * read: the rejection's own message, or the TypeError thrown by reading
   * `success` of undefined or null.
   */
  function ThrownMessage(o: Outcome): string
    requires !Readable(o)
  {
    match o
    case Rejected(m) => m
    case Undefined => "Cannot read properties of undefined (reading 'success')"
    case Resolved(_) => "Cannot read properties of null (reading 'success')"
  }

  /** `v || fallback`: the value itself when truthy, else the fallback text. */
  function Or(v: Json, fallback: string): Json {
    if JsTruthy(v) then v else JStr(fallback)
  }

  /** An `||` with a non-empty fallback is always truthy: a failed request always shows some message. */
  lemma OrTruthy(v: Json, fallback: string)
    requires fallback != []
    ensures JsTruthy(Or(v, fallback))
    ensures JsTruthy(v) ==> Or(v, fallback) == v
  {
  }
}
