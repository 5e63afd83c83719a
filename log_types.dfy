/** Values shared by the ingestion endpoint, the bulk-delete endpoint and the dashboard:
    JSON request bodies, the four canonical severity levels, the log documents a
    snapshot delivers, and the HTTP responses of the two endpoints. */
module LogTypes {

  datatype Option<T> = None | Some(value: T)

  /** Either the value an endpoint goes on with, or the response it returns early. */
  datatype Result<T> = Ok(value: T) | Err(response: Response)

  /** A JSON value as the endpoints receive it (numbers are integers in this model). */
  datatype Value =
    | Null
    | Bool(b: bool)
    | Num(n: int)
    | Str(s: string)
    | Arr(items: seq<Value>)
    | Obj(fields: map<string, Value>)

  type JsonObject = map<string, Value>

  /** JavaScript truthiness: the source's `!v` is `!Truthy(v)`. */
  predicate Truthy(v: Value) {
    match v
    case Null => false
    case Bool(b) => b
    case Num(n) => n != 0
    case Str(s) => s != ""
    case Arr(_) => true
    case Obj(_) => true
  }

  /** The property `key` of `obj` is truthy; a missing key reads as `undefined`, which is falsy. */
  predicate Present(obj: JsonObject, key: string) {
    key in obj && Truthy(obj[key])
  }

  /** The four canonical levels every persisted log carries. */
  datatype Level = Info | Warning | Error | Debug {
    function Name(): (r: string)
      ensures IsCanonicalLevel(r)
    {
      match this
      case Info => "info"
      case Warning => "warning"
      case Error => "error"
      case Debug => "debug"
    }
  }

  predicate IsCanonicalLevel(s: string) {
    s == "info" || s == "warning" || s == "error" || s == "debug"
  }

  /** Distinct levels have distinct names, so the stored name determines the level. A
      stand-alone fact about the table of names; no other member relies on it. */
  lemma NameInjective(a: Level, b: Level)
    ensures a.Name() == b.Name() <==> a == b
  {
  }

  /** A log document as a snapshot delivers it to the dashboard: the store's id plus the
      fields the dashboard reads. */
  datatype LogEntry = LogEntry(
    id: string,
    userid: string,
    application: string,
    logger: string,
    timestamp: Value,
    level: string,
    message: string,
    metadata: Option<Value>)

  /** The request as `request.json()` sees it: unparsable (its rejection message), or a JSON value. */
  datatype Request = Unparsable(reason: string) | Parsed(body: Value)

  /** The HTTP responses of the ingestion and bulk-delete endpoints. */
  datatype Response =
    | LogAdded(logId: string)                     // 200 {success: true, message, logId}
    | LogsDeleted(deletedCount: nat)              // 200 {success: true, message, deletedCount}
    | BadRequest(error: string)                   // 400 {error}
    | ServerError(error: string, details: string) // 500 {error, details}
    | MethodNotAllowed(error: string)             // 405 {error}
  {
    function Status(): (code: nat)
      ensures code in {200, 400, 405, 500}
      ensures code == 200 <==> (LogAdded? || LogsDeleted?)
    {
      match this
      case LogAdded(_) => 200
      case LogsDeleted(_) => 200
      case BadRequest(_) => 400
      case ServerError(_, _) => 500
      case MethodNotAllowed(_) => 405
    }
  }

  /** `toLowerCase` on one character, restricted to the ASCII letters. */
  function LowerChar(c: char): char {
    if 'A' <= c <= 'Z' then (c as int + 32) as char else c
  }

  /** `toLowerCase`, restricted to the ASCII letters. */
  function Lower(s: string): (r: string)
    ensures |r| == |s|
    // no capital letter is left
    ensures forall i :: 0 <= i < |r| ==> !('A' <= r[i] <= 'Z')
    // a capital becomes the same letter in lower case
    ensures forall i :: 0 <= i < |s| && 'A' <= s[i] <= 'Z' ==>
              r[i] == "abcdefghijklmnopqrstuvwxyz"[s[i] as int - 'A' as int]
    // every other character is kept
    ensures forall i :: 0 <= i < |s| && !('A' <= s[i] <= 'Z') ==> r[i] == s[i]
  {
    seq(|s|, i requires 0 <= i < |s| => LowerChar(s[i]))
  }

  /** Lower-casing twice is lower-casing once. */
  lemma LowerIdempotent(s: string)
    ensures Lower(Lower(s)) == Lower(s)
  {
  }
}
