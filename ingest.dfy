/** The log ingestion endpoint `/api/logs`: `POST` lower-cases the submitted severity
    token, checks the required fields, checks the token against the accepted vocabulary,
    maps it to one of the four canonical levels and hands the record to the store's `add`;
    `GET` is refused. The store's `add` is a parameter: the id it assigns, or its failure. */
module Ingest {
  import opened LogTypes

  /** The keys of `levelMapping`, in declaration order (the order `Object.keys` lists them). */
  const AcceptedTokens: seq<string> :=
    ["shout", "severe", "warning", "info", "config", "fine", "finer", "finest"]

  /** `levelMapping`: accepted token to canonical level. */
  const LevelMapping: map<string, Level> := map[
    "shout" := Error, "severe" := Error,
    "warning" := Warning,
    "info" := Info, "config" := Info,
    "fine" := Debug, "finer" := Debug, "finest" := Debug]

  const MissingFieldsError := "UserId, application, timestamp and message are required"
  const InvalidLevelError := "Invalid log level. Must be one of: " + Join(AcceptedTokens, ", ")
  const AddFailedError := "Failed to add log"
  const GetNotSupportedError := "GET method not supported. Use POST to submit logs."
  /** Stands for the runtime's TypeError message when `body.level.toLowerCase()` cannot run. */
  const LevelNotStringDetails := "level is not a string"

  /** What the store's `add` does with the record: assigns an id, or fails with a message. */
  datatype AddOutcome = Assigned(id: string) | AddFailed(message: string)

  /** The response, and the argument of the one `add` call if one was made. */
  datatype Handled = Handled(response: Response, added: Option<JsonObject>)

  /** `parts.join(sep)`. */
  function Join(parts: seq<string>, sep: string): string {
    if |parts| == 0 then ""
    else if |parts| == 1 then parts[0]
    else parts[0] + sep + Join(parts[1..], sep)
  }

  /** The table has exactly the accepted tokens as its keys. */
  lemma MappingKeysAreAcceptedTokens()
    ensures LevelMapping.Keys == set t | t in AcceptedTokens
  {
  }

  /** The level of an accepted token, after lower-casing; `None` outside the vocabulary. */
  function Normalise(token: string): (r: Option<Level>)
    ensures r.Some? <==> Lower(token) in AcceptedTokens
    ensures Lower(token) == "shout" || Lower(token) == "severe" ==> r == Some(Error)
    ensures Lower(token) == "warning" ==> r == Some(Warning)
    ensures Lower(token) == "info" || Lower(token) == "config" ==> r == Some(Info)
    ensures Lower(token) == "fine" || Lower(token) == "finer" || Lower(token) == "finest" ==> r == Some(Debug)
  {
    var t := Lower(token);
    if t in AcceptedTokens then Some(LevelMapping[t]) else None
  }

  /** `body.level` is a string, so `toLowerCase` can be called on it. */
  predicate HasStringLevel(body: Value) {
    body.Obj? && "level" in body.fields && body.fields["level"].Str?
  }

  /** The four fields the endpoint requires are all truthy (`logger` is not checked). */
  predicate HasRequiredFields(fields: JsonObject) {
    Present(fields, "userid") && Present(fields, "application")
    && Present(fields, "timestamp") && Present(fields, "message")
  }

  /** What every persisted log satisfies: a canonical level, the lower-cased submitted
      token from the vocabulary, and the required fields present. */
  predicate Persistable(record: JsonObject) {
    "level" in record && record["level"].Str? && IsCanonicalLevel(record["level"].s)
    && "originalLevel" in record && record["originalLevel"].Str?
    && record["originalLevel"].s in AcceptedTokens
    && HasRequiredFields(record)
  }

  /** The body of `POST` from the lower-casing to the record handed to `add`. */
  function Validate(body: Value): (r: Result<JsonObject>)
    // toLowerCase throws on a missing or non-string level, before any field is checked
    ensures !HasStringLevel(body) ==> r == Err(ServerError(AddFailedError, LevelNotStringDetails))
    // the missing-field check comes before the level check
    ensures HasStringLevel(body) && !HasRequiredFields(body.fields) ==> r == Err(BadRequest(MissingFieldsError))
    ensures (HasStringLevel(body) && HasRequiredFields(body.fields)
             && Lower(body.fields["level"].s) !in AcceptedTokens) ==> r == Err(BadRequest(InvalidLevelError))
    ensures r.Ok? <==> HasStringLevel(body) && HasRequiredFields(body.fields)
                       && Normalise(body.fields["level"].s).Some?
    ensures r.Ok? ==> Persistable(r.value)
    // the level is the mapped one, the token is kept lower-cased, everything else passes through
    ensures r.Ok? ==>
              r.value["level"] == Str(Normalise(body.fields["level"].s).value.Name())
              && r.value["originalLevel"] == Str(Lower(body.fields["level"].s))
              && r.value.Keys == body.fields.Keys + {"originalLevel"}
              && forall k :: k in body.fields && k != "level" && k != "originalLevel" ==>
                   r.value[k] == body.fields[k]
  {
    if !HasStringLevel(body) then
      Err(ServerError(AddFailedError, LevelNotStringDetails))
    else
      var level := Lower(body.fields["level"].s);
      var fields := body.fields["level" := Str(level)];
      if !HasRequiredFields(fields) then
        Err(BadRequest(MissingFieldsError))
      else if level !in AcceptedTokens then
        Err(BadRequest(InvalidLevelError))
      else
        Ok(fields["level" := Str(LevelMapping[level].Name())]["originalLevel" := Str(level)])
  }

  /** `POST /api/logs`. */
  function Post(request: Request, add: AddOutcome): (h: Handled)
    // exactly one add, and only for a body that passes validation
    ensures h.added.Some? <==> request.Parsed? && Validate(request.body).Ok?
    ensures h.added.Some? ==> h.added.value == Validate(request.body).value
    // success is reported exactly when the add succeeded, with the id it assigned
    ensures h.response.LogAdded? <==> h.added.Some? && add.Assigned?
    ensures h.response.LogAdded? ==> h.response.logId == add.id
    ensures h.response.Status() == 400 ==> h.added == None
    // a body that fails validation gets the validation's answer: 400 for a missing field or
    // an unknown token, 500 for a level that is not a string
    ensures request.Parsed? && Validate(request.body).Err? ==> h.response == Validate(request.body).response
    ensures h.response.Status() == 400 ==>
              h.response == BadRequest(MissingFieldsError) || h.response == BadRequest(InvalidLevelError)
    ensures h.response.Status() in {200, 400, 500}
    // an unparsable body or a failing add become 500 with the error's message as details
    ensures request.Unparsable? ==> h.response == ServerError(AddFailedError, request.reason)
    ensures h.added.Some? && add.AddFailed? ==> h.response == ServerError(AddFailedError, add.message)
  {
    match request
    case Unparsable(reason) => Handled(ServerError(AddFailedError, reason), None)
    case Parsed(body) =>
      match Validate(body)
      case Err(response) => Handled(response, None)
      case Ok(record) =>
        match add
        case Assigned(id) => Handled(LogAdded(id), Some(record))
        case AddFailed(message) => Handled(ServerError(AddFailedError, message), Some(record))
  }

  /** Two bodies that differ only in the case of the level token are handled identically:
      the same response, and the same record handed to `add`. */
  lemma PostIgnoresCase(fields: JsonObject, token1: string, token2: string, add: AddOutcome)
    requires Lower(token1) == Lower(token2)
    ensures Post(Parsed(Obj(fields["level" := Str(token1)])), add)
         == Post(Parsed(Obj(fields["level" := Str(token2)])), add)
  {
    var f1, f2 := fields["level" := Str(token1)], fields["level" := Str(token2)];
    var lowered := Str(Lower(token1));
    assert f1["level" := lowered] == f2["level" := lowered];
  }

  /** `GET /api/logs` is always refused with 405, whatever the request. */
  function Get(request: Request): (r: Response)
    ensures r.Status() == 405
    ensures r == MethodNotAllowed(GetNotSupportedError)
  {
    MethodNotAllowed(GetNotSupportedError)
  }
}
