/** The bulk-delete endpoint `DELETE /api/logs/bulk-delete`: it checks the id list, adds
    one delete per id to a write batch and commits the batch. The store is a map from
    document id to document; the commit is all-or-nothing, and whether it succeeds is a
    parameter. */
module BulkDelete {
  import opened LogTypes

  /** The store's largest atomic write batch. */
  const MaxBatch := 500

  const IdsRequiredError := "Log IDs array is required"
  const TooManyIdsError := "Cannot delete more than 500 logs at once"
  const BulkDeleteFailedError := "Failed to bulk delete logs"
  /** Stands for the runtime's TypeError message when the body is `null`. */
  const NullBodyDetails := "body is null"
  /** Stands for the store's message when `doc` is given an id that is not a non-empty string. */
  const InvalidIdDetails := "id is not a valid document path"

  /** The documents of the `logs` collection, by id. */
  type Store = map<string, JsonObject>

  /** What the store does with the committed batch. */
  datatype CommitOutcome = Committed | CommitFailed(message: string)

  /** `const { logIds } = body`: a property read that is `undefined` (here `None`) when the
      body is not an object or has no such key. */
  function LogIdsOf(body: Value): Option<Value>
    requires !body.Null?
  {
    if body.Obj? && "logIds" in body.fields then Some(body.fields["logIds"]) else None
  }

  /** The two checks made before a batch is built, in order: a non-empty array, then at
      most 500 entries. On success, the array's entries. */
  function CheckIds(body: Value): (r: Result<seq<Value>>)
    ensures body.Null? ==> r == Err(ServerError(BulkDeleteFailedError, NullBodyDetails))
    ensures !body.Null? && (LogIdsOf(body) == None || !LogIdsOf(body).value.Arr?) ==>
              r == Err(BadRequest(IdsRequiredError))
    ensures !body.Null? && LogIdsOf(body).Some? && LogIdsOf(body).value.Arr? ==>
              var n := |LogIdsOf(body).value.items|;
              (n == 0 ==> r == Err(BadRequest(IdsRequiredError)))
              && (n > MaxBatch ==> r == Err(BadRequest(TooManyIdsError)))
              && (0 < n <= MaxBatch ==> r == Ok(LogIdsOf(body).value.items))
    ensures r.Ok? ==> 0 < |r.value| <= MaxBatch
  {
    if body.Null? then
      Err(ServerError(BulkDeleteFailedError, NullBodyDetails))
    else
      var logIds := LogIdsOf(body);
      if logIds.None? || !Truthy(logIds.value) || !logIds.value.Arr? || |logIds.value.items| == 0 then
        Err(BadRequest(IdsRequiredError))
      else if |logIds.value.items| > MaxBatch then
        Err(BadRequest(TooManyIdsError))
      else
        Ok(logIds.value.items)
  }

  /** Every entry is an id the store accepts for `doc`: a non-empty string. */
  predicate AllDocIds(items: seq<Value>) {
    forall j :: 0 <= j < |items| ==> items[j].Str? && items[j].s != ""
  }

  /** The ids of entries that are all document ids. */
  function DocIds(items: seq<Value>): (ids: seq<string>)
    requires AllDocIds(items)
    ensures |ids| == |items|
    ensures forall j :: 0 <= j < |items| ==> items[j] == Str(ids[j])
  {
    seq(|items|, j requires 0 <= j < |items| => items[j].s)
  }

  /** Removing one key shrinks a store by at most one document. */
  lemma RemoveKeyCardinality(m: Store, x: string)
    ensures |m| - 1 <= |m - {x}| <= |m|
  {
    assert (m - {x}).Keys == m.Keys - {x};
    assert |m - {x}| == |(m - {x}).Keys|;
    assert |m| == |m.Keys|;
    if x in m.Keys {
      assert m.Keys == (m.Keys - {x}) + {x};
    } else {
      assert m.Keys - {x} == m.Keys;
    }
  }

  /** Applies a committed batch of deletes, one id at a time. */
  method ApplyBatch(store: Store, ids: seq<string>) returns (after: Store)
    // every listed id is gone, and nothing else is
    ensures forall k :: k in after <==> k in store && k !in ids
    // the documents that remain are untouched
    ensures forall k :: k in after ==> after[k] == store[k]
    // at most one document per listed id disappears
    ensures |store| - |ids| <= |after| <= |store|
  {
    after := store;
    for i := 0 to |ids|
      invariant forall k :: k in after <==> k in store && k !in ids[..i]
      invariant forall k :: k in after ==> after[k] == store[k]
      invariant |store| - i <= |after| <= |store|
    {
      assert ids[..i + 1] == ids[..i] + [ids[i]];
      RemoveKeyCardinality(after, ids[i]);
      after := after - {ids[i]};
    }
    assert ids[..|ids|] == ids;
  }

  /** `DELETE /api/logs/bulk-delete`: the response and the store afterwards. */
  method Delete(store: Store, request: Request, commit: CommitOutcome) returns (response: Response, after: Store)
    // the checks reject before any batch is built, and nothing is deleted
    ensures request.Parsed? && CheckIds(request.body).Err? ==>
              response == CheckIds(request.body).response && after == store
    ensures request.Unparsable? ==> response == ServerError(BulkDeleteFailedError, request.reason) && after == store
    // success exactly when the list passed the checks, holds document ids, and the batch committed
    ensures response.LogsDeleted? <==>
              request.Parsed? && CheckIds(request.body).Ok?
              && AllDocIds(CheckIds(request.body).value) && commit.Committed?
    // the reported count is the length of the list, repeats and unknown ids included
    ensures response.LogsDeleted? ==>
              var items := CheckIds(request.body).value;
              response.deletedCount == |items|
              && (forall k :: k in after <==> k in store && k !in DocIds(items))
              && (forall k :: k in after ==> k in store && after[k] == store[k])
    // an entry that is not a document id makes `doc` throw: 500, before the commit
    ensures request.Parsed? && CheckIds(request.body).Ok? && !AllDocIds(CheckIds(request.body).value) ==>
              response == ServerError(BulkDeleteFailedError, InvalidIdDetails)
    // a failed commit answers 500 with the store's message
    ensures (request.Parsed? && CheckIds(request.body).Ok? && AllDocIds(CheckIds(request.body).value)
             && commit.CommitFailed?) ==> response == ServerError(BulkDeleteFailedError, commit.message)
    // every other outcome leaves the store as it was
    ensures !response.LogsDeleted? ==> after == store
    ensures response.Status() in {200, 400, 500}
  {
    after := store;
    if request.Unparsable? {
      return ServerError(BulkDeleteFailedError, request.reason), store;
    }
    var checked := CheckIds(request.body);
    if checked.Err? {
      return checked.response, store;
    }
    var items := checked.value;
    // logIds.forEach: one delete per entry; `doc` throws on an entry that is not an id
    var batch: seq<string> := [];
    for i := 0 to |items|
      invariant |batch| == i
      invariant forall j :: 0 <= j < i ==> items[j].Str? && items[j].s != "" && batch[j] == items[j].s
    {
      if !(items[i].Str? && items[i].s != "") {
        return ServerError(BulkDeleteFailedError, InvalidIdDetails), store;
      }
      batch := batch + [items[i].s];
    }
    assert batch == DocIds(items);
    match commit
    case CommitFailed(message) =>
      response := ServerError(BulkDeleteFailedError, message);
    case Committed =>
      after := ApplyBatch(store, batch);
      response := LogsDeleted(|items|);
  }
}
