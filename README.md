# Log pipeline of a real-time log dashboard, in Dafny

This project models the logic of a log-viewing dashboard built on a managed document
store. Clients submit structured log events to an ingestion endpoint. The dashboard
subscribes to the `logs` collection, filters and counts the records it receives, and
deletes selected records through a bulk-delete endpoint.

The modules follow the source files:

- `LogTypes` (`log_types.dfy`): JSON values with JavaScript truthiness, the four
  canonical levels (`info`, `warning`, `error`, `debug`), the log documents a snapshot
  delivers, the endpoints' HTTP responses, and ASCII lower-casing.
- `Ingest` (`ingest.dfy`, for `app/api/logs/route.ts`): `POST` does four things in order.
  It lower-cases the level token. It checks that `userid`, `application`, `timestamp` and
  `message` are present. It checks the token against the eight keys of `levelMapping`.
  It maps the token to its canonical level and hands one record to the store's `add`.
  `GET` always answers 405.
- `BulkDelete` (`bulk_delete.dfy`, for `app/api/logs/bulk-delete/route.ts`): the id-list
  checks (non-empty array, at most 500 entries), the batch of deletes, and its
  all-or-nothing commit. The store is a map from document id to document.
- `Filtering` (`filtering.dfy`, for `components/LogsDashboard.tsx`): the four-stage
  client-side filter over a snapshot. It is proved equal to one conjunctive filter that
  keeps the snapshot's order.
- `Aggregates` (`aggregates.dfy`, for `components/LogsDashboard.tsx`): the distinct
  applications and loggers, and the per-level and per-application counts.
- `DashboardState` (`dashboard_state.dfy`, for `components/LogsDashboard.tsx`): a class
  with the displayed logs, the four filters, the selected ids and the selection-mode
  flag. Its methods are the snapshot callbacks and the selection handlers. "Select All"
  uses the intended test; the size test the source makes is kept beside it as
  `AfterSelectAllAsWritten` (see Findings).

The store's effects are parameters of the operations that cause them:

- the id that `add` assigns, or its failure;
- whether the batch commit succeeds;
- whether a `fetch` to a delete endpoint answered `ok`.

A snapshot is a given sequence, already ordered by timestamp, newest first.

Where the code and its type declarations or documentation disagree, the model follows the code:

- The stored `originalLevel` is the lower-cased token (route.ts:22 and 47), not the token
  as submitted.
- The user field is named `userid`, as route.ts:23 and LogsDashboard.tsx:97 read it.
  `types/log.ts` calls it `userId`.
- `logger` is not checked on ingestion.
- A missing or non-string `level` makes `toLowerCase` throw before any field is checked.
  The result is a 500 response, not a 400.

## Model

| member | source | states |
|---|---|---|
| `LogTypes.Level.Name` | app/api/logs/route.ts:8 | every level's name is one of the four canonical level strings |
| `LogTypes.Response.Status` | app/api/logs/route.ts:28-30 | each response kind has its status (200, 400, 405 or 500); 200 exactly for the two success kinds |
| `LogTypes.Lower` | app/api/logs/route.ts:22 | lower-casing keeps the length, leaves no capital letter, turns each capital into the same letter in lower case and keeps every other character |
| `Ingest.MappingKeysAreAcceptedTokens` | app/api/logs/route.ts:8-17 | `levelMapping` has exactly the eight accepted tokens as keys |
| `Ingest.Normalise` | app/api/logs/route.ts:8-17 | a token is accepted exactly when its lower-cased form is one of the eight keys; shout and severe map to error, warning to warning, info and config to info, fine, finer and finest to debug |
| `Ingest.Validate` | app/api/logs/route.ts:22-48 | a missing or non-string level gives 500 before anything is checked; a falsy userid, application, timestamp or message gives the missing-fields 400 even when the level is also bad; an unknown lower-cased token gives the invalid-level 400 naming the accepted keys; otherwise the record has the mapped canonical level, the lower-cased token as `originalLevel`, and every other field unchanged |
| `Ingest.Post` | app/api/logs/route.ts:19-65 | exactly one `add`, and only for a body that passes validation; success exactly when that `add` assigns an id, which is returned; a body that fails validation gets the validation's answer (400 for a missing field or an unknown token, 500 for a level that is not a string) and nothing is written; an unparsable body or a failing `add` gives 500 with the error's message as details |
| `Ingest.PostIgnoresCase` | app/api/logs/route.ts:22-47 | two bodies whose level tokens differ only in case get the same response and the same stored record |
| `Ingest.Get` | app/api/logs/route.ts:67-72 | `GET` answers 405 whatever the request |
| `BulkDelete.CheckIds` | app/api/logs/bulk-delete/route.ts:6-22 | a missing, non-array or empty `logIds` gives 400; more than 500 gives 400 and exactly 500 passes; the empty check comes first; a `null` body throws and gives 500 |
| `BulkDelete.ApplyBatch` | app/api/logs/bulk-delete/route.ts:25-33 | after the committed batch, no listed id is in the store, every unlisted document is unchanged, and at most one document per listed id is gone |
| `BulkDelete.Delete` | app/api/logs/bulk-delete/route.ts:4-47 | a rejected list gets the check's 400 or 500; an entry that is not a document id gives 500, and a failed commit gives 500 with the store's message; none of these changes the store; success exactly when the list passes, holds ids and the commit succeeds; `deletedCount` is the list's length, repeats and unknown ids included |
| `Filtering.Keep` | components/LogsDashboard.tsx:84 | `filter` returns a subsequence of its input holding each entry as often as the input does when it satisfies the predicate, and never otherwise |
| `Filtering.Contains` | components/LogsDashboard.tsx:97 | `includes` holds exactly when the needle occurs at some index of the haystack |
| `Filtering.TrimEmptyIffBlank` | components/LogsDashboard.tsx:95 | a string trims to empty exactly when every character is JavaScript whitespace |
| `Filtering.FilterLogs` | components/LogsDashboard.tsx:83-99 | the four guarded filter stages; no contract of its own, see `Filtering.FilterIsConjunction` |
| `Filtering.FilterIsConjunction` | components/LogsDashboard.tsx:83-99 | the four filter stages equal one filter by the conjunction of the level, application, logger and user-id tests, each of which passes on 'all' or an inactive user filter |
| `Filtering.FilteredOccurrences` | components/LogsDashboard.tsx:83-99 | a log is displayed as often as it occurs in the snapshot when it passes every filter, and not at all otherwise |
| `Filtering.FilterKeepsOrder` | components/LogsDashboard.tsx:69-99 | the displayed logs are a subsequence of the snapshot, so its newest-first order is kept |
| `Filtering.NoFiltersShowEverything` | components/LogsDashboard.tsx:48-51 | with every filter at its initial 'all'/'' value the whole snapshot is displayed |
| `Filtering.BlankUserFilterIsOff` | components/LogsDashboard.tsx:95-98 | a user-id filter of whitespace only filters nothing |
| `Aggregates.Unique` | components/LogsDashboard.tsx:58-59 | `[...new Set(xs)]` has no duplicates and holds exactly the values of `xs` |
| `Aggregates.UniqueValues` | components/LogsDashboard.tsx:58-59 | `uniqueApplications` and `uniqueLoggers` have no duplicates and hold exactly the values present in the displayed logs |
| `Aggregates.CountBy` | components/LogsDashboard.tsx:223-231 | there is a key for each value present and no other; each count is the number of displayed logs with that value; the counts over the distinct values add up to the number of displayed logs |
| `Aggregates.CountsCoverEverything` | components/LogsDashboard.tsx:223-231 | summing the occurrences of each distinct value counts every entry exactly once |
| `Aggregates.TallyAsWritten` | components/LogsDashboard.tsx:228-231 | the count reduction as written, over an object literal; no contract of its own, see `Aggregates.TallyAsWrittenCountsPlainKeys` and `Aggregates.InheritedKeyMiscounted` |
| `Aggregates.TallyAsWrittenCountsPlainKeys` | components/LogsDashboard.tsx:228-231 | the reduction as written counts correctly when no key is the name of an inherited `Object.prototype` member |
| `Aggregates.InheritedKeyMiscounted` | components/LogsDashboard.tsx:228-231 | the reduction as written gives an application named "constructor" the count "function Object() { [native code] }1" instead of 1 |
| `DashboardState.DisplayedIds` | components/LogsDashboard.tsx:197 | the set of displayed ids holds exactly the ids of the displayed logs and is no larger than the list |
| `DashboardState.DisplayedIdsDistinct` | components/LogsDashboard.tsx:83-99 | filtering a snapshot whose ids are distinct displays distinct ids |
| `DashboardState.AfterSelectAll` | components/LogsDashboard.tsx:193-199 | the intended "Select All" / "Deselect All": the selection empties exactly when every displayed log was selected; otherwise it becomes exactly the displayed ids |
| `DashboardState.AfterSelectAllAsWritten` | components/LogsDashboard.tsx:194-198 | the size test `handleSelectAll` makes as written; no contract of its own, see `DashboardState.SizeTestMeansAllSelected` and `DashboardState.DuplicateIdsNeverDeselect` |
| `DashboardState.SizeTestMeansAllSelected` | components/LogsDashboard.tsx:193-199 | the size test made as written agrees with "every displayed log is selected" only under two hypotheses: the selection holds displayed ids alone, and the displayed ids are distinct. The dashboard keeps neither (see Findings) |
| `DashboardState.StaleSelectionDeselects` | components/LogsDashboard.tsx:193-199 | as written, one selected log that is no longer displayed beside one unselected displayed log passes the size test, so "Deselect All" clears a selection that holds no displayed log |
| `DashboardState.DuplicateIdsNeverDeselect` | components/LogsDashboard.tsx:193-199 | as written, while the selection holds displayed ids only, a list with a repeated id is longer than any such selection, so the size test never passes and "Select All" selects the displayed ids again even when all are selected; the intended test clears |
| `DashboardState.StaleSelectionReached` | components/LogsDashboard.tsx:76-104 | the state of `StaleSelectionDeselects` is reached through the handlers, in selection mode: enter selection mode, filter to level info so only log "a" is displayed, press Select All, filter to level error so only log "b" is displayed; selection mode stays on, "a" stays selected and "b" is not |
| `DashboardState.SelectAllTwiceClears` | components/LogsDashboard.tsx:193-199 | with the intended test, from a selection that misses a displayed log, "Select All" selects every displayed log and pressing it again clears the selection, whether or not ids repeat |
| `DashboardState.LargeSelectionRefused` | components/LogsDashboard.tsx:157-169 | a bulk-delete request listing more than 500 ids is refused with the too-many 400 |
| `DashboardState.Dashboard.constructor` | components/LogsDashboard.tsx:45-54 | the initial state has no logs, every filter off, an empty selection, selection mode off and no error |
| `DashboardState.Dashboard.OnSnapshot` | components/LogsDashboard.tsx:76-104 | the displayed logs become the snapshot filtered by the current filters and the error is cleared; filters and selection are unchanged |
| `DashboardState.Dashboard.OnSnapshotError` | components/LogsDashboard.tsx:106-111 | the error becomes the fetch-failure message with the store's message; the displayed logs are kept |
| `DashboardState.Dashboard.SetFilters` | components/LogsDashboard.tsx:411-471 | a filter control changes the filters and nothing else |
| `DashboardState.Dashboard.HandleSelectLog` | components/LogsDashboard.tsx:181-191 | the id is selected exactly when the checkbox is checked; every other id keeps its membership |
| `DashboardState.Dashboard.HandleSelectAll` | components/LogsDashboard.tsx:193-199 | with the intended test: a selection holding every displayed log becomes empty; otherwise it becomes exactly the displayed ids |
| `DashboardState.Dashboard.ToggleSelectionMode` | components/LogsDashboard.tsx:201-204 | selection mode flips and the selection empties |
| `DashboardState.Dashboard.ClearFilters` | components/LogsDashboard.tsx:214-221 | every filter is reset to 'all' or '', the selection empties and selection mode is left |
| `DashboardState.Dashboard.HandleDeleteLog` | components/LogsDashboard.tsx:130-150 | after a successful delete the id leaves the selection; after a failure the selection is kept and the error is set |
| `DashboardState.Dashboard.HandleBulkDelete` | components/LogsDashboard.tsx:152-179 | an empty selection does nothing; on success the selection empties and selection mode is left; on failure the selection is kept and the error is set |

## Findings

| source | as written | input that shows it | evidently intended | confidence | as-written member | corrected member |
|---|---|---|---|---|---|---|
| components/LogsDashboard.tsx:228-231 | the increment at line 229 reads `acc[log.application]` on the object literal `{}` and falls back to 0 only when that is falsy, so a key named after an inherited `Object.prototype` member reads that member, which is truthy, and the `+ 1` concatenates a string | one displayed log whose `application` is `"constructor"`: its count in the application filter list is `function Object() { [native code] }1` | the number of displayed logs from that application, here 1 | high; not executed | `Aggregates.InheritedKeyMiscounted` | `Aggregates.CountBy` |
| components/LogsDashboard.tsx:193-199 | `handleSelectAll`, and the button label at line 491, test `selectedLogs.size === logs.length`; a filter change (lines 411-471) or a new snapshot (line 101) keeps the selection, so it can hold ids that are no longer displayed | enter selection mode, filter to level info so only log "a" is displayed, press Select All, filter to level error so only log "b" is displayed: one id selected, one log displayed, "Deselect All" is shown and "b" is not selected | "Deselect All" exactly when every displayed log is selected | high; not executed | `DashboardState.StaleSelectionReached` | `DashboardState.AfterSelectAll` |
| components/LogsDashboard.tsx:77-80 | the entry is `{ id: doc.id, ...doc.data() }`, so a stored `id` field, which `POST` passes through from the body, replaces the document id, and two displayed logs can share an id; while the selection holds displayed ids only, the size test of `handleSelectAll` then never passes | two displayed logs whose stored `id` is the same: with that id selected, every displayed log is selected, yet "Select All" is shown and pressing it selects the id again | "Deselect All" exactly when every displayed log is selected | high; not executed | `DashboardState.DuplicateIdsNeverDeselect` | `DashboardState.AfterSelectAll` |

## Left out

- Store I/O is not modelled: `onSnapshot`, the query and its `orderBy`, `add`, `batch.commit` and `fetch`. Their outcomes are parameters. Id generation and timestamp ordering belong to the store, so a snapshot is a given, already ordered sequence.
- React rendering is not modelled: hooks, the `useEffect` re-subscription and its clean-up, the `loading`, `isConnected` and `isDeleting` flags, and the "last updated" clock.
- The sign-in context, the login form, the page and layout files, the log card and `types/log.ts` are not part of this model. They have no log logic of their own.
- The single-delete endpoint `app/api/logs/[id]/route.ts` is not part of this model. `handleDeleteLog` takes its outcome as a parameter.
- The log card rendered for each displayed log takes only the log (components/LogCard.tsx:18-20, 45). It renders no checkbox and no delete button, so nothing on screen calls `handleSelectLog` or `handleDeleteLog`. `Dashboard.HandleSelectLog` and `Dashboard.HandleDeleteLog` model those handlers as written, whoever calls them.
- Success messages ("Log added successfully", "Successfully deleted N logs") and `console.error` logging are left out. The success responses carry the id or the count.
- `Ingest.Validate`: the 500 details for a missing or non-string level are a fixed placeholder. The runtime's TypeError text is not reproduced.
- `BulkDelete.CheckIds`: the 500 details for a `null` body are a fixed placeholder for the runtime's TypeError text.
- `BulkDelete.Delete`: the store's path rules are reduced to "a non-empty string". Ids containing `/` are not modelled. The 500 details for a rejected id are a placeholder.
- The order in which `Array.from(selectedLogs)` lists the selection (insertion order) is not modelled.
- `LogTypes.Lower`: `toLowerCase` is modelled on ASCII letters only. Other characters are left unchanged.
- JSON numbers are integers in this model. Fractions and `NaN` are not represented; `NaN` is falsy in the source.
- `Aggregates.Unique`: does not state that the values come in order of first occurrence. That order only decides the order of the filter dropdown entries.
- `LogTypes.LogEntry`: `id` is the id as displayed, which a stored `id` field replaces (components/LogsDashboard.tsx:77-80). Store documents are not modelled, so it is not captured that a delete by such an id removes a different document or none.
- `LogTypes.LogEntry`: snapshot documents are taken to carry string `userid`, `application`, `logger`, `level` and `message` fields. The ingestion endpoint stores any truthy value for the required fields and does not require `logger`. Two consequences are not modelled: a non-string `userid` makes the snapshot callback throw at components/LogsDashboard.tsx:97 while the user filter is on, and a missing `logger` adds `undefined` to the logger choices at line 59.
- `Aggregates.TallyAsWritten`: the key `__proto__` is not modelled. Assigning a string to it is ignored by the runtime.
