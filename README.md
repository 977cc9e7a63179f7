# Issue tracker: the issue resource handler, modelled in Dafny

The repository is a small issue-tracker backend. Its only decision-making code is the
`/api/issues/:project` resource in `routes/api.js`. That resource has four handlers:

- **List (GET)** builds a query object and hands it to the document store. The object holds
  `project` from the path, plus each of nine query parameters that is truthy.
- **Create (POST)** checks the three required fields and fills in defaults. It stores the record
  and echoes it without its project.
- **Update (PUT)** runs four guards in order: missing `_id`, no update field, malformed id,
  unknown id. It then merges the request into the stored record field by field.
- **Delete (DELETE)** runs three guards in order: missing `_id`, malformed id, unknown id. It then
  removes the record.

The model has five modules:

- `Wrappers` (`wrappers.dfy`): the `Option` type of request values.
- `ObjectId` (`object_id.dfy`): the `^[0-9a-fA-F]{24}$` check. It is written as a
  character-by-character matcher, and is proved equal to "24 characters, all hex digits".
- `Issues` (`issues.dfy`): the issue record, the request bodies and the JSON responses. It also
  holds the pure parts of the handlers:
  - JavaScript truthiness (`Truthy`, and `Or` for `a || b`);
  - the required-field guard and the new record (`NewIssue`);
  - the ordered guards of update and delete (`UpdateRejection`, `DeleteRejection`);
  - the merge (`Merge`).
- `Filter` (`filter.dfy`): the list query and `BuildFilter`, which adds keys one at a time like
  the handler. It also holds the store's matching (`Matches`) and a field-by-field reference
  reading of a list request (`Selects`). `MatchesIffSelects` proves the two agree.
- `IssueApi` (`store.dfy`): the class `IssueStore`. Its `map` field from `_id` to record is the
  document store, and a `nat` clock stands in for `new Date()`. The four handlers are methods on
  it, and three client methods combine them.

Request values are `Option<string>`. A value is truthy when it was sent and is not empty, as in
JavaScript. The update body's `open` is `Option<bool>`, and only `Some(true)` is truthy.

Two points of the response and filter shapes:

- The create response leaves out `project` (routes/api.js:92-103).
- List filters go to the store as strings. The model matches a filter value against the stored
  field's canonical text: `"true"`/`"false"` for `open`, and the clock reading in decimal for the
  timestamps.

## Model

| member | source | states |
|---|---|---|
| `ObjectId.HexRunIff` | routes/api.js:138 | Matching `[0-9a-fA-F]` n times and then end-of-input accepts a string iff it has exactly n characters, all hex digits |
| `ObjectId.PatternIsObjectId` | routes/api.js:198 | The id regex accepts a string iff its length is 24 and every character is in `[0-9a-fA-F]` |
| `Issues.InvalidIdUpdateRefused` | tests/2_functional-tests.js:166-180 | The test's update with `_id` `"invalid id"` and a title is refused with `could not update` and that `_id`, whatever is stored |
| `Issues.InvalidIdDeleteRefused` | tests/2_functional-tests.js:196-208 | The test's delete with `_id` `"invalid id"` is refused with `could not delete` and that `_id`, whatever is stored |
| `Issues.ViewDropsOnlyProject` | routes/api.js:92-103 | The create echo keeps every field of the record except `project`; the record is recovered by adding the project back |
| `Issues.NewIssue` | routes/api.js:78-88 | New record: project from the path; the required fields as sent; `assigned_to`/`status_text` as sent when truthy, else `""`; `open` true; `created_on` = `updated_on` = now |
| `Issues.FullBodyEchoed` | tests/2_functional-tests.js:13-37 | A body with all five fields is echoed exactly as sent, with `open` true |
| `Issues.RequiredOnlyBodyDefaulted` | tests/2_functional-tests.js:38-57 | A body with only the required fields is echoed with `""` for `assigned_to` and `status_text` |
| `Issues.UpdateRejection` | routes/api.js:116-183 | Update guards in order: no truthy `_id` gives `missing _id`; else no truthy update field gives `no update field(s) sent` with the `_id`; else a malformed or unknown id gives `could not update` with the `_id`; no rejection iff all pass |
| `Issues.Merge` | routes/api.js:153-161 | Each of the five text fields takes the request value if truthy, else keeps the stored one; `open` is true iff `true` was sent or it was open; `project` and `created_on` kept; `updated_on` = now |
| `Issues.MergeWithoutFieldsOnlyTouchesUpdatedOn` | routes/api.js:124-135 | With no truthy update field the merge would change nothing but `updated_on` (what the second guard prevents) |
| `Issues.MergeIdempotent` | routes/api.js:153-161 | Repeating the same update at the same clock reading gives the same record |
| `Issues.MergeKeepsTimestampsOrdered` | routes/api.js:160 | A merge at a clock reading no earlier than the record's keeps `created_on <= updated_on` and never moves `updated_on` back |
| `Issues.MergeNeverCloses` | routes/api.js:159 | With a boolean `open`, sending `true` leaves the issue open, and an open issue stays open after any update: an update can reopen an issue but never close it |
| `Issues.DeleteRejection` | routes/api.js:190-231 | Delete guards in order: no truthy `_id` gives `missing _id`; else a malformed or unknown id gives `could not delete` with the `_id`; no rejection iff the id is well formed and stored |
| `Issues.DeleteNotRepeatable` | routes/api.js:201-212 | After a record is removed, the same id is refused with `could not delete` |
| `ObjectId.MatchesPattern` | routes/api.js:138 | The test `_id.match(/^[0-9a-fA-F]{24}$/)` made by update and delete (also :198); `PatternIsObjectId` states what it accepts |
| `Issues.Truthy` | routes/api.js:27-53 | Definition: a string request value is truthy when it was sent and is not empty; the list, create and update guards all test this (also :68-70, :124-128) |
| `Issues.Or` | routes/api.js:154-158 | Definition of `v || fallback` on a request string (also the create defaults at :83-84); its effect per field is stated by the contracts of `Issues.NewIssue` and `Issues.Merge` |
| `Issues.View` | routes/api.js:93-103 | The `resObj` echoed by create: every record field except `project`; `ViewDropsOnlyProject` states what it keeps |
| `Issues.HasRequiredFields` | routes/api.js:68-70 | The create guard: `issue_title`, `issue_text` and `created_by` all truthy |
| `Issues.MissingCreatorRefused` | tests/2_functional-tests.js:58-70 | A body without `created_by` fails the create guard |
| `Issues.HasUpdateField` | routes/api.js:124-129 | The no-field guard of update: at least one of the five text fields truthy, or `open` sent as `true` |
| `Issues.OpenFalseIsNoUpdateField` | routes/api.js:129 | A body whose only update field is `open: false` counts as sending no update field |
| `Filter.Matches` | routes/api.js:56 | The store's `find(queryObj)`: a record matches iff every query-object entry equals the text of the stored field it names; `MatchesIffSelects` relates it to the request |
| `IssueApi.IssueStore.Find` | routes/api.js:56 | `projectModel.find(queryObj)`: the stored records that match the query object, with their ids and values unchanged |
| `Filter.NamesDistinct` | routes/api.js:24-53 | The ten query-object keys have distinct names, so the keyed map stands for the JSON object |
| `Filter.BuildFilter` | routes/api.js:24-53 | The query object holds `project` equal to the path value, holds each of the nine parameter keys iff that parameter is truthy with its value unchanged, and holds no other key |
| `Filter.FilterDetermined` | routes/api.js:24-53 | Two query objects meeting that description for the same request are equal |
| `Filter.SelectsKeyByKey` | routes/api.js:56 | The field-by-field selection is the same as: right project, and every truthy parameter equals its stored field |
| `Filter.MatchesIffSelects` | routes/api.js:24-57 | A record matches the built query object iff the request selects it |
| `IssueApi.IssueStore.Tick` | routes/api.js:86-87 | The clock advances and no record changes |
| `IssueApi.IssueStore.List` | routes/api.js:10-61 | The response is exactly the stored records the request selects, unchanged, with no state change; a project with no records gives an empty result |
| `IssueApi.IssueStore.Create` | routes/api.js:64-110 | Missing required field: `required field(s) missing` and the store unchanged. Otherwise exactly one record is added under the fresh id, the others are unchanged, and the response echoes it with its `_id` and without its project |
| `IssueApi.IssueStore.Update` | routes/api.js:113-184 | On any rejection the response is that guard's error and the store is unchanged. Otherwise `successfully updated` with the `_id`, and only that record is replaced, by the merge at the current clock |
| `IssueApi.IssueStore.Delete` | routes/api.js:187-233 | On any rejection the response is that guard's error and the store is unchanged. Otherwise `successfully deleted` with the `_id`, and exactly that key is removed |
| `IssueApi.CreateThenList` | tests/2_functional-tests.js:74-83 | A created issue is listed for its project by an unfiltered request |
| `IssueApi.DeleteTwice` | routes/api.js:201-212 | After a successful delete the id is absent, and a second delete gives `could not delete` (a consequence of the handler, not a test case) |
| `IssueApi.UpdateLeavesOthers` | tests/2_functional-tests.js:110-138 | A successful update keeps the set of ids, sets that record's `updated_on` to the clock, keeps its `created_on`, and leaves every other record unchanged; an error leaves the store unchanged |

The store invariant `IssueStore.Valid` holds before and after every handler:

- every key has ObjectId form;
- every record has `created_on <= updated_on <= clock`.

It follows that `updated_on` never decreases.

## Left out

- The Mongoose connection and schema (models.js). This includes Mongoose's casting of request
  strings:
  - a list filter value matches only the canonical text of the stored field (`"true"`/`"false"`,
    the clock reading in decimal); other spellings Mongoose would cast, such as `"1"` or a date
    string, are not modelled;
  - a malformed `_id` in a list filter is an ordinary non-matching string, not a cast error;
  - ids are compared as exact strings, so ObjectId's case-insensitive hex parsing is not modelled;
  - the string `"false"` sent as `open` on update is not modelled (the body's `open` is a boolean).
    So in the model no update can close an issue.
- Store order: the list response is a map from `_id` to record, because the store's natural order
  is unspecified.
- Id generation: the store's fresh id is a parameter of `Create`. It must have ObjectId form and be
  unused.
- Time: `new Date()` is the store's `clock` field, advanced by `Tick`. In the model the two
  `new Date()` calls of create (routes/api.js:86-87) give the same reading.
- Express routing, `res.json`, and the HTTP status, which is always 200.
- Asynchrony:
  - the unawaited `save()` (routes/api.js:90);
  - the race between `findById` and `findByIdAndUpdate` (routes/api.js:141-164);
  - unhandled store errors.

  Each handler is modelled as one atomic step.
- Non-string request values, such as an array query parameter or a numeric `_id` on which
  `.match` would throw.
- The test suite as code; its cases appear as the lemmas and client methods cited above.
