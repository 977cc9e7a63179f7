/**
 Issue records, the request bodies of the create and update handlers, the responses of all four
 handlers, and the pure parts of the handlers: JavaScript truthiness of request values, the
 required-field check and defaults of create, the ordered guards of update and delete, and the
 field-by-field merge of update.
 */
module Issues {
  import opened Wrappers
  import opened ObjectId

  /** A stored issue; the store keys it by its `_id`. Timestamps are readings of an abstract clock. */
  datatype Issue = Issue(
    project: string,
    issueTitle: string,
    issueText: string,
    createdBy: string,
    assignedTo: string,
    statusText: string,
    open: bool,
    createdOn: nat,
    updatedOn: nat)

  /** What the create handler echoes of a new issue: every field except `project`. */
  datatype IssueView = IssueView(
    issueTitle: string,
    issueText: string,
    createdBy: string,
    assignedTo: string,
    statusText: string,
    open: bool,
    createdOn: nat,
    updatedOn: nat)

  function View(i: Issue): IssueView {
    IssueView(i.issueTitle, i.issueText, i.createdBy, i.assignedTo, i.statusText,
              i.open, i.createdOn, i.updatedOn)
  }

  /** Puts a view back into a project. */
  function InProject(v: IssueView, project: string): Issue {
    Issue(project, v.issueTitle, v.issueText, v.createdBy, v.assignedTo, v.statusText,
          v.open, v.createdOn, v.updatedOn)
  }

  /** The echo loses the project and nothing else. */
  lemma ViewDropsOnlyProject(i: Issue, v: IssueView, project: string)
    ensures InProject(View(i), i.project) == i
    ensures View(InProject(v, project)) == v
  {
  }

  /** The JSON bodies the handlers answer with. */
  datatype Response =
    | Error(error: string, echoedId: Option<string>) // { error, _id? }
    | Success(result: string, id: string)        // { result, _id }
    | Created(id: string, issue: IssueView)      // the new issue with its _id
    | Found(issues: map<string, Issue>)          // the array of matching issues, by _id

  const RequiredMissing := "required field(s) missing"
  const MissingId := "missing _id"
  const NoUpdateField := "no update field(s) sent"
  const CouldNotUpdate := "could not update"
  const CouldNotDelete := "could not delete"
  const SuccessfullyUpdated := "successfully updated"
  const SuccessfullyDeleted := "successfully deleted"

  /** A string request value is truthy in JavaScript when it was sent and is not empty. */
  predicate Truthy(v: Option<string>) {
    v.Some? && |v.value| > 0
  }

  /** `v || fallback` for a string request value. */
  function Or(v: Option<string>, fallback: string): string {
    if Truthy(v) then v.value else fallback
  }

  // ---------------------------------------------------------------------------------------------
  // Create

  /** The body fields the create handler reads (it ignores any `open` it is sent). */
  datatype CreateBody = CreateBody(
    issueTitle: Option<string>,
    issueText: Option<string>,
    createdBy: Option<string>,
    assignedTo: Option<string>,
    statusText: Option<string>)

  /** The guard of the create handler fails unless all three required fields are truthy. */
  predicate HasRequiredFields(b: CreateBody) {
    Truthy(b.issueTitle) && Truthy(b.issueText) && Truthy(b.createdBy)
  }

  /** The record the create handler builds for project `project` at clock reading `now`. */
  function NewIssue(project: string, b: CreateBody, now: nat): (r: Issue)
    requires HasRequiredFields(b)
    ensures r.project == project
    ensures Some(r.issueTitle) == b.issueTitle && Some(r.issueText) == b.issueText
    ensures Some(r.createdBy) == b.createdBy
    ensures Truthy(b.assignedTo) ==> Some(r.assignedTo) == b.assignedTo
    ensures !Truthy(b.assignedTo) ==> r.assignedTo == ""
    ensures Truthy(b.statusText) ==> Some(r.statusText) == b.statusText
    ensures !Truthy(b.statusText) ==> r.statusText == ""
    ensures r.open
    ensures r.createdOn == now && r.updatedOn == now
  {
    Issue(project, b.issueTitle.value, b.issueText.value, b.createdBy.value,
          Or(b.assignedTo, ""), Or(b.statusText, ""), true, now, now)
  }

  /** A body carrying every field is echoed exactly as sent, open, with both timestamps `now`. */
  lemma FullBodyEchoed(project: string, b: CreateBody, now: nat)
    requires HasRequiredFields(b) && Truthy(b.assignedTo) && Truthy(b.statusText)
    ensures View(NewIssue(project, b, now)) ==
            IssueView(b.issueTitle.value, b.issueText.value, b.createdBy.value,
                      b.assignedTo.value, b.statusText.value, true, now, now)
  {
  }

  /** A body with only the required fields gets empty `assigned_to` and `status_text`. */
  lemma RequiredOnlyBodyDefaulted(project: string, b: CreateBody, now: nat)
    requires HasRequiredFields(b) && b.assignedTo == None && b.statusText == None
    ensures View(NewIssue(project, b, now)) ==
            IssueView(b.issueTitle.value, b.issueText.value, b.createdBy.value, "", "", true, now, now)
  {
  }

  /** The functional test's body without `created_by` fails the required-field guard. */
  lemma MissingCreatorRefused(title: string, text: string)
    ensures !HasRequiredFields(CreateBody(Some(title), Some(text), None, None, None))
  {
  }

  // ---------------------------------------------------------------------------------------------
  // Update

  /** The body fields the update handler reads. `open` arrives as a boolean; `false` is falsy. */
  datatype UpdateBody = UpdateBody(
    id: Option<string>,
    issueTitle: Option<string>,
    issueText: Option<string>,
    createdBy: Option<string>,
    assignedTo: Option<string>,
    statusText: Option<string>,
    open: Option<bool>)

  /** `open` is truthy only when `true` was sent. */
  predicate OpenSent(open: Option<bool>) {
    open == Some(true)
  }

  /** At least one of the six updatable fields is truthy. */
  predicate HasUpdateField(b: UpdateBody) {
    Truthy(b.issueTitle) || Truthy(b.issueText) || Truthy(b.createdBy) ||
    Truthy(b.assignedTo) || Truthy(b.statusText) || OpenSent(b.open)
  }

  /** A body whose only field besides `_id` is `open: false` sends no update field. */
  lemma OpenFalseIsNoUpdateField(id: Option<string>)
    ensures !HasUpdateField(UpdateBody(id, None, None, None, None, None, Some(false)))
  {
  }

  /** The functional test's update with the malformed id `invalid id` is refused with `could not update`. */
  lemma InvalidIdUpdateRefused(issues: map<string, Issue>)
    ensures UpdateRejection(UpdateBody(Some("invalid id"), Some("Test Issue"), None, None, None, None, None), issues)
            == Some(Error(CouldNotUpdate, Some("invalid id")))
  {
    PatternIsObjectId("invalid id");
  }

  /** The first guard of the update handler that fails, in the handler's order, as the response it
      sends; None when the merge goes ahead. Ids are checked with the regular expression. */
  function UpdateRejection(b: UpdateBody, issues: map<string, Issue>): (r: Option<Response>)
    ensures r == None <==>
              Truthy(b.id) && HasUpdateField(b) && IsObjectId(b.id.value) && b.id.value in issues
    ensures !Truthy(b.id) ==> r == Some(Error(MissingId, None))
    ensures Truthy(b.id) && !HasUpdateField(b) ==> r == Some(Error(NoUpdateField, b.id))
    ensures Truthy(b.id) && HasUpdateField(b) && !(IsObjectId(b.id.value) && b.id.value in issues) ==>
              r == Some(Error(CouldNotUpdate, b.id))
  {
    if !Truthy(b.id) then Some(Error(MissingId, None))
    else if !HasUpdateField(b) then Some(Error(NoUpdateField, b.id))
    else
      PatternIsObjectId(b.id.value);
      if !MatchesPattern(b.id.value) then Some(Error(CouldNotUpdate, b.id))
      else if b.id.value !in issues then Some(Error(CouldNotUpdate, b.id))
      else None
  }

  /** The record the update handler writes back: each updatable field takes the request value when
      it is truthy and keeps the stored one otherwise; `updated_on` becomes `now`. */
  function Merge(b: UpdateBody, data: Issue, now: nat): (r: Issue)
    ensures r.project == data.project && r.createdOn == data.createdOn && r.updatedOn == now
    ensures Truthy(b.issueTitle) ==> Some(r.issueTitle) == b.issueTitle
    ensures !Truthy(b.issueTitle) ==> r.issueTitle == data.issueTitle
    ensures Truthy(b.issueText) ==> Some(r.issueText) == b.issueText
    ensures !Truthy(b.issueText) ==> r.issueText == data.issueText
    ensures Truthy(b.createdBy) ==> Some(r.createdBy) == b.createdBy
    ensures !Truthy(b.createdBy) ==> r.createdBy == data.createdBy
    ensures Truthy(b.assignedTo) ==> Some(r.assignedTo) == b.assignedTo
    ensures !Truthy(b.assignedTo) ==> r.assignedTo == data.assignedTo
    ensures Truthy(b.statusText) ==> Some(r.statusText) == b.statusText
    ensures !Truthy(b.statusText) ==> r.statusText == data.statusText
    ensures r.open <==> OpenSent(b.open) || data.open
  {
    data.(issueTitle := Or(b.issueTitle, data.issueTitle),
          issueText := Or(b.issueText, data.issueText),
          createdBy := Or(b.createdBy, data.createdBy),
          assignedTo := Or(b.assignedTo, data.assignedTo),
          statusText := Or(b.statusText, data.statusText),
          open := OpenSent(b.open) || data.open,
          updatedOn := now)
  }

  /** Without an update field the merge would only refresh `updated_on`, which is what the
      second guard of the update handler prevents. */
  lemma MergeWithoutFieldsOnlyTouchesUpdatedOn(b: UpdateBody, data: Issue, now: nat)
    requires !HasUpdateField(b)
    ensures Merge(b, data, now) == data.(updatedOn := now)
  {
  }

  /** Sending the same update twice at the same clock reading gives the same record. */
  lemma MergeIdempotent(b: UpdateBody, data: Issue, now: nat)
    ensures Merge(b, Merge(b, data, now), now) == Merge(b, data, now)
  {
  }

  /** A merge at a clock reading no earlier than the record's keeps `created_on <= updated_on`
      and never moves `updated_on` back. */
  lemma MergeKeepsTimestampsOrdered(b: UpdateBody, data: Issue, now: nat)
    requires data.createdOn <= data.updatedOn <= now
    ensures Merge(b, data, now).createdOn <= Merge(b, data, now).updatedOn
    ensures data.updatedOn <= Merge(b, data, now).updatedOn
  {
  }

  /** A boolean `open` in the body can reopen an issue but never close one. */
  lemma MergeNeverCloses(b: UpdateBody, data: Issue, now: nat)
    ensures OpenSent(b.open) ==> Merge(b, data, now).open
    ensures data.open ==> Merge(b, data, now).open
  {
  }

  // ---------------------------------------------------------------------------------------------
  // Delete

  /** The first guard of the delete handler that fails, as the response it sends; None when the
      record is there to delete. */
  function DeleteRejection(id: Option<string>, issues: map<string, Issue>): (r: Option<Response>)
    ensures r == None <==> Truthy(id) && IsObjectId(id.value) && id.value in issues
    ensures !Truthy(id) ==> r == Some(Error(MissingId, None))
    ensures Truthy(id) && !(IsObjectId(id.value) && id.value in issues) ==>
              r == Some(Error(CouldNotDelete, id))
  {
    if !Truthy(id) then Some(Error(MissingId, None))
    else
      PatternIsObjectId(id.value);
      if !MatchesPattern(id.value) then Some(Error(CouldNotDelete, id))
      else if id.value !in issues then Some(Error(CouldNotDelete, id))
      else None
  }

  /** The functional test's delete with the malformed id `invalid id` is refused with `could not delete`. */
  lemma InvalidIdDeleteRefused(issues: map<string, Issue>)
    ensures DeleteRejection(Some("invalid id"), issues) == Some(Error(CouldNotDelete, Some("invalid id")))
  {
    PatternIsObjectId("invalid id");
  }

  /** Once a record is gone, asking to delete it again is refused with `could not delete`. */
  lemma DeleteNotRepeatable(id: string, issues: map<string, Issue>)
    requires DeleteRejection(Some(id), issues) == None
    ensures DeleteRejection(Some(id), issues - {id}) == Some(Error(CouldNotDelete, Some(id)))
  {
  }
}
