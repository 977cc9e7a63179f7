/**
 The issue resource `/api/issues/:project`: its four handlers as methods of the document store
 they act on. The store maps each record's `_id` to the record; `clock` stands in for `new Date()`.
 */
module IssueApi {
  import opened Wrappers
  import opened ObjectId
  import opened Issues
  import opened Filter

  class IssueStore {
    var issues: map<string, Issue>
    var clock: nat

    /** Every stored id has ObjectId form, and no record's timestamps are out of order or ahead of the clock. */
    ghost predicate Valid()
      reads this
    {
      forall id :: id in issues ==>
        IsObjectId(id) && issues[id].createdOn <= issues[id].updatedOn <= clock
    }

    constructor ()
      ensures Valid() && issues == map[] && clock == 0
    {
      issues := map[];
      clock := 0;
    }

    /** Time passes; nothing stored changes. */
    method Tick()
      requires Valid()
      modifies this
      ensures Valid() && clock == old(clock) + 1 && issues == old(issues)
    {
      clock := clock + 1;
    }

    /** The store's `find`: every record matching the query object. */
    function Find(filter: map<Field, string>): map<string, Issue>
      reads this
    {
      map id | id in issues && Matches(filter, id, issues[id]) :: issues[id]
    }

    /** GET: the stored issues of `project` that agree with every truthy query parameter. */
    method List(project: string, q: ListQuery) returns (resp: Response)
      ensures resp.Found?
      ensures resp.issues.Keys <= issues.Keys
      ensures forall id :: id in issues ==> (id in resp.issues <==> Selects(project, q, id, issues[id]))
      ensures forall id :: id in resp.issues ==> resp.issues[id] == issues[id]
      ensures (forall id :: id in issues ==> issues[id].project != project) ==> resp.issues == map[]
    {
      var filter := BuildFilter(project, q);
      resp := Found(Find(filter));
      forall id | id in issues
        ensures id in resp.issues <==> Selects(project, q, id, issues[id])
      {
        MatchesIffSelects(filter, project, q, id, issues[id]);
      }
    }

    /** POST: refuses a body lacking a required field; otherwise stores a new record under the id
        the store assigns and echoes it without its project. */
    method Create(project: string, b: CreateBody, newId: string) returns (resp: Response)
      requires Valid()
      requires IsObjectId(newId) && newId !in issues
      modifies this
      ensures Valid() && clock == old(clock)
      ensures !HasRequiredFields(b) ==> resp == Error(RequiredMissing, None) && issues == old(issues)
      ensures HasRequiredFields(b) ==>
                && issues == old(issues)[newId := NewIssue(project, b, clock)]
                && resp == Created(newId, View(issues[newId]))
    {
      if !HasRequiredFields(b) {
        return Error(RequiredMissing, None);
      }
      var issue := NewIssue(project, b, clock);
      issues := issues[newId := issue];
      resp := Created(newId, View(issue));
    }

    /** PUT: the first failing guard's error, or the merged record written back under the same id. */
    method Update(b: UpdateBody) returns (resp: Response)
      requires Valid()
      modifies this
      ensures Valid() && clock == old(clock)
      ensures UpdateRejection(b, old(issues)).Some? ==>
                resp == UpdateRejection(b, old(issues)).value && issues == old(issues)
      ensures UpdateRejection(b, old(issues)).None? ==>
                && resp == Success(SuccessfullyUpdated, b.id.value)
                && issues == old(issues)[b.id.value := Merge(b, old(issues)[b.id.value], clock)]
    {
      var rejection := UpdateRejection(b, issues);
      if rejection.Some? {
        return rejection.value;
      }
      var id := b.id.value;
      MergeKeepsTimestampsOrdered(b, issues[id], clock);
      issues := issues[id := Merge(b, issues[id], clock)];
      resp := Success(SuccessfullyUpdated, id);
    }

    /** DELETE: the first failing guard's error, or the record removed. */
    method Delete(id: Option<string>) returns (resp: Response)
      requires Valid()
      modifies this
      ensures Valid() && clock == old(clock)
      ensures DeleteRejection(id, old(issues)).Some? ==>
                resp == DeleteRejection(id, old(issues)).value && issues == old(issues)
      ensures DeleteRejection(id, old(issues)).None? ==>
                resp == Success(SuccessfullyDeleted, id.value) && issues == old(issues) - {id.value}
    {
      var rejection := DeleteRejection(id, issues);
      if rejection.Some? {
        return rejection.value;
      }
      issues := issues - {id.value};
      resp := Success(SuccessfullyDeleted, id.value);
    }
  }

  /** A created issue is listed for its project by a request without filters. */
  method CreateThenList(store: IssueStore, project: string, b: CreateBody, newId: string)
      returns (created: Response, listed: Response)
    requires store.Valid() && IsObjectId(newId) && newId !in store.issues
    requires HasRequiredFields(b)
    modifies store
    ensures created.Created? && created.id == newId
    ensures listed.Found? && newId in listed.issues && listed.issues[newId].project == project
  {
    created := store.Create(project, b, newId);
    listed := store.List(project, ListQuery(None, None, None, None, None, None, None, None, None));
  }

  /** After a successful delete the record is gone, and deleting it again is refused. */
  method DeleteTwice(store: IssueStore, id: string) returns (first: Response, second: Response)
    requires store.Valid()
    modifies store
    ensures first.Success? ==> id !in store.issues && second == Error(CouldNotDelete, Some(id))
    ensures first.Error? ==> second == first
  {
    first := store.Delete(Some(id));
    if first.Success? {
      DeleteNotRepeatable(id, old(store.issues));
    }
    second := store.Delete(Some(id));
  }

  /** An update touches only its own record and moves its `updated_on` to the clock. */
  method UpdateLeavesOthers(store: IssueStore, b: UpdateBody) returns (resp: Response)
    requires store.Valid()
    modifies store
    ensures resp.Success? ==>
              && b.id.Some? && b.id.value in old(store.issues) && store.issues.Keys == old(store.issues).Keys
              && store.issues[b.id.value].updatedOn == store.clock
              && store.issues[b.id.value].createdOn == old(store.issues)[b.id.value].createdOn
              && forall other :: other in old(store.issues) && Some(other) != b.id ==>
                   store.issues[other] == old(store.issues)[other]
    ensures resp.Error? ==> store.issues == old(store.issues)
  {
    resp := store.Update(b);
  }
}
