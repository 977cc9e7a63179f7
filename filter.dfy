/**
 The list handler's query object: `project` from the path plus every truthy query parameter,
 added one key at a time, and what it means for a stored issue to match it.
 */
module Filter {
  import opened Wrappers
  import opened Issues

  /** The nine optional query parameters the list handler reads, as strings. */
  datatype ListQuery = ListQuery(
    id: Option<string>,
    issueTitle: Option<string>,
    issueText: Option<string>,
    createdBy: Option<string>,
    assignedTo: Option<string>,
    statusText: Option<string>,
    open: Option<string>,
    createdOn: Option<string>,
    updatedOn: Option<string>)

  /** The keys of the query object: `project` and the nine parameter keys. */
  datatype Field = Project | Id | IssueTitle | IssueText | CreatedBy | AssignedTo | StatusText
                 | Open | CreatedOn | UpdatedOn

  /** The key's name in the query object (and in the stored document). */
  function Name(k: Field): string {
    match k
    case Project => "project"
    case Id => "_id"
    case IssueTitle => "issue_title"
    case IssueText => "issue_text"
    case CreatedBy => "created_by"
    case AssignedTo => "assigned_to"
    case StatusText => "status_text"
    case Open => "open"
    case CreatedOn => "created_on"
    case UpdatedOn => "updated_on"
  }

  /** The query parameter read for a key of the query object; `project` comes from the path instead. */
  function Param(q: ListQuery, k: Field): Option<string> {
    match k
    case Project => None
    case Id => q.id
    case IssueTitle => q.issueTitle
    case IssueText => q.issueText
    case CreatedBy => q.createdBy
    case AssignedTo => q.assignedTo
    case StatusText => q.statusText
    case Open => q.open
    case CreatedOn => q.createdOn
    case UpdatedOn => q.updatedOn
  }

  /** The key names are distinct, so a `map<Field, string>` is a faithful stand-in for the query object. */
  lemma NamesDistinct(k1: Field, k2: Field)
    requires k1 != k2
    ensures Name(k1) != Name(k2)
  {
  }

  /** A query object built for `project` and `q`: it holds `project`, holds each parameter key
      exactly when that parameter is truthy, with the parameter's value, and holds nothing else. */
  ghost predicate IsFilterFor(filter: map<Field, string>, project: string, q: ListQuery) {
    && Project in filter && filter[Project] == project
    && (forall k :: k != Project ==> (k in filter <==> Truthy(Param(q, k))))
    && (forall k :: k != Project && k in filter ==> filter[k] == Param(q, k).value)
  }

  /** The place of each key in the order the list handler adds them; `project` comes first. */
  function Position(k: Field): nat {
    match k
    case Project => 0
    case Id => 1
    case IssueTitle => 2
    case IssueText => 3
    case CreatedBy => 4
    case AssignedTo => 5
    case StatusText => 6
    case Open => 7
    case CreatedOn => 8
    case UpdatedOn => 9
  }

  /** `filter` is right about `project` and about the parameter keys placed before `n`, and holds
      no later key. */
  ghost predicate FilterSoFar(filter: map<Field, string>, project: string, q: ListQuery, n: nat) {
    && Project in filter && filter[Project] == project
    && (forall k :: k != Project && Position(k) < n ==> (k in filter <==> Truthy(Param(q, k))))
    && (forall k :: k != Project && Position(k) < n && k in filter ==> filter[k] == Param(q, k).value)
    && (forall k :: k in filter ==> Position(k) < n)
  }

  /** One conditional assignment of the list handler makes the query object right about one more key. */
  lemma AddParamStep(before: map<Field, string>, after: map<Field, string>, project: string, q: ListQuery,
                     k: Field)
    requires k != Project && FilterSoFar(before, project, q, Position(k))
    requires if Truthy(Param(q, k)) then after == before[k := Param(q, k).value] else after == before
    ensures FilterSoFar(after, project, q, Position(k) + 1)
  {
  }

  /** Right about every parameter key means built for the request. */
  lemma FilterSoFarComplete(filter: map<Field, string>, project: string, q: ListQuery)
    requires FilterSoFar(filter, project, q, Position(UpdatedOn) + 1)
    ensures IsFilterFor(filter, project, q)
  {
  }

  /** Builds the query object the list handler hands to the store. */
  method BuildFilter(project: string, q: ListQuery) returns (filter: map<Field, string>)
    ensures IsFilterFor(filter, project, q)
  {
    filter := map[Project := project];
    ghost var before := filter;
    if Truthy(q.id) {
      filter := filter[Id := q.id.value];
    }
    AddParamStep(before, filter, project, q, Id);
    before := filter;
    if Truthy(q.issueTitle) {
      filter := filter[IssueTitle := q.issueTitle.value];
    }
    AddParamStep(before, filter, project, q, IssueTitle);
    before := filter;
    if Truthy(q.issueText) {
      filter := filter[IssueText := q.issueText.value];
    }
    AddParamStep(before, filter, project, q, IssueText);
    before := filter;
    if Truthy(q.createdBy) {
      filter := filter[CreatedBy := q.createdBy.value];
    }
    AddParamStep(before, filter, project, q, CreatedBy);
    before := filter;
    if Truthy(q.assignedTo) {
      filter := filter[AssignedTo := q.assignedTo.value];
    }
    AddParamStep(before, filter, project, q, AssignedTo);
    before := filter;
    if Truthy(q.statusText) {
      filter := filter[StatusText := q.statusText.value];
    }
    AddParamStep(before, filter, project, q, StatusText);
    before := filter;
    if Truthy(q.open) {
      filter := filter[Open := q.open.value];
    }
    AddParamStep(before, filter, project, q, Open);
    before := filter;
    if Truthy(q.createdOn) {
      filter := filter[CreatedOn := q.createdOn.value];
    }
    AddParamStep(before, filter, project, q, CreatedOn);
    before := filter;
    if Truthy(q.updatedOn) {
      filter := filter[UpdatedOn := q.updatedOn.value];
    }
    AddParamStep(before, filter, project, q, UpdatedOn);
    FilterSoFarComplete(filter, project, q);
  }

  /** Any two query objects built for the same request are the same map. */
  lemma FilterDetermined(f1: map<Field, string>, f2: map<Field, string>, project: string, q: ListQuery)
    requires IsFilterFor(f1, project, q) && IsFilterFor(f2, project, q)
    ensures f1 == f2
  {
    assert f1.Keys == f2.Keys;
  }

  /** Decimal text of a clock reading, standing in for the text form of a timestamp. */
  function Decimal(n: nat): string
    decreases n
  {
    var digit := "0123456789"[n % 10];
    if n < 10 then [digit] else Decimal(n / 10) + [digit]
  }

  function BoolText(b: bool): string {
    if b then "true" else "false"
  }

  /** The text of the stored field a query-object key refers to, for the issue stored under `id`. */
  function FieldText(id: string, i: Issue, k: Field): string {
    match k
    case Project => i.project
    case Id => id
    case IssueTitle => i.issueTitle
    case IssueText => i.issueText
    case CreatedBy => i.createdBy
    case AssignedTo => i.assignedTo
    case StatusText => i.statusText
    case Open => BoolText(i.open)
    case CreatedOn => Decimal(i.createdOn)
    case UpdatedOn => Decimal(i.updatedOn)
  }

  /** The store's `find`: a record matches when every entry of the query object equals the
      corresponding stored field. */
  predicate Matches(filter: map<Field, string>, id: string, i: Issue) {
    forall k :: k in filter ==> FieldText(id, i, k) == filter[k]
  }

  /** A parameter that was not sent, or was empty, puts no constraint on the stored value. */
  predicate Agrees(param: Option<string>, stored: string) {
    Truthy(param) ==> param.value == stored
  }

  /** Which issues a list request asks for, field by field: the project named in the path, and
      every truthy query parameter equal to the stored field. */
  predicate Selects(project: string, q: ListQuery, id: string, i: Issue) {
    && i.project == project
    && Agrees(q.id, id)
    && Agrees(q.issueTitle, i.issueTitle)
    && Agrees(q.issueText, i.issueText)
    && Agrees(q.createdBy, i.createdBy)
    && Agrees(q.assignedTo, i.assignedTo)
    && Agrees(q.statusText, i.statusText)
    && Agrees(q.open, BoolText(i.open))
    && Agrees(q.createdOn, Decimal(i.createdOn))
    && Agrees(q.updatedOn, Decimal(i.updatedOn))
  }

  /** The field-by-field selection, read key by key. */
  lemma SelectsKeyByKey(project: string, q: ListQuery, id: string, i: Issue)
    ensures Selects(project, q, id, i) <==>
              i.project == project && forall k :: k != Project ==> Agrees(Param(q, k), FieldText(id, i, k))
  {
    if i.project == project && forall k :: k != Project ==> Agrees(Param(q, k), FieldText(id, i, k)) {
      assert Agrees(Param(q, Id), FieldText(id, i, Id));
      assert Agrees(Param(q, IssueTitle), FieldText(id, i, IssueTitle));
      assert Agrees(Param(q, IssueText), FieldText(id, i, IssueText));
      assert Agrees(Param(q, CreatedBy), FieldText(id, i, CreatedBy));
      assert Agrees(Param(q, AssignedTo), FieldText(id, i, AssignedTo));
      assert Agrees(Param(q, StatusText), FieldText(id, i, StatusText));
      assert Agrees(Param(q, Open), FieldText(id, i, Open));
      assert Agrees(Param(q, CreatedOn), FieldText(id, i, CreatedOn));
      assert Agrees(Param(q, UpdatedOn), FieldText(id, i, UpdatedOn));
    }
  }

  /** Matching the built query object is the same as being selected by the request. */
  lemma MatchesIffSelects(filter: map<Field, string>, project: string, q: ListQuery, id: string, i: Issue)
    requires IsFilterFor(filter, project, q)
    ensures Matches(filter, id, i) <==> Selects(project, q, id, i)
  {
    SelectsKeyByKey(project, q, id, i);
    if Matches(filter, id, i) {
      assert FieldText(id, i, Project) == filter[Project];
      forall k | k != Project ensures Agrees(Param(q, k), FieldText(id, i, k)) {
        if Truthy(Param(q, k)) {
          assert k in filter;
        }
      }
    }
  }
}
