/** The tasks routes: creation with its schema and defaults, listing with
    filters, sorting choice and pagination, updates that cannot touch the
    protected fields, the status whitelist, and the statistics overview. */
module TasksRouter {
  import opened Js

  /** A JSON value as the routes see it; `Undefined` is what reading a
      missing field gives. */
  datatype Value = Str(s: string) | Num(n: real) | Bool(b: bool) | Strs(items: seq<string>) | Null | Undefined

  /** A request body or a stored document. */
  type Doc = map<string, Value>

  function Field(d: Doc, name: string): Value {
    if name in d then d[name] else Undefined
  }

  /** The reply of a route. */
  datatype Reply<T> =
    | Success(value: T)
    | BadRequest(error: string, message: string)
    | NotFound

  // ---------------------------------------------------------------------
  // The schema

  const TaskTypes := {"functional", "ui", "accessibility", "seo", "performance", "automation", "scraping", "comprehensive"}
  const Priorities := {"low", "medium", "high", "critical"}
  const RequiredFields := {"title", "description", "acceptanceCriteria", "targetUrl", "taskType", "priority", "assignee", "dueDate"}

  /** The two format checks the schema delegates: a URI and an ISO date. */
  datatype FormatChecks = FormatChecks(isUri: string -> bool, isIsoDate: string -> bool)

  predicate LengthWithin(v: Value, lo: nat, hi: nat) {
    v.Str? && lo <= |v.s| <= hi
  }

  /** One field against its rule; a key the schema does not name is refused. */
  predicate FieldValid(checks: FormatChecks, name: string, v: Value) {
    match name
    case "title" => LengthWithin(v, 3, 200)
    case "description" => LengthWithin(v, 10, 1000)
    case "acceptanceCriteria" => LengthWithin(v, 10, 2000)
    case "targetUrl" => v.Str? && checks.isUri(v.s)
    case "taskType" => v.Str? && v.s in TaskTypes
    case "priority" => v.Str? && v.s in Priorities
    case "assignee" => LengthWithin(v, 2, 100)
    case "dueDate" => v.Str? && checks.isIsoDate(v.s)
    case "compareWithPrevious" => v.Bool?
    case "compareWithDesign" => v.Bool?
    case "tags" => v.Strs? && |v.items| <= 10 && forall i :: 0 <= i < |v.items| ==> v.items[i] != ""
    case "estimatedHours" => v.Num? && 0.5 <= v.n <= 40.0
    case _ => false
  }

  /** The update schema: every field optional, each present one valid. */
  predicate UpdateValid(checks: FormatChecks, body: Doc) {
    forall k :: k in body ==> FieldValid(checks, k, body[k])
  }

  /** `taskSchema`: the update rules plus the required fields. */
  predicate CreateValid(checks: FormatChecks, body: Doc) {
    UpdateValid(checks, body) && RequiredFields <= body.Keys
  }

  /** The keys the schema names; `Joi.object` refuses any other key. */
  const SchemaKeys := RequiredFields + {"compareWithPrevious", "compareWithDesign", "tags", "estimatedHours"}

  /** Only a key the schema names can pass, and the two comparison flags
      accept exactly the booleans. */
  lemma FieldValidKeys(checks: FormatChecks, k: string, v: Value)
    ensures FieldValid(checks, k, v) ==> k in SchemaKeys
    ensures k == "compareWithPrevious" || k == "compareWithDesign" ==> (FieldValid(checks, k, v) <==> v.Bool?)
    ensures k == "estimatedHours" ==> (FieldValid(checks, k, v) <==> v.Num? && 0.5 <= v.n <= 40.0)
  {
  }

  /** Every field of an update is optional: the empty body passes, dropping
      a field keeps a body valid, and one invalid field refuses it. */
  lemma UpdateFieldsOptional(checks: FormatChecks, body: Doc, k: string)
    ensures UpdateValid(checks, map[])
    ensures UpdateValid(checks, body) ==> UpdateValid(checks, body - {k})
    ensures k in body && !FieldValid(checks, k, body[k]) ==> !UpdateValid(checks, body)
  {
  }

  /** A new task needs every required field, while the optional ones may be
      left out; a valid creation body is also a valid update body. */
  lemma CreateNeedsRequired(checks: FormatChecks, body: Doc, k: string)
    ensures k in RequiredFields && k !in body ==> !CreateValid(checks, body)
    ensures CreateValid(checks, body) && k !in RequiredFields ==> CreateValid(checks, body - {k})
    ensures CreateValid(checks, body) ==> UpdateValid(checks, body)
  {
  }

  /** The schema's defaults for the fields the body leaves out. */
  function WithDefaults(body: Doc): Doc {
    map["compareWithPrevious" := Bool(false), "compareWithDesign" := Bool(false), "tags" := Strs([])] + body
  }

  /** The fields the server owns. */
  function ServerFields(now: string): Doc {
    map["status" := Str("pending"), "createdAt" := Str(now), "updatedAt" := Str(now),
        "validationCount" := Num(0.0), "lastValidation" := Null, "lastValidationDate" := Null]
  }

  /** `POST /`: the validated body with its defaults, under the server's own fields. */
  function CreateTask(checks: FormatChecks, body: Doc, now: string): (r: Reply<Doc>)
    ensures r.Success? <==> CreateValid(checks, body)
    ensures !r.Success? ==> r == BadRequest("Validation failed", "")
    ensures r.Success? ==> r.value == WithDefaults(body) + ServerFields(now)
  {
    if !CreateValid(checks, body) then BadRequest("Validation failed", "")
    else Success(WithDefaults(body) + ServerFields(now))
  }

  /** Whatever the body, a created task is pending, never validated, and
      created and updated at the same instant. */
  lemma CreatedTaskIsFresh(checks: FormatChecks, body: Doc, now: string)
    requires CreateTask(checks, body, now).Success?
    ensures var task := CreateTask(checks, body, now).value;
      && Field(task, "status") == Str("pending")
      && Field(task, "validationCount") == Num(0.0)
      && Field(task, "lastValidation") == Null && Field(task, "lastValidationDate") == Null
      && Field(task, "createdAt") == Field(task, "updatedAt") == Str(now)
  {
    var server := ServerFields(now);
    var task := WithDefaults(body) + server;
    assert task == CreateTask(checks, body, now).value;
    assert server["status"] == Str("pending") && server["validationCount"] == Num(0.0);
    assert server["lastValidation"] == Null && server["lastValidationDate"] == Null;
    assert server["createdAt"] == server["updatedAt"] == Str(now);
  }

  /** The server's fields never overwrite what the body said: no key the
      body may carry is one of them. */
  lemma CreatedTaskKeepsBody(checks: FormatChecks, body: Doc, now: string)
    requires CreateTask(checks, body, now).Success?
    ensures forall k :: k in body ==> CreateTask(checks, body, now).value[k] == body[k]
  {
    var task := WithDefaults(body) + ServerFields(now);
    forall k | k in body
      ensures task[k] == body[k]
    {
      SchemaKeyNotServerField(checks, k, body[k], now);
    }
  }

  /** No key the schema accepts is one the server owns. */
  lemma SchemaKeyNotServerField(checks: FormatChecks, k: string, v: Value, now: string)
    requires FieldValid(checks, k, v)
    ensures k !in ServerFields(now)
  {
    assert ServerFields(now).Keys == {"status", "createdAt", "updatedAt", "validationCount", "lastValidation", "lastValidationDate"};
  }

  /** A created task's text fields are within the schema's bounds. */
  lemma CreatedTaskWithinSchema(checks: FormatChecks, body: Doc, now: string)
    requires CreateTask(checks, body, now).Success?
    ensures var task := CreateTask(checks, body, now).value;
      && LengthWithin(task["title"], 3, 200)
      && LengthWithin(task["description"], 10, 1000)
      && LengthWithin(task["acceptanceCriteria"], 10, 2000)
      && LengthWithin(task["assignee"], 2, 100)
  {
    CreatedTaskKeepsBody(checks, body, now);
    TextRules(checks, body);
  }

  /** A created task has at most ten tags, none when the body gave none,
      and an hour estimate, when present, within the schema's bounds. */
  lemma CreatedTaskTagsAndHours(checks: FormatChecks, body: Doc, now: string)
    requires CreateTask(checks, body, now).Success?
    ensures var task := CreateTask(checks, body, now).value;
      && task["tags"].Strs? && |task["tags"].items| <= 10
      && ("tags" !in body ==> task["tags"] == Strs([]))
      && ("estimatedHours" in task ==> task["estimatedHours"].Num? && 0.5 <= task["estimatedHours"].n <= 40.0)
  {
    var task := WithDefaults(body) + ServerFields(now);
    SchemaKeysNotServerFields(now);
    if "tags" in body {
      TagsRule(checks, body["tags"]);
      assert task["tags"] == body["tags"];
    } else {
      assert task["tags"] == Strs([]);
    }
    if "estimatedHours" in body {
      HoursRule(checks, body["estimatedHours"]);
      assert task["estimatedHours"] == body["estimatedHours"];
    }
  }

  lemma SchemaKeysNotServerFields(now: string)
    ensures "tags" !in ServerFields(now) && "estimatedHours" !in ServerFields(now)
  {
  }

  lemma TextRules(checks: FormatChecks, body: Doc)
    requires CreateValid(checks, body)
    ensures LengthWithin(body["title"], 3, 200)
    ensures LengthWithin(body["description"], 10, 1000)
    ensures LengthWithin(body["acceptanceCriteria"], 10, 2000)
    ensures LengthWithin(body["assignee"], 2, 100)
  {
    assert FieldValid(checks, "title", body["title"]);
    assert FieldValid(checks, "description", body["description"]);
    assert FieldValid(checks, "acceptanceCriteria", body["acceptanceCriteria"]);
    assert FieldValid(checks, "assignee", body["assignee"]);
  }

  lemma TagsRule(checks: FormatChecks, v: Value)
    requires FieldValid(checks, "tags", v)
    ensures v.Strs? && |v.items| <= 10
  {
  }

  lemma HoursRule(checks: FormatChecks, v: Value)
    requires FieldValid(checks, "estimatedHours", v)
    ensures v.Num? && 0.5 <= v.n <= 40.0
  {
  }


  // ---------------------------------------------------------------------
  // Listing

  /** The query string of `GET /`: a filter "" is absent, and so is a `None` parameter. */
  datatype ListQuery = ListQuery(
    status: string, priority: string, taskType: string, assignee: string,
    page: Option<string>, limit: Option<string>, sortBy: Option<string>, sortOrder: Option<string>)

  /** Only "createdAt" sorts by creation; anything else sorts by the last update. */
  function SortField(sortBy: Option<string>): (f: string)
    ensures f == "createdAt" <==> sortBy.None? || sortBy == Some("createdAt")
    ensures f == "createdAt" || f == "updatedAt"
  {
    var key := if sortBy.Some? then sortBy.value else "createdAt";
    if key == "createdAt" then "createdAt" else "updatedAt"
  }

  /** Only "asc" sorts ascending; the default and anything else descend. */
  function SortDirection(sortOrder: Option<string>): (d: string)
    ensures d == "asc" <==> sortOrder == Some("asc")
    ensures d == "asc" || d == "desc"
  {
    var order := if sortOrder.Some? then sortOrder.value else "desc";
    if order == "asc" then "asc" else "desc"
  }

  /** `parseInt` of a parameter with its numeric default; `None` is `NaN`. */
  function NumberParam(param: Option<string>, fallback: int): Option<int> {
    if param.None? then Some(fallback) else ParseInt(param.value)
  }

  predicate MatchesFilters(task: Doc, q: ListQuery) {
    && (q.status != "" ==> Field(task, "status") == Str(q.status))
    && (q.priority != "" ==> Field(task, "priority") == Str(q.priority))
    && (q.taskType != "" ==> Field(task, "taskType") == Str(q.taskType))
    && (q.assignee != "" ==> Field(task, "assignee") == Str(q.assignee))
  }

  /** The filtered query: the matching tasks, each as often as it occurs. */
  function Filtered(tasks: seq<Doc>, q: ListQuery): (r: seq<Doc>)
    ensures |r| <= |tasks|
    ensures forall i :: 0 <= i < |r| ==> MatchesFilters(r[i], q)
    ensures forall t :: t in tasks && MatchesFilters(t, q) ==> t in r
  {
    if tasks == [] then []
    else
      var rest := Filtered(tasks[1..], q);
      if MatchesFilters(tasks[0], q) then [tasks[0]] + rest else rest
  }

  /** Each matching task is kept as often as it occurs in the store, and no
      other task is kept. */
  lemma {:induction false} FilteredCount(tasks: seq<Doc>, q: ListQuery)
    ensures forall t :: multiset(Filtered(tasks, q))[t] == if MatchesFilters(t, q) then multiset(tasks)[t] else 0
  {
    if tasks != [] {
      FilteredCount(tasks[1..], q);
      assert tasks == [tasks[0]] + tasks[1..];
      assert multiset(tasks) == multiset{tasks[0]} + multiset(tasks[1..]);
    }
  }

  /** Filtering keeps the store's order: the filter of two runs of tasks is
      the filter of the first followed by the filter of the second. */
  lemma {:induction false} FilteredAppend(a: seq<Doc>, b: seq<Doc>, q: ListQuery)
    ensures Filtered(a + b, q) == Filtered(a, q) + Filtered(b, q)
    decreases |a|
  {
    if a != [] {
      assert (a + b)[0] == a[0];
      assert (a + b)[1..] == a[1..] + b;
      FilteredAppend(a[1..], b, q);
    } else {
      assert a + b == b;
    }
  }

  /** `(page - 1) * limit`. */
  function Offset(page: int, limit: int): int { (page - 1) * limit }

  /** `Math.ceil(total / limit)`; `None` is the `Infinity` or `NaN` of a zero limit. */
  function Pages(total: nat, limit: int): (r: Option<int>)
    ensures r.None? <==> limit == 0
    ensures limit > 0 ==> r.value * limit >= total && (r.value == 0 <==> total == 0)
    ensures limit > 0 && total > 0 ==> (r.value - 1) * limit < total
  {
    if limit == 0 then None else Some(CeilDiv(total, limit))
  }

  /** `query.limit(limit).offset(offset)` on the store's ordered answer;
      the store refuses a negative limit or offset. */
  function Window(ordered: seq<Doc>, offset: int, limit: int): (r: Option<seq<Doc>>)
    ensures r.Some? <==> offset >= 0 && limit >= 0
    ensures r.Some? ==> |r.value| <= limit && forall i :: 0 <= i < |r.value| ==> offset + i < |ordered| && r.value[i] == ordered[offset + i]
    ensures r.Some? ==>
      var rest := if offset < |ordered| then |ordered| - offset else 0;
      |r.value| == if limit < rest then limit else rest
  {
    if offset < 0 || limit < 0 then None
    else if offset >= |ordered| then Some([])
    else Some(ordered[offset..if offset + limit <= |ordered| then offset + limit else |ordered|])
  }

  datatype Pagination = Pagination(page: int, limit: int, total: nat, pages: Option<int>)
  datatype Listing = Listing(tasks: seq<Doc>, pagination: Pagination)

  /** `GET /` over the store's answer for the chosen sort (`ordered`): filter,
      count, window; the pagination block is the same whether the window is
      empty or not. */
  function ListTasks(ordered: seq<Doc>, q: ListQuery): (r: Option<Listing>)
    ensures r.Some? ==> r.value.pagination.total == |Filtered(ordered, q)|
    ensures r.Some? ==> r.value.pagination.pages == Pages(|Filtered(ordered, q)|, r.value.pagination.limit)
    ensures r.Some? ==> |r.value.tasks| <= r.value.pagination.limit
    ensures r.Some? ==> forall i :: 0 <= i < |r.value.tasks| ==> MatchesFilters(r.value.tasks[i], q)
    ensures r.Some? ==> NumberParam(q.page, 1) == Some(r.value.pagination.page) && NumberParam(q.limit, 20) == Some(r.value.pagination.limit)
    ensures r.Some? ==>
      var p := r.value.pagination;
      Window(Filtered(ordered, q), Offset(p.page, p.limit), p.limit) == Some(r.value.tasks)
    ensures r.None? <==>
      var page := NumberParam(q.page, 1);
      var limit := NumberParam(q.limit, 20);
      page.None? || limit.None? || Offset(page.value, limit.value) < 0 || limit.value < 0
  {
    var filtered := Filtered(ordered, q);
    var page := NumberParam(q.page, 1);
    var limit := NumberParam(q.limit, 20);
    if page.None? || limit.None? then None
    else
      var w := Window(filtered, Offset(page.value, limit.value), limit.value);
      if w.None? then None
      else Some(Listing(w.value, Pagination(page.value, limit.value, |filtered|, Pages(|filtered|, limit.value))))
  }

  /** Every page up to the page count starts inside the result, and the one
      after it is empty. */
  lemma PagesCoverTheTotal(total: nat, limit: int, page: int)
    requires limit > 0 && page >= 1
    ensures page <= Pages(total, limit).value ==> Offset(page, limit) < total
    ensures page > Pages(total, limit).value ==> Offset(page, limit) >= total
  {
    var pages := Pages(total, limit).value;
    if page <= pages {
      MulMono(limit, page - 1, pages - 1);
      assert (page - 1) * limit <= (pages - 1) * limit;
    } else {
      MulMono(limit, pages, page - 1);
      assert pages * limit <= (page - 1) * limit;
    }
  }

  // ---------------------------------------------------------------------
  // Update

  const ForbiddenFields := ["id", "status", "createdAt", "validationCount", "lastValidation", "lastValidationDate", "updatedAt"]

  function ForbiddenSet(): set<string> {
    set i | 0 <= i < |ForbiddenFields| :: ForbiddenFields[i]
  }

  /** `forbiddenFields.forEach(field => delete filteredBody[field])`. */
  method FilterForbidden(body: Doc) returns (filtered: Doc)
    ensures filtered == body - ForbiddenSet()
  {
    filtered := body;
    for i := 0 to |ForbiddenFields|
      invariant filtered == body - (set j | 0 <= j < i :: ForbiddenFields[j])
    {
      filtered := filtered - {ForbiddenFields[i]};
    }
  }

  /** What `PUT /:taskId` writes: the allowed fields, and a fresh update time. */
  function UpdateDoc(body: Doc, now: string): (r: Doc)
    ensures r.Keys == (body.Keys - ForbiddenSet()) + {"updatedAt"}
    ensures r["updatedAt"] == Str(now)
    ensures forall k :: k in body && k !in ForbiddenSet() ==> r[k] == body[k]
  {
    assert ForbiddenFields[6] == "updatedAt";
    (body - ForbiddenSet())["updatedAt" := Str(now)]
  }

  /** `PUT /:taskId`: a missing task first, then the protected fields
      dropped, then the update schema. */
  method UpdateTask(checks: FormatChecks, found: bool, body: Doc, now: string) returns (r: Reply<Doc>)
    ensures !found ==> r == NotFound
    ensures found ==> (r.Success? <==> UpdateValid(checks, body - ForbiddenSet()))
    ensures found && !r.Success? ==> r == BadRequest("Validation failed", "")
    ensures r.Success? ==> r.value == UpdateDoc(body, now)
  {
    if !found {
      return NotFound;
    }
    var filteredBody := FilterForbidden(body);
    if !UpdateValid(checks, filteredBody) {
      return BadRequest("Validation failed", "");
    }
    r := Success(filteredBody["updatedAt" := Str(now)]);
  }

  /** Writing an update onto a stored task never changes a protected field,
      except that the update time is always reset. */
  lemma UpdateKeepsProtectedFields(stored: Doc, body: Doc, now: string, f: string)
    requires f in ForbiddenFields && f != "updatedAt"
    ensures Field(stored + UpdateDoc(body, now), f) == Field(stored, f)
    ensures Field(stored + UpdateDoc(body, now), "updatedAt") == Str(now)
  {
    assert f in ForbiddenSet();
  }

  // ---------------------------------------------------------------------
  // Status

  const ValidStatuses := ["pending", "in_progress", "completed", "cancelled"]

  /** The refusal lists the whitelist itself, joined with ", ". */
  const StatusMessage := "Status must be one of: " + Join(ValidStatuses, ", ")

  /** `PATCH /:taskId/status`: the whitelist is checked before the task is looked up. */
  function UpdateStatus(status: Value, found: bool): (r: Reply<string>)
    ensures r.Success? <==> found && status.Str? && status.s in ValidStatuses
    ensures r.Success? ==> r.value == status.s
    ensures !(status.Str? && status.s in ValidStatuses) ==>
      r == BadRequest("Invalid status", StatusMessage)
    ensures status.Str? && status.s in ValidStatuses && !found ==> r == NotFound
  {
    if !(status.Str? && status.s in ValidStatuses) then
      BadRequest("Invalid status", StatusMessage)
    else if !found then NotFound
    else Success(status.s)
  }

  // ---------------------------------------------------------------------
  // Statistics

  /** The values of one field over the tasks, in order. */
  function FieldValues(tasks: seq<Doc>, f: string): (vs: seq<Value>)
    ensures |vs| == |tasks| && forall i :: 0 <= i < |tasks| ==> vs[i] == Field(tasks[i], f)
  {
    seq(|tasks|, i requires 0 <= i < |tasks| => Field(tasks[i], f))
  }

  /** The sum of a tally's counts. */
  ghost function TallyTotal(m: map<Value, nat>): nat
    decreases |m|
  {
    if m == map[] then 0
    else
      var k :| k in m;
      m[k] + TallyTotal(m - {k})
  }

  lemma {:induction false} TallyTotalAny(m: map<Value, nat>, k: Value)
    requires k in m
    ensures TallyTotal(m) == m[k] + TallyTotal(m - {k})
    decreases |m|
  {
    var j :| j in m && TallyTotal(m) == m[j] + TallyTotal(m - {j});
    if j != k {
      TallyTotalAny(m - {j}, k);
      TallyTotalAny(m - {k}, j);
      assert m - {j} - {k} == m - {k} - {j};
    }
  }

  /** `(tally[v] || 0) + 1`. */
  function Bump(m: map<Value, nat>, v: Value): map<Value, nat> {
    m[v := (if v in m then m[v] else 0) + 1]
  }

  /** The tally holds, for each value seen, how often it was seen. */
  ghost predicate Tallies(m: map<Value, nat>, vs: seq<Value>) {
    forall v :: (v in m <==> v in multiset(vs)) && (v in m ==> m[v] == multiset(vs)[v])
  }

  lemma BumpTallies(m: map<Value, nat>, vs: seq<Value>, v: Value)
    requires Tallies(m, vs) && TallyTotal(m) == |vs|
    ensures Tallies(Bump(m, v), vs + [v]) && TallyTotal(Bump(m, v)) == |vs| + 1
  {
    var m' := Bump(m, v);
    assert multiset(vs + [v]) == multiset(vs) + multiset{v};
    TallyTotalAny(m', v);
    if v in m {
      TallyTotalAny(m, v);
      assert m' - {v} == m - {v};
    } else {
      assert m' - {v} == m;
    }
  }

  /** The tally of field `f` over the first `i` tasks, with its total. */
  ghost predicate TallyOf(m: map<Value, nat>, tasks: seq<Doc>, i: nat, f: string)
    requires i <= |tasks|
  {
    Tallies(m, FieldValues(tasks[..i], f)) && TallyTotal(m) == i
  }

  lemma TallyStep(m: map<Value, nat>, tasks: seq<Doc>, i: nat, f: string)
    requires i < |tasks| && TallyOf(m, tasks, i, f)
    ensures TallyOf(Bump(m, Field(tasks[i], f)), tasks, i + 1, f)
  {
    assert FieldValues(tasks[..i + 1], f) == FieldValues(tasks[..i], f) + [Field(tasks[i], f)];
    BumpTallies(m, FieldValues(tasks[..i], f), Field(tasks[i], f));
  }

  datatype Stats = Stats(
    totalTasks: nat,
    totalValidations: nat,
    tasksByStatus: map<Value, nat>,
    tasksByPriority: map<Value, nat>,
    tasksByType: map<Value, nat>,
    averageScore: int,
    validationSuccessRate: nat)

  /** `val.score || 0` for a numeric or boolean score: what the sum adds for
      one validation (`true` adds one, a missing or other score nothing). */
  function ScoreOf(v: Doc): (r: real)
    ensures Field(v, "score").Num? ==> r == Field(v, "score").n
    ensures Field(v, "score").Bool? ==> r == if Field(v, "score").b then 1.0 else 0.0
    ensures !Field(v, "score").Num? && !Field(v, "score").Bool? ==> r == 0.0
  {
    match Field(v, "score")
    case Num(n) => n
    case Bool(b) => if b then 1.0 else 0.0
    case _ => 0.0
  }

  function ScoreSum(validations: seq<Doc>): real {
    if validations == [] then 0.0 else ScoreSum(validations[..|validations| - 1]) + ScoreOf(validations[|validations| - 1])
  }

  function PassCount(validations: seq<Doc>): (n: nat)
    ensures n <= |validations|
  {
    if validations == [] then 0
    else PassCount(validations[..|validations| - 1]) + (if Field(validations[|validations| - 1], "verdict") == Str("Pass") then 1 else 0)
  }

  /** `Math.round(x)`: the nearest integer, halves rounded up. */
  function Round(x: real): (r: int)
    ensures r as real - 0.5 <= x < r as real + 0.5
  {
    (x + 0.5).Floor
  }

  /** Bounds on a quotient carry over to the dividend. */
  lemma Scale(lo: real, x: real, hi: real, n: real)
    requires n > 0.0 && lo <= x < hi
    ensures lo * n <= x * n < hi * n
  {
    assert (x - lo) * n >= 0.0;
    assert (hi - x) * n > 0.0;
  }

  /** The mean score, rounded; 0 when there are no validations. */
  function AverageScore(validations: seq<Doc>): (r: int)
    ensures validations == [] ==> r == 0
    ensures validations != [] ==>
      var n := |validations| as real;
      (r as real - 0.5) * n <= ScoreSum(validations) && ScoreSum(validations) < (r as real + 0.5) * n
  {
    if validations == [] then 0
    else
      var n, sum := |validations| as real, ScoreSum(validations);
      var r := Round(sum / n);
      assert (sum / n) * n == sum;
      Scale(r as real - 0.5, sum / n, r as real + 0.5, n);
      r
  }

  predicate ScoresWithin(validations: seq<Doc>) {
    forall i :: 0 <= i < |validations| ==> 0.0 <= ScoreOf(validations[i]) <= 100.0
  }

  lemma {:induction false} ScoreSumWithin(validations: seq<Doc>)
    requires ScoresWithin(validations)
    ensures 0.0 <= ScoreSum(validations) <= 100.0 * |validations| as real
  {
    if validations != [] {
      var init := validations[..|validations| - 1];
      assert ScoresWithin(init) by {
        forall i | 0 <= i < |init| ensures 0.0 <= ScoreOf(init[i]) <= 100.0 {
          assert init[i] == validations[i];
        }
      }
      ScoreSumWithin(init);
    }
  }

  /** With every score in 0..100 the average is too. */
  lemma AverageScoreWithin(validations: seq<Doc>)
    requires ScoresWithin(validations)
    ensures 0 <= AverageScore(validations) <= 100
  {
    if validations != [] {
      ScoreSumWithin(validations);
      var n := |validations| as real;
      var x := ScoreSum(validations) / n;
      assert 0.0 <= x <= 100.0;
    }
  }

  /** `GET /stats/overview`: one pass over the tasks bumping three tallies,
      then the validation averages. */
  method Overview(tasks: seq<Doc>, validations: seq<Doc>) returns (stats: Stats)
    ensures stats.totalTasks == |tasks| && stats.totalValidations == |validations|
    ensures Tallies(stats.tasksByStatus, FieldValues(tasks, "status")) && TallyTotal(stats.tasksByStatus) == |tasks|
    ensures Tallies(stats.tasksByPriority, FieldValues(tasks, "priority")) && TallyTotal(stats.tasksByPriority) == |tasks|
    ensures Tallies(stats.tasksByType, FieldValues(tasks, "taskType")) && TallyTotal(stats.tasksByType) == |tasks|
    ensures stats.averageScore == AverageScore(validations)
    ensures stats.validationSuccessRate == Percent(PassCount(validations), |validations|)
    ensures validations == [] ==> stats.averageScore == 0 && stats.validationSuccessRate == 0
  {
    var byStatus: map<Value, nat> := map[];
    var byPriority: map<Value, nat> := map[];
    var byType: map<Value, nat> := map[];
    for i := 0 to |tasks|
      invariant TallyOf(byStatus, tasks, i, "status")
      invariant TallyOf(byPriority, tasks, i, "priority")
      invariant TallyOf(byType, tasks, i, "taskType")
    {
      var task := tasks[i];
      TallyStep(byStatus, tasks, i, "status");
      TallyStep(byPriority, tasks, i, "priority");
      TallyStep(byType, tasks, i, "taskType");
      byStatus := Bump(byStatus, Field(task, "status"));
      byPriority := Bump(byPriority, Field(task, "priority"));
      byType := Bump(byType, Field(task, "taskType"));
    }
    assert tasks[..|tasks|] == tasks;
    var averageScore := 0;
    var validationSuccessRate := 0;
    if |validations| > 0 {
      averageScore := AverageScore(validations);
      validationSuccessRate := Percent(PassCount(validations), |validations|);
    }
    stats := Stats(|tasks|, |validations|, byStatus, byPriority, byType, averageScore, validationSuccessRate);
  }
}
