/** The task service: ownership scoping, status filtering and pagination of the list query,
    create-time validation and defaults, and fetch-then-check-then-act on read, update and
    delete. The collection is a sequence in creation order, so "newest first" (a sort on
    `createdAt` descending) is its reverse. */
module TaskService {
  import opened Common
  import opened Text
  import opened TaskSchema

  const ITEMS_PER_PAGE: nat := 4

  type Positive = n: nat | n >= 1 witness 1

  /** The second argument of `getAllTasks`, destructured as `{ page = 1, limit = 4, status }`. */
  datatype ListOptions = ListOptions(page: Option<nat>, limit: Option<Positive>, status: Option<string>)

  datatype TaskPage = TaskPage(tasks: seq<Task>, page: nat, totalPages: nat, total: nat)

  /** The acknowledgement returned by `deleteTask`. */
  datatype Ack = Ack(success: bool, message: string)

  /** The request body of `createTask`; each field absent or given. */
  datatype NewTask = NewTask(
    title: Option<string>,
    description: Option<string>,
    status: Option<string>,
    priority: Option<string>,
    dueDate: Option<string>)

  /** The TypeError raised when the options object is missing: destructuring `undefined`. */
  const DESTRUCTURE_MESSAGE := "Cannot destructure property 'page' of 'undefined' as it is undefined."
  /** The database's rejection of the negative skip that page 0 produces. */
  const NEGATIVE_SKIP_MESSAGE := "BSON field 'skip' value must be >= 0"
  const DELETED_MESSAGE := "Task has been permanently removed"

  const NOT_FOUND: Error := Error(Some(404), "Requested task does not exist")
  const FORBIDDEN: Error := Error(Some(403), "You do not have permission to access this task")
  const EMPTY_TITLE: Error := Error(Some(400), "Task title cannot be empty")
  const UPDATE_NOT_FOUND: Error := Error(Some(404), "Cannot update - task not found")
  const UPDATE_FORBIDDEN: Error := Error(Some(403), "You are not authorized to modify this task")
  const DELETE_NOT_FOUND: Error := Error(Some(404), "Cannot delete - task not found")
  const DELETE_FORBIDDEN: Error := Error(Some(403), "You are not authorized to remove this task")

  function Min(a: int, b: int): int { if a <= b then a else b }

  // ---------------------------------------------------------------------------
  // The collection

  /** What the Task collection always satisfies: every document meets the schema, ids are
      distinct, and every id is below the next id to be handed out. */
  predicate Consistent(ts: seq<Task>, nextId: nat) {
    AllWellFormed(ts) && DistinctIds(ts) && IdsBelow(ts, nextId)
  }

  predicate AllWellFormed(ts: seq<Task>) {
    forall i :: 0 <= i < |ts| ==> WellFormed(ts[i])
  }

  predicate DistinctIds(ts: seq<Task>) {
    forall i, j :: 0 <= i < j < |ts| ==> ts[i].id != ts[j].id
  }

  predicate IdsBelow(ts: seq<Task>, nextId: nat) {
    forall i :: 0 <= i < |ts| ==> ts[i].id.raw < nextId
  }

  /** `Task.findById`. */
  function Find(ts: seq<Task>, id: TaskId): (r: Option<Task>)
    ensures r.Some? ==> r.value in ts && r.value.id == id
    ensures r.None? <==> forall i :: 0 <= i < |ts| ==> ts[i].id != id
  {
    if ts == [] then None
    else if ts[0].id == id then Some(ts[0])
    else
      assert forall i :: 1 <= i < |ts| ==> ts[i] == ts[1..][i - 1];
      Find(ts[1..], id)
  }

  /** With distinct ids, `Find` returns the one task with that id. */
  lemma FindUnique(ts: seq<Task>, k: nat)
    requires DistinctIds(ts) && k < |ts|
    ensures Find(ts, ts[k].id) == Some(ts[k])
  {
    var r := Find(ts, ts[k].id);
    var j :| 0 <= j < |ts| && ts[j] == r.value;
    assert j == k;
  }

  /** `findByIdAndUpdate` writes the new version over the task with its id. */
  function Replace(ts: seq<Task>, u: Task): seq<Task> {
    seq(|ts|, i requires 0 <= i < |ts| => if ts[i].id == u.id then u else ts[i])
  }

  /** With distinct ids, replacing the task at position `k` changes that position only. */
  lemma ReplaceAt(ts: seq<Task>, k: nat, u: Task)
    requires DistinctIds(ts) && k < |ts| && u.id == ts[k].id
    ensures Replace(ts, u) == ts[k := u]
  {
  }

  /** `findByIdAndDelete`: the collection without the task with that id. */
  function RemoveById(ts: seq<Task>, id: TaskId): (r: seq<Task>)
    ensures |r| <= |ts|
  {
    if ts == [] then []
    else RemoveById(ts[..|ts| - 1], id) + (if ts[|ts| - 1].id == id then [] else [ts[|ts| - 1]])
  }

  /** Deleting keeps exactly the tasks with another id. */
  lemma {:induction false} RemoveByIdMembers(ts: seq<Task>, id: TaskId)
    ensures forall t :: t in RemoveById(ts, id) <==> t in ts && t.id != id
    decreases |ts|
  {
    if ts != [] {
      var n := |ts| - 1;
      RemoveByIdMembers(ts[..n], id);
      assert ts == ts[..n] + [ts[n]];
    }
  }

  /** With distinct ids, deleting a present task removes exactly that one task and keeps
      the others in order. */
  lemma {:induction false} RemoveByIdExactlyOne(ts: seq<Task>, k: nat)
    requires DistinctIds(ts) && k < |ts|
    ensures RemoveById(ts, ts[k].id) == ts[..k] + ts[k + 1..]
    decreases |ts|
  {
    var n := |ts| - 1;
    var id := ts[k].id;
    var init := ts[..n];
    assert DistinctIds(init);
    if k == n {
      forall i | 0 <= i < |init| ensures init[i].id != id {
        assert init[i] == ts[i];
      }
      RemoveByIdAbsent(init, id);
      assert ts[..k] == init;
      assert ts[k + 1..] == [];
    } else {
      assert init[k] == ts[k];
      assert ts[n].id != id;
      RemoveByIdExactlyOne(init, k);
      assert RemoveById(ts, id) == RemoveById(init, id) + [ts[n]];
      assert init[..k] == ts[..k];
      assert init[k + 1..] + [ts[n]] == ts[k + 1..];
    }
  }

  lemma {:induction false} RemoveByIdAbsent(ts: seq<Task>, id: TaskId)
    requires forall i :: 0 <= i < |ts| ==> ts[i].id != id
    ensures RemoveById(ts, id) == ts
    decreases |ts|
  {
    if ts != [] {
      RemoveByIdAbsent(ts[..|ts| - 1], id);
      assert ts[..|ts| - 1] + [ts[|ts| - 1]] == ts;
    }
  }

  /** Appending a task with the next id keeps the ids distinct and below the next id. */
  lemma AppendFreshDistinct(ts: seq<Task>, nextId: nat, t: Task)
    requires DistinctIds(ts) && IdsBelow(ts, nextId) && t.id.raw == nextId
    ensures DistinctIds(ts + [t]) && IdsBelow(ts + [t], nextId + 1)
  {
    assert forall i :: 0 <= i < |ts| ==> (ts + [t])[i] == ts[i];
  }

  lemma AppendConsistent(ts: seq<Task>, nextId: nat, t: Task)
    requires Consistent(ts, nextId) && WellFormed(t) && t.id.raw == nextId
    ensures Consistent(ts + [t], nextId + 1)
  {
    AppendFreshDistinct(ts, nextId, t);
    assert forall i :: 0 <= i < |ts| ==> (ts + [t])[i] == ts[i];
  }

  /** Replacing a task by a well-formed version with the same id keeps the collection consistent. */
  lemma ReplaceConsistent(ts: seq<Task>, nextId: nat, u: Task)
    requires Consistent(ts, nextId) && WellFormed(u)
    ensures Consistent(Replace(ts, u), nextId)
  {
    var r := Replace(ts, u);
    assert forall i :: 0 <= i < |ts| ==> r[i].id == ts[i].id;
  }

  /** Dropping one position keeps the collection consistent. */
  lemma DropConsistent(ts: seq<Task>, nextId: nat, k: nat)
    requires Consistent(ts, nextId) && k < |ts|
    ensures Consistent(ts[..k] + ts[k + 1..], nextId)
  {
    var r := ts[..k] + ts[k + 1..];
    assert forall i :: 0 <= i < |r| ==> r[i] == ts[if i < k then i else i + 1];
  }

  // ---------------------------------------------------------------------------
  // getAllTasks

  /** `status && ["pending", "completed"].includes(status)`: the status joins the filter
      only when it is one of the two spellings; anything else is ignored. */
  function StatusFilter(status: Option<string>): (f: Option<Status>)
    ensures f.Some? <==> status.Some? && status.value in TASK_STATUSES
    ensures f.Some? ==> StatusName(f.value) == status.value
  {
    if Truthy(status) && ParseStatus(status.value).Some? then ParseStatus(status.value) else None
  }

  /** The filter `{ createdBy: userId, status? }`. */
  predicate Visible(t: Task, owner: UserId, filter: Option<Status>) {
    t.createdBy == owner && (filter.None? || t.status == filter.value)
  }

  /** The documents matching the filter, in creation order. */
  function Matching(ts: seq<Task>, owner: UserId, filter: Option<Status>): (r: seq<Task>)
    ensures |r| <= |ts|
    ensures forall i :: 0 <= i < |r| ==> Visible(r[i], owner, filter)
  {
    if ts == [] then []
    else
      var n := |ts| - 1;
      Matching(ts[..n], owner, filter) + (if Visible(ts[n], owner, filter) then [ts[n]] else [])
  }

  /** The matches are exactly the tasks of the collection that pass the filter. */
  lemma {:induction false} MatchingMembers(ts: seq<Task>, owner: UserId, filter: Option<Status>)
    ensures forall t :: t in Matching(ts, owner, filter) <==> t in ts && Visible(t, owner, filter)
    decreases |ts|
  {
    if ts != [] {
      var n := |ts| - 1;
      MatchingMembers(ts[..n], owner, filter);
      assert ts == ts[..n] + [ts[n]];
    }
  }

  /** `sort({ createdAt: -1 })`. */
  function NewestFirst(ts: seq<Task>): seq<Task> {
    seq(|ts|, i requires 0 <= i < |ts| => ts[|ts| - 1 - i])
  }

  /** `Math.ceil(total / limit)`. */
  function CeilDiv(total: nat, limit: Positive): (q: nat)
    ensures total <= q * limit
    ensures q == 0 || (q - 1) * limit < total
  {
    (total + limit - 1) / limit
  }

  /** `Math.ceil(total / limit) || 1`: the number of pages, at least one. */
  function TotalPages(total: nat, limit: Positive): (n: nat)
    ensures n >= 1
    ensures total <= n * limit
    ensures total > 0 ==> (n - 1) * limit < total
    ensures total == 0 ==> n == 1
  {
    var pages := CeilDiv(total, limit);
    if pages == 0 then 1 else pages
  }

  /** `skip(skip).limit(limit)`. */
  function Window(s: seq<Task>, skip: nat, limit: nat): (r: seq<Task>)
    ensures |r| == if skip >= |s| then 0 else Min(limit, |s| - skip)
    ensures forall k :: 0 <= k < |r| ==> r[k] == s[skip + k]
  {
    if skip >= |s| then [] else s[skip..Min(|s|, skip + limit)]
  }

  function PageOf(o: ListOptions): nat { if o.page.Some? then o.page.value else 1 }
  function LimitOf(o: ListOptions): Positive { if o.limit.Some? then o.limit.value else ITEMS_PER_PAGE }

  /** `getAllTasks(userId, options)`. */
  function ListTasks(ts: seq<Task>, owner: UserId, options: Option<ListOptions>): (r: Result<TaskPage>)
    ensures options.None? ==> r == Err(Error(None, DESTRUCTURE_MESSAGE))
    ensures options.Some? ==> (r.Ok? <==> PageOf(options.value) >= 1)
    ensures r.Err? ==> r.error.status.None?
    ensures r.Ok? ==>
      && r.value.page == PageOf(options.value)
      && r.value.total == |Matching(ts, owner, StatusFilter(options.value.status))|
      && r.value.totalPages == TotalPages(r.value.total, LimitOf(options.value))
      && |r.value.tasks| <= LimitOf(options.value)
      && forall i :: 0 <= i < |r.value.tasks| ==>
           r.value.tasks[i].createdBy == owner && r.value.tasks[i] in ts
  {
    if options.None? then Err(Error(None, DESTRUCTURE_MESSAGE))
    else
      var page, limit := PageOf(options.value), LimitOf(options.value);
      var matching := Matching(ts, owner, StatusFilter(options.value.status));
      if page == 0 then Err(Error(None, NEGATIVE_SKIP_MESSAGE))
      else
        var tasks := Window(NewestFirst(matching), (page - 1) * limit, limit);
        MatchingMembers(ts, owner, StatusFilter(options.value.status));
        assert forall i :: 0 <= i < |tasks| ==> tasks[i] in matching;
        Ok(TaskPage(tasks, page, TotalPages(|matching|, limit), |matching|))
  }

  /** The returned tasks are the newest-first matches starting at `(page - 1) * limit`,
      as many as remain, at most `limit`. */
  lemma ListWindow(ts: seq<Task>, owner: UserId, o: ListOptions)
    requires PageOf(o) >= 1
    ensures var r := ListTasks(ts, owner, Some(o));
      var all := NewestFirst(Matching(ts, owner, StatusFilter(o.status)));
      var skip := (PageOf(o) - 1) * LimitOf(o);
      && r.Ok?
      && |r.value.tasks| == (if skip >= |all| then 0 else Min(LimitOf(o), |all| - skip))
      && forall k :: 0 <= k < |r.value.tasks| ==> r.value.tasks[k] == all[skip + k]
  {
  }

  lemma MulMonotonic(a: nat, b: nat, c: nat)
    requires a <= b
    ensures a * c <= b * c
  {
  }

  /** The page is echoed, not clamped: a page past the last one is empty, with the same
      `total` and `totalPages` as any other page. */
  lemma PagePastTheEndIsEmpty(ts: seq<Task>, owner: UserId, o: ListOptions)
    requires PageOf(o) >= 1
    ensures var r := ListTasks(ts, owner, Some(o));
      r.Ok? && (PageOf(o) > r.value.totalPages ==> r.value.tasks == [])
  {
    var r := ListTasks(ts, owner, Some(o));
    var limit := LimitOf(o);
    if PageOf(o) > r.value.totalPages {
      MulMonotonic(r.value.totalPages, PageOf(o) - 1, limit);
    }
  }

  /** The page of the `i`-th of `total` items starts at or before it, holds it, and is
      one of the `TotalPages` pages. */
  lemma PageOfIndex(i: nat, limit: Positive, total: nat)
    requires i < total
    ensures (i / limit) * limit <= i < (i / limit) * limit + limit
    ensures i % limit == i - (i / limit) * limit
    ensures i / limit + 1 <= TotalPages(total, limit)
  {
    var q, pages := i / limit, TotalPages(total, limit);
    assert i == q * limit + i % limit;
    if q >= pages {
      MulMonotonic(pages, q, limit);
      assert false;
    }
  }

  /** Every matching task is on exactly the page its newest-first position puts it: the
      `i`-th match is entry `i % limit` of page `i / limit + 1`, which is a real page. */
  lemma EveryMatchOnItsPage(ts: seq<Task>, owner: UserId, status: Option<string>, limit: Positive, i: nat)
    requires i < |Matching(ts, owner, StatusFilter(status))|
    ensures var o := ListOptions(Some(i / limit + 1), Some(limit), status);
      var r := ListTasks(ts, owner, Some(o));
      && r.Ok? && i / limit + 1 <= r.value.totalPages
      && i % limit < |r.value.tasks|
      && r.value.tasks[i % limit] == NewestFirst(Matching(ts, owner, StatusFilter(status)))[i]
  {
    var o := ListOptions(Some(i / limit + 1), Some(limit), status);
    var all := NewestFirst(Matching(ts, owner, StatusFilter(status)));
    var skip, offset := (i / limit) * limit, i % limit;
    PageOfIndex(i, limit, |Matching(ts, owner, StatusFilter(status))|);
    assert (PageOf(o) - 1) * LimitOf(o) == skip;
    ListWindow(ts, owner, o);
    assert skip + offset == i;
  }

  /** A status other than "pending" or "completed" filters nothing and raises no error. */
  lemma InvalidStatusIgnored(ts: seq<Task>, owner: UserId, o: ListOptions)
    requires o.status.Some? && o.status.value !in TASK_STATUSES
    ensures ListTasks(ts, owner, Some(o)) == ListTasks(ts, owner, Some(o.(status := None)))
  {
  }

  /** Ownership isolation: adding another user's task changes nothing this user lists. */
  lemma ListIgnoresForeignInsert(ts: seq<Task>, t: Task, owner: UserId, o: Option<ListOptions>)
    requires t.createdBy != owner
    ensures ListTasks(ts + [t], owner, o) == ListTasks(ts, owner, o)
  {
    if o.Some? {
      var f := StatusFilter(o.value.status);
      assert (ts + [t])[..|ts|] == ts;
      assert Matching(ts + [t], owner, f) == Matching(ts, owner, f);
    }
  }

  lemma {:induction false} MatchingIgnoresForeignReplace(ts: seq<Task>, u: Task, owner: UserId, f: Option<Status>)
    requires u.createdBy != owner
    requires forall i :: 0 <= i < |ts| && ts[i].id == u.id ==> ts[i].createdBy != owner
    ensures Matching(Replace(ts, u), owner, f) == Matching(ts, owner, f)
    decreases |ts|
  {
    if ts != [] {
      var n := |ts| - 1;
      assert Replace(ts, u)[..n] == Replace(ts[..n], u);
      MatchingIgnoresForeignReplace(ts[..n], u, owner, f);
    }
  }

  lemma {:induction false} MatchingIgnoresForeignRemove(ts: seq<Task>, id: TaskId, owner: UserId, f: Option<Status>)
    requires forall i :: 0 <= i < |ts| && ts[i].id == id ==> ts[i].createdBy != owner
    ensures Matching(RemoveById(ts, id), owner, f) == Matching(ts, owner, f)
    decreases |ts|
  {
    if ts != [] {
      var n := |ts| - 1;
      var init := ts[..n];
      assert forall i :: 0 <= i < |init| ==> init[i] == ts[i];
      MatchingIgnoresForeignRemove(init, id, owner, f);
      var rest := RemoveById(init, id);
      if ts[n].id != id {
        assert RemoveById(ts, id) == rest + [ts[n]];
        assert (rest + [ts[n]])[..|rest|] == rest;
      } else {
        assert RemoveById(ts, id) == rest + [] == rest;
        assert !Visible(ts[n], owner, f);
        assert Matching(ts, owner, f) == Matching(init, owner, f) + [] == Matching(init, owner, f);
      }
    }
  }

  // ---------------------------------------------------------------------------
  // getTaskById, createTask, updateTask, deleteTask

  /** `getTaskById`: 404 when absent, then 403 when owned by someone else. */
  function TaskById(ts: seq<Task>, id: TaskId, caller: UserId): (r: Result<Task>)
    ensures Find(ts, id).None? ==> r == Err(NOT_FOUND)
    ensures Find(ts, id).Some? && Find(ts, id).value.createdBy != caller ==> r == Err(FORBIDDEN)
    ensures r.Ok? <==> Find(ts, id).Some? && Find(ts, id).value.createdBy == caller
    ensures r.Ok? ==> r.value == Find(ts, id).value && r.value.id == id && r.value.createdBy == caller
  {
    var found := Find(ts, id);
    if found.None? then Err(NOT_FOUND)
    else if found.value.createdBy != caller then Err(FORBIDDEN)
    else Ok(found.value)
  }

  /** The guard `!title || title.trim().length === 0`. */
  predicate TitleMissing(title: Option<string>) {
    !Truthy(title) || |Trim(title.value)| == 0
  }

  /** The values `createTask` hands to `Task.create`: the title and description trimmed
      (a falsy description becomes ""), status and priority defaulted to "pending" and
      "low" when falsy, and a falsy due date dropped. */
  function Defaulted(input: NewTask, owner: UserId): (d: Draft)
    requires !TitleMissing(input.title)
    ensures Trim(d.title) == Trim(input.title.value) != ""
    ensures Trim(d.description) == d.description
    ensures d.description == if Truthy(input.description) then Trim(input.description.value) else ""
    ensures d.status == OrElse(input.status, StatusName(DEFAULT_STATUS))
    ensures d.priority == OrElse(input.priority, PriorityName(DEFAULT_PRIORITY))
    ensures d.status in TASK_STATUSES <==> (Truthy(input.status) ==> input.status.value in TASK_STATUSES)
    ensures d.priority in PRIORITY_LEVELS <==> (Truthy(input.priority) ==> input.priority.value in PRIORITY_LEVELS)
    ensures d.dueDate == (if Truthy(input.dueDate) then input.dueDate else None)
    ensures d.createdBy == owner
  {
    TrimIdempotent(input.title.value);
    var description := if Truthy(input.description) then Trim(input.description.value) else "";
    assert Trim(description) == description by {
      if Truthy(input.description) {
        TrimIdempotent(input.description.value);
      } else {
        assert TrimStart("") == "";
      }
    }
    Draft(
      Trim(input.title.value),
      description,
      OrElse(input.status, "pending"),
      OrElse(input.priority, "low"),
      if Truthy(input.dueDate) then input.dueDate else None,
      owner)
  }

  /** `createTask(input, userId)`: the title guard, then the service's defaults, then
      `Task.create`. The collection does not influence the outcome. */
  function CreateOutcome(input: NewTask, owner: UserId, id: TaskId): (r: Result<Task>)
    ensures TitleMissing(input.title) ==> r == Err(EMPTY_TITLE)
    ensures r.Ok? <==>
      && !TitleMissing(input.title) && JsLength(Trim(input.title.value)) <= TITLE_MAX_LENGTH
      && (Truthy(input.description) ==> JsLength(Trim(input.description.value)) <= DESCRIPTION_MAX_LENGTH)
      && (Truthy(input.status) ==> input.status.value in TASK_STATUSES)
      && (Truthy(input.priority) ==> input.priority.value in PRIORITY_LEVELS)
    ensures r.Err? && !TitleMissing(input.title) ==> r.error.status.None?
    ensures r.Ok? ==>
      && WellFormed(r.value) && r.value.id == id && r.value.createdBy == owner
      && r.value.title == Trim(input.title.value)
      && r.value.description == (if Truthy(input.description) then Trim(input.description.value) else "")
      && StatusName(r.value.status) == OrElse(input.status, StatusName(DEFAULT_STATUS))
      && PriorityName(r.value.priority) == OrElse(input.priority, PriorityName(DEFAULT_PRIORITY))
      && r.value.dueDate == (if Truthy(input.dueDate) then input.dueDate else None)
  {
    if TitleMissing(input.title) then Err(EMPTY_TITLE)
    else CreateDocument(Defaulted(input, owner), id)
  }

  /** `updateTask(id, patch, userId)`: 404, then 403, then the update query. */
  function UpdateOutcome(ts: seq<Task>, id: TaskId, patch: Patch, caller: UserId): (r: Result<Task>)
    requires AllWellFormed(ts)
    ensures Find(ts, id).None? ==> r == Err(UPDATE_NOT_FOUND)
    ensures Find(ts, id).Some? && Find(ts, id).value.createdBy != caller ==> r == Err(UPDATE_FORBIDDEN)
    ensures Find(ts, id).Some? && Find(ts, id).value.createdBy == caller ==>
      r == ApplyPatch(Find(ts, id).value, patch)
  {
    var found := Find(ts, id);
    if found.None? then Err(UPDATE_NOT_FOUND)
    else if found.value.createdBy != caller then Err(UPDATE_FORBIDDEN)
    else ApplyPatch(found.value, patch)
  }

  /** `deleteTask(id, userId)`: 404, then 403, then the fixed acknowledgement. */
  function DeleteOutcome(ts: seq<Task>, id: TaskId, caller: UserId): (r: Result<Ack>)
    ensures Find(ts, id).None? ==> r == Err(DELETE_NOT_FOUND)
    ensures Find(ts, id).Some? && Find(ts, id).value.createdBy != caller ==> r == Err(DELETE_FORBIDDEN)
    ensures r.Ok? <==> Find(ts, id).Some? && Find(ts, id).value.createdBy == caller
    ensures r.Ok? ==> r.value == Ack(true, DELETED_MESSAGE)
  {
    var found := Find(ts, id);
    if found.None? then Err(DELETE_NOT_FOUND)
    else if found.value.createdBy != caller then Err(DELETE_FORBIDDEN)
    else Ok(Ack(true, DELETED_MESSAGE))
  }

  /** A task just created is found by its owner, exactly as it was returned. */
  lemma CreateThenFetch(ts: seq<Task>, nextId: nat, input: NewTask, owner: UserId)
    requires DistinctIds(ts) && IdsBelow(ts, nextId)
    requires CreateOutcome(input, owner, TaskId(nextId)).Ok?
    ensures var t := CreateOutcome(input, owner, TaskId(nextId)).value;
      TaskById(ts + [t], t.id, owner) == Ok(t)
  {
    var t := CreateOutcome(input, owner, TaskId(nextId)).value;
    AppendFreshDistinct(ts, nextId, t);
    FindUnique(ts + [t], |ts|);
  }

  /** The defaults of a minimal create: `{ title: "X", priority: "high" }` is stored as a
      pending, high-priority task with an empty description and no due date. */
  lemma MinimalCreateDefaults(owner: UserId, id: TaskId)
    ensures var r := CreateOutcome(NewTask(Some("X"), None, None, Some("high"), None), owner, id);
      r.Ok? && r.value.status == Pending && r.value.priority == High
      && r.value.description == "" && r.value.dueDate.None? && r.value.title == "X"
  {
    var r := CreateOutcome(NewTask(Some("X"), None, None, Some("high"), None), owner, id);
    assert TrimStart("X") == "X";
    assert Trim("X") == "X";
    assert ParsePriority("high") == Some(High);
  }

  /** The title is stored trimmed: padding of white space around a title (such as
      `"  Buy milk  "`) is dropped, whatever else the input holds. */
  lemma TitleStoredTrimmed(pre: string, title: string, post: string, input: NewTask, owner: UserId, id: TaskId)
    requires Blank(pre) && Blank(post) && Unpadded(title) && title != ""
    requires input.title == Some(pre + title + post)
    requires CreateOutcome(input, owner, id).Ok?
    ensures CreateOutcome(input, owner, id).value.title == title
  {
    TrimPadded(pre, title, post);
  }

  /** A whitespace-only title is refused with 400, whatever the other fields say. */
  lemma BlankTitleRejected(input: NewTask, owner: UserId, id: TaskId)
    requires input.title.Some? && Blank(input.title.value)
    ensures CreateOutcome(input, owner, id) == Err(EMPTY_TITLE)
  {
    TrimEmptyIffBlank(input.title.value);
  }

  /** The update query does not protect the owner field: an admissible patch that names
      another owner moves the task, and the former owner is refused from then on. */
  lemma PatchCanReassignOwner(ts: seq<Task>, nextId: nat, k: nat, other: UserId)
    requires Consistent(ts, nextId) && k < |ts| && other != ts[k].createdBy
    ensures var p := Patch(None, None, None, None, None, Some(other));
      var r := UpdateOutcome(ts, ts[k].id, p, ts[k].createdBy);
      && r.Ok? && r.value.createdBy == other
      && TaskById(Replace(ts, r.value), ts[k].id, ts[k].createdBy) == Err(FORBIDDEN)
  {
    FindUnique(ts, k);
    var p := Patch(None, None, None, None, None, Some(other));
    var r := UpdateOutcome(ts, ts[k].id, p, ts[k].createdBy);
    ReplaceAt(ts, k, r.value);
    assert DistinctIds(Replace(ts, r.value));
    FindUnique(Replace(ts, r.value), k);
  }

  /** Ownership isolation, create: a task this caller creates never shows up in another
      user's list. */
  lemma CreateInvisibleToOthers(ts: seq<Task>, caller: UserId, other: UserId, input: NewTask,
                                id: TaskId, o: Option<ListOptions>)
    requires caller != other
    ensures var c := CreateOutcome(input, caller, id);
      c.Ok? ==> ListTasks(ts + [c.value], other, o) == ListTasks(ts, other, o)
  {
    var c := CreateOutcome(input, caller, id);
    if c.Ok? {
      ListIgnoresForeignInsert(ts, c.value, other, o);
    }
  }

  /** Ownership isolation, update: an update this caller makes changes nothing another user
      lists, unless the patch hands the task to that user. */
  lemma UpdateInvisibleToOthers(ts: seq<Task>, caller: UserId, other: UserId, id: TaskId,
                                patch: Patch, o: Option<ListOptions>)
    requires AllWellFormed(ts) && DistinctIds(ts) && caller != other
    ensures var u := UpdateOutcome(ts, id, patch, caller);
      u.Ok? && u.value.createdBy != other ==>
        ListTasks(Replace(ts, u.value), other, o) == ListTasks(ts, other, o)
  {
    var u := UpdateOutcome(ts, id, patch, caller);
    if o.Some? && u.Ok? && u.value.createdBy != other {
      var j :| 0 <= j < |ts| && ts[j] == Find(ts, id).value;
      forall i | 0 <= i < |ts| && ts[i].id == u.value.id ensures ts[i].createdBy != other {
        FindUnique(ts, i);
      }
      MatchingIgnoresForeignReplace(ts, u.value, other, StatusFilter(o.value.status));
    }
  }

  /** Ownership isolation, delete: a delete this caller makes changes nothing another user
      lists. */
  lemma DeleteInvisibleToOthers(ts: seq<Task>, caller: UserId, other: UserId, id: TaskId,
                                o: Option<ListOptions>)
    requires DistinctIds(ts) && caller != other
    ensures DeleteOutcome(ts, id, caller).Ok? ==>
      ListTasks(RemoveById(ts, id), other, o) == ListTasks(ts, other, o)
  {
    if o.Some? && DeleteOutcome(ts, id, caller).Ok? {
      forall i | 0 <= i < |ts| && ts[i].id == id ensures ts[i].createdBy != other {
        FindUnique(ts, i);
      }
      MatchingIgnoresForeignRemove(ts, id, other, StatusFilter(o.value.status));
    }
  }

  // ---------------------------------------------------------------------------
  // The service over the Task collection

  class TaskStore {
    /** The Task collection, in creation order. */
    var tasks: seq<Task>
    /** The id the next created task receives. */
    var nextId: nat

    ghost predicate Valid()
      reads this
    {
      Consistent(tasks, nextId)
    }

    constructor ()
      ensures Valid() && tasks == [] && nextId == 0
    {
      tasks, nextId := [], 0;
    }

    /** `getAllTasks`: builds the filter, counts, computes the page count and the skip,
        then fetches the window. */
    method GetAllTasks(userId: UserId, options: Option<ListOptions>) returns (r: Result<TaskPage>)
      ensures r == ListTasks(tasks, userId, options)
    {
      if options.None? {
        return Err(Error(None, DESTRUCTURE_MESSAGE));
      }
      var page := PageOf(options.value);
      var limit := LimitOf(options.value);
      var status := options.value.status;
      var filterStatus: Option<Status> := None;
      if Truthy(status) && status.value in TASK_STATUSES {
        filterStatus := ParseStatus(status.value);
      }
      var matching := Matching(tasks, userId, filterStatus);
      var totalRecords := |matching|;
      var totalPages := TotalPages(totalRecords, limit);
      if page == 0 {
        return Err(Error(None, NEGATIVE_SKIP_MESSAGE));
      }
      var skipCount := (page - 1) * limit;
      var taskList := Window(NewestFirst(matching), skipCount, limit);
      r := Ok(TaskPage(taskList, page, totalPages, totalRecords));
    }

    method GetTaskById(taskId: TaskId, userId: UserId) returns (r: Result<Task>)
      ensures r == TaskById(tasks, taskId, userId)
    {
      var taskRecord := Find(tasks, taskId);
      if taskRecord.None? {
        return Err(NOT_FOUND);
      }
      if taskRecord.value.createdBy != userId {
        return Err(FORBIDDEN);
      }
      r := Ok(taskRecord.value);
    }

    method CreateTask(input: NewTask, userId: UserId) returns (r: Result<Task>)
      requires Valid()
      modifies this
      ensures Valid()
      ensures r == CreateOutcome(input, userId, TaskId(old(nextId)))
      ensures tasks == if r.Ok? then old(tasks) + [r.value] else old(tasks)
      ensures nextId == if r.Ok? then old(nextId) + 1 else old(nextId)
    {
      var title := input.title;
      if !Truthy(title) || JsLength(Trim(title.value)) == 0 {
        return Err(EMPTY_TITLE);
      }
      r := CreateDocument(Defaulted(input, userId), TaskId(nextId));
      if r.Ok? {
        AppendConsistent(tasks, nextId, r.value);
        tasks := tasks + [r.value];
        nextId := nextId + 1;
      }
    }

    method UpdateTask(taskId: TaskId, fieldsToUpdate: Patch, userId: UserId) returns (r: Result<Task>)
      requires Valid()
      modifies this
      ensures Valid() && nextId == old(nextId)
      ensures r == UpdateOutcome(old(tasks), taskId, fieldsToUpdate, userId)
      ensures tasks == if r.Ok? then Replace(old(tasks), r.value) else old(tasks)
    {
      var existingTask := Find(tasks, taskId);
      if existingTask.None? {
        return Err(UPDATE_NOT_FOUND);
      }
      if existingTask.value.createdBy != userId {
        return Err(UPDATE_FORBIDDEN);
      }
      r := ApplyPatch(existingTask.value, fieldsToUpdate);
      if r.Ok? {
        ReplaceConsistent(tasks, nextId, r.value);
        tasks := Replace(tasks, r.value);
      }
    }

    method DeleteTask(taskId: TaskId, userId: UserId) returns (r: Result<Ack>)
      requires Valid()
      modifies this
      ensures Valid() && nextId == old(nextId)
      ensures r == DeleteOutcome(old(tasks), taskId, userId)
      ensures tasks == if r.Ok? then RemoveById(old(tasks), taskId) else old(tasks)
    {
      var targetTask := Find(tasks, taskId);
      if targetTask.None? {
        return Err(DELETE_NOT_FOUND);
      }
      if targetTask.value.createdBy != userId {
        return Err(DELETE_FORBIDDEN);
      }
      var j :| 0 <= j < |tasks| && tasks[j] == targetTask.value;
      FindUnique(tasks, j);
      RemoveByIdExactlyOne(tasks, j);
      DropConsistent(tasks, nextId, j);
      tasks := RemoveById(tasks, taskId);
      r := Ok(Ack(true, DELETED_MESSAGE));
    }
  }
}
