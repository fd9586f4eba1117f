/** The single-task handlers of `backend/routes/tasks.js`: create, get, update, delete and
    toggle over the task collection, each single-task operation keyed by `{ _id, user }`. */
module TaskRoutes {
  import opened Common
  import opened JsStrings
  import opened TaskModel
  import opened TaskRules
  import opened TaskQuery
  import opened JsArrays

  /** The scoped key `{ _id: id, user: caller }` matches `t`. */
  predicate Owned(t: Task, id: TaskId, caller: UserId) {
    t.id == id && t.user == caller
  }

  predicate UniqueIds(ts: seq<Task>) {
    forall i, j :: 0 <= i < j < |ts| ==> ts[i].id != ts[j].id
  }

  /** `findOne({ _id, user })`: the first position holding the caller's task with that id. */
  function ScopedIndex(ts: seq<Task>, id: TaskId, caller: UserId): (r: Option<nat>)
    ensures r.Some? ==> r.value < |ts| && Owned(ts[r.value], id, caller)
    ensures r.Some? ==> forall j :: 0 <= j < r.value ==> !Owned(ts[j], id, caller)
    ensures r.None? <==> forall i :: 0 <= i < |ts| ==> !Owned(ts[i], id, caller)
  {
    if ts == [] then None
    else if Owned(ts[0], id, caller) then Some(0)
    else match ScopedIndex(ts[1..], id, caller)
      case None => None
      case Some(i) => Some(i + 1)
  }

  /** A task another user owns is invisible to the caller: the scoped lookup answers exactly
      as it does for an id that exists nowhere. */
  lemma ForeignTaskIsHidden(ts: seq<Task>, i: nat, caller: UserId)
    requires UniqueIds(ts) && i < |ts| && ts[i].user != caller
    ensures ScopedIndex(ts, ts[i].id, caller) == None
  {
  }

  /** The state after `findOneAndDelete({ _id, user })`. */
  function DeleteScoped(ts: seq<Task>, id: TaskId, caller: UserId): seq<Task> {
    match ScopedIndex(ts, id, caller)
    case None => ts
    case Some(i) => Splice(ts, i)
  }

  /** Deleting removes the caller's task with that id and keeps every other task, in order. */
  lemma DeleteScopedKeepsOthers(ts: seq<Task>, id: TaskId, caller: UserId)
    ensures var r := DeleteScoped(ts, id, caller);
      && (forall t :: t in ts && !Owned(t, id, caller) ==> t in r)
      && multiset(r) <= multiset(ts)
      && |r| == (if ScopedIndex(ts, id, caller).None? then |ts| else |ts| - 1)
  {
    match ScopedIndex(ts, id, caller)
    case None =>
    case Some(i) =>
      var r := Splice(ts, i);
      forall t | t in ts && !Owned(t, id, caller) ensures t in r {
        var k :| 0 <= k < |ts| && ts[k] == t;
        if k < i { assert r[k] == t; } else { assert r[k - 1] == t; }
      }
  }

  /** With unique ids, a delete leaves no task under that key, so repeating it answers 404. */
  lemma {:induction false} DeleteScopedThenNotFound(ts: seq<Task>, id: TaskId, caller: UserId)
    requires UniqueIds(ts)
    ensures UniqueIds(DeleteScoped(ts, id, caller))
    ensures ScopedIndex(DeleteScoped(ts, id, caller), id, caller) == None
  {
    match ScopedIndex(ts, id, caller)
    case None =>
    case Some(i) =>
      var r := Splice(ts, i);
      forall a, b | 0 <= a < b < |r| ensures r[a].id != r[b].id {
        var a' := if a < i then a else a + 1;
        var b' := if b < i then b else b + 1;
        assert r[a] == ts[a'] && r[b] == ts[b'];
      }
      forall k | 0 <= k < |r| ensures r[k].id != id {
        var k' := if k < i then k else k + 1;
        assert r[k] == ts[k'];
      }
  }

  function Flip(t: Task): Task {
    t.(completed := !t.completed)
  }

  /** The state after a toggle: `completed` negated on the caller's task with that id. */
  function ToggleScoped(ts: seq<Task>, id: TaskId, caller: UserId): seq<Task> {
    match ScopedIndex(ts, id, caller)
    case None => ts
    case Some(i) => ts[i := Flip(ts[i])]
  }

  /** Changing a task's fields other than its id and owner leaves the scoped lookup where it was. */
  lemma {:induction false} ScopedIndexAfterSet(ts: seq<Task>, i: nat, t: Task, id: TaskId, caller: UserId)
    requires ScopedIndex(ts, id, caller) == Some(i)
    requires t.id == ts[i].id && t.user == ts[i].user
    ensures ScopedIndex(ts[i := t], id, caller) == Some(i)
  {
    var ts' := ts[i := t];
    forall j | 0 <= j < i ensures !Owned(ts'[j], id, caller) {
      assert ts'[j] == ts[j];
    }
    assert Owned(ts'[i], id, caller);
  }

  /** Toggling twice restores the stored tasks. */
  lemma ToggleTwiceRestores(ts: seq<Task>, id: TaskId, caller: UserId)
    ensures ToggleScoped(ToggleScoped(ts, id, caller), id, caller) == ts
  {
    match ScopedIndex(ts, id, caller)
    case None =>
    case Some(i) =>
      ScopedIndexAfterSet(ts, i, Flip(ts[i]), id, caller);
  }

  /** Toggling changes the `completed` flag of one task and nothing else. */
  lemma ToggleChangesOnlyCompleted(ts: seq<Task>, id: TaskId, caller: UserId)
    ensures var r := ToggleScoped(ts, id, caller);
      && |r| == |ts|
      && forall k :: 0 <= k < |ts| ==>
           r[k].(completed := ts[k].completed) == ts[k]
           && (r[k] != ts[k] <==> Some(k) == ScopedIndex(ts, id, caller))
  {
  }

  /** The document after the update handler's `if (field !== undefined)` assignments; a present title was trimmed by
      the rule table and is trimmed again by the schema's setter, which trims a description too. */
  function Assigned(t: Task, b: TaskBody, fc: FormatChecks): Task {
    t.(
      title := if b.title.None? then t.title else Trim(b.title.value),
      description := if b.description.None? then t.description else TrimOpt(b.description),
      priority := if b.priority.None? || ParsePriority(b.priority.value).None? then t.priority
                  else ParsePriority(b.priority.value).value,
      dueDate := if b.dueDate.None? then t.dueDate else Some(fc.toInstant(b.dueDate.value)),
      completed := if b.completed.None? then t.completed else AsBool(b.completed.value))
  }

  /** The validators `save()` runs on the assigned document; a priority outside the enum fails here. */
  function AssignErrors(t: Task, b: TaskBody, fc: FormatChecks): seq<Violation> {
    var u := Assigned(t, b, fc);
    TitleErrors(Some(u.title)) + DescriptionErrors(u.description) + PriorityErrors(b.priority)
  }

  lemma AssignErrorsIff(t: Task, b: TaskBody, fc: FormatChecks)
    requires ValidTask(t)
    ensures AssignErrors(t, b, fc) == [] <==>
      && (b.title.Some? ==> TitleMin <= |Trim(b.title.value)| <= TitleMax)
      && (b.description.Some? ==> |Trim(b.description.value)| <= DescriptionMax)
      && (b.priority.Some? ==> ParsePriority(b.priority.value).Some?)
  {
    if b.title.Some? { TrimIdempotent(b.title.value); }
    if b.description.Some? { TrimIdempotent(b.description.value); }
  }

  lemma AssignedValid(t: Task, b: TaskBody, fc: FormatChecks)
    requires ValidTask(t) && AssignErrors(t, b, fc) == []
    ensures ValidTask(Assigned(t, b, fc))
  {
    if b.title.Some? { TrimIdempotent(b.title.value); }
  }

  /** `save()` after the assignments: the updated task, or the schema's rejection. */
  function Assign(t: Task, b: TaskBody, fc: FormatChecks): (r: Result<Task>)
    requires ValidTask(t)
    requires CompletedRule(b.completed) == [] && DueDateRule(b.dueDate, fc) == []
    ensures r.Ok? <==>
      && (b.title.Some? ==> TitleMin <= |Trim(b.title.value)| <= TitleMax)
      && (b.description.Some? ==> |Trim(b.description.value)| <= DescriptionMax)
      && (b.priority.Some? ==> ParsePriority(b.priority.value).Some?)
    ensures r.Err? ==> r.failure.Invalid?
    ensures r.Ok? ==> ValidTask(r.value)
    ensures r.Ok? ==> r.value.id == t.id && r.value.user == t.user && r.value.createdAt == t.createdAt
    ensures r.Ok? ==>
      && (b.title.None? ==> r.value.title == t.title)
      && (b.description.None? ==> r.value.description == t.description)
      && (b.priority.None? ==> r.value.priority == t.priority)
      && (b.dueDate.None? ==> r.value.dueDate == t.dueDate)
      && (b.completed.None? ==> r.value.completed == t.completed)
    ensures r.Ok? ==>
      && (b.title.Some? ==> r.value.title == Trim(b.title.value))
      && (b.description.Some? ==> r.value.description == Some(Trim(b.description.value)))
      && (b.priority.Some? ==> PriorityName(r.value.priority) == b.priority.value)
      && (b.dueDate.Some? ==> r.value.dueDate == Some(fc.toInstant(b.dueDate.value)))
      && (b.completed.Some? ==> r.value.completed == AsBool(b.completed.value))
  {
    AssignErrorsIff(t, b, fc);
    if AssignErrors(t, b, fc) != [] then Err(Invalid(AssignErrors(t, b, fc)))
    else
      AssignedValid(t, b, fc);
      Ok(Assigned(t, b, fc))
  }

  /** The update rules as written admit a padded title that `save()` then rejects. */
  lemma PaddedTitlePassesUpdateRules(t: Task, id: string, fc: FormatChecks)
    requires ValidTask(t) && fc.isMongoId(id)
    ensures var b := EmptyBody.(title := Some("  ab"));
      UpdateErrors(id, b, fc) == [] && Assign(t, b, fc).Err?
  {
    assert TrimStart("  ab") == "ab" by {
      assert "  ab"[1..] == " ab";
      assert " ab"[1..] == "ab";
    }
    assert TrimEnd("ab") == "ab";
  }

  /** An update the corrected rules newly refuse is one whose `save()` fails: the correction
      changes only answers that were a 500. */
  lemma NewlyRefusedUpdateFailsSave(t: Task, id: string, b: TaskBody, fc: FormatChecks)
    requires ValidTask(t) && UpdateErrors(id, b, fc) == [] && UpdateErrorsTrimmed(id, b, fc) != []
    ensures Assign(t, b, fc).Err?
  {
    assert b.title.Some?;
  }

  /** With the corrected update rules, whatever they accept `save()` accepts. */
  lemma TrimmedUpdateRulesImplyAssign(t: Task, id: string, b: TaskBody, fc: FormatChecks)
    requires ValidTask(t) && UpdateErrorsTrimmed(id, b, fc) == []
    ensures Assign(t, b, fc).Ok?
  {
    if b.description.Some? {
      assert |Trim(b.description.value)| <= |b.description.value|;
    }
  }

  /** An update with no fields leaves the task as it was. */
  lemma EmptyUpdateKeepsTask(t: Task, fc: FormatChecks)
    requires ValidTask(t)
    ensures Assign(t, EmptyBody, fc) == Ok(t)
  {
  }

  /** `{ priority: "high" }` changes the priority and nothing else. */
  lemma PriorityOnlyUpdate(t: Task, fc: FormatChecks)
    requires ValidTask(t)
    ensures Assign(t, EmptyBody.(priority := Some("high")), fc) == Ok(t.(priority := High))
  {
  }

  /** The task collection: every stored document passed the schema and ids are unique.
      Fresh ids come from `nextId`, which stands for ObjectId generation. */
  class TaskStore {
    var tasks: seq<Task>
    var nextId: TaskId

    ghost predicate Valid()
      reads this
    {
      && UniqueIds(tasks)
      && forall i :: 0 <= i < |tasks| ==> ValidTask(tasks[i]) && tasks[i].id < nextId
    }

    constructor ()
      ensures Valid() && tasks == [] && nextId == 0
    {
      tasks := [];
      nextId := 0;
    }

    /** `POST /api/tasks`: the rule table, with the title measured after trimming (see
        `TaskRules.CreateErrorsTrimmed`), then `new Task({...}).save()` with the caller as owner.
        With that rule table the schema never rejects the document. */
    method Create(caller: UserId, b: TaskBody, fc: FormatChecks, now: Instant) returns (r: Result<Task>)
      requires Valid()
      modifies this
      ensures Valid()
      ensures CreateErrorsTrimmed(b, fc) != [] ==>
        r == Err(Invalid(CreateErrorsTrimmed(b, fc))) && tasks == old(tasks) && nextId == old(nextId)
      ensures CreateErrorsTrimmed(b, fc) == [] ==>
        && r == NewTask(old(nextId), CreateFields(b, fc), caller, now)
        && r.Ok? && r.value.user == caller
        && (forall t :: t in old(tasks) ==> t.id != r.value.id)
        && tasks == old(tasks) + [r.value]
        && nextId == old(nextId) + 1
    {
      var errors := CreateErrorsTrimmed(b, fc);
      if errors != [] {
        return Err(Invalid(errors));
      }
      TrimmedRulesImplySchema(b, fc);
      r := NewTask(nextId, CreateFields(b, fc), caller, now);
      tasks := tasks + [r.value];
      nextId := nextId + 1;
    }

    /** `GET /api/tasks/:id`: the caller's task with that id; anyone else's is "not found". */
    function Get(rawId: string, caller: UserId, fc: FormatChecks): (r: Result<Task>)
      reads this
      ensures IdRule(rawId, fc) != [] ==> r == Err(Invalid(IdRule(rawId, fc)))
      ensures IdRule(rawId, fc) == [] ==>
        (r.Ok? <==> exists i :: 0 <= i < |tasks| && Owned(tasks[i], fc.toObjectId(rawId), caller))
      ensures IdRule(rawId, fc) == [] && r.Err? ==> r == Err(NotFound(TaskNotFound))
      ensures r.Ok? ==> r.value in tasks && Owned(r.value, fc.toObjectId(rawId), caller)
    {
      if IdRule(rawId, fc) != [] then Err(Invalid(IdRule(rawId, fc)))
      else match ScopedIndex(tasks, fc.toObjectId(rawId), caller)
        case None => Err(NotFound(TaskNotFound))
        case Some(i) => Ok(tasks[i])
    }

    /** `GET /api/tasks`: the caller's tasks that pass the filters, sorted, one page of them. */
    function List(caller: UserId, p: ListParams, rank: (string, Task) -> int): (r: TaskList)
      reads this
      requires InRange(p)
      ensures forall t :: t in r.tasks ==> t in tasks && t.user == caller
      ensures |r.tasks| <= LimitOf(p)
    {
      ListTasks(tasks, caller, p, rank)
    }

    /** `PUT /api/tasks/:id`: a partial update of the caller's task, under the corrected rule
        table (`TaskRules.UpdateErrorsTrimmed`), so `save()` accepts every update it lets through. */
    method Update(rawId: string, caller: UserId, b: TaskBody, fc: FormatChecks) returns (r: Result<Task>)
      requires Valid()
      modifies this
      ensures Valid() && nextId == old(nextId)
      ensures UpdateErrorsTrimmed(rawId, b, fc) != [] ==> r == Err(Invalid(UpdateErrorsTrimmed(rawId, b, fc)))
      ensures r.Err? ==> tasks == old(tasks)
      ensures UpdateErrorsTrimmed(rawId, b, fc) == [] ==>
        match ScopedIndex(old(tasks), fc.toObjectId(rawId), caller)
        case None => r == Err(NotFound(TaskNotFound))
        case Some(i) => r == Assign(old(tasks)[i], b, fc) && r.Ok? && tasks == old(tasks)[i := r.value]
    {
      var errors := UpdateErrorsTrimmed(rawId, b, fc);
      if errors != [] {
        return Err(Invalid(errors));
      }
      var id := fc.toObjectId(rawId);
      match ScopedIndex(tasks, id, caller)
      case None =>
        r := Err(NotFound(TaskNotFound));
      case Some(i) =>
        TrimmedUpdateRulesImplyAssign(tasks[i], rawId, b, fc);
        r := Assign(tasks[i], b, fc);
        tasks := tasks[i := r.value];
    }

    /** `DELETE /api/tasks/:id`: `findOneAndDelete` on the scoped key. */
    method Delete(rawId: string, caller: UserId, fc: FormatChecks) returns (r: Result<Task>)
      requires Valid()
      modifies this
      ensures Valid() && nextId == old(nextId)
      ensures IdRule(rawId, fc) != [] ==> r == Err(Invalid(IdRule(rawId, fc))) && tasks == old(tasks)
      ensures IdRule(rawId, fc) == [] ==>
        && tasks == DeleteScoped(old(tasks), fc.toObjectId(rawId), caller)
        && match ScopedIndex(old(tasks), fc.toObjectId(rawId), caller)
           case None => r == Err(NotFound(TaskNotFound))
           case Some(i) => r == Ok(old(tasks)[i])
      ensures IdRule(rawId, fc) == [] ==> ScopedIndex(tasks, fc.toObjectId(rawId), caller) == None
    {
      if IdRule(rawId, fc) != [] {
        return Err(Invalid(IdRule(rawId, fc)));
      }
      var id := fc.toObjectId(rawId);
      DeleteScopedKeepsOthers(tasks, id, caller);
      DeleteScopedThenNotFound(tasks, id, caller);
      match ScopedIndex(tasks, id, caller)
      case None =>
        r := Err(NotFound(TaskNotFound));
      case Some(i) =>
        r := Ok(tasks[i]);
        tasks := DeleteScoped(tasks, id, caller);
        assert forall t :: t in tasks ==> t in old(tasks) by {
          assert forall t :: t in tasks ==> t in multiset(old(tasks));
        }
    }

    /** `PATCH /api/tasks/:id/toggle`: negates `completed` on the caller's task. */
    method Toggle(rawId: string, caller: UserId, fc: FormatChecks) returns (r: Result<Task>)
      requires Valid()
      modifies this
      ensures Valid() && nextId == old(nextId)
      ensures IdRule(rawId, fc) != [] ==> r == Err(Invalid(IdRule(rawId, fc))) && tasks == old(tasks)
      ensures IdRule(rawId, fc) == [] ==>
        && tasks == ToggleScoped(old(tasks), fc.toObjectId(rawId), caller)
        && match ScopedIndex(old(tasks), fc.toObjectId(rawId), caller)
           case None => r == Err(NotFound(TaskNotFound))
           case Some(i) => r == Ok(tasks[i]) && r.value.completed == !old(tasks)[i].completed
    {
      if IdRule(rawId, fc) != [] {
        return Err(Invalid(IdRule(rawId, fc)));
      }
      var id := fc.toObjectId(rawId);
      match ScopedIndex(tasks, id, caller)
      case None =>
        r := Err(NotFound(TaskNotFound));
      case Some(i) =>
        tasks := tasks[i := Flip(tasks[i])];
        r := Ok(tasks[i]);
    }
  }
}
