/** The task document of `backend/models/Task.js`: its fields, the schema's
    setters (trim), defaults and validators, and the derived `status`. */
module TaskModel {
  import opened Common
  import opened JsStrings

  type TaskId = nat
  /** A point in time, in milliseconds. */
  type Instant = int

  datatype Priority = Low | Medium | High

  function PriorityName(p: Priority): string {
    match p
    case Low => "low"
    case Medium => "medium"
    case High => "high"
  }

  /** The schema's `enum: ['low', 'medium', 'high']`: the priority a string names, if any. */
  function ParsePriority(s: string): (p: Option<Priority>)
    ensures p.Some? <==> s == "low" || s == "medium" || s == "high"
    ensures p.Some? ==> PriorityName(p.value) == s
  {
    if s == "low" then Some(Low)
    else if s == "medium" then Some(Medium)
    else if s == "high" then Some(High)
    else None
  }

  lemma ParsePriorityName(p: Priority)
    ensures ParsePriority(PriorityName(p)) == Some(p)
  {
  }

  const TitleMin: nat := 3
  const TitleMax: nat := 200
  const DescriptionMax: nat := 500

  /** A saved task document (`timestamps` keeps `createdAt`; `updatedAt` is not modelled). */
  datatype Task = Task(
    id: TaskId,
    title: string,
    completed: bool,
    user: UserId,
    description: Option<string>,
    priority: Priority,
    dueDate: Option<Instant>,
    createdAt: Instant)

  /** Every constraint the schema puts on a stored task. */
  predicate ValidTask(t: Task) {
    && t.title == Trim(t.title)
    && TitleMin <= |t.title| <= TitleMax
    && (t.description.Some? ==>
          t.description.value == Trim(t.description.value) && |t.description.value| <= DescriptionMax)
  }

  /** The fields a handler hands to the schema, before the setters run. */
  datatype Fields = Fields(
    title: Option<string>,
    description: Option<string>,
    priority: Option<string>,
    dueDate: Option<Instant>)

  /** The `title` validators (required, minlength, maxlength) on the trimmed value. */
  function TitleErrors(title: Option<string>): seq<Violation> {
    if title.None? || Trim(title.value) == [] then [Violation("title", "Task title is required")]
    else if |Trim(title.value)| < TitleMin then [Violation("title", "Task title must be at least 3 characters long")]
    else if |Trim(title.value)| > TitleMax then [Violation("title", "Task title cannot exceed 200 characters")]
    else []
  }

  /** The `description` maxlength validator on the trimmed value. */
  function DescriptionErrors(description: Option<string>): seq<Violation> {
    if description.Some? && |Trim(description.value)| > DescriptionMax
    then [Violation("description", "Description cannot exceed 500 characters")]
    else []
  }

  /** The `priority` enum validator; an absent priority takes the default. */
  function PriorityErrors(priority: Option<string>): seq<Violation> {
    if priority.Some? && ParsePriority(priority.value).None?
    then [Violation("priority", "Priority must be low, medium, or high")]
    else []
  }

  function SchemaErrors(f: Fields): seq<Violation> {
    TitleErrors(f.title) + DescriptionErrors(f.description) + PriorityErrors(f.priority)
  }

  /** The schema accepts the fields exactly when each field's constraint holds after trimming. */
  lemma SchemaAcceptsIff(f: Fields)
    ensures SchemaErrors(f) == [] <==>
      && f.title.Some? && TitleMin <= |Trim(f.title.value)| <= TitleMax
      && (f.description.Some? ==> |Trim(f.description.value)| <= DescriptionMax)
      && (f.priority.Some? ==> ParsePriority(f.priority.value).Some?)
  {
  }

  /** The `trim: true` setter applied to an optional field. */
  function TrimOpt(s: Option<string>): (r: Option<string>)
    ensures r.Some? <==> s.Some?
    ensures r.Some? ==> r.value == Trim(s.value)
    ensures r.Some? ==> Trim(r.value) == r.value && |r.value| <= |s.value|
  {
    match s
    case None => None
    case Some(v) => TrimIdempotent(v); Some(Trim(v))
  }

  /** `new Task({...}).save()`: run the setters, fill the defaults, run the validators. */
  function NewTask(id: TaskId, f: Fields, user: UserId, now: Instant): (r: Result<Task>)
    ensures r.Ok? <==> SchemaErrors(f) == []
    ensures r.Err? ==> r.failure == Invalid(SchemaErrors(f))
    ensures r.Ok? ==> ValidTask(r.value)
    ensures r.Ok? ==>
      && r.value.id == id && r.value.user == user && r.value.createdAt == now
      && r.value.title == Trim(f.title.value)
      && r.value.description == TrimOpt(f.description)
      && r.value.dueDate == f.dueDate
      && !r.value.completed
      && r.value.priority == (if f.priority.None? then Medium else ParsePriority(f.priority.value).value)
  {
    if SchemaErrors(f) != [] then Err(Invalid(SchemaErrors(f)))
    else
      var title := Trim(f.title.value);
      TrimIdempotent(f.title.value);
      var priority := if f.priority.None? then Medium else ParsePriority(f.priority.value).value;
      Ok(Task(id, title, false, user, TrimOpt(f.description), priority, f.dueDate, now))
  }

  datatype Status = Completed | Overdue | Pending

  /** The `status` virtual, evaluated at `now`. */
  function StatusAt(t: Task, now: Instant): (s: Status)
    ensures s == Completed <==> t.completed
    ensures s == Overdue <==> !t.completed && t.dueDate.Some? && now > t.dueDate.value
  {
    if t.completed then Completed
    else if t.dueDate.Some? && now > t.dueDate.value then Overdue
    else Pending
  }

  /** Once overdue, a task stays overdue as time passes, until it is completed. */
  lemma OverdueStaysOverdue(t: Task, now: Instant, later: Instant)
    requires StatusAt(t, now) == Overdue && now <= later
    ensures StatusAt(t, later) == Overdue
  {
  }

  /** A task without a due date is never overdue. */
  lemma NoDueDateNeverOverdue(t: Task, now: Instant)
    requires t.dueDate.None?
    ensures StatusAt(t, now) != Overdue
  {
  }
}
