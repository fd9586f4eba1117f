/** The express-validator rule tables of `backend/routes/tasks.js`
    (`createTaskValidation`, `updateTaskValidation`, `taskIdValidation`). */
module TaskRules {
  import opened Common
  import opened JsStrings
  import opened TaskModel

  /** The library checks the rules call on request text; they are not part of this model. */
  datatype FormatChecks = FormatChecks(
    isMongoId: string -> bool,     // `isMongoId`
    isISO8601: string -> bool,     // `isISO8601`
    toObjectId: string -> TaskId,  // the cast of a well-formed id to a document id
    toInstant: string -> Instant)  // the cast of a well-formed date to a `Date`

  /** A JSON value sent for `completed`: a JSON boolean or a string. */
  datatype BoolInput = JsonBool(b: bool) | JsonText(s: string)

  /** The body fields the task handlers read; `None` is `undefined`. */
  datatype TaskBody = TaskBody(
    title: Option<string>,
    description: Option<string>,
    priority: Option<string>,
    dueDate: Option<string>,
    completed: Option<BoolInput>)

  const EmptyBody: TaskBody := TaskBody(None, None, None, None, None)

  const TitleLength := Violation("title", "Task title must be between 3 and 200 characters")
  const DescriptionLength := Violation("description", "Description cannot exceed 500 characters")
  const PriorityValue := Violation("priority", "Priority must be low, medium, or high")
  const DueDateFormat := Violation("dueDate", "Due date must be a valid date")
  const CompletedValue := Violation("completed", "Completed must be a boolean value")
  const BadTaskId := Violation("id", "Invalid task ID")

  /** `isLength({ min: 3, max: 200 })` on the title as sent, before `.trim()`. */
  function TitleRule(title: Option<string>): seq<Violation> {
    if TitleMin <= |Text(title)| <= TitleMax then [] else [TitleLength]
  }

  function DescriptionRule(description: Option<string>): seq<Violation> {
    if description.Some? && |description.value| > DescriptionMax then [DescriptionLength] else []
  }

  function PriorityRule(priority: Option<string>): seq<Violation> {
    if priority.Some? && ParsePriority(priority.value).None? then [PriorityValue] else []
  }

  function DueDateRule(dueDate: Option<string>, fc: FormatChecks): seq<Violation> {
    if dueDate.Some? && !fc.isISO8601(dueDate.value) then [DueDateFormat] else []
  }

  /** `isBoolean()` in its default (strict) mode. */
  predicate IsBooleanInput(v: BoolInput) {
    match v
    case JsonBool(_) => true
    case JsonText(s) => s == "true" || s == "false" || s == "1" || s == "0"
  }

  /** The boolean the schema's cast makes of an accepted `completed` value. */
  function AsBool(v: BoolInput): bool {
    match v
    case JsonBool(b) => b
    case JsonText(s) => s == "true" || s == "1"
  }

  function CompletedRule(completed: Option<BoolInput>): seq<Violation> {
    if completed.Some? && !IsBooleanInput(completed.value) then [CompletedValue] else []
  }

  function IdRule(id: string, fc: FormatChecks): seq<Violation> {
    if fc.isMongoId(id) then [] else [BadTaskId]
  }

  /** `createTaskValidation`: every failing field is reported, in table order. */
  function CreateErrors(b: TaskBody, fc: FormatChecks): seq<Violation> {
    TitleRule(b.title) + DescriptionRule(b.description) + PriorityRule(b.priority) + DueDateRule(b.dueDate, fc)
  }

  /** `updateTaskValidation`: the id, then the same fields all optional, plus `completed`. */
  function UpdateErrors(id: string, b: TaskBody, fc: FormatChecks): seq<Violation> {
    IdRule(id, fc)
    + (if b.title.Some? then TitleRule(b.title) else [])
    + DescriptionRule(b.description) + PriorityRule(b.priority) + DueDateRule(b.dueDate, fc)
    + CompletedRule(b.completed)
  }

  /** The create rules pass exactly when the title is 3..200 long as sent and the optional
      fields, when present, are in range. */
  lemma CreateAcceptsIff(b: TaskBody, fc: FormatChecks)
    ensures CreateErrors(b, fc) == [] <==>
      && b.title.Some? && TitleMin <= |b.title.value| <= TitleMax
      && (b.description.Some? ==> |b.description.value| <= DescriptionMax)
      && (b.priority.Some? ==> ParsePriority(b.priority.value).Some?)
      && (b.dueDate.Some? ==> fc.isISO8601(b.dueDate.value))
  {
  }

  /** The update rules pass exactly when the id is well formed and every field present is valid;
      an absent field is never checked. */
  lemma UpdateAcceptsIff(id: string, b: TaskBody, fc: FormatChecks)
    ensures UpdateErrors(id, b, fc) == [] <==>
      && fc.isMongoId(id)
      && (b.title.Some? ==> TitleMin <= |b.title.value| <= TitleMax)
      && (b.description.Some? ==> |b.description.value| <= DescriptionMax)
      && (b.priority.Some? ==> ParsePriority(b.priority.value).Some?)
      && (b.dueDate.Some? ==> fc.isISO8601(b.dueDate.value))
      && (b.completed.Some? ==> IsBooleanInput(b.completed.value))
  {
  }

  /** The title as the handler receives it: the validator's `.trim()` has run. */
  function SanitizedTitle(b: TaskBody): Option<string> {
    if b.title.None? then None else Some(Trim(b.title.value))
  }

  function DateOf(dueDate: Option<string>, fc: FormatChecks): Option<Instant> {
    if dueDate.None? then None else Some(fc.toInstant(dueDate.value))
  }

  /** What the create handler passes to `new Task({...})`; `completed` is not read. */
  function CreateFields(b: TaskBody, fc: FormatChecks): Fields {
    Fields(SanitizedTitle(b), b.description, b.priority, DateOf(b.dueDate, fc))
  }

  /** The create rules as written admit a title the schema then rejects: `"  ab"` is four
      characters as sent but two once trimmed. */
  lemma PaddedTitlePassesRules(fc: FormatChecks)
    ensures var b := EmptyBody.(title := Some("  ab"));
      CreateErrors(b, fc) == [] && SchemaErrors(CreateFields(b, fc)) != []
  {
    var b := EmptyBody.(title := Some("  ab"));
    assert TrimStart("  ab") == "ab" by {
      assert "  ab"[1..] == " ab";
      assert " ab"[1..] == "ab";
    }
    assert TrimEnd("ab") == "ab";
    assert |Trim("ab")| == 2;
  }

  /** The title rule with its lower bound measured after `.trim()`, the way the schema measures
      it; the upper bound stays on the title as sent, so no title the rule refused is now accepted. */
  function TrimmedTitleRule(title: Option<string>): seq<Violation> {
    if |Text(title)| <= TitleMax && TitleMin <= |Trim(Text(title))| then [] else [TitleLength]
  }

  function CreateErrorsTrimmed(b: TaskBody, fc: FormatChecks): seq<Violation> {
    TrimmedTitleRule(b.title) + DescriptionRule(b.description) + PriorityRule(b.priority) + DueDateRule(b.dueDate, fc)
  }

  /** `updateTaskValidation` with the same correction for a title that is present. */
  function UpdateErrorsTrimmed(id: string, b: TaskBody, fc: FormatChecks): seq<Violation> {
    IdRule(id, fc)
    + (if b.title.Some? then TrimmedTitleRule(b.title) else [])
    + DescriptionRule(b.description) + PriorityRule(b.priority) + DueDateRule(b.dueDate, fc)
    + CompletedRule(b.completed)
  }

  /** The corrected create rules pass exactly when the trimmed title is 3..200 long. */
  lemma CreateTrimmedAcceptsIff(b: TaskBody, fc: FormatChecks)
    ensures CreateErrorsTrimmed(b, fc) == [] <==>
      && b.title.Some? && |b.title.value| <= TitleMax && TitleMin <= |Trim(b.title.value)|
      && (b.description.Some? ==> |b.description.value| <= DescriptionMax)
      && (b.priority.Some? ==> ParsePriority(b.priority.value).Some?)
      && (b.dueDate.Some? ==> fc.isISO8601(b.dueDate.value))
  {
  }

  /** The corrected create rules refuse everything the rules as written refuse. */
  lemma TrimmedRulesRefineRules(b: TaskBody, fc: FormatChecks)
    ensures CreateErrorsTrimmed(b, fc) == [] ==> CreateErrors(b, fc) == []
  {
    if CreateErrorsTrimmed(b, fc) == [] {
      assert b.title.Some?;
      assert |Trim(b.title.value)| <= |b.title.value|;
    }
  }

  /** Conversely, a body the corrected create rules newly refuse is one the schema rejects on
      save: the correction changes only answers that were a 500. */
  lemma NewlyRefusedFailsSchema(b: TaskBody, fc: FormatChecks)
    requires CreateErrors(b, fc) == [] && CreateErrorsTrimmed(b, fc) != []
    ensures SchemaErrors(CreateFields(b, fc)) != []
  {
    assert b.title.Some?;
    assert TrimmedTitleRule(b.title) != [];
  }

  /** The corrected update rules refuse everything the update rules as written refuse. */
  lemma TrimmedUpdateRulesRefineRules(id: string, b: TaskBody, fc: FormatChecks)
    ensures UpdateErrorsTrimmed(id, b, fc) == [] ==> UpdateErrors(id, b, fc) == []
  {
    if b.title.Some? {
      assert |Trim(b.title.value)| <= |b.title.value|;
    }
  }

  /** With the title measured after trimming, whatever the create rules accept the schema
      accepts too, so saving the new task cannot fail validation. */
  lemma TrimmedRulesImplySchema(b: TaskBody, fc: FormatChecks)
    requires CreateErrorsTrimmed(b, fc) == []
    ensures SchemaErrors(CreateFields(b, fc)) == []
  {
    assert b.title.Some?;
    TrimIdempotent(b.title.value);
    if b.description.Some? {
      assert |Trim(b.description.value)| <= |b.description.value|;
    }
  }
}
