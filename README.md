# Task manager backend — a Dafny model

This project models the request-handling core of a small task-manager REST backend
written for Node.js/Express. Users sign up and log in. Each user keeps a private list of
tasks and can create, list, read, update, toggle and delete them. Every single-task
operation is scoped to the authenticated caller.

The backend has two implementations, and both are modelled:

- `backend/server-simple.js` keeps two in-memory tables (`users`, `tasks`) and two id
  counters. It is modelled as the class `SimpleServer.Server`, whose methods append,
  filter, flip and splice those tables.
- The Mongo-backed routes are `backend/routes/tasks.js` and `backend/routes/auth.js`, with
  the schema in `backend/models/Task.js`. They are modelled in five modules:
  - `TaskModel` holds the task document, its validators, defaults and the `status` virtual.
  - `TaskRules` holds the express-validator rule tables.
  - `TaskQuery` holds the list handler: filter, sort, page and pagination fields.
  - `TaskRoutes` holds the scoped single-task operations and the class `TaskStore`.
  - `AuthRoutes` holds the signup and login rule tables and the class `UserTable`.

The small JavaScript behaviours the handlers rely on are written out:

- `JsStrings` models `String.prototype.trim` (the ECMAScript white-space and line-terminator
  set), the `/\d/` test and `replace` of a first occurrence.
- `JsArrays` models `splice(i, 1)`.

Library predicates are passed in as function-typed fields: `isEmail`, `normalizeEmail`,
`isMongoId`, `isISO8601`, the date cast, password hashing and `comparePassword`. The clock is
a parameter, `now`. Signing a token is modelled as its claims,
`Token(userId, expiresIn)`.

Notes on the code's behaviour, which the model follows:

- `server-simple.js` compares emails exactly (`===`), with no case folding.
- `server-simple.js` neither trims titles nor checks the priority against the enum.
- A duplicate signup email is answered with 400 `"User with this email already exists"`,
  not with a conflict status.
- The list handler does not validate `page` or `limit`.
- The list handler accepts any `sortBy` field.
- A `completed` query value is compared with `'true'` rather than validated, so any other
  text filters for unfinished tasks.
- The signup name length is checked before `.trim()`.
- Lengths are counted in characters (see "## Left out" for where this differs).
- A handler's result is the stored record it acts on, not the JSON response body. The
  `server-simple.js` responses put only `id`, `email`, `name` and `createdAt` in the `user`
  object. The modelled `SimpleServer.User` record also holds the `password` and `token`.

## Model

| member | source | states |
|---|---|---|
| JsStrings.TrimIdempotent | backend/models/Task.js:7 | trimming a trimmed string changes nothing, so the schema's trim setter is stable |
| JsStrings.TrimIsInfix | backend/models/Task.js:7 | `trim()` returns a contiguous piece of its input, and everything cut off before and after it is whitespace |
| JsStrings.RemoveFirstRemovesFirst | backend/server-simple.js:34 | `replace` with a string pattern cuts out exactly the first occurrence of the pattern and keeps the rest in order |
| JsStrings.RemoveFirstOfPrefixed | backend/server-simple.js:34 | removing the first `"Bearer "` from `"Bearer " + t` gives back `t` |
| JsArrays.Splice | backend/server-simple.js:227 | `splice(i, 1)` shortens the array by one, shifts later elements down by one and removes exactly one copy of `s[i]` |
| TaskModel.ParsePriority | backend/models/Task.js:25-29 | a priority string is accepted iff it is `low`, `medium` or `high`, and it names the accepted value |
| TaskModel.ParsePriorityName | backend/models/Task.js:27 | every priority's name parses back to that priority |
| TaskModel.SchemaAcceptsIff | backend/models/Task.js:3-32 | the schema accepts a document iff the trimmed title is 3..200 long, a present trimmed description is at most 500 long, and a present priority is in the enum |
| TaskModel.TrimOpt | backend/models/Task.js:20-24 | the description setter keeps presence and yields exactly the trimmed input, which trimming again leaves unchanged |
| TaskModel.NewTask | backend/models/Task.js:3-35 | a save succeeds iff the schema accepts the fields; a saved task is valid, has the given owner and id, a trimmed title and description, `completed` false, and priority `medium` unless one was given |
| TaskModel.StatusAt | backend/models/Task.js:42-46 | status is `completed` iff the task is completed; otherwise it is `overdue` iff a due date exists and now is past it; otherwise it is `pending` |
| TaskModel.OverdueStaysOverdue | backend/models/Task.js:44 | an overdue task is still overdue at any later time |
| TaskModel.NoDueDateNeverOverdue | backend/models/Task.js:44 | a task without a due date is never overdue |
| TaskRules.CreateAcceptsIff | backend/routes/tasks.js:13-30 | the create rules as written pass iff the untrimmed title is 3..200 long and each optional field, when present, is in range |
| TaskRules.UpdateAcceptsIff | backend/routes/tasks.js:32-57 | the update rules pass iff the id is a Mongo id and each field, when present, is valid; `completed` must be a boolean input |
| TaskRules.PaddedTitlePassesRules | backend/routes/tasks.js:14-17 | the title `"  ab"` passes the create rules as written, yet the schema rejects it |
| TaskRules.CreateTrimmedAcceptsIff | backend/routes/tasks.js:13-30 | the corrected create rules pass iff the title as sent is at most 200 long, the trimmed title at least 3 long, and the optional fields are in range |
| TaskRules.TrimmedRulesRefineRules | backend/routes/tasks.js:13-30 | every body the corrected create rules accept is accepted by the rules as written, so no title the original rule refuses is let through |
| TaskRules.NewlyRefusedFailsSchema | backend/routes/tasks.js:68-80 | a body the corrected create rules refuse but the rules as written accept is one the schema rejects on save, so the correction changes only answers that were a 500 |
| TaskRules.TrimmedUpdateRulesRefineRules | backend/routes/tasks.js:32-57 | every update the corrected update rules accept is accepted by the update rules as written |
| TaskRules.TrimmedRulesImplySchema | backend/routes/tasks.js:68-80 | whatever the corrected create rules accept, the schema accepts on save |
| TaskQuery.BuildFilter | backend/routes/tasks.js:104-114 | the query always carries the caller; it has `completed` iff the parameter is given, with value true iff the parameter is `'true'`; it has a priority iff the parameter names one in the enum |
| TaskQuery.Select | backend/routes/tasks.js:120 | `find(query)` returns exactly the stored tasks that match the query, each each exactly as often as it is stored |
| TaskQuery.SortDefaults | backend/routes/tasks.js:102-118 | the default sort key is `createdAt`; the order is ascending iff `sortOrder` is exactly `'asc'` |
| TaskQuery.Insert | backend/routes/tasks.js:121 | inserting into a sorted list keeps it sorted and adds exactly that task |
| TaskQuery.SortBy | backend/routes/tasks.js:121 | `.sort()` yields a permutation of its input, ordered by the key in the requested direction |
| TaskQuery.PageSlice | backend/routes/tasks.js:122-123 | a page holds at most `limit` tasks, namely those starting at position `(page-1)*limit`, and none past the end |
| TaskQuery.PaginationOf | backend/routes/tasks.js:132-138 | `totalPages` is the ceiling of `total/limit`; `hasNextPage` holds iff `page*limit < total`; `hasPrevPage` holds iff `page > 1` |
| TaskQuery.HasNextIffNotLast | backend/routes/tasks.js:134-136 | there is a next page iff the current page is below `totalPages` |
| TaskQuery.PageNonEmptyIff | backend/routes/tasks.js:122-134 | a page holds tasks iff its number is at most `totalPages` |
| TaskQuery.HasNextIffNextPageNonEmpty | backend/routes/tasks.js:120-136 | `hasNextPage` holds iff the following page is non-empty |
| TaskQuery.ListTasks | backend/routes/tasks.js:100-140 | the list holds only the caller's tasks that match the filters, sorted as asked; it holds exactly `min(limit, total - (page-1)*limit)` of them, or none when the skip reaches past the matching total; the page is the window at position `(page-1)*limit` of some sorted arrangement of all matching tasks; pagination is computed from the number of matching tasks |
| TaskRoutes.ScopedIndex | backend/routes/tasks.js:156-159 | the lookup by `{_id, user}` finds the first task with that id and that owner, or reports that none exists |
| TaskRoutes.ForeignTaskIsHidden | backend/routes/tasks.js:156-166 | another user's task is not found, exactly as for an id that does not exist |
| TaskRoutes.DeleteScopedKeepsOthers | backend/routes/tasks.js:230-233 | a scoped delete removes at most the one matched task and keeps every other task |
| TaskRoutes.DeleteScopedThenNotFound | backend/routes/tasks.js:230-241 | after a scoped delete, ids stay unique and the same lookup finds nothing, so a repeated delete answers 404 |
| TaskRoutes.ScopedIndexAfterSet | backend/routes/tasks.js:262-275 | changing a found task without touching its id or owner leaves the lookup pointing at it |
| TaskRoutes.ToggleTwiceRestores | backend/routes/tasks.js:274 | toggling the same task twice restores the stored tasks |
| TaskRoutes.ToggleChangesOnlyCompleted | backend/routes/tasks.js:262-275 | a toggle changes only the `completed` field, and only of the matched task |
| TaskRoutes.AssignErrorsIff | backend/routes/tasks.js:202-208 | saving the updated document passes iff a present title trims to 3..200, a present description trims to at most 500, and a present priority is in the enum |
| TaskRoutes.AssignedValid | backend/routes/tasks.js:202-208 | an updated document that passes validation satisfies every schema constraint |
| TaskRoutes.Assign | backend/routes/tasks.js:201-208 | for a `completed` and `dueDate` that passed their rules, an update assigns exactly the fields that were sent, trimmed where the schema trims; every other field, including the owner, id and creation time, keeps its value; the result is valid or a validation error |
| TaskRoutes.PaddedTitlePassesUpdateRules | backend/routes/tasks.js:36-40 | the title `"  ab"` passes the update rules as written, yet saving the update fails |
| TaskRoutes.TrimmedUpdateRulesImplyAssign | backend/routes/tasks.js:185-208 | whatever the corrected update rules accept, saving accepts |
| TaskRoutes.NewlyRefusedUpdateFailsSave | backend/routes/tasks.js:185-208 | an update the corrected rules refuse but the rules as written accept is one whose `save()` fails, so the correction changes only answers that were a 500 |
| TaskRoutes.EmptyUpdateKeepsTask | backend/routes/tasks.js:202-206 | an update with no fields leaves the task unchanged |
| TaskRoutes.PriorityOnlyUpdate | backend/routes/tasks.js:204 | `{priority: "high"}` changes the priority and nothing else |
| TaskRoutes.TaskStore.Create | backend/routes/tasks.js:68-95 | the rule violations are answered with 400; otherwise exactly one task is appended, owned by the caller (never by a body field), with a fresh id and the schema's defaults |
| TaskRoutes.TaskStore.Get | backend/routes/tasks.js:154-180 | a malformed id is answered with 400; otherwise the result is found iff the caller owns a task with that id, and 404 "Task not found" otherwise |
| TaskRoutes.TaskStore.List | backend/routes/tasks.js:100-140 | the listing returns only the caller's stored tasks, at most `limit` of them |
| TaskRoutes.TaskStore.Update | backend/routes/tasks.js:185-223 | an invalid request is answered with 400; a task the caller does not own is answered with 404; otherwise only that task is replaced by its assigned version |
| TaskRoutes.TaskStore.Delete | backend/routes/tasks.js:228-255 | the store becomes the scoped delete of the old store; the deleted task is returned, or 404; afterwards no task under that key remains |
| TaskRoutes.TaskStore.Toggle | backend/routes/tasks.js:260-290 | the store becomes the scoped toggle of the old store; the returned task has `completed` negated, or the answer is 404 |
| AuthRoutes.SignupAcceptsIff | backend/routes/auth.js:10-24 | signup passes iff the email is valid, the password has at least 6 characters including a digit, and the name has at least 2 characters |
| AuthRoutes.SixLettersLackDigit | backend/routes/auth.js:15-19 | `"abcdef"` is refused only for lacking a digit |
| AuthRoutes.LoginAcceptsIff | backend/routes/auth.js:26-34 | login passes validation iff the email is valid and the password is non-empty |
| AuthRoutes.ExpiryOf | backend/routes/auth.js:41 | the expiry is the configured value when it is non-empty, and `'7d'` otherwise |
| AuthRoutes.Issue | backend/routes/auth.js:37-43 | a token is issued for exactly the given user id, with the configured expiry when it is non-empty and `'7d'` otherwise |
| AuthRoutes.FindByEmail | backend/routes/auth.js:53 | the lookup finds a user with that email, or reports that none has it |
| AuthRoutes.UserTable.Signup | backend/routes/auth.js:48-89 | invalid input is answered with 400; an existing normalized email is answered with 400 "User with this email already exists" and adds nobody; valid input with an unused email succeeds, and then exactly one user is appended, with a fresh id and email, and the token is issued for that user's id |
| AuthRoutes.UserTable.Login | backend/routes/auth.js:94-135 | login succeeds iff some user has the normalized email and the password matches its hash; an unknown email and a wrong password both give 401 "Invalid credentials"; the token names the found user |
| SimpleServer.FindByToken | backend/server-simple.js:39 | the lookup finds the first user holding the token, or reports that none holds it |
| SimpleServer.FindAppendedToken | backend/server-simple.js:78-87 | a newly appended user is found by a token no earlier user holds |
| SimpleServer.AuthenticateIn | backend/server-simple.js:33-46 | a missing or empty token gives 401 "No token provided"; a non-empty token held by no user gives 401 "Invalid token"; otherwise the caller is the first stored user holding that token |
| SimpleServer.AuthenticateNewUser | backend/server-simple.js:34-39 | right after signup, the new user's bearer token authenticates that user |
| SimpleServer.FindByCredentials | backend/server-simple.js:109 | the lookup finds a user with exactly that email and password, or reports that none has both |
| SimpleServer.OwnedBy | backend/server-simple.js:144 | the filter keeps exactly the caller's tasks |
| SimpleServer.OwnedByKeepsOrder | backend/server-simple.js:144 | filtering keeps the tasks in creation order |
| SimpleServer.OwnedIndex | backend/server-simple.js:189-190 | the lookup finds the first task with that id and the caller as owner; a non-numeric id matches nothing |
| SimpleServer.ToggleTwiceRestores | backend/server-simple.js:199 | toggling the same task twice restores the table |
| SimpleServer.DeleteThenNotFound | backend/server-simple.js:217-227 | after a delete the ids stay increasing and the same lookup finds nothing |
| SimpleServer.DeletedOnlyRemoves | backend/server-simple.js:227 | every task left after a delete was there before |
| SimpleServer.AppendUserKeepsTable | backend/server-simple.js:78-87 | appending a user with the counter's id and an unused email keeps ids increasing and below the counter, and emails distinct |
| SimpleServer.Server.constructor | backend/server-simple.js:27-30 | the tables start empty and both counters start at 1 |
| SimpleServer.Server.Authenticate | backend/server-simple.js:33-46 | the authenticated caller is a stored user |
| SimpleServer.Server.Signup | backend/server-simple.js:60-103 | missing fields give 400 and a duplicate email gives 400, each leaving the users and the counter unchanged; a complete request with an unused email succeeds, and then exactly one user is appended with the old counter as id, the counter grows by one, and the new token authenticates that user |
| SimpleServer.Server.Login | backend/server-simple.js:105-131 | login succeeds iff some user has exactly that email and password; otherwise 401 "Invalid credentials" |
| SimpleServer.Server.ListTasks | backend/server-simple.js:143-149 | the listing succeeds iff the caller is authenticated, with the guard's 401 otherwise; it holds exactly the caller's tasks, in creation order |
| SimpleServer.Server.CreateTask | backend/server-simple.js:151-185 | a missing or short title gives 400 and leaves the tasks unchanged; an authenticated request with a title of at least 3 characters succeeds, and then exactly one task is appended, with a fresh id above all others, `completed` false, priority `'medium'` by default, and the caller as owner |
| SimpleServer.Server.ToggleTask | backend/server-simple.js:187-213 | only the caller's task with that id has `completed` flipped; a task the caller does not own gives 404 and changes nothing |
| SimpleServer.Server.DeleteTask | backend/server-simple.js:215-239 | only the caller's task with that id is removed and the rest keep their order; a task the caller does not own gives 404 and changes nothing; afterwards that id is not found |

## Findings

| source | as written | input that shows it | evidently intended | confidence | as-written member | corrected member |
|---|---|---|---|---|---|---|
| backend/routes/tasks.js:14-17 | the create rule checks the title length before `.trim()`, but the schema checks it after trimming | title `"  ab"`: it passes the rule, the schema rejects it, and the catch branch answers 500 "Error creating task" instead of 400 | the rule measures the trimmed title, so every rejected title gets a 400 | not executed | TaskRules.PaddedTitlePassesRules | TaskRules.TrimmedRulesImplySchema |
| backend/routes/tasks.js:36-40 | the update rule checks the title length before `.trim()`, but the schema checks it after trimming | title `"  ab"` on an existing task: it passes the rules, `save()` fails, and the answer is 500 "Error updating task" | the rule measures the trimmed title | not executed | TaskRoutes.PaddedTitlePassesUpdateRules | TaskRoutes.TrimmedUpdateRulesImplyAssign |

`TaskRoutes.TaskStore.Create` and `TaskRoutes.TaskStore.Update` use the corrected rule tables
(`TaskRules.CreateErrorsTrimmed`, `TaskRules.UpdateErrorsTrimmed`). The corrected title rule
measures the lower bound of 3 on the trimmed title and keeps the upper bound of 200 on the title
as sent. A title the original rule refuses is therefore still refused with 400
(`TaskRules.TrimmedRulesRefineRules`, `TaskRules.TrimmedUpdateRulesRefineRules`), and a request
that only the corrected rule refuses is one whose save failed before
(`TaskRules.NewlyRefusedFailsSchema`, `TaskRoutes.NewlyRefusedUpdateFailsSave`): only the padded
short titles that used to end in 500 are now answered with 400. Under the corrected tables the schema's validators never reject the
saved document, so neither method has a 500 branch. This relies on the date cast succeeding
on every text `isISO8601` accepts; see "## Left out".

## Left out

- HTTP transport, Express routing, helmet, cors, rate limiting, body parsing and the Mongo
  connection are not modelled. Each handler is a method or function from its parsed
  inputs to a `Result`.
- The health endpoints are not modelled; they only report process and connection state.
- The `/api/auth/me` handlers are not modelled: each returns the authenticated user
  (`SimpleServer.Server.Authenticate`) unchanged, or for the Mongo routes the user the
  JWT middleware resolved. That middleware is not part of this model.
- JWT signing and verification are not modelled; a token is its claims, `AuthRoutes.Token`.
- bcrypt hashing and `comparePassword` are opaque functions.
- The `User` model and its schema are not part of this model.
- `isEmail`, `normalizeEmail`, `isMongoId` and `isISO8601` are opaque predicates, as is the
  cast of a Mongo id string to a document id.
- The cast of a `dueDate` text to a `Date` (`TaskRules.FormatChecks.toInstant`) is total: the
  model assumes it succeeds on every text `isISO8601` accepts. validator.js also accepts ISO
  week dates such as `2020-W01-1`, which JavaScript's `Date` does not parse. For those,
  Mongoose's cast fails on `save()` and the create and update handlers answer 500. Neither
  that failure nor the 500 answer is modelled, so `TaskRoutes.TaskStore.Create` and
  `TaskRoutes.TaskStore.Update` promise success for such a body.
- The server-simple token text (`Date.now()` and `Math.random()`) is an input, `nonce`.
- In the Mongo model, `createdAt` is an input, `now`. `updatedAt` is not modelled.
- In `server-simple.js`, the `createdAt` of users and tasks and the `updatedAt` of tasks are
  dropped from the records. They are set from the clock and echoed in responses, but no
  decision depends on them.
- Mongo `populate` is not modelled.
- ObjectId generation is modelled as a counter, `nextId`.
- The 500 catch branches for database or runtime failures are not modelled, and neither is
  the `NODE_ENV`-dependent error text. A schema rejection after the route rules pass is one
  catch path that input alone reaches; it is the subject of the findings above. A `dueDate`
  the cast cannot parse is another (see the date-cast line above). Out-of-range `page` or
  `limit` values (a negative skip for `page=0`) are a third, excluded below.
- async/await and concurrent requests are not modelled; every operation runs to completion
  alone.
- `page` and `limit` are naturals, and `TaskQuery.ListTasks` requires both to be at least 1.
  The handler coerces these strings without checking them, and that coercion is not
  modelled.
- Sorting on a field other than `createdAt` uses an abstract rank, standing for Mongo's order
  on that field.
- `TaskQuery.SortBy`: Mongo leaves the order of equal keys unspecified, and the model
  fixes one stable order.
- JSON `null` and non-string values for string fields are not modelled. A field is either
  absent (`None`) or a string, and `completed` is a JSON boolean or a string.
- Lengths are counted in characters. Mongoose's `minlength`/`maxlength` and the
  `title.length < 3` test of `server-simple.js` count UTF-16 code units, so the counts differ
  for characters outside the Basic Multilingual Plane. express-validator's `isLength` counts
  surrogate pairs as one character, but recent validator.js releases also skip the variation
  selectors U+FE0E and U+FE0F, which the model counts.
- `parseInt(req.params.id)` in the `server-simple.js` toggle and delete handlers is not
  modelled. The parsed id is an input, `Option<int>`, with `None` for `NaN`. So the parse of a
  text such as `"12abc"` to 12 is outside the model.
- `SimpleServer.Server.ToggleTask`: the table is updated as a value. The in-place
  mutation of the shared task object, and the aliasing between the response and the table
  entry, are not modelled.
- `TaskRoutes.TaskStore.List` states membership and the page bound only; the full contract
  is on `TaskQuery.ListTasks`, which it returns.
