/** The in-memory variant `backend/server-simple.js`: two module-level tables, `users` and
    `tasks`, two id counters, the `simpleAuth` guard and the handlers that use them. */
module SimpleServer {
  import opened Common
  import opened JsStrings
  import opened JsArrays

  /** A row of `users`; the password is kept as sent and the token is the session. */
  datatype User = User(id: nat, email: string, password: string, name: string, token: string)

  /** A row of `tasks`; neither the title nor the priority is checked beyond what the
      create handler does. */
  datatype Task = Task(id: nat, title: string, priority: string, completed: bool, userId: nat)

  /** A JavaScript truthiness test on a body field: `undefined` and `''` are falsy. */
  predicate Present(v: Option<string>) {
    v.Some? && v.value != []
  }

  const BearerPrefix: string := "Bearer "
  const NoToken: string := "No token provided"
  const BadToken: string := "Invalid token"
  const MissingFields: string := "Email, password, and name are required"
  const ShortTitle: string := "Task title must be at least 3 characters long"
  const DefaultPriority: string := "medium"

  /** `req.headers.authorization?.replace('Bearer ', '')`. */
  function TokenOf(header: Option<string>): Option<string> {
    if header.None? then None else Some(RemoveFirst(header.value, BearerPrefix))
  }

  /** `users.find(u => u.token === token)`. */
  function FindByToken(users: seq<User>, token: string): (r: Option<nat>)
    ensures r.Some? ==> r.value < |users| && users[r.value].token == token
    ensures r.Some? ==> forall j :: 0 <= j < r.value ==> users[j].token != token
    ensures r.None? <==> forall i :: 0 <= i < |users| ==> users[i].token != token
  {
    if users == [] then None
    else if users[0].token == token then Some(0)
    else match FindByToken(users[1..], token)
      case None => None
      case Some(i) => Some(i + 1)
  }

  /** A newly appended user is found by a token no earlier user holds. */
  lemma {:induction false} FindAppendedToken(users: seq<User>, u: User)
    requires forall i :: 0 <= i < |users| ==> users[i].token != u.token
    ensures FindByToken(users + [u], u.token) == Some(|users|)
  {
    var all := users + [u];
    assert all[|users|] == u;
    forall j | 0 <= j < |users| ensures all[j].token != u.token {
      assert all[j] == users[j];
    }
  }

  /** `simpleAuth`: the caller is the first user holding the presented token. */
  function AuthenticateIn(users: seq<User>, header: Option<string>): (r: Result<User>)
    ensures TokenOf(header).None? || TokenOf(header) == Some([]) ==> r == Err(Unauthorized(NoToken))
    ensures r.Ok? ==> r.value in users && Some(r.value.token) == TokenOf(header)
    ensures r.Err? ==> r.failure.Unauthorized?
    ensures TokenOf(header).Some? && TokenOf(header) != Some([]) ==>
      (r.Ok? <==> exists i :: 0 <= i < |users| && Some(users[i].token) == TokenOf(header))
    ensures TokenOf(header).Some? && TokenOf(header) != Some([]) && r.Err? ==> r == Err(Unauthorized(BadToken))
    ensures r.Ok? ==> exists i :: (&& 0 <= i < |users| && r.value == users[i]
                                   && forall j :: 0 <= j < i ==> Some(users[j].token) != TokenOf(header))
  {
    var token := TokenOf(header);
    if token.None? || token.value == [] then Err(Unauthorized(NoToken))
    else match FindByToken(users, token.value)
      case None => Err(Unauthorized(BadToken))
      case Some(i) => Ok(users[i])
  }

  /** Right after signup, presenting the new token as a bearer header authenticates the new
      user, provided no earlier user was handed the same token. */
  lemma AuthenticateNewUser(users: seq<User>, u: User)
    requires u.token != []
    requires forall i :: 0 <= i < |users| ==> users[i].token != u.token
    ensures AuthenticateIn(users + [u], Some(BearerPrefix + u.token)) == Ok(u)
  {
    RemoveFirstOfPrefixed(BearerPrefix, u.token);
    FindAppendedToken(users, u);
  }

  /** `users.find(u => u.email === email && u.password === password)`. */
  function FindByCredentials(users: seq<User>, email: Option<string>, password: Option<string>): (r: Option<nat>)
    ensures r.Some? ==> r.value < |users| && Some(users[r.value].email) == email && Some(users[r.value].password) == password
    ensures r.None? <==> forall i :: 0 <= i < |users| ==> !(Some(users[i].email) == email && Some(users[i].password) == password)
  {
    if users == [] then None
    else if Some(users[0].email) == email && Some(users[0].password) == password then Some(0)
    else match FindByCredentials(users[1..], email, password)
      case None => None
      case Some(i) => Some(i + 1)
  }

  /** `tasks.filter(t => t.userId === req.user.id)`. */
  function OwnedBy(tasks: seq<Task>, userId: nat): (r: seq<Task>)
    ensures |r| <= |tasks|
    ensures forall t :: t in r <==> t in tasks && t.userId == userId
  {
    if tasks == [] then []
    else
      assert tasks == [tasks[0]] + tasks[1..];
      if tasks[0].userId == userId then [tasks[0]] + OwnedBy(tasks[1..], userId) else OwnedBy(tasks[1..], userId)
  }

  predicate Increasing(tasks: seq<Task>) {
    forall i, j :: 0 <= i < j < |tasks| ==> tasks[i].id < tasks[j].id
  }

  /** Filtering keeps the tasks in the order they were created. */
  lemma {:induction false} OwnedByKeepsOrder(tasks: seq<Task>, userId: nat)
    requires Increasing(tasks)
    ensures Increasing(OwnedBy(tasks, userId))
  {
    if tasks != [] {
      var rest := OwnedBy(tasks[1..], userId);
      OwnedByKeepsOrder(tasks[1..], userId);
      if tasks[0].userId == userId {
        HeadBelowRest(tasks, rest);
        var r := [tasks[0]] + rest;
        forall i, j | 0 <= i < j < |r| ensures r[i].id < r[j].id {
          assert r[j] == rest[j - 1];
          if i > 0 { assert r[i] == rest[i - 1]; }
        }
      }
    }
  }

  lemma HeadBelowRest(tasks: seq<Task>, rest: seq<Task>)
    requires Increasing(tasks) && tasks != []
    requires forall t :: t in rest ==> t in tasks[1..]
    ensures forall k :: 0 <= k < |rest| ==> tasks[0].id < rest[k].id
  {
    forall k | 0 <= k < |rest| ensures tasks[0].id < rest[k].id {
      assert rest[k] in tasks[1..];
      var m :| 0 <= m < |tasks| - 1 && tasks[1..][m] == rest[k];
      assert tasks[m + 1] == rest[k];
    }
  }

  /** `tasks.findIndex(t => t.id === taskId && t.userId === req.user.id)`; `None` stands for
      the `NaN` that `parseInt` gives for a non-numeric id, which matches nothing. */
  function OwnedIndex(tasks: seq<Task>, taskId: Option<int>, userId: nat): (r: Option<nat>)
    ensures r.Some? ==> r.value < |tasks| && Some(tasks[r.value].id as int) == taskId && tasks[r.value].userId == userId
    ensures r.Some? ==> forall j :: 0 <= j < r.value ==> !(Some(tasks[j].id as int) == taskId && tasks[j].userId == userId)
    ensures r.None? <==> forall i :: 0 <= i < |tasks| ==> !(Some(tasks[i].id as int) == taskId && tasks[i].userId == userId)
  {
    if tasks == [] then None
    else if Some(tasks[0].id as int) == taskId && tasks[0].userId == userId then Some(0)
    else match OwnedIndex(tasks[1..], taskId, userId)
      case None => None
      case Some(i) => Some(i + 1)
  }

  /** The state after a toggle request: `completed` negated on the one matching task. */
  function Toggled(tasks: seq<Task>, taskId: Option<int>, userId: nat): seq<Task> {
    match OwnedIndex(tasks, taskId, userId)
    case None => tasks
    case Some(i) => tasks[i := tasks[i].(completed := !tasks[i].completed)]
  }

  /** Two toggles of the same task by its owner restore the table. */
  lemma {:induction false} ToggleTwiceRestores(tasks: seq<Task>, taskId: Option<int>, userId: nat)
    ensures Toggled(Toggled(tasks, taskId, userId), taskId, userId) == tasks
  {
    match OwnedIndex(tasks, taskId, userId)
    case None =>
    case Some(i) =>
      var once := tasks[i := tasks[i].(completed := !tasks[i].completed)];
      forall j | 0 <= j < i ensures !(Some(once[j].id as int) == taskId && once[j].userId == userId) {
        assert once[j] == tasks[j];
      }
      assert Some(once[i].id as int) == taskId && once[i].userId == userId;
      assert OwnedIndex(once, taskId, userId) == Some(i);
  }

  /** The state after a delete request: `tasks.splice(taskIndex, 1)`. */
  function Deleted(tasks: seq<Task>, taskId: Option<int>, userId: nat): seq<Task> {
    match OwnedIndex(tasks, taskId, userId)
    case None => tasks
    case Some(i) => Splice(tasks, i)
  }

  /** A delete keeps the remaining tasks in order, and a second delete of the same id finds nothing. */
  lemma {:induction false} DeleteThenNotFound(tasks: seq<Task>, taskId: Option<int>, userId: nat)
    requires Increasing(tasks)
    ensures Increasing(Deleted(tasks, taskId, userId))
    ensures OwnedIndex(Deleted(tasks, taskId, userId), taskId, userId) == None
  {
    match OwnedIndex(tasks, taskId, userId)
    case None =>
    case Some(i) =>
      var r := Splice(tasks, i);
      forall a, b | 0 <= a < b < |r| ensures r[a].id < r[b].id {
        assert r[a] == tasks[if a < i then a else a + 1];
        assert r[b] == tasks[if b < i then b else b + 1];
      }
      forall a | 0 <= a < |r| ensures r[a].id != tasks[i].id {
        assert r[a] == tasks[if a < i then a else a + 1];
      }
  }

  /** A delete only removes: every task left was there before. */
  lemma DeletedOnlyRemoves(tasks: seq<Task>, taskId: Option<int>, userId: nat)
    ensures forall t :: t in Deleted(tasks, taskId, userId) ==> t in tasks
  {
    match OwnedIndex(tasks, taskId, userId)
    case None =>
    case Some(i) =>
      var r := Splice(tasks, i);
      forall t | t in r ensures t in tasks {
        var a :| 0 <= a < |r| && r[a] == t;
        assert r[a] == tasks[if a < i then a else a + 1];
      }
  }

  /** Ids from a counter: strictly increasing, positive and below the counter. */
  predicate IdsBelow(tasks: seq<Task>, next: nat) {
    Increasing(tasks) && forall t :: t in tasks ==> 1 <= t.id < next
  }

  predicate UserIdsBelow(users: seq<User>, next: nat) {
    && (forall i, j :: 0 <= i < j < |users| ==> users[i].id < users[j].id)
    && forall i :: 0 <= i < |users| ==> 1 <= users[i].id < next
  }

  /** No two users share an email (compared exactly, as `===` does). */
  predicate DistinctEmails(users: seq<User>) {
    forall i, j :: 0 <= i < j < |users| ==> users[i].email != users[j].email
  }

  function UserIds(users: seq<User>): set<nat> {
    set u | u in users :: u.id
  }

  lemma UserIdsGrow(users: seq<User>, u: User)
    ensures UserIds(users) <= UserIds(users + [u])
  {
    forall x | x in UserIds(users) ensures x in UserIds(users + [u]) {
      var v :| v in users && v.id == x;
      assert v in users + [u];
    }
  }

  /** Appending a user with the counter's id and an unused email keeps the user-table invariants. */
  lemma AppendUserKeepsTable(users: seq<User>, next: nat, u: User)
    requires UserIdsBelow(users, next) && DistinctEmails(users) && next >= 1
    requires u.id == next
    requires forall i :: 0 <= i < |users| ==> users[i].email != u.email
    ensures UserIdsBelow(users + [u], next + 1) && DistinctEmails(users + [u])
    ensures UserIds(users) <= UserIds(users + [u])
  {
    UserIdsGrow(users, u);
  }

  class Server {
    var users: seq<User>
    var tasks: seq<Task>
    var nextUserId: nat
    var nextTaskId: nat

    /** What every handler keeps true of the tables. */
    ghost predicate Valid()
      reads this
    {
      && nextUserId >= 1 && nextTaskId >= 1
      && UserIdsBelow(users, nextUserId)
      && IdsBelow(tasks, nextTaskId)
      && DistinctEmails(users)
      && forall t :: t in tasks ==> t.userId in UserIds(users)
    }

    constructor ()
      ensures Valid()
      ensures users == [] && tasks == [] && nextUserId == 1 && nextTaskId == 1
    {
      users, tasks := [], [];
      nextUserId, nextTaskId := 1, 1;
    }

    /** `simpleAuth`. */
    function Authenticate(header: Option<string>): (r: Result<User>)
      reads this
      ensures r.Ok? ==> r.value in users
    {
      AuthenticateIn(users, header)
    }

    /** `POST /api/auth/signup`; the token text after `token_` is the caller-supplied `nonce`
        standing for the timestamp and random suffix. */
    method Signup(email: Option<string>, password: Option<string>, name: Option<string>, nonce: string)
      returns (r: Result<User>)
      requires Valid()
      modifies this
      ensures Valid()
      ensures tasks == old(tasks) && nextTaskId == old(nextTaskId)
      ensures !(Present(email) && Present(password) && Present(name)) ==> r == Err(BadRequest(MissingFields))
      ensures Present(email) && Present(password) && Present(name)
              && (exists i :: 0 <= i < |old(users)| && old(users)[i].email == email.value) ==>
        r == Err(BadRequest(DuplicateEmail))
      ensures r.Err? ==> users == old(users) && nextUserId == old(nextUserId)
      ensures (&& Present(email) && Present(password) && Present(name)
               && forall i :: 0 <= i < |old(users)| ==> old(users)[i].email != email.value) ==> r.Ok?
      ensures r.Ok? ==>
        && r.value == User(old(nextUserId), email.value, password.value, name.value, "token_" + nonce)
        && users == old(users) + [r.value]
        && nextUserId == old(nextUserId) + 1
      ensures r.Ok? && (forall i :: 0 <= i < |old(users)| ==> old(users)[i].token != r.value.token) ==>
        Authenticate(Some(BearerPrefix + r.value.token)) == Ok(r.value)
    {
      if !(Present(email) && Present(password) && Present(name)) {
        return Err(BadRequest(MissingFields));
      }
      if exists i :: 0 <= i < |users| && users[i].email == email.value {
        return Err(BadRequest(DuplicateEmail));
      }
      var user := User(nextUserId, email.value, password.value, name.value, "token_" + nonce);
      ghost var before := users;
      users := users + [user];
      nextUserId := nextUserId + 1;
      AppendUserKeepsTable(before, old(nextUserId), user);
      if forall i :: 0 <= i < |before| ==> before[i].token != user.token {
        AuthenticateNewUser(before, user);
      }
      r := Ok(user);
    }

    /** `POST /api/auth/login`: one response for every credential mismatch. */
    function Login(email: Option<string>, password: Option<string>): (r: Result<User>)
      reads this
      ensures r.Ok? <==> exists i :: 0 <= i < |users| && Some(users[i].email) == email && Some(users[i].password) == password
      ensures r.Ok? ==> r.value in users && Some(r.value.email) == email && Some(r.value.password) == password
      ensures r.Err? ==> r == Err(Unauthorized(InvalidCredentials))
    {
      match FindByCredentials(users, email, password)
      case None => Err(Unauthorized(InvalidCredentials))
      case Some(i) => Ok(users[i])
    }

    /** `GET /api/tasks`: the caller's tasks, every one of them, in creation order. */
    function ListTasks(header: Option<string>): (r: Result<seq<Task>>)
      reads this
      requires Valid()
      ensures Authenticate(header).Err? ==> r == Err(Authenticate(header).failure)
      ensures r.Ok? <==> Authenticate(header).Ok?
      ensures r.Ok? ==> forall t :: t in r.value <==> t in tasks && t.userId == Authenticate(header).value.id
      ensures r.Ok? ==> Increasing(r.value)
    {
      match Authenticate(header)
      case Err(f) => Err(f)
      case Ok(user) =>
        OwnedByKeepsOrder(tasks, user.id);
        Ok(OwnedBy(tasks, user.id))
    }

    /** `POST /api/tasks`: the title must be present and at least three characters long. */
    method CreateTask(header: Option<string>, title: Option<string>, priority: Option<string>)
      returns (r: Result<Task>)
      requires Valid()
      modifies this
      ensures Valid()
      ensures users == old(users) && nextUserId == old(nextUserId)
      ensures old(Authenticate(header)).Err? ==> r == Err(old(Authenticate(header)).failure)
      ensures old(Authenticate(header)).Ok? && !(Present(title) && |title.value| >= 3) ==>
        r == Err(BadRequest(ShortTitle))
      ensures r.Err? ==> tasks == old(tasks) && nextTaskId == old(nextTaskId)
      ensures old(Authenticate(header)).Ok? && Present(title) && |title.value| >= 3 ==> r.Ok?
      ensures r.Ok? ==>
        && old(Authenticate(header)).Ok?
        && r.value == Task(old(nextTaskId), title.value,
                           if priority.None? then DefaultPriority else priority.value,
                           false, old(Authenticate(header)).value.id)
        && (forall t :: t in old(tasks) ==> t.id < r.value.id)
        && tasks == old(tasks) + [r.value]
        && nextTaskId == old(nextTaskId) + 1
    {
      var caller := Authenticate(header);
      if caller.Err? {
        return Err(caller.failure);
      }
      if !(Present(title) && |title.value| >= 3) {
        return Err(BadRequest(ShortTitle));
      }
      var task := Task(nextTaskId, title.value, if priority.None? then DefaultPriority else priority.value,
                       false, caller.value.id);
      assert task.userId in UserIds(users);
      tasks := tasks + [task];
      nextTaskId := nextTaskId + 1;
      r := Ok(task);
    }

    /** `PATCH /api/tasks/:id/toggle`. */
    method ToggleTask(header: Option<string>, taskId: Option<int>) returns (r: Result<Task>)
      requires Valid()
      modifies this
      ensures Valid()
      ensures users == old(users) && nextUserId == old(nextUserId) && nextTaskId == old(nextTaskId)
      ensures old(Authenticate(header)).Err? ==> r == Err(old(Authenticate(header)).failure) && tasks == old(tasks)
      ensures old(Authenticate(header)).Ok? ==>
        && tasks == Toggled(old(tasks), taskId, old(Authenticate(header)).value.id)
        && match OwnedIndex(old(tasks), taskId, old(Authenticate(header)).value.id)
           case None => r == Err(NotFound(TaskNotFound))
           case Some(i) => r == Ok(tasks[i]) && r.value.completed == !old(tasks)[i].completed
    {
      var caller := Authenticate(header);
      if caller.Err? {
        return Err(caller.failure);
      }
      match OwnedIndex(tasks, taskId, caller.value.id)
      case None =>
        r := Err(NotFound(TaskNotFound));
      case Some(i) =>
        ghost var before := tasks;
        tasks := tasks[i := tasks[i].(completed := !tasks[i].completed)];
        assert forall t :: t in tasks ==> t in before || t == tasks[i];
        r := Ok(tasks[i]);
    }

    /** `DELETE /api/tasks/:id`. */
    method DeleteTask(header: Option<string>, taskId: Option<int>) returns (r: Result<()>)
      requires Valid()
      modifies this
      ensures Valid()
      ensures users == old(users) && nextUserId == old(nextUserId) && nextTaskId == old(nextTaskId)
      ensures old(Authenticate(header)).Err? ==> r == Err(old(Authenticate(header)).failure) && tasks == old(tasks)
      ensures old(Authenticate(header)).Ok? ==>
        && tasks == Deleted(old(tasks), taskId, old(Authenticate(header)).value.id)
        && (r.Ok? <==> OwnedIndex(old(tasks), taskId, old(Authenticate(header)).value.id).Some?)
        && (r.Err? ==> r == Err(NotFound(TaskNotFound)))
        && OwnedIndex(tasks, taskId, old(Authenticate(header)).value.id) == None
    {
      var caller := Authenticate(header);
      if caller.Err? {
        return Err(caller.failure);
      }
      DeleteThenNotFound(tasks, taskId, caller.value.id);
      DeletedOnlyRemoves(tasks, taskId, caller.value.id);
      match OwnedIndex(tasks, taskId, caller.value.id)
      case None =>
        r := Err(NotFound(TaskNotFound));
      case Some(i) =>
        tasks := Deleted(tasks, taskId, caller.value.id);
        r := Ok(());
    }
  }
}
