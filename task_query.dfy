/** The list handler `GET /api/tasks` of `backend/routes/tasks.js`: the query it builds,
    the sort, the page it cuts and the pagination fields it reports. */
module TaskQuery {
  import opened Common
  import opened TaskModel

  /** The query string of `GET /api/tasks`; page and limit are taken as numbers. */
  datatype ListParams = ListParams(
    page: Option<nat>,
    limit: Option<nat>,
    completed: Option<string>,
    priority: Option<string>,
    sortBy: Option<string>,
    sortOrder: Option<string>)

  const DefaultPage: nat := 1
  const DefaultLimit: nat := 10

  /** Page and limit, when given, are at least one (the handler does not check this). */
  predicate InRange(p: ListParams) {
    (p.page.Some? ==> p.page.value >= 1) && (p.limit.Some? ==> p.limit.value >= 1)
  }

  function PageOf(p: ListParams): nat {
    if p.page.None? then DefaultPage else p.page.value
  }

  function LimitOf(p: ListParams): nat {
    if p.limit.None? then DefaultLimit else p.limit.value
  }

  /** The Mongo filter `{ user, completed?, priority? }`. */
  datatype Filter = Filter(user: UserId, completed: Option<bool>, priority: Option<Priority>)

  predicate Matches(q: Filter, t: Task) {
    && t.user == q.user
    && (q.completed.Some? ==> t.completed == q.completed.value)
    && (q.priority.Some? ==> t.priority == q.priority.value)
  }

  /** The `query` object: the caller scope is always there; `completed` is compared with `'true'`;
      a priority outside the enum is dropped rather than rejected. */
  function BuildFilter(caller: UserId, p: ListParams): (q: Filter)
    ensures q.user == caller
    ensures q.completed.Some? <==> p.completed.Some?
    ensures q.completed == Some(true) <==> p.completed == Some("true")
    ensures q.priority.Some? <==> p.priority.Some? && ParsePriority(p.priority.value).Some?
    ensures q.priority.Some? ==> PriorityName(q.priority.value) == p.priority.value
  {
    Filter(
      caller,
      if p.completed.None? then None else Some(p.completed.value == "true"),
      if p.priority.None? then None else ParsePriority(p.priority.value))
  }

  /** `Task.find(query)`: the matching tasks, in store order. */
  function Select(ts: seq<Task>, q: Filter): (r: seq<Task>)
    ensures |r| <= |ts|
    ensures forall t :: t in r <==> t in ts && Matches(q, t)
    ensures multiset(r) <= multiset(ts)
    ensures forall t :: multiset(r)[t] == if Matches(q, t) then multiset(ts)[t] else 0
  {
    if ts == [] then []
    else
      assert ts == [ts[0]] + ts[1..];
      if Matches(q, ts[0]) then [ts[0]] + Select(ts[1..], q) else Select(ts[1..], q)
  }

  /** The `sortOptions` object: the sort key and its direction; descending unless `'asc'` is asked for. */
  datatype SortSpec = SortSpec(field: string, ascending: bool)

  function SortSpecOf(p: ListParams): SortSpec {
    SortSpec(if p.sortBy.None? then "createdAt" else p.sortBy.value, p.sortOrder == Some("asc"))
  }

  /** Without sort parameters the list is newest first; any direction other than `'asc'` is descending. */
  lemma SortDefaults(p: ListParams)
    ensures p.sortBy.None? ==> SortSpecOf(p).field == "createdAt"
    ensures SortSpecOf(p).ascending <==> p.sortOrder == Some("asc")
    ensures p.sortOrder == Some("ascending") ==> !SortSpecOf(p).ascending
  {
  }

  /** The order of the field named by `sortBy`: `createdAt` is the record's own, any other field
      is ranked by `rank`, which stands for Mongo's order on that field. */
  function KeyOf(field: string, rank: (string, Task) -> int): Task -> int {
    if field == "createdAt" then (t: Task) => t.createdAt else (t: Task) => rank(field, t)
  }

  predicate InOrder(a: Task, b: Task, key: Task -> int, ascending: bool) {
    if ascending then key(a) <= key(b) else key(a) >= key(b)
  }

  predicate Sorted(ts: seq<Task>, key: Task -> int, ascending: bool) {
    forall i :: 0 <= i < |ts| - 1 ==> InOrder(ts[i], ts[i + 1], key, ascending)
  }

  function Insert(t: Task, ts: seq<Task>, key: Task -> int, ascending: bool): (r: seq<Task>)
    requires Sorted(ts, key, ascending)
    ensures |r| == |ts| + 1
    ensures r[0] == t || (ts != [] && r[0] == ts[0])
    ensures Sorted(r, key, ascending)
    ensures multiset(r) == multiset(ts) + multiset{t}
  {
    if ts == [] || InOrder(t, ts[0], key, ascending) then [t] + ts
    else
      assert ts == [ts[0]] + ts[1..];
      [ts[0]] + Insert(t, ts[1..], key, ascending)
  }

  /** `.sort(sortOptions)`: the same tasks, ordered by the key in the asked direction.
      Mongo leaves the order of equal keys open; this sort keeps store order for them. */
  function SortBy(ts: seq<Task>, key: Task -> int, ascending: bool): (r: seq<Task>)
    ensures Sorted(r, key, ascending)
    ensures multiset(r) == multiset(ts)
    ensures |r| == |ts|
  {
    if ts == [] then []
    else
      assert ts == [ts[0]] + ts[1..];
      Insert(ts[0], SortBy(ts[1..], key, ascending), key, ascending)
  }

  /** `.skip((page - 1) * limit).limit(limit)`: the tasks at positions skip .. skip + limit. */
  function PageSlice(ts: seq<Task>, page: nat, limit: nat): (r: seq<Task>)
    requires page >= 1
    ensures |r| <= limit
    ensures |r| == if (page - 1) * limit >= |ts| then 0 else Min(limit, |ts| - (page - 1) * limit)
    ensures forall k :: 0 <= k < |r| ==> r[k] == ts[(page - 1) * limit + k]
  {
    var skip := (page - 1) * limit;
    if skip >= |ts| then [] else ts[skip..skip + Min(limit, |ts| - skip)]
  }

  function Min(a: int, b: int): int { if a <= b then a else b }

  datatype Pagination = Pagination(
    currentPage: nat,
    totalPages: nat,
    totalTasks: nat,
    hasNextPage: bool,
    hasPrevPage: bool)

  /** The `pagination` object of the response; `totalPages` is `Math.ceil(total / limit)`. */
  function PaginationOf(page: nat, limit: nat, total: nat): (p: Pagination)
    requires page >= 1 && limit >= 1
    ensures p.currentPage == page && p.totalTasks == total
    ensures p.totalPages * limit >= total
    ensures p.totalPages > 0 ==> (p.totalPages - 1) * limit < total
    ensures p.hasNextPage <==> page * limit < total
    ensures p.hasPrevPage <==> page > 1
  {
    var pages := (total + limit - 1) / limit;
    CeilBounds(total, limit);
    Pagination(page, pages, total, page * limit < total, page > 1)
  }

  lemma CeilBounds(total: nat, limit: nat)
    requires limit >= 1
    ensures (total + limit - 1) / limit * limit >= total
    ensures (total + limit - 1) / limit > 0 ==> ((total + limit - 1) / limit - 1) * limit < total
  {
    var n := total + limit - 1;
    var q, m := n / limit, n % limit;
    assert n == q * limit + m && 0 <= m < limit;
    assert q * limit == n - m;
    assert (q - 1) * limit == q * limit - limit;
  }

  lemma MulMonotone(a: int, b: int, c: nat)
    requires a <= b
    ensures a * c <= b * c
  {
    assert b * c - a * c == (b - a) * c;
  }

  /** There is a next page exactly when the current page is not the last one. */
  lemma {:induction false} HasNextIffNotLast(page: nat, limit: nat, total: nat)
    requires page >= 1 && limit >= 1
    ensures PaginationOf(page, limit, total).hasNextPage <==> page < PaginationOf(page, limit, total).totalPages
  {
    var n := PaginationOf(page, limit, total).totalPages;
    if page < n {
      MulMonotone(page, n - 1, limit);
    } else {
      MulMonotone(n, page, limit);
    }
  }

  /** A page holds tasks exactly when its number is at most `totalPages`. */
  lemma {:induction false} PageNonEmptyIff(ts: seq<Task>, page: nat, limit: nat)
    requires page >= 1 && limit >= 1
    ensures PageSlice(ts, page, limit) != [] <==> page <= PaginationOf(page, limit, |ts|).totalPages
  {
    var n := PaginationOf(page, limit, |ts|).totalPages;
    if page <= n {
      MulMonotone(page - 1, n - 1, limit);
    } else {
      MulMonotone(n, page - 1, limit);
    }
  }

  /** `hasNextPage` is true exactly when the following page holds tasks. */
  lemma HasNextIffNextPageNonEmpty(ts: seq<Task>, page: nat, limit: nat)
    requires page >= 1 && limit >= 1
    ensures PaginationOf(page, limit, |ts|).hasNextPage <==> PageSlice(ts, page + 1, limit) != []
  {
    HasNextIffNotLast(page, limit, |ts|);
    PageNonEmptyIff(ts, page + 1, limit);
    assert PaginationOf(page + 1, limit, |ts|).totalPages == PaginationOf(page, limit, |ts|).totalPages;
  }

  datatype TaskList = TaskList(tasks: seq<Task>, pagination: Pagination)

  /** The whole list handler over the stored tasks. */
  function ListTasks(ts: seq<Task>, caller: UserId, p: ListParams, rank: (string, Task) -> int): (r: TaskList)
    requires InRange(p)
    ensures forall t :: t in r.tasks ==> t in ts && t.user == caller
    ensures forall t :: t in r.tasks ==> Matches(BuildFilter(caller, p), t)
    ensures |r.tasks| <= LimitOf(p)
    ensures var total := |Select(ts, BuildFilter(caller, p))|;
      var skip := (PageOf(p) - 1) * LimitOf(p);
      |r.tasks| == if skip >= total then 0 else Min(LimitOf(p), total - skip)
    ensures Sorted(r.tasks, KeyOf(SortSpecOf(p).field, rank), SortSpecOf(p).ascending)
    ensures exists s :: (&& multiset(s) == multiset(Select(ts, BuildFilter(caller, p)))
                         && Sorted(s, KeyOf(SortSpecOf(p).field, rank), SortSpecOf(p).ascending)
                         && r.tasks == PageSlice(s, PageOf(p), LimitOf(p)))
    ensures r.pagination == PaginationOf(PageOf(p), LimitOf(p), |Select(ts, BuildFilter(caller, p))|)
  {
    var q := BuildFilter(caller, p);
    var spec := SortSpecOf(p);
    var key := KeyOf(spec.field, rank);
    var matching := Select(ts, q);
    var sorted := SortBy(matching, key, spec.ascending);
    assert |sorted| == |matching|;
    var page := PageSlice(sorted, PageOf(p), LimitOf(p));
    SliceMembers(matching, sorted, PageOf(p), LimitOf(p));
    SliceSorted(sorted, PageOf(p), LimitOf(p), key, spec.ascending);
    TaskList(page, PaginationOf(PageOf(p), LimitOf(p), |matching|))
  }

  lemma SliceMembers(ts: seq<Task>, sorted: seq<Task>, page: nat, limit: nat)
    requires page >= 1 && multiset(sorted) == multiset(ts)
    ensures forall t :: t in PageSlice(sorted, page, limit) ==> t in ts
  {
    var r := PageSlice(sorted, page, limit);
    forall t | t in r ensures t in ts {
      var k :| 0 <= k < |r| && r[k] == t;
      assert sorted[(page - 1) * limit + k] == t;
      assert t in multiset(sorted);
    }
  }

  lemma SliceSorted(ts: seq<Task>, page: nat, limit: nat, key: Task -> int, ascending: bool)
    requires page >= 1 && Sorted(ts, key, ascending)
    ensures Sorted(PageSlice(ts, page, limit), key, ascending)
  {
    var r := PageSlice(ts, page, limit);
    forall i | 0 <= i < |r| - 1
      ensures InOrder(r[i], r[i + 1], key, ascending)
    {
      assert r[i] == ts[(page - 1) * limit + i];
      assert r[i + 1] == ts[(page - 1) * limit + i + 1];
    }
  }
}
