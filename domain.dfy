/** The data model of the task tracker's API (`src/app/types/api.js`): users,
    projects and tasks, their derived flags and labels, task statistics and
    paginated responses. */
module Domain {
  import opened Js
  import Seqs

  type Id = int

  // Task statuses and priorities as the API spells them.
  const Backlog: string := "backlog"
  const Todo: string := "todo"
  const InProgress: string := "in_progress"
  const Done: string := "done"

  const VeryLow: string := "very_low"
  const Low: string := "low"
  const Medium: string := "medium"
  const High: string := "high"
  const Blocker: string := "blocker"

  /** The name shown when a user has neither a first name nor a username. */
  const DefaultUserName: string := "Пользователь"

  /** A user; the names are optional (`null` or `undefined` in the API). */
  datatype User = User(id: Id, username: Option<string>, firstName: Option<string>, lastName: Option<string>)

  /** A project, with the fields the client's logic reads. */
  datatype Project = Project(id: Id, name: string, description: Option<string>)

  /** A task. `dueDate` is a point in time in milliseconds, absent when the API
      sends no due date. */
  datatype Task = Task(
    id: Id,
    title: string,
    description: Option<string>,
    status: string,
    priority: string,
    dueDate: Option<int>)

  // ---------------------------------------------------------------------------
  // User names

  /** `parts.filter(Boolean)` for optional strings. */
  function TruthyValues(parts: seq<Option<string>>): (r: seq<string>)
    ensures forall x :: x in r ==> x != ""
  {
    if parts == [] then []
    else (if Truthy(parts[0]) then [parts[0].value] else []) + TruthyValues(parts[1..])
  }

  /** `parts.join(sep)`. */
  function Join(parts: seq<string>, sep: string): string {
    if parts == [] then "" else if |parts| == 1 then parts[0] else parts[0] + sep + Join(parts[1..], sep)
  }

  lemma JoinPair(parts: seq<string>, sep: string)
    ensures |parts| == 2 ==> Join(parts, sep) == parts[0] + sep + parts[1]
  {
    if |parts| == 2 {
      assert parts[1..] == [parts[1]];
    }
  }

  /** `User.fullName`: the non-empty first and last names joined by one space,
      else the username, else the default name. */
  function FullName(u: User): (r: string)
    ensures r != ""
    ensures Truthy(u.firstName) && Truthy(u.lastName) ==> r == u.firstName.value + " " + u.lastName.value
    ensures Truthy(u.firstName) && !Truthy(u.lastName) ==> r == u.firstName.value
    ensures !Truthy(u.firstName) && Truthy(u.lastName) ==> r == u.lastName.value
    ensures !Truthy(u.firstName) && !Truthy(u.lastName) ==> r == Or(u.username, DefaultUserName)
  {
    var parts := [u.firstName, u.lastName];
    var names := TruthyValues(parts);
    var first := if Truthy(u.firstName) then [u.firstName.value] else [];
    var last := if Truthy(u.lastName) then [u.lastName.value] else [];
    assert names == first + last by {
      assert parts[1..] == [u.lastName] && parts[1..][1..] == [];
      assert TruthyValues(parts[1..]) == last + TruthyValues(parts[1..][1..]);
    }
    assert |names| == 2 ==> names == [u.firstName.value, u.lastName.value];
    JoinPair(names, " ");
    Or(Some(Join(names, " ")), Or(u.username, DefaultUserName))
  }

  /** `User.displayName`: `firstName || username || 'Пользователь'`. */
  function DisplayName(u: User): (r: string)
    ensures r != ""
    ensures Truthy(u.firstName) ==> r == u.firstName.value
    ensures !Truthy(u.firstName) && Truthy(u.username) ==> r == u.username.value
    ensures !Truthy(u.firstName) && !Truthy(u.username) ==> r == DefaultUserName
  {
    Or(u.firstName, Or(u.username, DefaultUserName))
  }

  /** The display name is the full name's first part whenever a first name is set. */
  lemma DisplayNameStartsFullName(u: User)
    requires Truthy(u.firstName)
    ensures FullName(u)[..|DisplayName(u)|] == DisplayName(u)
  {
  }

  // ---------------------------------------------------------------------------
  // Task getters

  /** `Task.isCompleted`. */
  predicate IsCompleted(t: Task) {
    t.status == Done
  }

  /** `Task.isOverdue` at the moment `now` (milliseconds). */
  predicate IsOverdue(t: Task, now: int) {
    if t.dueDate.None? || IsCompleted(t) then false else now > t.dueDate.value
  }

  /** A completed task, or one without a due date, is never overdue. */
  lemma NeverOverdue(t: Task, now: int)
    requires IsCompleted(t) || t.dueDate.None?
    ensures !IsOverdue(t, now)
  {
  }

  /** An open task with a due date becomes overdue once the clock passes it, and
      stays overdue. */
  lemma OverdueIsMonotonic(t: Task, now: int, later: int)
    requires IsOverdue(t, now) && now <= later
    ensures IsOverdue(t, later)
  {
  }

  /** `map[key] || fallback` for a lookup table held in a JavaScript object. */
  function LookupOr(table: map<string, string>, key: string, fallback: string): string {
    Or(if key in table then Some(table[key]) else None, fallback)
  }

  const StatusLabels: map<string, string> :=
    map[Backlog := "Бэклог", Todo := "К выполнению", InProgress := "В работе", Done := "Выполнено"]

  const PriorityLabels: map<string, string> :=
    map[VeryLow := "Очень низкий", Low := "Низкий", Medium := "Средний", High := "Высокий", Blocker := "Блокер"]

  const PriorityTextColors: map<string, string> :=
    map[VeryLow := "text-gray-500", Low := "text-green-500", Medium := "text-yellow-500",
        High := "text-orange-500", Blocker := "text-red-500"]

  const StatusTextColors: map<string, string> :=
    map[Backlog := "text-gray-500", Todo := "text-blue-500", InProgress := "text-yellow-500", Done := "text-green-500"]

  const StatusBadgeColors: map<string, string> :=
    map[Backlog := "bg-gray-100 text-gray-600", Todo := "bg-blue-100 text-blue-600",
        InProgress := "bg-yellow-100 text-yellow-600", Done := "bg-green-100 text-green-600"]

  const PriorityBadgeColors: map<string, string> :=
    map[VeryLow := "bg-gray-100 text-gray-600", Low := "bg-green-100 text-green-600",
        Medium := "bg-yellow-100 text-yellow-600", High := "bg-orange-100 text-orange-600",
        Blocker := "bg-red-100 text-red-600"]

  const DefaultTextColor: string := "text-gray-500"
  const DefaultBadgeColor: string := "bg-gray-100 text-gray-600"

  /** `Task.statusText`: the label of a known status, else the raw status. */
  function StatusText(t: Task): (r: string)
    ensures t.status in StatusLabels ==> r == StatusLabels[t.status] && r != t.status
    ensures t.status !in StatusLabels ==> r == t.status
  {
    LookupOr(StatusLabels, t.status, t.status)
  }

  /** `Task.priorityText`: the label of a known priority, else the raw priority. */
  function PriorityText(t: Task): (r: string)
    ensures t.priority in PriorityLabels ==> r == PriorityLabels[t.priority] && r != t.priority
    ensures t.priority !in PriorityLabels ==> r == t.priority
  {
    LookupOr(PriorityLabels, t.priority, t.priority)
  }

  /** `Task.priorityColor`: a text colour class, grey for an unknown priority. */
  function PriorityColor(t: Task): (r: string)
    ensures t.priority in PriorityTextColors ==> r == PriorityTextColors[t.priority]
    ensures t.priority !in PriorityTextColors ==> r == DefaultTextColor
  {
    LookupOr(PriorityTextColors, t.priority, DefaultTextColor)
  }

  /** `Task.statusColor`: a text colour class, grey for an unknown status. */
  function StatusColor(t: Task): (r: string)
    ensures t.status in StatusTextColors ==> r == StatusTextColors[t.status]
    ensures t.status !in StatusTextColors ==> r == DefaultTextColor
  {
    LookupOr(StatusTextColors, t.status, DefaultTextColor)
  }

  /** `dataUtils.getStatusColor`: badge classes, grey for an unknown status. */
  function BadgeStatusColor(status: string): (r: string)
    ensures status in StatusBadgeColors ==> r == StatusBadgeColors[status]
    ensures status !in StatusBadgeColors ==> r == DefaultBadgeColor
  {
    LookupOr(StatusBadgeColors, status, DefaultBadgeColor)
  }

  /** `dataUtils.getPriorityColor`: badge classes, grey for an unknown priority. */
  function BadgePriorityColor(priority: string): (r: string)
    ensures priority in PriorityBadgeColors ==> r == PriorityBadgeColors[priority]
    ensures priority !in PriorityBadgeColors ==> r == DefaultBadgeColor
  {
    LookupOr(PriorityBadgeColors, priority, DefaultBadgeColor)
  }

  /** Every status and priority the API defines has a label and a colour of its own. */
  lemma KnownValuesAreLabelled()
    ensures StatusLabels.Keys == StatusTextColors.Keys == StatusBadgeColors.Keys
                              == {Backlog, Todo, InProgress, Done}
    ensures PriorityLabels.Keys == PriorityTextColors.Keys == PriorityBadgeColors.Keys
                                == {VeryLow, Low, Medium, High, Blocker}
  {
  }

  // ---------------------------------------------------------------------------
  // ProjectTaskStatistics

  /** The statistics object as the API sends it; any count may be missing. */
  datatype RawStatistics = RawStatistics(
    total: Option<nat>, backlog: Option<nat>, todo: Option<nat>, inProgress: Option<nat>, done: Option<nat>)

  datatype Statistics = Statistics(total: nat, backlog: nat, todo: nat, inProgress: nat, done: nat)

  function ValueOrZero(n: Option<nat>): nat {
    if n.Some? then n.value else 0
  }

  /** The `ProjectTaskStatistics` constructor: every missing count becomes 0. */
  function NewStatistics(data: RawStatistics): (s: Statistics)
    ensures s.total == ValueOrZero(data.total) && s.backlog == ValueOrZero(data.backlog)
    ensures s.todo == ValueOrZero(data.todo) && s.inProgress == ValueOrZero(data.inProgress)
    ensures s.done == ValueOrZero(data.done)
  {
    Statistics(OrNat(data.total, 0), OrNat(data.backlog, 0), OrNat(data.todo, 0),
               OrNat(data.inProgress, 0), OrNat(data.done, 0))
  }

  /** `progressPercentage`: `Math.round(done / total * 100)`, or 0 when there are
      no tasks. Rounding is half-up on the exact quotient. */
  function ProgressPercentage(s: Statistics): (r: int)
    ensures s.total == 0 ==> r == 0
    ensures s.total > 0 ==> 200 * s.done - s.total < 2 * s.total * r <= 200 * s.done + s.total
  {
    if s.total == 0 then 0 else RoundedQuotient(100 * s.done, s.total)
  }

  /** `Math.round(a / b)` for `b > 0`: the integer nearest to `a / b`, halves up. */
  function RoundedQuotient(a: nat, b: nat): (q: nat)
    requires b > 0
    ensures 2 * a - b < 2 * b * q <= 2 * a + b
  {
    var q := (2 * a + b) / (2 * b);
    DivBounds(2 * a + b, 2 * b);
    q
  }

  lemma DivBounds(n: nat, d: nat)
    requires d > 0
    ensures d * (n / d) <= n < d * (n / d) + d
  {
  }

  /** While done tasks do not outnumber all tasks, the percentage lies in 0..100. */
  lemma ProgressWithinBounds(s: Statistics)
    requires s.done <= s.total
    ensures 0 <= ProgressPercentage(s) <= 100
  {
    var r := ProgressPercentage(s);
    if s.total > 0 && r > 100 {
      assert 2 * s.total * r >= 2 * s.total * 101 by { MulMonotonic(2 * s.total, 101, r); }
    }
  }

  lemma MulMonotonic(k: nat, a: int, b: int)
    requires a <= b
    ensures k * a <= k * b
  {
  }

  // ---------------------------------------------------------------------------
  // PaginatedResponse

  /** A page size; the constructor never lets it be 0. */
  type PageSize = n: nat | n > 0 witness 10

  /** A paginated answer as the API sends it; every field may be missing. */
  datatype RawPage<R> = RawPage(items: Option<seq<R>>, total: Option<nat>, page: Option<nat>, perPage: Option<nat>)

  datatype Page<T> = Page(items: seq<T>, total: nat, page: nat, perPage: PageSize)

  /** The `PaginatedResponse` constructor: items converted one by one in order,
      `total` defaulting to 0, `page` to 1 and `perPage` to 10. */
  function NewPage<R, T>(data: RawPage<R>, make: R -> T): (p: Page<T>)
    ensures data.items.None? ==> p.items == []
    ensures data.items.Some? ==>
      |p.items| == |data.items.value| && forall i :: 0 <= i < |p.items| ==> p.items[i] == make(data.items.value[i])
    ensures p.total == ValueOrZero(data.total)
    ensures data.page.Some? && data.page.value != 0 ==> p.page == data.page.value
    ensures data.page.None? || data.page.value == 0 ==> p.page == 1
    ensures data.perPage.None? || data.perPage.value == 0 ==> p.perPage == 10
    ensures data.perPage.Some? && data.perPage.value != 0 ==> p.perPage == data.perPage.value
  {
    var items := if data.items.Some? then Seqs.Map(data.items.value, make) else [];
    Page(items, OrNat(data.total, 0), OrNat(data.page, 1), OrNat(data.perPage, 10))
  }

  /** `Math.ceil(total / perPage)`. */
  function CeilDiv(n: nat, d: PageSize): (r: nat)
    ensures (r - 1) * d < n <= r * d
  {
    var r := (n + d - 1) / d;
    DivBounds(n + d - 1, d);
    r
  }

  /** `PaginatedResponse.totalPages`. */
  function TotalPages<T>(p: Page<T>): (r: nat)
    ensures (r - 1) * p.perPage < p.total <= r * p.perPage
  {
    CeilDiv(p.total, p.perPage)
  }

  /** `PaginatedResponse.hasNextPage`. */
  predicate HasNextPage<T>(p: Page<T>) {
    p.page < TotalPages(p)
  }

  /** `PaginatedResponse.hasPreviousPage`. */
  predicate HasPreviousPage<T>(p: Page<T>) {
    p.page > 1
  }

  /** No pages exactly when there are no items in all. */
  lemma NoPagesIffEmpty<T>(p: Page<T>)
    ensures TotalPages(p) == 0 <==> p.total == 0
  {
    if TotalPages(p) > 0 {
      MulMonotonic(p.perPage, 0, TotalPages(p) - 1);
    }
  }

  /** There is a next page exactly when the pages up to and including this one
      hold fewer items than the total. */
  lemma HasNextPageIff<T>(p: Page<T>)
    ensures HasNextPage(p) <==> p.page * p.perPage < p.total
  {
    var r := TotalPages(p);
    if p.page < r {
      MulMonotonic(p.perPage, p.page, r - 1);
    } else {
      MulMonotonic(p.perPage, r, p.page);
    }
  }

  /** The last page has no next page; a page past the first has a previous one. */
  lemma LastPageHasNoNext<T>(p: Page<T>)
    requires p.page == TotalPages(p)
    ensures !HasNextPage(p)
    ensures p.total > p.perPage ==> HasPreviousPage(p)
  {
    if p.total > p.perPage && p.page <= 1 {
      MulMonotonic(p.perPage, p.page, 1);
    }
  }
}
