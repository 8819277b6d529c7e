/** Civil dates, shift windows, and which shift an employee works on a date: the per-employee
    lookup of check-in and check-out, and the set-based query of the end-of-day sweep. */
module Shift {
  import opened Schema

  /** Microseconds since the Unix epoch; days are counted from 1 January 1970 in Jakarta. */
  type Instant = int
  type Day = int
  type ShiftId = nat
  type OutletId = nat

  const DAY: int := 86_400_000_000
  const MINUTE: int := 60_000_000
  /** Asia/Jakarta is UTC+7 all year. */
  const JAKARTA_OFFSET: int := 7 * 3_600_000_000

  function CivilDay(t: Instant): Day {
    (t + JAKARTA_OFFSET) / DAY
  }

  function DayStart(d: Day): Instant {
    d * DAY - JAKARTA_OFFSET
  }

  function CivilDateStart(t: Instant): Instant {
    DayStart(CivilDay(t))
  }

  /** Sunday is 0; day 0 was a Thursday. */
  function Weekday(d: Day): nat {
    (d + 4) % 7
  }

  /** Day 0 began at 17:00 UTC on 31 December 1969 and was a Thursday; the days of the week follow
      one another, Sunday being 0. */
  lemma CalendarAnchors(d: Day)
    ensures DayStart(0) == -25_200_000_000 && DayStart(d + 1) == DayStart(d) + 86_400_000_000
    ensures Weekday(0) == 4 && Weekday(d) < 7 && Weekday(d + 1) == (if Weekday(d) == 6 then 0 else Weekday(d) + 1)
  {}

  lemma DayStartIsMidnight(d: Day, t: Instant)
    ensures DayStart(d) <= t < DayStart(d + 1) <==> CivilDay(t) == d
  {
    var q, r := (t + JAKARTA_OFFSET) / DAY, (t + JAKARTA_OFFSET) % DAY;
    assert t + JAKARTA_OFFSET == q * DAY + r;
  }

  /** Civil midnight is the last one not after t, and is its own civil midnight. */
  lemma CivilDateStartSpec(t: Instant)
    ensures CivilDateStart(t) <= t < CivilDateStart(t) + DAY
    ensures CivilDay(CivilDateStart(t)) == CivilDay(t) && CivilDateStart(CivilDateStart(t)) == CivilDateStart(t)
  {
    DayStartIsMidnight(CivilDay(t), t);
    DayStartIsMidnight(CivilDay(t), CivilDateStart(t));
  }

  /** time.Truncate(24h) rounds to midnight UTC instead: it stays on the civil date exactly from
      07:00 Jakarta time on, and moves to the day before in the first seven hours. */
  lemma TruncateKeepsDateIff(t: Instant)
    ensures CivilDay(t - t % DAY) == CivilDay(t) <==> (t + JAKARTA_OFFSET) % DAY >= JAKARTA_OFFSET
  {
    var u := t / DAY;
    assert t == u * DAY + t % DAY;
    DayStartIsMidnight(u, t - t % DAY);
    DayStartIsMidnight(u, t);
    DayStartIsMidnight(u + 1, t);
    var q, r := (t + JAKARTA_OFFSET) / DAY, (t + JAKARTA_OFFSET) % DAY;
    assert t + JAKARTA_OFFSET == q * DAY + r;
  }

  /** start_time and end_time are times of day. */
  datatype WorkShift = WorkShift(start: int, end: int, deleted: bool)
  {
    predicate Valid() { 0 <= start < DAY && 0 <= end < DAY }
  }

  datatype Window = Window(start: Instant, end: Instant)

  /** An end before the start belongs to the next day. */
  function ResolveShiftWindow(ws: WorkShift, target: Instant): Window {
    var midnight := CivilDateStart(target);
    Window(midnight + ws.start, midnight + ws.end + if ws.end < ws.start then DAY else 0)
  }

  /** Microseconds since midnight on the wall clock in Jakarta. */
  function ClockTime(t: Instant): int {
    (t + 25_200_000_000) % 86_400_000_000
  }

  lemma ClockOnDay(d: Day, c: int)
    requires 0 <= c < DAY
    ensures ClockTime(DayStart(d) + c) == c
  {
    assert DayStart(d) + c + JAKARTA_OFFSET == d * DAY + c;
  }

  /** A window starts at start_time and ends at end_time on the wall clock, on its date and that
      date or the next. */
  lemma WindowIsOnTheClock(ws: WorkShift, target: Instant)
    requires ws.Valid()
    ensures var w := ResolveShiftWindow(ws, target);
      ClockTime(w.start) == ws.start && CivilDay(w.start) == CivilDay(target)
      && ClockTime(w.end) == ws.end && CivilDay(w.end) == CivilDay(target) + (if ws.end < ws.start then 1 else 0)
  {
    var d := CivilDay(target);
    WindowSpec(ws, target, target);
    ClockOnDay(d, ws.start);
    ClockOnDay(if ws.end < ws.start then d + 1 else d, ws.end);
    CalendarAnchors(d);
  }

  /** A window starts on its date, ends less than a day later, lasts as long as the clock runs
      from start to end modulo a day, and is the same for every instant of the date. */
  lemma WindowSpec(ws: WorkShift, target: Instant, other: Instant)
    requires ws.Valid()
    ensures var w := ResolveShiftWindow(ws, target);
      && CivilDay(w.start) == CivilDay(target)
      && w.start <= w.end < w.start + DAY
      && w.end - w.start == (ws.end - ws.start) % DAY
      && CivilDay(w.end) == CivilDay(target) + (if ws.end < ws.start then 1 else 0)
    ensures CivilDay(other) == CivilDay(target) ==> ResolveShiftWindow(ws, other) == ResolveShiftWindow(ws, target)
  {
    var w := ResolveShiftWindow(ws, target);
    var d := CivilDay(target);
    DayStartIsMidnight(d, w.start);
    DayStartIsMidnight(d, w.end);
    DayStartIsMidnight(d + 1, w.end);
  }

  datatype EmployeeShift = EmployeeShift(
    employee: EmployeeId, shift: ShiftId, outlet: OutletId,
    dayOfWeek: Option<nat>, date: Option<Day>, active: bool)

  datatype Schedule = Schedule(rows: seq<EmployeeShift>, shifts: map<ShiftId, WorkShift>)
  {
    /** The xor CHECK, the two partial unique indexes and the foreign key. */
    predicate Valid() {
      && (forall i :: 0 <= i < |rows| ==> rows[i].dayOfWeek.Some? != rows[i].date.Some? && rows[i].shift in shifts)
      && (forall i, j :: 0 <= i < j < |rows| && rows[i].employee == rows[j].employee ==>
            && (rows[i].date.Some? ==> rows[i].date != rows[j].date)
            && (rows[i].dayOfWeek.Some? ==> rows[i].dayOfWeek != rows[j].dayOfWeek))
      && (forall id :: id in shifts ==> shifts[id].Valid())
    }
  }

  predicate IsOverride(r: EmployeeShift, e: EmployeeId, d: Day) {
    r.employee == e && r.active && r.date == Some(d)
  }

  predicate IsWeekly(r: EmployeeShift, e: EmployeeId, d: Day) {
    r.employee == e && r.active && r.dayOfWeek == Some(Weekday(d))
  }

  /** GetEmployeeShiftByEmployeeAndDate and GetEmployeeShiftByEmployeeAndDayOfWeek. */
  function FindRow(rows: seq<EmployeeShift>, matches: EmployeeShift -> bool): (r: Option<EmployeeShift>)
    ensures r.Some? ==> r.value in rows && matches(r.value)
    ensures r.None? ==> forall x :: x in rows ==> !matches(x)
  {
    if rows == [] then None
    else if matches(rows[0]) then Some(rows[0])
    else FindRow(rows[1..], matches)
  }

  /** The assignment that applies: the date's own row if there is one, else the weekday's. */
  function Assignment(s: Schedule, e: EmployeeId, d: Day): Option<EmployeeShift> {
    var own := FindRow(s.rows, r => IsOverride(r, e, d));
    if own.Some? then own else FindRow(s.rows, r => IsWeekly(r, e, d))
  }

  /** The row chosen is active, the employee's own, and for this very date or else, if no active row
      is for the date, for its weekday; none is chosen only when there is no such row. */
  lemma AssignmentSpec(s: Schedule, e: EmployeeId, d: Day)
    ensures match Assignment(s, e, d)
      case Some(r) => r in s.rows && r.employee == e && r.active
        && (r.date == Some(d)
            || (r.dayOfWeek == Some(Weekday(d)) && forall q :: q in s.rows && q.employee == e && q.active ==> q.date != Some(d)))
      case None => forall q :: q in s.rows && q.employee == e && q.active ==> q.date != Some(d) && q.dayOfWeek != Some(Weekday(d))
  {
    var own := FindRow(s.rows, r => IsOverride(r, e, d));
    assert own.None? ==> forall q :: q in s.rows ==> !IsOverride(q, e, d);
    var weekly := FindRow(s.rows, r => IsWeekly(r, e, d));
    assert weekly.None? ==> forall q :: q in s.rows ==> !IsWeekly(q, e, d);
  }

  /** ResolveEmployeeShiftForDate: a date row whose work shift is soft-deleted does not fall back
      to the weekday row. */
  function ResolveEmployeeShift(s: Schedule, e: EmployeeId, d: Day): Option<(EmployeeShift, WorkShift)>
    requires s.Valid()
  {
    var es := Assignment(s, e, d);
    if es.Some? && !s.shifts[es.value.shift].deleted then Some((es.value, s.shifts[es.value.shift])) else None
  }

  // ------------------------------------------------------------------------------------------
  // ListEmployeeShiftsForDate: WHERE, ORDER BY employee_id, (date IS NOT NULL) DESC, DISTINCT ON.

  predicate Selected(r: EmployeeShift, d: Day) {
    r.active && (r.date == Some(d) || (r.date.None? && r.dayOfWeek == Some(Weekday(d))))
  }

  predicate Ordered(a: EmployeeShift, b: EmployeeShift) {
    a.employee < b.employee || (a.employee == b.employee && (a.date.Some? || b.date.None?))
  }

  predicate SortedRows(rows: seq<EmployeeShift>) {
    forall i, j :: 0 <= i < j < |rows| ==> Ordered(rows[i], rows[j])
  }

  /** DISTINCT ON (employee_id): each row whose predecessor belongs to another employee. */
  function DistinctOn(rows: seq<EmployeeShift>): (r: seq<EmployeeShift>) {
    if rows == [] then []
    else
      var front := rows[..|rows| - 1];
      DistinctOn(front) + if front == [] || front[|front| - 1].employee != rows[|rows| - 1].employee then [rows[|rows| - 1]] else []
  }

  /** Any result the database may return: ties of the sort are in no particular order. */
  ghost predicate IsListing(s: Schedule, d: Day, listing: seq<EmployeeShift>) {
    exists sorted: seq<EmployeeShift> ::
      && SortedRows(sorted)
      && (forall r :: r in sorted <==> r in s.rows && Selected(r, d))
      && listing == DistinctOn(sorted)
  }

  /** Row i starts its employee's group. */
  predicate IsHead(rows: seq<EmployeeShift>, i: nat)
    requires i < |rows|
  {
    i == 0 || rows[i - 1].employee != rows[i].employee
  }

  lemma HeadsOfFront(rows: seq<EmployeeShift>, n: nat, i: nat)
    requires i < n <= |rows|
    ensures IsHead(rows[..n], i) <==> IsHead(rows, i)
  {}

  lemma LastIsKeptIffHead(rows: seq<EmployeeShift>)
    requires rows != []
    ensures var n := |rows| - 1; DistinctOn(rows) == DistinctOn(rows[..n]) + if IsHead(rows, n) then [rows[n]] else []
  {}

  /** Every row kept starts its employee's group. */
  lemma {:induction false} KeptIsHead(rows: seq<EmployeeShift>, r: EmployeeShift) returns (i: nat)
    requires r in DistinctOn(rows)
    ensures i < |rows| && rows[i] == r && IsHead(rows, i)
  {
    hide IsHead;
    var n := |rows| - 1;
    LastIsKeptIffHead(rows);
    if r in DistinctOn(rows[..n]) {
      i := KeptIsHead(rows[..n], r);
      HeadsOfFront(rows, n, i);
    } else {
      i := n;
    }
  }

  /** And every row that starts a group is kept. */
  lemma {:induction false} HeadIsKept(rows: seq<EmployeeShift>, i: nat)
    requires i < |rows| && IsHead(rows, i)
    ensures rows[i] in DistinctOn(rows)
  {
    hide IsHead;
    var n := |rows| - 1;
    LastIsKeptIffHead(rows);
    if i < n {
      HeadsOfFront(rows, n, i);
      HeadIsKept(rows[..n], i);
    }
  }

  lemma {:induction false} OnePerEmployee(rows: seq<EmployeeShift>)
    requires SortedRows(rows)
    ensures var d := DistinctOn(rows);
      && (rows != [] ==> d != [] && d[|d| - 1].employee == rows[|rows| - 1].employee)
      && forall i, j :: 0 <= i < j < |d| ==> d[i].employee < d[j].employee
  {
    if |rows| > 1 {
      var n := |rows| - 1;
      OnePerEmployee(rows[..n]);
      assert Ordered(rows[n - 1], rows[n]);
    }
  }

  lemma {:induction false} HeadOf(rows: seq<EmployeeShift>, j: nat) returns (i: nat)
    requires j < |rows|
    ensures i <= j && IsHead(rows, i) && rows[i].employee == rows[j].employee
  {
    if IsHead(rows, j) { i := j; } else { i := HeadOf(rows, j - 1); }
  }

  /** The head of a sorted group precedes the whole group. */
  lemma HeadIsFirst(rows: seq<EmployeeShift>, i: nat, j: nat)
    requires SortedRows(rows) && i < |rows| && j < |rows| && IsHead(rows, i) && rows[i].employee == rows[j].employee
    ensures i == j || Ordered(rows[i], rows[j])
  {}

  predicate ListedAs(listing: seq<EmployeeShift>, e: EmployeeId, r: Option<EmployeeShift>) {
    if r.Some? then r.value in listing && r.value.employee == e
    else forall k :: 0 <= k < |listing| ==> listing[k].employee != e
  }

  lemma UniqueMatch(s: Schedule, e: EmployeeId, d: Day, a: EmployeeShift, b: EmployeeShift)
    requires s.Valid() && a in s.rows && b in s.rows
    requires (IsOverride(a, e, d) && IsOverride(b, e, d)) || (IsWeekly(a, e, d) && IsWeekly(b, e, d))
    ensures a == b
  {
    var i :| 0 <= i < |s.rows| && s.rows[i] == a;
    var j :| 0 <= j < |s.rows| && s.rows[j] == b;
    if i < j {} else if j < i {}
  }

  /** Whatever order ties come in, the listing holds for every employee exactly the row the
      per-employee lookup picks, once. */
  lemma ListingIsAssignment(s: Schedule, d: Day, listing: seq<EmployeeShift>, e: EmployeeId)
    requires s.Valid() && IsListing(s, d, listing)
    ensures ListedAs(listing, e, Assignment(s, e, d))
    ensures forall i, j :: 0 <= i < j < |listing| ==> listing[i].employee != listing[j].employee
    ensures forall k :: 0 <= k < |listing| && listing[k].employee == e ==> Assignment(s, e, d) == Some(listing[k])
  {
    var sorted: seq<EmployeeShift> :|
      SortedRows(sorted) && (forall r :: r in sorted <==> r in s.rows && Selected(r, d)) && listing == DistinctOn(sorted);
    OnePerEmployee(sorted);
    var chosen := Assignment(s, e, d);
    forall k | 0 <= k < |listing| && listing[k].employee == e ensures chosen == Some(listing[k]) {
      assert listing[k] in listing;
      var i := KeptIsHead(sorted, listing[k]);
      forall q | q in sorted && q.employee == e ensures listing[k] == q || Ordered(listing[k], q) {
        var j :| 0 <= j < |sorted| && sorted[j] == q;
        HeadIsFirst(sorted, i, j);
      }
      ListedIsChosen(s, d, sorted, listing[k], e);
    }
    if chosen.Some? {
      assert chosen.value in s.rows && Selected(chosen.value, d);
      var j :| 0 <= j < |sorted| && sorted[j] == chosen.value;
      var i := HeadOf(sorted, j);
      HeadIsKept(sorted, i);
      var k :| 0 <= k < |listing| && listing[k] == sorted[i];
    }
  }

  lemma ListedIsChosen(s: Schedule, d: Day, sorted: seq<EmployeeShift>, r: EmployeeShift, e: EmployeeId)
    requires s.Valid() && r.employee == e && r in s.rows && Selected(r, d)
    requires forall q :: q in sorted <==> q in s.rows && Selected(q, d)
    requires forall q :: q in sorted && q.employee == e ==> r == q || Ordered(r, q)
    ensures Assignment(s, e, d) == Some(r)
  {
    var own := FindRow(s.rows, q => IsOverride(q, e, d));
    if own.Some? {
      assert own.value in sorted;
      assert r.date.Some?;
      UniqueMatch(s, e, d, own.value, r);
    } else {
      var weekly := FindRow(s.rows, q => IsWeekly(q, e, d));
      assert IsWeekly(r, e, d);
      UniqueMatch(s, e, d, weekly.value, r);
    }
  }

  /** The sweep's row and the lookup's answer differ exactly when the row's work shift is
      soft-deleted. */
  lemma ListingAgreesIffLive(s: Schedule, d: Day, listing: seq<EmployeeShift>, k: nat)
    requires s.Valid() && IsListing(s, d, listing) && k < |listing|
    ensures var r := listing[k];
      && r.shift in s.shifts
      && (ResolveEmployeeShift(s, r.employee, d) == Some((r, s.shifts[r.shift])) <==> !s.shifts[r.shift].deleted)
      && (ResolveEmployeeShift(s, r.employee, d).None? <==> s.shifts[r.shift].deleted)
  {
    ListingIsAssignment(s, d, listing, listing[k].employee);
  }
}
