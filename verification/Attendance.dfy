/** Check-in, check-out and the end-of-day sweep over the attendances table, under a fixed
    schedule. */
module Attendance {
  import opened Schema
  import opened Shift

  const CHECKIN_TOLERANCE: int := 15 * MINUTE

  datatype AttendanceStatus = OnTime | Late | Absent

  datatype Row = Row(
    outlet: OutletId, checkIn: Option<Instant>, checkOut: Option<Instant>,
    lateMinutes: Option<int>, status: AttendanceStatus)

  /** The unique index on (employee_id, date) is the key. */
  datatype Key = Key(employee: EmployeeId, day: Day)

  type Table = map<Key, Row>

  /** Conversion to int32 of a duration in minutes truncates toward zero. */
  function WholeMinutes(d: int): int {
    if d >= 0 then d / MINUTE else -((-d) / MINUTE)
  }

  lemma MinutesAreWhole(d: int)
    ensures d >= 0 ==> 60_000_000 * WholeMinutes(d) <= d < 60_000_000 * (WholeMinutes(d) + 1)
    ensures WholeMinutes(-d) == -WholeMinutes(d)
  {}

  function CheckedIn(outlet: OutletId, now: Instant, w: Window, threshold: int): Row {
    var late := WholeMinutes(now - w.start);
    Row(outlet, Some(now), None, Some(if late < 0 then 0 else late), if late > threshold then Late else OnTime)
  }

  function AbsentRow(outlet: OutletId): Row {
    Row(outlet, None, None, None, Absent)
  }

  predicate IsOpen(r: Row) {
    r.checkIn.Some? && r.checkOut.None?
  }

  /** The date's window for an employee whose assignment has a live work shift. */
  function WindowOn(s: Schedule, e: EmployeeId, d: Day): Option<Window>
    requires s.Valid()
  {
    var es := ResolveEmployeeShift(s, e, d);
    if es.Some? then Some(ResolveShiftWindow(es.value.1, DayStart(d))) else None
  }

  /** Each statement that changes the table; the two of the sweep may run apart from the reads
      that chose them. */
  datatype Event =
    | CheckIn(employee: EmployeeId, outlet: OutletId, now: Instant)
    | CheckOut(employee: EmployeeId, now: Instant)
    | MarkAbsent(employee: EmployeeId, day: Day)
    | AutoCheckOut(employee: EmployeeId, day: Day)

  function Apply(s: Schedule, threshold: int, t: Table, ev: Event): Table
    requires s.Valid()
  {
    match ev
    case CheckIn(e, outlet, now) =>
      var k := Key(e, CivilDay(now));
      var w := WindowOn(s, e, k.day);
      if w.Some? && w.value.start - CHECKIN_TOLERANCE <= now <= w.value.end && k !in t
      then t[k := CheckedIn(outlet, now, w.value, threshold)] else t
    case CheckOut(e, now) =>
      var k := Key(e, CivilDay(now));
      var w := WindowOn(s, e, k.day);
      if w.Some? && w.value.end <= now && k in t && IsOpen(t[k]) then t[k := t[k].(checkOut := Some(now))] else t
    case MarkAbsent(e, d) =>
      var k := Key(e, d);
      var es := Assignment(s, e, d);
      if es.Some? && k !in t then t[k := AbsentRow(es.value.outlet)] else t
    case AutoCheckOut(e, d) =>
      var k := Key(e, d);
      var w := WindowOn(s, e, d);
      if w.Some? && k in t && IsOpen(t[k]) then t[k := t[k].(checkOut := Some(w.value.end))] else t
  }

  // ------------------------------------------------------------------------------------------
  // Runs.

  /** A row agrees with its window; nobody has checked in later than the clock shows. */
  predicate RowSound(s: Schedule, threshold: int, k: Key, r: Row, clock: Instant)
    requires s.Valid()
  {
    if r.checkIn.None? then r.checkOut.None? && r.lateMinutes.None? && r.status == Absent
    else
      var i, w := r.checkIn.value, WindowOn(s, k.employee, k.day);
      && i <= clock
      && CivilDay(i) == k.day
      && w.Some?
      && w.value.start - CHECKIN_TOLERANCE <= i <= w.value.end
      && r.lateMinutes == Some(if WholeMinutes(i - w.value.start) < 0 then 0 else WholeMinutes(i - w.value.start))
      && r.status == (if WholeMinutes(i - w.value.start) > threshold then Late else OnTime)
      && (r.checkOut.Some? ==> i <= r.checkOut.value && w.value.end <= r.checkOut.value)
  }

  predicate TableSound(s: Schedule, threshold: int, t: Table, clock: Instant)
    requires s.Valid()
  {
    forall k :: k in t ==> RowSound(s, threshold, k, t[k], clock)
  }

  /** Rows are never dropped; a check-in stands, and so does the first check-out. */
  predicate RowKept(r: Row, r': Row) {
    && r'.outlet == r.outlet && r'.checkIn == r.checkIn && r'.lateMinutes == r.lateMinutes && r'.status == r.status
    && (r.checkOut.Some? ==> r'.checkOut == r.checkOut)
  }

  predicate TableKept(t: Table, t': Table) {
    forall k :: k in t ==> k in t' && RowKept(t[k], t'[k])
  }

  function ClockAfter(clock: Instant, ev: Event): Instant {
    match ev
    case CheckIn(_, _, now) => now
    case CheckOut(_, now) => now
    case _ => clock
  }

  lemma ApplyKeepsRow(s: Schedule, threshold: int, t: Table, ev: Event, clock: Instant, k: Key)
    requires s.Valid() && clock <= ClockAfter(clock, ev)
    requires k in t ==> RowSound(s, threshold, k, t[k], clock)
    ensures k in t ==> k in Apply(s, threshold, t, ev) && RowKept(t[k], Apply(s, threshold, t, ev)[k])
    ensures k in Apply(s, threshold, t, ev) ==> RowSound(s, threshold, k, Apply(s, threshold, t, ev)[k], ClockAfter(clock, ev))
  {
    if k !in t && ev.CheckIn? && k in Apply(s, threshold, t, ev) {
      CheckedInIsSound(s, threshold, k, ev.outlet, ev.now);
    }
    hide WindowOn, CivilDay, CheckedIn, WholeMinutes, Assignment;
  }

  lemma ApplyKeepsTable(s: Schedule, threshold: int, t: Table, ev: Event, clock: Instant)
    requires s.Valid() && TableSound(s, threshold, t, clock) && clock <= ClockAfter(clock, ev)
    ensures TableSound(s, threshold, Apply(s, threshold, t, ev), ClockAfter(clock, ev))
    ensures TableKept(t, Apply(s, threshold, t, ev))
  {
    hide Apply, RowSound, RowKept;
    forall k: Key
      ensures k in t ==> k in Apply(s, threshold, t, ev) && RowKept(t[k], Apply(s, threshold, t, ev)[k])
      ensures k in Apply(s, threshold, t, ev) ==> RowSound(s, threshold, k, Apply(s, threshold, t, ev)[k], ClockAfter(clock, ev))
    {
      ApplyKeepsRow(s, threshold, t, ev, clock, k);
    }
  }

  lemma CheckedInIsSound(s: Schedule, threshold: int, k: Key, outlet: OutletId, now: Instant)
    requires s.Valid() && CivilDay(now) == k.day && WindowOn(s, k.employee, k.day).Some?
    requires var w := WindowOn(s, k.employee, k.day).value; w.start - CHECKIN_TOLERANCE <= now <= w.end
    ensures RowSound(s, threshold, k, CheckedIn(outlet, now, WindowOn(s, k.employee, k.day).value, threshold), now)
  {}

  ghost predicate IsRun(s: Schedule, threshold: int, tables: seq<Table>, events: seq<Event>, clocks: seq<Instant>)
    requires s.Valid()
  {
    && |tables| == |clocks| == |events| + 1
    && tables[0] == map[]
    && forall i :: 0 <= i < |events| ==>
         && tables[i + 1] == Apply(s, threshold, tables[i], events[i])
         && clocks[i] <= clocks[i + 1] == ClockAfter(clocks[i], events[i])
  }

  /** Over every run of check-ins, check-outs and sweep statements on a monotone clock, rows agree
      with their windows, no check-out precedes its check-in, and what a row says stays said. */
  lemma {:induction false} EveryRowIsSound(s: Schedule, threshold: int, tables: seq<Table>, events: seq<Event>, clocks: seq<Instant>, i: nat, j: nat)
    requires s.Valid() && IsRun(s, threshold, tables, events, clocks) && i <= j < |tables|
    ensures TableSound(s, threshold, tables[j], clocks[j]) && TableKept(tables[i], tables[j])
    decreases j
  {
    if j > 0 {
      EveryRowIsSound(s, threshold, tables, events, clocks, if i < j then i else j - 1, j - 1);
      var p := j - 1;
      assert tables[p + 1] == Apply(s, threshold, tables[p], events[p]) && clocks[p] <= clocks[p + 1] == ClockAfter(clocks[p], events[p]);
      hide Apply, TableSound;
      ApplyKeepsTable(s, threshold, tables[j - 1], events[j - 1], clocks[j - 1]);
      if i < j { KeptIsTransitive(tables[i], tables[j - 1], tables[j]); }
    }
  }

  /** In particular, read off the wall clock: a row without a check-in is an absence; one with a
      check-in was made on its date, in the check-in hours of the employee's live shift, and its late
      minutes and status are what the clock says; a check-out is not before the check-in nor before
      the shift's end; and in every later state the row is the same but for a first check-out. */
  lemma RowsAgreeWithTheClock(s: Schedule, threshold: int, tables: seq<Table>, events: seq<Event>, clocks: seq<Instant>, i: nat, j: nat, k: Key)
    requires s.Valid() && IsRun(s, threshold, tables, events, clocks) && i <= j < |tables| && k in tables[i]
    ensures var r := tables[i][k];
      if r.checkIn.None? then r.checkOut.None? && r.lateMinutes.None? && r.status == Absent
      else
        var at, es := r.checkIn.value, Assignment(s, k.employee, k.day);
        && CivilDay(at) == k.day && at <= clocks[i]
        && es.Some? && InCheckInHours(s.shifts[es.value.shift], ClockTime(at))
        && var late := WholeMinutes(ClockTime(at) - s.shifts[es.value.shift].start);
           && r.lateMinutes == Some(if late < 0 then 0 else late)
           && r.status == (if late > threshold then Late else OnTime)
           && (r.checkOut.Some? ==> at <= r.checkOut.value && ResolveShiftWindow(s.shifts[es.value.shift], at).end <= r.checkOut.value)
    ensures k in tables[j] && tables[j][k] == tables[i][k].(checkOut := tables[j][k].checkOut)
    ensures tables[i][k].checkOut.Some? ==> tables[j][k] == tables[i][k]
  {
    EveryRowIsSound(s, threshold, tables, events, clocks, i, i);
    EveryRowIsSound(s, threshold, tables, events, clocks, i, j);
    var r := tables[i][k];
    assert RowSound(s, threshold, k, r, clocks[i]) && RowKept(r, tables[j][k]);
    if r.checkIn.Some? {
      SameWindow(s, k.employee, r.checkIn.value);
      OnTheClock(s, k.employee, r.checkIn.value);
    }
  }

  lemma KeptIsTransitive(a: Table, b: Table, c: Table)
    requires TableKept(a, b) && TableKept(b, c)
    ensures TableKept(a, c)
  {}

  // ------------------------------------------------------------------------------------------
  // The sweep, uninterrupted.

  /** What the sweep makes of one employee's day. */
  function SweptRow(s: Schedule, e: EmployeeId, d: Day, r: Option<Row>): Option<Row>
    requires s.Valid()
  {
    var es := Assignment(s, e, d);
    if es.None? then r
    else if r.None? then Some(AbsentRow(es.value.outlet))
    else if IsOpen(r.value) && WindowOn(s, e, d).Some? then Some(r.value.(checkOut := Some(WindowOn(s, e, d).value.end)))
    else r
  }

  function SweptAt(s: Schedule, d: Day, t: Table, k: Key): Option<Row>
    requires s.Valid()
  {
    if k.day == d then SweptRow(s, k.employee, d, RowAt(t, k)) else RowAt(t, k)
  }

  function RowAt(t: Table, k: Key): Option<Row> {
    if k in t then Some(t[k]) else None
  }

  predicate IsMissing(t: Table, e: EmployeeId, d: Day) {
    Key(e, d) !in t
  }

  predicate IsLeftOpen(s: Schedule, t: Table, e: EmployeeId, d: Day)
    requires s.Valid()
  {
    Key(e, d) in t && IsOpen(t[Key(e, d)]) && WindowOn(s, e, d).Some?
  }

  predicate Listed(listing: seq<EmployeeShift>, n: nat, e: EmployeeId)
    requires n <= |listing|
  {
    exists k :: 0 <= k < n && listing[k].employee == e
  }

  datatype SweepResponse = SweepResponse(markedAbsent: nat, autoCheckedOut: nat)

  /** Checking in is possible from a quarter of an hour before the shift starts until it ends, which
      for a shift over midnight is not on the same date. */
  predicate InCheckInHours(ws: WorkShift, clock: int) {
    !ws.deleted && ws.start - 900_000_000 <= clock && (clock <= ws.end || ws.end < ws.start)
  }

  /** Checking out by hand is possible once the shift has ended, on the date it started: never, for a
      shift over midnight. */
  predicate AfterHours(ws: WorkShift, clock: int) {
    !ws.deleted && ws.start <= ws.end <= clock
  }

  /** The window's bounds at an instant of its date, read off the clock. */
  lemma OnTheClock(s: Schedule, e: EmployeeId, now: Instant)
    requires s.Valid()
    ensures var es := Assignment(s, e, CivilDay(now));
      && 0 <= ClockTime(now) < DAY
      && (es.Some? ==>
            var ws := s.shifts[es.value.shift]; var w := ResolveShiftWindow(ws, now);
            && now - w.start == ClockTime(now) - ws.start
            && (InCheckInHours(ws, ClockTime(now)) <==> !ws.deleted && w.start - CHECKIN_TOLERANCE <= now <= w.end)
            && (AfterHours(ws, ClockTime(now)) <==> !ws.deleted && w.end <= now))
  {
    DayStartIsMidnight(CivilDay(now), now);
    var c := now - DayStart(CivilDay(now));
    CalendarAnchors(CivilDay(now));
    ClockOnDay(CivilDay(now), c);
  }

  class Attendances {
    var rows: Table

    method GetAttendanceByEmployeeAndDate(k: Key) returns (r: Option<Row>)
      ensures r == RowAt(rows, k)
    {
      r := if k in rows then Some(rows[k]) else None;
    }

    /** ON CONFLICT DO NOTHING returns no row, which the caller sees as an error. */
    method CreateAbsentAttendance(k: Key, outlet: OutletId) returns (created: bool)
      modifies this
      ensures created <==> k !in old(rows)
      ensures rows == if created then old(rows)[k := Row(outlet, None, None, None, Absent)] else old(rows)
    {
      created := k !in rows;
      if created { rows := rows[k := AbsentRow(outlet)]; }
    }

    method AutoCheckoutAttendance(k: Key, at: Instant)
      modifies this
      ensures rows == if k in old(rows) && IsOpen(old(rows)[k]) then old(rows)[k := old(rows)[k].(checkOut := Some(at))] else old(rows)
    {
      if k in rows && IsOpen(rows[k]) { rows := rows[k := rows[k].(checkOut := Some(at))]; }
    }

    /** inRange stands for the geofence. Returns true when the row was inserted. */
    method CheckIn(s: Schedule, threshold: int, e: EmployeeId, outlet: Option<OutletId>, inRange: bool, now: Instant) returns (ok: bool)
      requires s.Valid()
      modifies this
      ensures outlet.Some? && inRange ==> rows == Apply(s, threshold, old(rows), Event.CheckIn(e, outlet.value, now))
      ensures var k := Key(e, CivilDay(now)); var es := Assignment(s, e, k.day);
        if es.Some? && outlet.Some? && inRange && k !in old(rows) && InCheckInHours(s.shifts[es.value.shift], ClockTime(now)) then
          var late := WholeMinutes(ClockTime(now) - s.shifts[es.value.shift].start);
          && ok
          && rows == old(rows)[k := Row(outlet.value, Some(now), None, Some(if late < 0 then 0 else late), if late > threshold then Late else OnTime)]
        else !ok && rows == old(rows)
    {
      OnTheClock(s, e, now);
      var es := ResolveEmployeeShift(s, e, CivilDay(now));
      if es.None? { return false; }
      var w := ResolveShiftWindow(es.value.1, now);
      SameWindow(s, e, now);
      if now < w.start - CHECKIN_TOLERANCE || now > w.end { return false; }
      if outlet.None? || !inRange { return false; }
      var lateMinutes := WholeMinutes(now - w.start);
      var isLate := lateMinutes > threshold;
      var status := if isLate then Late else OnTime;
      if lateMinutes < 0 { lateMinutes := 0; }
      var k := Key(e, CivilDay(now));
      if k in rows { return false; }
      rows := rows[k := Row(outlet.value, Some(now), None, Some(lateMinutes), status)];
      ok := true;
    }

    method CheckOut(s: Schedule, threshold: int, e: EmployeeId, now: Instant) returns (ok: bool)
      requires s.Valid()
      modifies this
      ensures rows == Apply(s, threshold, old(rows), Event.CheckOut(e, now))
      ensures var k := Key(e, CivilDay(now)); var es := Assignment(s, e, k.day);
        if es.Some? && AfterHours(s.shifts[es.value.shift], ClockTime(now))
           && k in old(rows) && old(rows)[k].checkIn.Some? && old(rows)[k].checkOut.None? then
          ok && rows == old(rows)[k := old(rows)[k].(checkOut := Some(now))]
        else !ok && rows == old(rows)
    {
      OnTheClock(s, e, now);
      var es := ResolveEmployeeShift(s, e, CivilDay(now));
      if es.None? { return false; }
      SameWindow(s, e, now);
      if now < ResolveShiftWindow(es.value.1, now).end { return false; }
      var k := Key(e, CivilDay(now));
      var existing := GetAttendanceByEmployeeAndDate(k);
      if existing.None? || existing.value.checkIn.None? { return false; }
      if existing.value.checkOut.Some? { return false; }
      rows := rows[k := rows[k].(checkOut := Some(now))];
      ok := true;
    }

    /** The loop body: one scheduled employee. */
    method SweepEmployee(s: Schedule, target: Instant, es: EmployeeShift) returns (absent: nat, closed: nat)
      requires s.Valid() && Assignment(s, es.employee, CivilDay(target)) == Some(es)
      modifies this
      ensures rows == Put(old(rows), Key(es.employee, CivilDay(target)),
                          SweptRow(s, es.employee, CivilDay(target), RowAt(old(rows), Key(es.employee, CivilDay(target)))))
      ensures var k := Key(es.employee, CivilDay(target));
        rows ==
          if k !in old(rows) then old(rows)[k := Row(es.outlet, None, None, None, Absent)]
          else if old(rows)[k].checkIn.Some? && old(rows)[k].checkOut.None? && !s.shifts[es.shift].deleted then
            old(rows)[k := old(rows)[k].(checkOut := Some(ResolveShiftWindow(s.shifts[es.shift], target).end))]
          else old(rows)
      ensures absent == if IsMissing(old(rows), es.employee, CivilDay(target)) then 1 else 0
      ensures closed == if IsLeftOpen(s, old(rows), es.employee, CivilDay(target)) then 1 else 0
      ensures absent + closed == if rows == old(rows) then 0 else 1
    {
      absent, closed := 0, 0;
      var k := Key(es.employee, CivilDay(target));
      SameWindow(s, es.employee, target);
      var row := GetAttendanceByEmployeeAndDate(k);
      if row.None? {
        var created := CreateAbsentAttendance(k, es.outlet);
        if created { absent := 1; }
      } else if IsOpen(row.value) {
        var ws := s.shifts[es.shift];
        if !ws.deleted {
          AutoCheckoutAttendance(k, ResolveShiftWindow(ws, target).end);
          closed := 1;
        }
      }
    }

    /** Over any listing the database may return: scheduled employees without a row are marked
        absent, open rows of live shifts are closed at the window's end, everything else is left
        alone, and the two counts are how many of each there were. */
    method RunEndOfDaySweep(s: Schedule, target: Instant, listing: seq<EmployeeShift>) returns (r: SweepResponse)
      requires s.Valid() && IsListing(s, CivilDay(target), listing)
      modifies this
      ensures forall k :: RowAt(rows, k) == SweptAt(s, CivilDay(target), old(rows), k)
      ensures r == SweepResponse(CountMissing(old(rows), CivilDay(target), listing), CountLeftOpen(s, old(rows), CivilDay(target), listing))
      ensures var d := CivilDay(target);
        && r.markedAbsent == |set i | 0 <= i < |listing| && Key(listing[i].employee, d) !in old(rows)|
        && r.autoCheckedOut == |set i | 0 <= i < |listing| && var k := Key(listing[i].employee, d);
             k in old(rows) && old(rows)[k].checkIn.Some? && old(rows)[k].checkOut.None?
             && listing[i].shift in s.shifts && !s.shifts[listing[i].shift].deleted|
    {
      hide IsSwept, IsMissing, IsLeftOpen, CountMissing, CountLeftOpen, SweptRow, WindowOn, Assignment, Put, Listed;
      var d := CivilDay(target);
      ghost var before := rows;
      NothingSwept(s, d, listing, before);
      var absent, closed := 0, 0;
      for i := 0 to |listing|
        invariant absent == CountMissing(before, d, listing[..i]) && closed == CountLeftOpen(s, before, d, listing[..i])
        invariant IsSwept(s, d, listing, i, before, rows)
      {
        ghost var current := rows;
        SweepOne(s, d, listing, i);
        NotYetSwept(s, d, listing, i, before, current);
        var a, c := SweepEmployee(s, target, listing[i]);
        absent, closed := absent + a, closed + c;
        CountsSoFar(s, d, listing, i, before);
        SweptSoFar(s, d, listing, i, before, current, rows);
      }
      assert listing[..|listing|] == listing;
      AllSwept(s, d, listing, before, rows);
      CountsAreCardinalities(s, d, listing, before);
      r := SweepResponse(absent, closed);
    }
  }

  function Put(t: Table, k: Key, r: Option<Row>): Table {
    if r.Some? then t[k := r.value] else t
  }

  function CountMissing(t: Table, d: Day, listing: seq<EmployeeShift>): nat {
    if listing == [] then 0
    else CountMissing(t, d, listing[..|listing| - 1]) + if IsMissing(t, listing[|listing| - 1].employee, d) then 1 else 0
  }

  function CountLeftOpen(s: Schedule, t: Table, d: Day, listing: seq<EmployeeShift>): nat
    requires s.Valid()
  {
    if listing == [] then 0
    else CountLeftOpen(s, t, d, listing[..|listing| - 1]) + if IsLeftOpen(s, t, listing[|listing| - 1].employee, d) then 1 else 0
  }

  /** The first n of the listing have been swept, nobody else. */
  ghost predicate IsSwept(s: Schedule, d: Day, listing: seq<EmployeeShift>, n: nat, before: Table, after: Table)
    requires s.Valid() && n <= |listing|
  {
    forall k :: RowAt(after, k) == if Listed(listing, n, k.employee) then SweptAt(s, d, before, k) else RowAt(before, k)
  }

  lemma NothingSwept(s: Schedule, d: Day, listing: seq<EmployeeShift>, before: Table)
    requires s.Valid()
    ensures IsSwept(s, d, listing, 0, before, before)
    ensures CountMissing(before, d, []) == 0 && CountLeftOpen(s, before, d, []) == 0
  {}

  lemma NotYetSwept(s: Schedule, d: Day, listing: seq<EmployeeShift>, i: nat, before: Table, current: Table)
    requires s.Valid() && i < |listing| && !Listed(listing, i, listing[i].employee) && IsSwept(s, d, listing, i, before, current)
    ensures RowAt(current, Key(listing[i].employee, d)) == RowAt(before, Key(listing[i].employee, d))
    ensures IsMissing(current, listing[i].employee, d) == IsMissing(before, listing[i].employee, d)
    ensures IsLeftOpen(s, current, listing[i].employee, d) == IsLeftOpen(s, before, listing[i].employee, d)
  {
    hide WindowOn;
  }

  lemma CountsSoFar(s: Schedule, d: Day, listing: seq<EmployeeShift>, i: nat, before: Table)
    requires s.Valid() && i < |listing|
    ensures CountMissing(before, d, listing[..i + 1]) == CountMissing(before, d, listing[..i]) + if IsMissing(before, listing[i].employee, d) then 1 else 0
    ensures CountLeftOpen(s, before, d, listing[..i + 1]) ==
      CountLeftOpen(s, before, d, listing[..i]) + if IsLeftOpen(s, before, listing[i].employee, d) then 1 else 0
  {
    hide IsMissing, IsLeftOpen;
    assert listing[..i + 1][..i] == listing[..i];
  }

  function MissingAt(t: Table, d: Day, listing: seq<EmployeeShift>): set<nat> {
    set i | 0 <= i < |listing| && IsMissing(t, listing[i].employee, d)
  }

  function LeftOpenAt(s: Schedule, t: Table, d: Day, listing: seq<EmployeeShift>): set<nat>
    requires s.Valid()
  {
    set i | 0 <= i < |listing| && IsLeftOpen(s, t, listing[i].employee, d)
  }

  lemma PositionsGrow(s: Schedule, t: Table, d: Day, listing: seq<EmployeeShift>)
    requires s.Valid() && listing != []
    ensures var n := |listing| - 1;
      && n !in MissingAt(t, d, listing[..n]) && n !in LeftOpenAt(s, t, d, listing[..n])
      && MissingAt(t, d, listing) == MissingAt(t, d, listing[..n]) + (if IsMissing(t, listing[n].employee, d) then {n} else {})
      && LeftOpenAt(s, t, d, listing) == LeftOpenAt(s, t, d, listing[..n]) + (if IsLeftOpen(s, t, listing[n].employee, d) then {n} else {})
  {
    hide IsMissing, IsLeftOpen;
    var n := |listing| - 1;
    forall i: nat
      ensures i in MissingAt(t, d, listing) <==> i in MissingAt(t, d, listing[..n]) || (i == n && IsMissing(t, listing[n].employee, d))
      ensures i in LeftOpenAt(s, t, d, listing) <==> i in LeftOpenAt(s, t, d, listing[..n]) || (i == n && IsLeftOpen(s, t, listing[n].employee, d))
    {
      if i < n { assert listing[..n][i] == listing[i]; }
    }
  }

  lemma {:induction false} CountsArePositions(s: Schedule, d: Day, listing: seq<EmployeeShift>, t: Table)
    requires s.Valid()
    ensures CountMissing(t, d, listing) == |MissingAt(t, d, listing)| && CountLeftOpen(s, t, d, listing) == |LeftOpenAt(s, t, d, listing)|
  {
    if listing != [] {
      CountsArePositions(s, d, listing[..|listing| - 1], t);
      PositionsGrow(s, t, d, listing);
      hide MissingAt, LeftOpenAt, IsMissing, IsLeftOpen;
    }
  }

  lemma LeftOpenMeans(s: Schedule, t: Table, d: Day, es: EmployeeShift)
    requires s.Valid() && Assignment(s, es.employee, d) == Some(es)
    ensures es.shift in s.shifts
    ensures IsLeftOpen(s, t, es.employee, d) <==>
      var k := Key(es.employee, d); k in t && t[k].checkIn.Some? && t[k].checkOut.None? && !s.shifts[es.shift].deleted
  {
    AssignmentSpec(s, es.employee, d);
  }

  lemma CountsAreCardinalities(s: Schedule, d: Day, listing: seq<EmployeeShift>, t: Table)
    requires s.Valid() && IsListing(s, d, listing)
    ensures forall i :: 0 <= i < |listing| ==> listing[i].shift in s.shifts
    ensures CountMissing(t, d, listing) == |set i | 0 <= i < |listing| && Key(listing[i].employee, d) !in t|
    ensures CountLeftOpen(s, t, d, listing) == |set i | 0 <= i < |listing| && var k := Key(listing[i].employee, d);
      k in t && t[k].checkIn.Some? && t[k].checkOut.None? && listing[i].shift in s.shifts && !s.shifts[listing[i].shift].deleted|
  {
    CountsArePositions(s, d, listing, t);
    forall i | 0 <= i < |listing|
      ensures listing[i].shift in s.shifts
      ensures IsLeftOpen(s, t, listing[i].employee, d) <==> var k := Key(listing[i].employee, d);
        k in t && t[k].checkIn.Some? && t[k].checkOut.None? && !s.shifts[listing[i].shift].deleted
    {
      SweepOne(s, d, listing, i);
      LeftOpenMeans(s, t, d, listing[i]);
    }
    hide IsLeftOpen, IsListing;
    assert MissingAt(t, d, listing) == set i | 0 <= i < |listing| && Key(listing[i].employee, d) !in t;
    assert LeftOpenAt(s, t, d, listing) == set i | 0 <= i < |listing| && var k := Key(listing[i].employee, d);
      k in t && t[k].checkIn.Some? && t[k].checkOut.None? && listing[i].shift in s.shifts && !s.shifts[listing[i].shift].deleted;
  }

  lemma SweptSoFar(s: Schedule, d: Day, listing: seq<EmployeeShift>, i: nat, before: Table, current: Table, after: Table)
    requires s.Valid() && i < |listing| && !Listed(listing, i, listing[i].employee)
    requires IsSwept(s, d, listing, i, before, current)
    requires var k := Key(listing[i].employee, d); after == Put(current, k, SweptRow(s, k.employee, d, RowAt(current, k)))
    ensures IsSwept(s, d, listing, i + 1, before, after)
  {
    var mine := Key(listing[i].employee, d);
    assert forall e :: Listed(listing, i + 1, e) <==> Listed(listing, i, e) || e == mine.employee;
    forall k ensures RowAt(after, k) == if Listed(listing, i + 1, k.employee) then SweptAt(s, d, before, k) else RowAt(before, k) {
      SweptStays(s, k.employee, d, RowAt(current, k));
      if k != mine { assert RowAt(after, k) == RowAt(current, k); }
    }
  }

  lemma SweptStays(s: Schedule, e: EmployeeId, d: Day, r: Option<Row>)
    requires s.Valid()
    ensures r.Some? ==> SweptRow(s, e, d, r).Some?
  {}

  /** Employees the listing does not mention have no assignment, and the sweep nothing to do. */
  lemma AllSwept(s: Schedule, d: Day, listing: seq<EmployeeShift>, before: Table, after: Table)
    requires s.Valid() && IsListing(s, d, listing)
    requires IsSwept(s, d, listing, |listing|, before, after)
    ensures forall k :: RowAt(after, k) == SweptAt(s, d, before, k)
  {
    forall k ensures RowAt(after, k) == SweptAt(s, d, before, k) {
      ListingIsAssignment(s, d, listing, k.employee);
      hide IsListing, Assignment;
    }
  }

  lemma SameWindow(s: Schedule, e: EmployeeId, now: Instant)
    requires s.Valid()
    ensures var es := ResolveEmployeeShift(s, e, CivilDay(now));
      if es.Some? then WindowOn(s, e, CivilDay(now)) == Some(ResolveShiftWindow(es.value.1, now)) else WindowOn(s, e, CivilDay(now)).None?
  {
    DayStartIsMidnight(CivilDay(now), DayStart(CivilDay(now)));
  }

  lemma SweepOne(s: Schedule, d: Day, listing: seq<EmployeeShift>, i: nat)
    requires s.Valid() && i < |listing| && IsListing(s, d, listing)
    ensures !Listed(listing, i, listing[i].employee)
    ensures Assignment(s, listing[i].employee, d) == Some(listing[i])
  {
    ListingIsAssignment(s, d, listing, listing[i].employee);
  }

  /** Each employee's part of a sweep is one of the statements that runs are made of. */
  lemma SweepIsStatements(s: Schedule, threshold: int, t: Table, e: EmployeeId, d: Day)
    requires s.Valid()
    ensures var k := Key(e, d);
      Put(t, k, SweptRow(s, e, d, RowAt(t, k))) == Apply(s, threshold, t, if k in t then AutoCheckOut(e, d) else MarkAbsent(e, d))
  {
    hide WindowOn, Assignment;
    WindowNeedsAssignment(s, e, d);
  }

  lemma WindowNeedsAssignment(s: Schedule, e: EmployeeId, d: Day)
    requires s.Valid()
    ensures WindowOn(s, e, d).Some? ==> Assignment(s, e, d).Some?
  {}

  /** One more sweep of a swept day, under any listing, changes no row and counts nothing; the
      first one left every scheduled employee with a row, closed if the work shift is live. */
  lemma {:induction false} SecondSweepFindsNothing(s: Schedule, d: Day, before: Table, after: Table, listing: seq<EmployeeShift>)
    requires s.Valid() && forall k :: RowAt(after, k) == SweptAt(s, d, before, k)
    requires forall i :: 0 <= i < |listing| ==> Assignment(s, listing[i].employee, d) == Some(listing[i])
    ensures forall k :: SweptAt(s, d, after, k) == RowAt(after, k)
    ensures forall i :: 0 <= i < |listing| ==> !IsMissing(after, listing[i].employee, d) && !IsLeftOpen(s, after, listing[i].employee, d)
    ensures CountMissing(after, d, listing) == 0 && CountLeftOpen(s, after, d, listing) == 0
  {
    hide WindowOn, Assignment;
    if listing != [] {
      var n := |listing| - 1;
      SecondSweepFindsNothing(s, d, before, after, listing[..n]);
      var k := Key(listing[n].employee, d);
      assert RowAt(after, k) == SweptAt(s, d, before, k);
      forall i | 0 <= i < n ensures !IsMissing(after, listing[i].employee, d) && !IsLeftOpen(s, after, listing[i].employee, d) {
        assert listing[..n][i] == listing[i];
      }
    }
  }

  /** No recorded value is overwritten by a sweep. */
  lemma SweepKeepsRows(s: Schedule, d: Day, before: Table, after: Table)
    requires s.Valid() && forall k :: RowAt(after, k) == SweptAt(s, d, before, k)
    ensures TableKept(before, after)
  {
    forall k | k in before ensures k in after && RowKept(before[k], after[k]) {
      assert RowAt(after, k) == SweptAt(s, d, before, k);
    }
  }
}
