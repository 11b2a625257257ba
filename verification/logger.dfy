/**
 The session logger (`StudyLogger` in study_timer_gui.py): an append-only table
 of completed study intervals. The CSV file is modelled as the sequence of its
 rows; wall-clock timestamps are opaque values that already carry their
 formatted date, clock time and weekday.
 */
module Logger {
  import opened Wrappers

  datatype Weekday = Monday | Tuesday | Wednesday | Thursday | Friday | Saturday | Sunday

  /** The full weekday name, as `strftime('%A')` prints it in the C locale. */
  function DayName(d: Weekday): string {
    match d
    case Monday => "Monday"
    case Tuesday => "Tuesday"
    case Wednesday => "Wednesday"
    case Thursday => "Thursday"
    case Friday => "Friday"
    case Saturday => "Saturday"
    case Sunday => "Sunday"
  }

  /** A wall-clock instant: `date` is its `%Y-%m-%d` text, `clock` its `%H:%M:%S` text. */
  datatype Timestamp = Timestamp(date: string, clock: string, weekday: Weekday)

  /** The `%Y-%m-%d %H:%M:%S` rendering of a timestamp. */
  function Format(t: Timestamp): (r: string)
    ensures t.date <= r
  {
    t.date + " " + t.clock
  }

  /** A CSV cell: text, or a duration in hundredths of a minute. */
  datatype Cell = Text(text: string) | CentiMinutes(centi: int)

  datatype Row = Row(cells: seq<Cell>)

  const HeaderRow: Row :=
    Row([Text("start_time"), Text("end_time"), Text("net_duration_minutes"), Text("date"), Text("day_of_week")])

  /** `round(seconds / 60, 2)` as an integer number of hundredths of a minute. */
  function RoundedCentiMinutes(seconds: int): (c: int)
    // c is the integer nearest to 100 * seconds / 60 = 5 * seconds / 3 ...
    ensures -1 <= 3 * c - 5 * seconds <= 1
    // ... and it is the only such integer, so no tie-breaking rule is involved
    ensures forall c' :: -1 <= 3 * c' - 5 * seconds <= 1 ==> c' == c
  {
    (5 * seconds + 1) / 3
  }

  /** The store as `_initialize_file` leaves it: an existing file is kept, a missing one gets the header. */
  function InitializeStore(existing: Option<seq<Row>>): (store: seq<Row>)
    ensures existing.Some? ==> store == existing.value
    ensures existing.None? ==> store == [HeaderRow]
  {
    match existing
    case Some(rows) => rows
    case None => [HeaderRow]
  }

  /** The guard of `log_session`: both timestamps present and a positive duration. */
  predicate Loggable(start: Option<Timestamp>, end: Option<Timestamp>, netSeconds: int) {
    start.Some? && end.Some? && netSeconds > 0
  }

  /** The five-field row `log_session` writes for one completed interval. */
  function SessionRow(start: Timestamp, end: Timestamp, netSeconds: int): Row {
    Row([ Text(Format(start)), Text(Format(end)), CentiMinutes(RoundedCentiMinutes(netSeconds)),
          Text(start.date), Text(DayName(start.weekday)) ])
  }

  /** True when `row` is the record of an interval from `start` to `end` lasting `netSeconds`. */
  predicate RecordsInterval(row: Row, start: Timestamp, end: Timestamp, netSeconds: int) {
    && |row.cells| == 5
    && row.cells[0] == Text(Format(start))
    && row.cells[1] == Text(Format(end))
    && row.cells[2].CentiMinutes?
    && -1 <= 3 * row.cells[2].centi - 5 * netSeconds <= 1
    && row.cells[3].Text?
    && row.cells[3].text <= Format(start)
    && |row.cells[3].text| == |start.date|
    && row.cells[4] == Text(DayName(start.weekday))
  }

  /** `StudyLogger.log_session`: append one row, or nothing when the guard fails. */
  function LogSession(store: seq<Row>, start: Option<Timestamp>, end: Option<Timestamp>, netSeconds: int)
    : (store': seq<Row>)
    ensures !Loggable(start, end, netSeconds) ==> store' == store
    ensures Loggable(start, end, netSeconds) ==>
              && |store'| == |store| + 1
              && store'[..|store|] == store
              && RecordsInterval(store'[|store|], start.value, end.value, netSeconds)
  {
    if Loggable(start, end, netSeconds) then
      store + [SessionRow(start.value, end.value, netSeconds)]
    else
      store
  }
}
