/** Ledger rows, the event vocabulary and the calendar arithmetic shared by the engine. */
module Ledger {

  datatype Option<T> = None | Some(value: T)

  type ItemId = string

  /**
   * The event vocabulary of the ledger. Any other code is kept as `Other` and changes no counter;
   * `Other` never carries one of the four known codes, which always map to their own constructors.
   */
  datatype EventType = Start | Attempt | Done | Reopen | Other(code: string)

  /** One ledger row: the obligation it concerns, its event type and its timestamp in seconds. */
  datatype Record = Record(item: ItemId, kind: EventType, ts: int)

  const DaySeconds: int := 86400

  /** The calendar day of a timestamp, as a day index (floor division, as a date is taken of a datetime). */
  function Day(ts: int): int
  {
    ts / DaySeconds
  }

  function Max0(x: int): nat
  {
    if x > 0 then x else 0
  }

  /** The ledger is ordered by timestamp, as the loader leaves it. */
  ghost predicate Sorted(rs: seq<Record>)
  {
    forall i, j :: 0 <= i <= j < |rs| ==> rs[i].ts <= rs[j].ts
  }

  lemma DayMonotone(a: int, b: int)
    requires a <= b
    ensures Day(a) <= Day(b)
  {
  }

  /** A timestamp lies before the end of day `d` exactly when its day is `d` or earlier. */
  lemma BeforeDayEnd(ts: int, d: int)
    ensures ts < (d + 1) * DaySeconds <==> Day(ts) <= d
  {
  }

  /** In a sorted ledger the days of the rows never decrease. */
  lemma {:induction false} SortedDays(rs: seq<Record>)
    requires Sorted(rs)
    ensures forall i, j :: 0 <= i <= j < |rs| ==> Day(rs[i].ts) <= Day(rs[j].ts)
  {
    forall i, j | 0 <= i <= j < |rs|
      ensures Day(rs[i].ts) <= Day(rs[j].ts)
    {
      DayMonotone(rs[i].ts, rs[j].ts);
    }
  }
}
