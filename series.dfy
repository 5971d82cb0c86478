/**
 * What the daily series of a ledger guarantees as a whole: its shape, the conservation of
 * completions on every day, the ledger totals its columns add up to, how it responds to a
 * larger bounce horizon, and what the regime label says about the backlog.
 */
module Series {
  import opened Ledger
  import opened Bounce
  import opened Daily
  import opened Diagnostics

  /**
   * Shape: an empty ledger gives an empty series; otherwise one row per calendar day, in
   * consecutive order, from the day of the first row to the day of the last.
   */
  lemma {:induction false} SeriesShape(records: seq<Record>, horizonDays: int, windowDays: int, rows: seq<DailyMetrics>)
    requires Sorted(records) && MetricsOf(records, horizonDays, windowDays, rows)
    ensures rows == [] <==> records == []
    ensures records != [] ==> rows[0].date == Day(records[0].ts)
                              && rows[|rows| - 1].date == Day(records[|records| - 1].ts)
    ensures forall k :: 0 < k < |rows| ==> rows[k].date == rows[k - 1].date + 1
  {
    var flags := BounceFlags(records, horizonDays * DaySeconds);
    if records != [] {
      SortedDays(records);
      assert RowMatches(records, flags, rows[0], FirstDay(records));
      assert RowMatches(records, flags, rows[|rows| - 1], FirstDay(records) + |rows| - 1);
    }
    forall k | 0 < k < |rows|
      ensures rows[k].date == rows[k - 1].date + 1
    {
      assert RowMatches(records, flags, rows[k], FirstDay(records) + k);
      assert RowMatches(records, flags, rows[k - 1], FirstDay(records) + k - 1);
    }
  }

  /**
   * Conservation: every completion carries a flag, so both split counts are present on every
   * day and add up to the completions; the stick rate is absent exactly on days without
   * completions; and the diagnostics find no violation.
   */
  lemma {:induction false} DailyConservation(records: seq<Record>, horizonDays: int, windowDays: int, rows: seq<DailyMetrics>)
    requires MetricsOf(records, horizonDays, windowDays, rows)
    ensures forall k :: 0 <= k < |rows| ==>
              rows[k].muD.Some? && rows[k].rhoGen.Some? && rows[k].muA == rows[k].muD.value + rows[k].rhoGen.value
    ensures forall k :: 0 <= k < |rows| ==> (rows[k].q.None? <==> rows[k].muA == 0)
    ensures forall k :: 0 <= k < |rows| && rows[k].muA > 0 ==> rows[k].q == Some(Ratio(rows[k].muD.value, rows[k].muA))
    ensures ViolationsOf(rows) == []
  {
    var flags := BounceFlags(records, horizonDays * DaySeconds);
    forall k | 0 <= k < |rows|
      ensures rows[k].muD.Some? && rows[k].rhoGen.Some? && rows[k].muA == rows[k].muD.value + rows[k].rhoGen.value
    {
      RowConservation(records, flags, rows[k], FirstDay(records) + k);
    }
    ViolationsEmptyIff(rows);
  }

  /** The split counts of one row are present and add up to its completions. */
  lemma {:induction false} RowConservation(records: seq<Record>, flags: seq<Option<bool>>, m: DailyMetrics, d: int)
    requires |flags| == |records| && RowMatches(records, flags, m, d)
    requires forall i :: 0 <= i < |records| && records[i].kind == Done ==> flags[i].Some?
    ensures m.muD.Some? && m.rhoGen.Some? && m.muA == m.muD.value + m.rhoGen.value
  {
    TallyConservation(records, flags, |records|, d);
  }

  /** An empty day range tallies nothing. */
  lemma {:induction false} TallyBetweenEmpty(rs: seq<Record>, flags: seq<Option<bool>>, n: nat, a: int, c: Counter)
    requires n <= |rs| && |flags| == |rs|
    ensures TallyBetween(rs, flags, n, a, a, c) == 0
    decreases n
  {
    if n > 0 {
      TallyBetweenEmpty(rs, flags, n - 1, a, c);
    }
  }

  /** The column totals of the first `k` rows are the tallies of the first `k` days. */
  lemma {:induction false} PrefixTotals(records: seq<Record>, flags: seq<Option<bool>>, rows: seq<DailyMetrics>,
                                        startDate: int, k: nat, c: Counter)
    requires |flags| == |records| && k <= |rows|
    requires forall j :: 0 <= j < |rows| ==> RowMatches(records, flags, rows[j], startDate + j)
    ensures ColumnSum(rows[..k], c) == TallyBetween(records, flags, |records|, startDate, startDate + k, c)
    decreases k
  {
    if k == 0 {
      TallyBetweenEmpty(records, flags, |records|, startDate, c);
    } else {
      PrefixTotals(records, flags, rows, startDate, k - 1, c);
      assert rows[..k][..k - 1] == rows[..k - 1];
      assert RowMatches(records, flags, rows[k - 1], startDate + k - 1);
      TallyBetweenStep(records, flags, |records|, startDate, startDate + k - 1, c);
    }
  }

  /** Rows matching consecutive days that cover every ledger row add up to the ledger totals. */
  lemma {:induction false} SpanTotals(records: seq<Record>, flags: seq<Option<bool>>, rows: seq<DailyMetrics>, startDate: int, c: Counter)
    requires |flags| == |records|
    requires forall j :: 0 <= j < |rows| ==> RowMatches(records, flags, rows[j], startDate + j)
    requires forall i :: 0 <= i < |records| ==> startDate <= Day(records[i].ts) < startDate + |rows|
    ensures ColumnSum(rows, c) == Total(records, flags, |records|, c)
  {
    PrefixTotals(records, flags, rows, startDate, |rows|, c);
    assert rows[..|rows|] == rows;
    TallyBetweenAll(records, flags, |records|, startDate, startDate + |rows|, c);
  }

  /** On a sorted ledger every row is stamped between the first row's day and the last row's day. */
  lemma {:induction false} DaysWithin(records: seq<Record>)
    requires Sorted(records) && records != []
    ensures forall i :: 0 <= i < |records| ==>
              FirstDay(records) <= Day(records[i].ts) <= Day(records[|records| - 1].ts)
  {
    SortedDays(records);
  }

  /** A non-empty sorted ledger gives exactly one row per day from its first day to its last. */
  lemma {:induction false} SeriesLength(records: seq<Record>, horizonDays: int, windowDays: int, rows: seq<DailyMetrics>)
    requires Sorted(records) && records != [] && MetricsOf(records, horizonDays, windowDays, rows)
    ensures |rows| == Day(records[|records| - 1].ts) - FirstDay(records) + 1
  {
    DaysWithin(records);
  }

  /**
   * Every row of the ledger is consumed exactly once: over the whole series, the arrivals add
   * up to the ledger's starts, the completions to its completions, and the durable closures
   * and bounces to its completions flagged as sticks and as bounces.
   */
  lemma {:induction false} LedgerTotals(records: seq<Record>, horizonDays: int, windowDays: int, rows: seq<DailyMetrics>, c: Counter)
    requires Sorted(records) && MetricsOf(records, horizonDays, windowDays, rows)
    ensures ColumnSum(rows, c) == Total(records, BounceFlags(records, horizonDays * DaySeconds), |records|, c)
  {
    if records != [] {
      DaysWithin(records);
      SeriesLength(records, horizonDays, windowDays, rows);
    }
    SpanTotals(records, BounceFlags(records, horizonDays * DaySeconds), rows, FirstDay(records), c);
  }

  /**
   * Horizon monotonicity per day: with a larger horizon the series has the same days, and on
   * each day no more durable closures and no fewer bounces.
   */
  lemma {:induction false} HorizonMonotoneDaily(records: seq<Record>, h1: int, h2: int, w1: int, w2: int,
                             rows1: seq<DailyMetrics>, rows2: seq<DailyMetrics>)
    requires h1 <= h2
    requires MetricsOf(records, h1, w1, rows1) && MetricsOf(records, h2, w2, rows2)
    ensures |rows1| == |rows2|
    ensures forall k :: 0 <= k < |rows1| ==>
              && rows1[k].date == rows2[k].date
              && rows1[k].muD.Some? && rows2[k].muD.Some? && rows2[k].muD.value <= rows1[k].muD.value
              && rows1[k].rhoGen.Some? && rows2[k].rhoGen.Some? && rows2[k].rhoGen.value >= rows1[k].rhoGen.value
  {
    var flags1 := BounceFlags(records, h1 * DaySeconds);
    var flags2 := BounceFlags(records, h2 * DaySeconds);
    forall k | 0 <= k < |rows1|
      ensures && rows1[k].date == rows2[k].date
              && rows1[k].muD.Some? && rows2[k].muD.Some? && rows2[k].muD.value <= rows1[k].muD.value
              && rows1[k].rhoGen.Some? && rows2[k].rhoGen.Some? && rows2[k].rhoGen.value >= rows1[k].rhoGen.value
    {
      var d := FirstDay(records) + k;
      assert RowMatches(records, flags1, rows1[k], d);
      assert RowMatches(records, flags2, rows2[k], d);
      TallyHorizonMonotone(records, |records|, d, h1 * DaySeconds, h2 * DaySeconds);
    }
  }

  /** When every row is stamped on day `d` or earlier, all of them are counted through day `d`. */
  lemma {:induction false} CountThroughAll(rs: seq<Record>, n: nat, d: int)
    requires n <= |rs|
    requires forall i :: 0 <= i < n ==> Day(rs[i].ts) <= d
    ensures CountThrough(rs, n, d) == n
    decreases n
  {
    if n > 0 {
      CountThroughAll(rs, n - 1, d);
    }
  }

  /** The first row's backlog is the open set after the ledger's first day. */
  lemma {:induction false} FirstRowBacklog(records: seq<Record>, horizonDays: int, windowDays: int, rows: seq<DailyMetrics>)
    requires Sorted(records) && records != [] && MetricsOf(records, horizonDays, windowDays, rows)
    ensures rows != []
    ensures rows[0].backlog == |OpenSet(records, CountThrough(records, |records|, FirstDay(records)))|
  {
    SeriesLength(records, horizonDays, windowDays, rows);
    assert RowMatches(records, BounceFlags(records, horizonDays * DaySeconds), rows[0], FirstDay(records));
  }

  /** The last row's backlog is the open set after the whole ledger. */
  lemma {:induction false} LastRowBacklog(records: seq<Record>, horizonDays: int, windowDays: int, rows: seq<DailyMetrics>)
    requires Sorted(records) && records != [] && MetricsOf(records, horizonDays, windowDays, rows)
    ensures rows != []
    ensures rows[|rows| - 1].backlog == |OpenSet(records, |records|)|
  {
    SeriesLength(records, horizonDays, windowDays, rows);
    var lastDay := Day(records[|records| - 1].ts);
    assert RowMatches(records, BounceFlags(records, horizonDays * DaySeconds), rows[|rows| - 1], lastDay);
    DaysWithin(records);
    CountThroughAll(records, |records|, lastDay);
  }

  /**
   * The regime label reads the backlog trend off the ledger: it is empty only for an empty
   * ledger, and it is growth exactly when more obligations are open after the whole ledger
   * than after the first day.
   */
  lemma {:induction false} RegimeReflectsBacklog(records: seq<Record>, horizonDays: int, windowDays: int, rows: seq<DailyMetrics>)
    requires Sorted(records) && MetricsOf(records, horizonDays, windowDays, rows)
    ensures RegimeOf(rows) == Unclassified <==> records == []
    ensures RegimeOf(rows) == BacklogGrowth <==>
              records != [] && |OpenSet(records, |records|)|
                               > |OpenSet(records, CountThrough(records, |records|, FirstDay(records)))|
  {
    if records != [] {
      FirstRowBacklog(records, horizonDays, windowDays, rows);
      LastRowBacklog(records, horizonDays, windowDays, rows);
    } else {
      assert rows == [];
    }
  }

  /**
   * A ledger without reopen rows: every completion sticks, so on every day the durable closures
   * are all the completions, there are no bounces, and a day with completions has stick rate
   * `mu_a / mu_a`. The split counts are present, not marked unobservable.
   */
  lemma {:induction false} NoReopenAllStick(records: seq<Record>, horizonDays: int, windowDays: int, rows: seq<DailyMetrics>)
    requires MetricsOf(records, horizonDays, windowDays, rows)
    requires forall i :: 0 <= i < |records| ==> records[i].kind != Reopen
    ensures forall k :: 0 <= k < |rows| ==>
              && rows[k].muD == Some(rows[k].muA) && rows[k].rhoGen == Some(0)
              && (rows[k].muA > 0 ==> rows[k].q == Some(Ratio(rows[k].muA, rows[k].muA)))
  {
    var flags := BounceFlags(records, horizonDays * DaySeconds);
    forall g | 0 <= g < |records| && records[g].kind == Done
      ensures flags[g] == Some(false)
    {
      ScanFromNoReopen(records, records[g].item, g + 1, records[g].ts + horizonDays * DaySeconds);
    }
    forall k | 0 <= k < |rows|
      ensures && rows[k].muD == Some(rows[k].muA) && rows[k].rhoGen == Some(0)
              && (rows[k].muA > 0 ==> rows[k].q == Some(Ratio(rows[k].muA, rows[k].muA)))
    {
      assert RowMatches(records, flags, rows[k], FirstDay(records) + k);
      TallyAllSticks(records, flags, |records|, FirstDay(records) + k);
    }
  }
}
