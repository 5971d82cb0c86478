/**
 * The daily aggregation: one pass over the calendar with a single row cursor, an open-items
 * map for the backlog and a window queue with running sums for the durable-clearance ratio.
 */
module Metrics {
  import opened Ledger
  import opened Bounce
  import opened Daily

  /** How many of the listed completions carry the flag `Some(bounced)`. */
  function Marked(flags: seq<Option<bool>>, completions: seq<nat>, bounced: bool): nat
    requires forall j :: 0 <= j < |completions| ==> completions[j] < |flags|
  {
    if completions == [] then 0
    else Marked(flags, completions[..|completions| - 1], bounced)
         + (if flags[completions[|completions| - 1]] == Some(bounced) then 1 else 0)
  }

  /** What consuming row `i` of day `date` adds to each counter. */
  lemma ConsumeStep(rs: seq<Record>, flags: seq<Option<bool>>, i: nat, date: int)
    requires i < |rs| && |flags| == |rs| && Day(rs[i].ts) == date
    ensures Tally(rs, flags, i + 1, date, Arrivals) == Tally(rs, flags, i, date, Arrivals) + (if rs[i].kind == Start then 1 else 0)
    ensures Tally(rs, flags, i + 1, date, Attempts) == Tally(rs, flags, i, date, Attempts) + (if rs[i].kind == Done then 1 else 0)
    ensures Tally(rs, flags, i + 1, date, Sticks)
            == Tally(rs, flags, i, date, Sticks) + (if rs[i].kind == Done && flags[i] == Some(false) then 1 else 0)
    ensures Tally(rs, flags, i + 1, date, Bounces)
            == Tally(rs, flags, i, date, Bounces) + (if rs[i].kind == Done && flags[i] == Some(true) then 1 else 0)
  {
  }

  /**
   * The state of the day loop once the rows before `idx` are consumed: the counters hold the
   * day's tallies so far, `completions` lists the positions of the day's completions so far in
   * ledger order, their flags split into the day's sticks and bounces so far, and the open-items
   * map holds the obligations open after those rows.
   */
  ghost predicate DayProgress(records: seq<Record>, flags: seq<Option<bool>>, idx: nat, date: int,
                              lambdaExo: nat, muA: nat, completions: seq<nat>, open: map<ItemId, int>)
    requires |flags| == |records|
  {
    && idx <= |records|
    && lambdaExo == Tally(records, flags, idx, date, Arrivals)
    && muA == Tally(records, flags, idx, date, Attempts)
    && completions == DoneOn(records, idx, date)
    && Marked(flags, completions, false) == Tally(records, flags, idx, date, Sticks)
    && Marked(flags, completions, true) == Tally(records, flags, idx, date, Bounces)
    && open.Keys == OpenSet(records, idx)
  }

  /** Consume row `idx`, which lies on day `date`: a start counts an arrival and opens its obligation, a reopen reopens it, a completion is counted, listed and closes it. */
  method ConsumeRow(records: seq<Record>, flags: seq<Option<bool>>, idx: nat, date: int,
                    lambdaExo0: nat, muA0: nat, completions0: seq<nat>, open0: map<ItemId, int>)
    returns (lambdaExo: nat, muA: nat, completions: seq<nat>, open: map<ItemId, int>)
    requires |flags| == |records| && idx < |records| && Day(records[idx].ts) == date
    requires DayProgress(records, flags, idx, date, lambdaExo0, muA0, completions0, open0)
    ensures DayProgress(records, flags, idx + 1, date, lambdaExo, muA, completions, open)
  {
    lambdaExo, muA, completions, open := lambdaExo0, muA0, completions0, open0;
    var rec := records[idx];
    ConsumeStep(records, flags, idx, date);
    OpenSetStep(records, idx);
    match rec.kind {
      case Start =>
        lambdaExo := lambdaExo + 1;
        open := open[rec.item := rec.ts];
      case Reopen =>
        open := open[rec.item := rec.ts];
      case Done =>
        muA := muA + 1;
        assert (completions + [idx])[..|completions|] == completions;
        completions := completions + [idx];
        open := open - {rec.item};
      case Attempt =>
      case Other(_) =>
    }
  }

  /** On a sorted ledger, the first row stamped after day `date` starts the rows of later days. */
  lemma {:induction false} DayClosed(records: seq<Record>, idx: nat, date: int)
    requires Sorted(records) && idx <= |records|
    requires idx < |records| ==> !(records[idx].ts < (date + 1) * DaySeconds)
    ensures forall i :: idx <= i < |records| ==> date < Day(records[i].ts)
  {
    if idx < |records| {
      BeforeDayEnd(records[idx].ts, date);
      forall i | idx <= i < |records|
        ensures date < Day(records[i].ts)
      {
        DayMonotone(records[idx].ts, records[i].ts);
      }
    }
  }

  /**
   * Consume the rows of day `date`, starting at `idx0`: count starts and completions, collect the
   * completions' positions and keep the open-items map in step with the rows consumed.
   */
  method ConsumeDay(records: seq<Record>, flags: seq<Option<bool>>, idx0: nat, date: int, open0: map<ItemId, int>)
    returns (idx: nat, lambdaExo: nat, muA: nat, completions: seq<nat>, open: map<ItemId, int>)
    requires Sorted(records) && |flags| == |records|
    requires SplitAt(records, idx0, date)
    requires open0.Keys == OpenSet(records, idx0)
    ensures idx0 <= idx && SplitAt(records, idx, date + 1)
    ensures lambdaExo == Tally(records, flags, |records|, date, Arrivals)
    ensures muA == Tally(records, flags, |records|, date, Attempts)
    ensures completions == DoneOn(records, |records|, date)
    ensures Marked(flags, completions, false) == Tally(records, flags, |records|, date, Sticks)
    ensures Marked(flags, completions, true) == Tally(records, flags, |records|, date, Bounces)
    ensures open.Keys == OpenSet(records, idx)
  {
    idx, lambdaExo, muA, completions, open := idx0, 0, 0, [], open0;
    DoneOnFrame(records, 0, idx0, date);
    TallyFrame(records, flags, 0, idx0, date, Arrivals);
    TallyFrame(records, flags, 0, idx0, date, Attempts);
    TallyFrame(records, flags, 0, idx0, date, Sticks);
    TallyFrame(records, flags, 0, idx0, date, Bounces);
    while idx < |records| && records[idx].ts < (date + 1) * DaySeconds
      invariant idx0 <= idx <= |records|
      invariant forall i :: 0 <= i < idx ==> Day(records[i].ts) < date + 1
      invariant DayProgress(records, flags, idx, date, lambdaExo, muA, completions, open)
    {
      BeforeDayEnd(records[idx].ts, date);
      lambdaExo, muA, completions, open := ConsumeRow(records, flags, idx, date, lambdaExo, muA, completions, open);
      idx := idx + 1;
    }
    DayClosed(records, idx, date);
    DoneOnFrame(records, idx, |records|, date);
    TallyFrame(records, flags, idx, |records|, date, Arrivals);
    TallyFrame(records, flags, idx, |records|, date, Attempts);
    TallyFrame(records, flags, idx, |records|, date, Sticks);
    TallyFrame(records, flags, idx, |records|, date, Bounces);
  }

  /**
   * Split a day's completions into sticks and bounces by their flags. A completion without a
   * flag makes both counts unobservable (absent).
   */
  method ClassifyCompletions(flags: seq<Option<bool>>, completions: seq<nat>) returns (muD: Option<nat>, rhoGen: Option<nat>)
    requires forall j :: 0 <= j < |completions| ==> completions[j] < |flags|
    ensures (forall j :: 0 <= j < |completions| ==> flags[completions[j]].Some?) ==>
              muD == Some(Marked(flags, completions, false)) && rhoGen == Some(Marked(flags, completions, true))
    ensures (exists j :: 0 <= j < |completions| && flags[completions[j]].None?) ==>
              muD.None? && rhoGen.None?
  {
    var sticks, bounces := 0, 0;
    for j := 0 to |completions|
      invariant forall i :: 0 <= i < j ==> flags[completions[i]].Some?
      invariant sticks == Marked(flags, completions[..j], false)
      invariant bounces == Marked(flags, completions[..j], true)
    {
      var bounce := flags[completions[j]];
      if bounce.None? {
        return None, None;
      }
      assert completions[..j + 1][..j] == completions[..j];
      if bounce.value {
        bounces := bounces + 1;
      } else {
        sticks := sticks + 1;
      }
    }
    assert completions[..|completions|] == completions;
    return Some(sticks), Some(bounces);
  }

  /**
   * The counters of day `date`: consume its rows, split its completions, derive the stick rate
   * and read the backlog off the open-items map. The row returned has no ratio `dcr` yet.
   */
  method DayCounts(records: seq<Record>, flags: seq<Option<bool>>, idx0: nat, date: int, open0: map<ItemId, int>)
    returns (idx: nat, open: map<ItemId, int>, counts: DailyMetrics)
    requires Sorted(records) && |flags| == |records| && idx0 <= |records|
    requires forall g :: 0 <= g < |records| && records[g].kind == Done ==> flags[g].Some?
    requires SplitAt(records, idx0, date)
    requires open0.Keys == OpenSet(records, idx0)
    ensures idx0 <= idx && SplitAt(records, idx, date + 1)
    ensures open.Keys == OpenSet(records, idx)
    ensures RowMatches(records, flags, counts, date) && counts.dcr.None?
  {
    var lambdaExo, muA, completions;
    idx, lambdaExo, muA, completions, open := ConsumeDay(records, flags, idx0, date, open0);
    DoneOnSound(records, |records|, date);
    var muD, rhoGen := ClassifyCompletions(flags, completions);

    var q: Option<Ratio>;
    if muA == 0 {
      q := None;
    } else if muD.None? {
      q := None;
    } else {
      q := Some(Ratio(muD.value, muA));
    }

    CountThroughPrefix(records, idx, |records|, date);
    var backlog := |open|;
    counts := DailyMetrics(date, lambdaExo, muA, q, muD, rhoGen, backlog, None);
  }

  /**
   * Drop from the front of the window queue every entry dated `windowDays` or more days before
   * `date`. The queue holds the days just before `date`, oldest first.
   */
  method DropExpired(queue0: seq<WindowEntry>, sumLambdaExo0: int, sumMuD0: int, windowDays: int, date: int)
    returns (queue: seq<WindowEntry>, sumLambdaExo: int, sumMuD: int)
    requires sumLambdaExo0 == QueueSum(queue0, false) && sumMuD0 == QueueSum(queue0, true)
    requires forall m :: 0 <= m < |queue0| ==> queue0[m].date == date - |queue0| + m
    ensures |queue| == if |queue0| < Span(windowDays) then |queue0| else Span(windowDays) - 1
    ensures queue == queue0[|queue0| - |queue|..]
    ensures sumLambdaExo == QueueSum(queue, false) && sumMuD == QueueSum(queue, true)
  {
    queue, sumLambdaExo, sumMuD := queue0, sumLambdaExo0, sumMuD0;
    ghost var popped := 0;
    while |queue| > 0 && date - queue[0].date >= windowDays
      invariant popped <= |queue0| && queue == queue0[popped..]
      invariant popped == 0 || |queue0| - popped >= Span(windowDays) - 1
      invariant sumLambdaExo == QueueSum(queue, false) && sumMuD == QueueSum(queue, true)
    {
      sumLambdaExo := sumLambdaExo - queue[0].lambdaExo;
      sumMuD := sumMuD - queue[0].muD;
      queue := queue[1..];
      popped := popped + 1;
    }
    assert |queue| > 0 ==> queue[0] == queue0[popped];
  }

  /** Slide the window to the day of `entry`: drop the expired entries, append the new day and keep the running sums. */
  method SlideWindow(queue0: seq<WindowEntry>, sumLambdaExo0: int, sumMuD0: int, windowDays: int, entry: WindowEntry)
    returns (queue: seq<WindowEntry>, sumLambdaExo: int, sumMuD: int)
    requires sumLambdaExo0 == QueueSum(queue0, false) && sumMuD0 == QueueSum(queue0, true)
    requires |queue0| <= Span(windowDays)
    requires forall m :: 0 <= m < |queue0| ==> queue0[m].date == entry.date - |queue0| + m
    ensures |queue| == if |queue0| < Span(windowDays) then |queue0| + 1 else Span(windowDays)
    ensures queue == queue0[|queue0| + 1 - |queue|..] + [entry]
    ensures sumLambdaExo == QueueSum(queue, false) && sumMuD == QueueSum(queue, true)
  {
    queue, sumLambdaExo, sumMuD := DropExpired(queue0, sumLambdaExo0, sumMuD0, windowDays, entry.date);
    ghost var kept := queue;
    assert kept == queue0[|queue0| - |kept|..];
    QueueSumAppend(queue, entry, false);
    QueueSumAppend(queue, entry, true);
    queue := queue + [entry];
    sumLambdaExo := sumLambdaExo + entry.lambdaExo;
    sumMuD := sumMuD + entry.muD;
  }

  /** Rows `idx..` of the ledger are dated `date` or later, the rows before them earlier. */
  ghost predicate SplitAt(records: seq<Record>, idx: nat, date: int)
  {
    && idx <= |records|
    && (forall i :: 0 <= i < idx ==> Day(records[i].ts) < date)
    && (forall i :: idx <= i < |records| ==> date <= Day(records[i].ts))
  }

  /** Row `j` of `rows` is dated `startDate + j`. */
  ghost predicate Dated(rows: seq<DailyMetrics>, startDate: int)
  {
    forall j :: 0 <= j < |rows| ==> rows[j].date == startDate + j
  }

  /** The ratio `dcr` plays no part in matching a row against the day's counters. */
  lemma RowMatchesIgnoresDcr(records: seq<Record>, flags: seq<Option<bool>>, counts: DailyMetrics, dcr: Option<Ratio>, date: int)
    requires |flags| == |records| && RowMatches(records, flags, counts, date)
    ensures RowMatches(records, flags, counts.(dcr := dcr), date)
  {
  }

  /** Every row of `rows` is the day's counters, row `j` being day `startDate + j`. */
  ghost predicate RowsMatch(records: seq<Record>, flags: seq<Option<bool>>, rows: seq<DailyMetrics>, startDate: int)
    requires |flags| == |records|
  {
    forall j :: 0 <= j < |rows| ==> RowMatches(records, flags, rows[j], startDate + j)
  }

  /** Every row of `rows` carries the brute-force ratio of its window. */
  ghost predicate RollingAll(rows: seq<DailyMetrics>, windowDays: int)
  {
    forall j :: 0 <= j < |rows| ==> RollingAt(rows, j, windowDays)
  }

  /** The window queue holds the entries of the last Span(windowDays) rows, oldest first. */
  ghost predicate WindowHolds(rows: seq<DailyMetrics>, windowDays: int, queue: seq<WindowEntry>)
  {
    && |queue| == |rows| - Max0(|rows| - Span(windowDays))
    && (forall m :: 0 <= m < |queue| ==> queue[m] == EntryOf(rows[|rows| - |queue| + m]))
  }

  /** Appending the counters of the next day keeps every row matching its day. */
  lemma {:induction false} RowsMatchExtend(records: seq<Record>, flags: seq<Option<bool>>, rows: seq<DailyMetrics>, row: DailyMetrics, startDate: int)
    requires |flags| == |records|
    requires RowsMatch(records, flags, rows, startDate)
    requires RowMatches(records, flags, row, startDate + |rows|)
    ensures RowsMatch(records, flags, rows + [row], startDate)
  {
    forall j | 0 <= j < |rows| + 1
      ensures RowMatches(records, flags, (rows + [row])[j], startDate + j)
    {
      if j < |rows| {
        assert (rows + [row])[j] == rows[j];
      }
    }
  }

  /** The queue of a window over consecutive rows holds consecutive dates, ending the day before the next row. */
  lemma {:induction false} QueueDates(rows: seq<DailyMetrics>, windowDays: int, queue: seq<WindowEntry>, startDate: int)
    requires WindowHolds(rows, windowDays, queue)
    requires Dated(rows, startDate)
    ensures |queue| <= Span(windowDays)
    ensures forall m :: 0 <= m < |queue| ==> queue[m].date == startDate + |rows| - |queue| + m
  {
    var lo := Max0(|rows| - Span(windowDays));
    forall m | 0 <= m < |queue|
      ensures queue[m].date == startDate + |rows| - |queue| + m
    {
      assert queue[m] == EntryOf(rows[lo + m]);
    }
  }

  /** A queue holding the last rows' entries yields, through its sums, the brute-force ratio of the last row. */
  lemma RollingLast(rows: seq<DailyMetrics>, windowDays: int, queue: seq<WindowEntry>)
    requires 0 < |rows| && Consecutive(rows)
    requires WindowHolds(rows, windowDays, queue)
    requires rows[|rows| - 1].dcr == DcrOf(QueueSum(queue, true), QueueSum(queue, false))
    ensures RollingAt(rows, |rows| - 1, windowDays)
  {
    var lo := Max0(|rows| - Span(windowDays));
    QueueMatchesWindow(rows, windowDays, lo, queue, 0, false);
    QueueMatchesWindow(rows, windowDays, lo, queue, 0, true);
    assert rows[..|rows|] == rows;
  }

  /** Appending a row leaves the ratios of the earlier rows as they were. */
  lemma RollingExtend(rows: seq<DailyMetrics>, row: DailyMetrics, windowDays: int)
    requires RollingAll(rows, windowDays)
    ensures forall j :: 0 <= j < |rows| ==> RollingAt(rows + [row], j, windowDays)
  {
    forall j | 0 <= j < |rows|
      ensures RollingAt(rows + [row], j, windowDays)
    {
      assert RollingAt(rows, j, windowDays);
      assert (rows + [row])[..j + 1] == rows[..j + 1];
    }
  }

  /** After one slide the queue holds the entries of the last Span(windowDays) rows of the extended series. */
  lemma WindowShift(rows: seq<DailyMetrics>, row: DailyMetrics, windowDays: int, queue0: seq<WindowEntry>, queue: seq<WindowEntry>)
    requires WindowHolds(rows, windowDays, queue0)
    requires |queue| == if |queue0| < Span(windowDays) then |queue0| + 1 else Span(windowDays)
    requires queue == queue0[|queue0| + 1 - |queue|..] + [EntryOf(row)]
    ensures WindowHolds(rows + [row], windowDays, queue)
  {
    var next := rows + [row];
    assert |queue| == |next| - Max0(|next| - Span(windowDays));
    forall m | 0 <= m < |queue|
      ensures queue[m] == EntryOf(next[|next| - |queue| + m])
    {
      ShiftedEntry(rows, row, queue0, queue, m);
    }
  }

  /** Entry `m` of the slid queue: an old entry moved down, or the new row's entry at the back. */
  lemma {:induction false} ShiftedEntry(rows: seq<DailyMetrics>, row: DailyMetrics, queue0: seq<WindowEntry>, queue: seq<WindowEntry>, m: nat)
    requires |queue0| <= |rows| && 0 < |queue| <= |queue0| + 1
    requires forall m :: 0 <= m < |queue0| ==> queue0[m] == EntryOf(rows[|rows| - |queue0| + m])
    requires queue == queue0[|queue0| + 1 - |queue|..] + [EntryOf(row)]
    requires m < |queue|
    ensures queue[m] == EntryOf((rows + [row])[|rows| + 1 - |queue| + m])
  {
    var cut := |queue0| + 1 - |queue|;
    if m < |queue| - 1 {
      assert queue[m] == queue0[cut + m];
      assert queue0[cut + m] == EntryOf(rows[|rows| - |queue0| + cut + m]);
    }
  }

  /**
   * One slide of the window: when the queue slid onto the next row's entry and that row carries
   * the ratio of the new sums, the queue again holds the window and every row its ratio.
   */
  lemma WindowAdvance(rows: seq<DailyMetrics>, row: DailyMetrics, windowDays: int, queue0: seq<WindowEntry>, queue: seq<WindowEntry>, startDate: int)
    requires WindowHolds(rows, windowDays, queue0)
    requires RollingAll(rows, windowDays)
    requires Dated(rows, startDate)
    requires row.date == startDate + |rows|
    requires |queue| == if |queue0| < Span(windowDays) then |queue0| + 1 else Span(windowDays)
    requires queue == queue0[|queue0| + 1 - |queue|..] + [EntryOf(row)]
    requires row.dcr == DcrOf(QueueSum(queue, true), QueueSum(queue, false))
    ensures WindowHolds(rows + [row], windowDays, queue)
    ensures RollingAll(rows + [row], windowDays)
    ensures Dated(rows + [row], startDate)
  {
    var next := rows + [row];
    WindowShift(rows, row, windowDays, queue0, queue);
    assert Dated(next, startDate) by {
      forall j | 0 <= j < |next|
        ensures next[j].date == startDate + j
      {
        if j < |rows| {
          assert next[j] == rows[j];
        }
      }
    }
    assert Consecutive(next);
    RollingLast(next, windowDays, queue);
    RollingExtend(rows, row, windowDays);
  }

  /**
   * The state of the calendar loop after the first `|rows|` days from `startDate`: the row
   * cursor and the open-items map are at the end of the last day done, every row matches its
   * day and carries its window ratio, and the queue holds the current window with its sums.
   */
  ghost predicate Progress(records: seq<Record>, flags: seq<Option<bool>>, windowDays: int, startDate: int,
                           idx: nat, open: map<ItemId, int>, rows: seq<DailyMetrics>,
                           queue: seq<WindowEntry>, sumLambdaExo: int, sumMuD: int)
    requires |flags| == |records|
  {
    && SplitAt(records, idx, startDate + |rows|)
    && open.Keys == OpenSet(records, idx)
    && RowsMatch(records, flags, rows, startDate)
    && Dated(rows, startDate)
    && RollingAll(rows, windowDays)
    && WindowHolds(rows, windowDays, queue)
    && sumLambdaExo == QueueSum(queue, false) && sumMuD == QueueSum(queue, true)
  }

  /**
   * Close day `counts.date`: slide the window onto it, derive the ratio from the running sums
   * and fill it into the day's row.
   */
  method CloseDay(rows0: seq<DailyMetrics>, counts: DailyMetrics, windowDays: int, startDate: int,
                  queue0: seq<WindowEntry>, sumLambdaExo0: int, sumMuD0: int)
    returns (row: DailyMetrics, queue: seq<WindowEntry>, sumLambdaExo: int, sumMuD: int)
    requires Dated(rows0, startDate) && counts.date == startDate + |rows0|
    requires RollingAll(rows0, windowDays) && WindowHolds(rows0, windowDays, queue0)
    requires sumLambdaExo0 == QueueSum(queue0, false) && sumMuD0 == QueueSum(queue0, true)
    ensures row == counts.(dcr := row.dcr)
    ensures Dated(rows0 + [row], startDate)
    ensures RollingAll(rows0 + [row], windowDays) && WindowHolds(rows0 + [row], windowDays, queue)
    ensures sumLambdaExo == QueueSum(queue, false) && sumMuD == QueueSum(queue, true)
  {
    var durable := DurableOrZero(counts);
    var entry := WindowEntry(counts.date, counts.lambdaExo, durable);
    QueueDates(rows0, windowDays, queue0, startDate);
    queue, sumLambdaExo, sumMuD := SlideWindow(queue0, sumLambdaExo0, sumMuD0, windowDays, entry);
    var dcr := if sumLambdaExo > 0 then Some(Ratio(sumMuD, sumLambdaExo)) else None;
    row := counts.(dcr := dcr);
    assert EntryOf(row) == entry;
    WindowAdvance(rows0, row, windowDays, queue0, queue, startDate);
  }

  /** Before the first day nothing is consumed, no row is written and the window is empty. */
  lemma {:induction false} ProgressStart(records: seq<Record>, flags: seq<Option<bool>>, windowDays: int)
    requires Sorted(records) && |flags| == |records| && 0 < |records|
    ensures Progress(records, flags, windowDays, Day(records[0].ts), 0, map[], [], [], 0, 0)
  {
    SortedDays(records);
    assert OpenSet(records, 0) == {};
  }

  /** One day of the calendar loop: count the day, close it and append its row. */
  method AdvanceDay(records: seq<Record>, flags: seq<Option<bool>>, windowDays: int, startDate: int,
                    idx0: nat, open0: map<ItemId, int>, rows0: seq<DailyMetrics>,
                    queue0: seq<WindowEntry>, sumLambdaExo0: int, sumMuD0: int)
    returns (idx: nat, open: map<ItemId, int>, rows: seq<DailyMetrics>,
             queue: seq<WindowEntry>, sumLambdaExo: int, sumMuD: int)
    requires Sorted(records) && |flags| == |records|
    requires forall g :: 0 <= g < |records| && records[g].kind == Done ==> flags[g].Some?
    requires Progress(records, flags, windowDays, startDate, idx0, open0, rows0, queue0, sumLambdaExo0, sumMuD0)
    ensures |rows| == |rows0| + 1 && rows[..|rows0|] == rows0
    ensures Progress(records, flags, windowDays, startDate, idx, open, rows, queue, sumLambdaExo, sumMuD)
  {
    var date := startDate + |rows0|;
    var counts, row;
    idx, open, counts := DayCounts(records, flags, idx0, date, open0);
    row, queue, sumLambdaExo, sumMuD := CloseDay(rows0, counts, windowDays, startDate, queue0, sumLambdaExo0, sumMuD0);
    RowMatchesIgnoresDcr(records, flags, counts, row.dcr, date);
    RowsMatchExtend(records, flags, rows0, row, startDate);
    rows := rows0 + [row];
  }

  /**
   * The daily series of a timestamp-sorted ledger: one row per calendar day from the first
   * row's day to the last row's day, with horizon `horizonDays` and window `windowDays`.
   */
  method ComputeMetrics(records: seq<Record>, horizonDays: int := 30, windowDays: int := 90) returns (rows: seq<DailyMetrics>)
    requires Sorted(records)
    ensures MetricsOf(records, horizonDays, windowDays, rows)
  {
    var flags := PrecomputeBounceFlags(records, horizonDays * DaySeconds);
    if |records| == 0 {
      return [];
    }
    var n := |records|;
    var startDate := Day(records[0].ts);
    var endDate := Day(records[n - 1].ts);
    var numDays := endDate - startDate + 1;
    ProgressStart(records, flags, windowDays);

    var idx := 0;
    var open: map<ItemId, int> := map[];
    rows := [];
    var queue: seq<WindowEntry> := [];
    var sumLambdaExo, sumMuD := 0, 0;

    for k := 0 to numDays
      invariant |rows| == k
      invariant Progress(records, flags, windowDays, startDate, idx, open, rows, queue, sumLambdaExo, sumMuD)
    {
      idx, open, rows, queue, sumLambdaExo, sumMuD :=
        AdvanceDay(records, flags, windowDays, startDate, idx, open, rows, queue, sumLambdaExo, sumMuD);
    }
  }
}
