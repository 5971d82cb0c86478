/**
 * What one row of the daily series means, stated over the whole ledger: per-day tallies of
 * arrivals, completions, sticks and bounces, the set of obligations open at the end of a day,
 * and the trailing-window sums behind the durable-clearance ratio.
 */
module Daily {
  import opened Ledger
  import opened Bounce

  /** A ratio kept as numerator over denominator, in place of a float. */
  datatype Ratio = Ratio(num: int, den: int)

  /** One row of the daily series. */
  datatype DailyMetrics = DailyMetrics(
    date: int,
    lambdaExo: nat,
    muA: nat,
    q: Option<Ratio>,
    muD: Option<nat>,
    rhoGen: Option<nat>,
    backlog: nat,
    dcr: Option<Ratio>)

  /** The four per-day counters that are read off individual rows. */
  datatype Counter = Arrivals | Attempts | Sticks | Bounces

  predicate Hits(c: Counter, r: Record, flag: Option<bool>)
  {
    match c
    case Arrivals => r.kind == Start
    case Attempts => r.kind == Done
    case Sticks => r.kind == Done && flag == Some(false)
    case Bounces => r.kind == Done && flag == Some(true)
  }

  /** How many of the first `n` rows fall on day `d` and count towards `c`. */
  function Tally(rs: seq<Record>, flags: seq<Option<bool>>, n: nat, d: int, c: Counter): nat
    requires n <= |rs| && |flags| == |rs|
    decreases n
  {
    if n == 0 then 0
    else Tally(rs, flags, n - 1, d, c) + (if Day(rs[n - 1].ts) == d && Hits(c, rs[n - 1], flags[n - 1]) then 1 else 0)
  }

  /** How many of the first `n` rows count towards `c`, whatever their day. */
  function Total(rs: seq<Record>, flags: seq<Option<bool>>, n: nat, c: Counter): nat
    requires n <= |rs| && |flags| == |rs|
    decreases n
  {
    if n == 0 then 0
    else Total(rs, flags, n - 1, c) + (if Hits(c, rs[n - 1], flags[n - 1]) then 1 else 0)
  }

  /** How many of the first `n` rows fall on days `a` up to but excluding `b` and count towards `c`. */
  function TallyBetween(rs: seq<Record>, flags: seq<Option<bool>>, n: nat, a: int, b: int, c: Counter): nat
    requires n <= |rs| && |flags| == |rs|
    decreases n
  {
    if n == 0 then 0
    else TallyBetween(rs, flags, n - 1, a, b, c)
         + (if a <= Day(rs[n - 1].ts) < b && Hits(c, rs[n - 1], flags[n - 1]) then 1 else 0)
  }

  /** How many of the first `n` rows are stamped on day `d` or earlier. */
  function CountThrough(rs: seq<Record>, n: nat, d: int): (r: nat)
    requires n <= |rs|
    ensures r <= n
    decreases n
  {
    if n == 0 then 0
    else CountThrough(rs, n - 1, d) + (if Day(rs[n - 1].ts) <= d then 1 else 0)
  }

  /** Rows of other days do not change a day's tally. */
  lemma {:induction false} TallyFrame(rs: seq<Record>, flags: seq<Option<bool>>, m: nat, n: nat, d: int, c: Counter)
    requires m <= n <= |rs| && |flags| == |rs|
    requires forall i :: m <= i < n ==> Day(rs[i].ts) != d
    ensures Tally(rs, flags, n, d, c) == Tally(rs, flags, m, d, c)
    decreases n
  {
    if m < n {
      TallyFrame(rs, flags, m, n - 1, d, c);
    }
  }

  /** The positions among the first `n` rows of the completions stamped on day `d`, in ledger order. */
  function DoneOn(rs: seq<Record>, n: nat, d: int): (r: seq<nat>)
    requires n <= |rs|
    ensures forall j :: 0 <= j < |r| ==> r[j] < n
    decreases n
  {
    if n == 0 then []
    else DoneOn(rs, n - 1, d) + (if rs[n - 1].kind == Done && Day(rs[n - 1].ts) == d then [n - 1] else [])
  }

  /** Every position in a day's list of completions is a completion stamped on that day. */
  lemma {:induction false} DoneOnSound(rs: seq<Record>, n: nat, d: int)
    requires n <= |rs|
    ensures forall j :: 0 <= j < |DoneOn(rs, n, d)| ==> rs[DoneOn(rs, n, d)[j]].kind == Done && Day(rs[DoneOn(rs, n, d)[j]].ts) == d
    decreases n
  {
    if n > 0 {
      DoneOnSound(rs, n - 1, d);
    }
  }

  /** Every completion among the first `n` rows stamped on day `d` is in that day's list. */
  lemma {:induction false} DoneOnComplete(rs: seq<Record>, n: nat, d: int)
    requires n <= |rs|
    ensures forall i :: 0 <= i < n && rs[i].kind == Done && Day(rs[i].ts) == d ==> i in DoneOn(rs, n, d)
    decreases n
  {
    if n > 0 {
      DoneOnComplete(rs, n - 1, d);
      var prev := DoneOn(rs, n - 1, d);
      var tail := if rs[n - 1].kind == Done && Day(rs[n - 1].ts) == d then [n - 1] else [];
      forall i | 0 <= i < n && rs[i].kind == Done && Day(rs[i].ts) == d
        ensures i in DoneOn(rs, n, d)
      {
        if i < n - 1 {
          assert i in prev;
        } else {
          assert i in tail;
        }
      }
    }
  }

  /** A day's list of completions is strictly increasing, so it lists each position once, in ledger order. */
  lemma {:induction false} DoneOnIncreasing(rs: seq<Record>, n: nat, d: int)
    requires n <= |rs|
    ensures forall a, b :: 0 <= a < b < |DoneOn(rs, n, d)| ==> DoneOn(rs, n, d)[a] < DoneOn(rs, n, d)[b]
    decreases n
  {
    if n > 0 {
      DoneOnIncreasing(rs, n - 1, d);
    }
  }

  /** Rows of other days do not change a day's list of completions. */
  lemma {:induction false} DoneOnFrame(rs: seq<Record>, m: nat, n: nat, d: int)
    requires m <= n <= |rs|
    requires forall i :: m <= i < n ==> Day(rs[i].ts) != d
    ensures DoneOn(rs, n, d) == DoneOn(rs, m, d)
    decreases n
  {
    if m < n {
      DoneOnFrame(rs, m, n - 1, d);
    }
  }

  /** A day's list of completions is as long as its completion tally. */
  lemma {:induction false} DoneOnCount(rs: seq<Record>, flags: seq<Option<bool>>, n: nat, d: int)
    requires n <= |rs| && |flags| == |rs|
    ensures |DoneOn(rs, n, d)| == Tally(rs, flags, n, d, Attempts)
    decreases n
  {
    if n > 0 {
      DoneOnCount(rs, flags, n - 1, d);
    }
  }

  /** Conservation: when every completion carries a flag, completions split exactly into sticks and bounces. */
  lemma {:induction false} TallyConservation(rs: seq<Record>, flags: seq<Option<bool>>, n: nat, d: int)
    requires n <= |rs| && |flags| == |rs|
    requires forall i :: 0 <= i < n && rs[i].kind == Done ==> flags[i].Some?
    ensures Tally(rs, flags, n, d, Attempts) == Tally(rs, flags, n, d, Sticks) + Tally(rs, flags, n, d, Bounces)
    decreases n
  {
    if n > 0 {
      TallyConservation(rs, flags, n - 1, d);
      if rs[n - 1].kind == Done {
        assert flags[n - 1].Some?;
        if flags[n - 1].value {
          assert Hits(Bounces, rs[n - 1], flags[n - 1]) && !Hits(Sticks, rs[n - 1], flags[n - 1]);
        } else {
          assert Hits(Sticks, rs[n - 1], flags[n - 1]) && !Hits(Bounces, rs[n - 1], flags[n - 1]);
        }
      }
    }
  }

  /** When every completion is flagged as a stick, a day's sticks are its completions and it has no bounces. */
  lemma {:induction false} TallyAllSticks(rs: seq<Record>, flags: seq<Option<bool>>, n: nat, d: int)
    requires n <= |rs| && |flags| == |rs|
    requires forall i :: 0 <= i < n && rs[i].kind == Done ==> flags[i] == Some(false)
    ensures Tally(rs, flags, n, d, Sticks) == Tally(rs, flags, n, d, Attempts)
    ensures Tally(rs, flags, n, d, Bounces) == 0
    decreases n
  {
    if n > 0 {
      TallyAllSticks(rs, flags, n - 1, d);
    }
  }

  /** Horizon monotonicity per day: a larger horizon never adds sticks and never removes bounces. */
  lemma {:induction false} TallyHorizonMonotone(rs: seq<Record>, n: nat, d: int, h1: int, h2: int)
    requires n <= |rs| && h1 <= h2
    ensures Tally(rs, BounceFlags(rs, h2), n, d, Sticks) <= Tally(rs, BounceFlags(rs, h1), n, d, Sticks)
    ensures Tally(rs, BounceFlags(rs, h2), n, d, Bounces) >= Tally(rs, BounceFlags(rs, h1), n, d, Bounces)
    decreases n
  {
    if n > 0 {
      TallyHorizonMonotone(rs, n - 1, d, h1, h2);
      if BounceFlag(rs, n - 1, h1) == Some(true) {
        HorizonMonotone(rs, n - 1, h1, h2);
      }
    }
  }

  /** Widening the day range by one day adds exactly that day's tally. */
  lemma {:induction false} TallyBetweenStep(rs: seq<Record>, flags: seq<Option<bool>>, n: nat, a: int, b: int, c: Counter)
    requires n <= |rs| && |flags| == |rs| && a <= b
    ensures TallyBetween(rs, flags, n, a, b + 1, c) == TallyBetween(rs, flags, n, a, b, c) + Tally(rs, flags, n, b, c)
    decreases n
  {
    if n > 0 {
      TallyBetweenStep(rs, flags, n - 1, a, b, c);
    }
  }

  /** A day range that holds every row tallies every row. */
  lemma {:induction false} TallyBetweenAll(rs: seq<Record>, flags: seq<Option<bool>>, n: nat, a: int, b: int, c: Counter)
    requires n <= |rs| && |flags| == |rs|
    requires forall i :: 0 <= i < n ==> a <= Day(rs[i].ts) < b
    ensures TallyBetween(rs, flags, n, a, b, c) == Total(rs, flags, n, c)
    decreases n
  {
    if n > 0 {
      TallyBetweenAll(rs, flags, n - 1, a, b, c);
    }
  }

  /** If the rows up to `m` are on day `d` or earlier and the rest later, exactly `m` rows are through day `d`. */
  lemma {:induction false} CountThroughPrefix(rs: seq<Record>, m: nat, n: nat, d: int)
    requires m <= n <= |rs|
    requires forall i :: 0 <= i < m ==> Day(rs[i].ts) <= d
    requires forall i :: m <= i < n ==> Day(rs[i].ts) > d
    ensures CountThrough(rs, n, d) == m
    decreases n
  {
    if n > 0 {
      if n > m {
        CountThroughPrefix(rs, m, n - 1, d);
      } else {
        CountThroughPrefix(rs, m - 1, n - 1, d);
      }
    }
  }

  // ---------------------------------------------------------------------------------------
  // Backlog: which obligations are open after a prefix of the ledger.

  /** Events that put an obligation into the backlog. */
  predicate Opens(k: EventType)
  {
    k == Start || k == Reopen
  }

  /** Events that move an obligation in or out of the backlog; `attempt` and unknown codes do not. */
  predicate Touches(k: EventType)
  {
    k == Start || k == Reopen || k == Done
  }

  /** Row `i` is the most recent row among the first `n` that touches its item. */
  ghost predicate LastTouch(rs: seq<Record>, i: nat, n: nat)
    requires i < n <= |rs|
  {
    forall j :: i < j < n && rs[j].item == rs[i].item ==> !Touches(rs[j].kind)
  }

  /** Items whose most recent start/reopen/done among the first `n` rows is a start or a reopen. */
  ghost function OpenSet(rs: seq<Record>, n: nat): set<ItemId>
    requires n <= |rs|
  {
    set i | 0 <= i < n && Opens(rs[i].kind) && LastTouch(rs, i, n) :: rs[i].item
  }

  /** The backlog as a per-item state machine: start and reopen add the item, done removes it, anything else leaves it. */
  lemma {:induction false} OpenSetStep(rs: seq<Record>, n: nat)
    requires n < |rs|
    ensures OpenSet(rs, n + 1) ==
            if Opens(rs[n].kind) then OpenSet(rs, n) + {rs[n].item}
            else if rs[n].kind == Done then OpenSet(rs, n) - {rs[n].item}
            else OpenSet(rs, n)
  {
    var u := rs[n].item;
    var after := OpenSet(rs, n + 1);
    var before := OpenSet(rs, n);
    var expected := if Opens(rs[n].kind) then before + {u}
                    else if rs[n].kind == Done then before - {u}
                    else before;
    forall v | v in after
      ensures v in expected
    {
      var i :| 0 <= i < n + 1 && Opens(rs[i].kind) && LastTouch(rs, i, n + 1) && rs[i].item == v;
      if i < n {
        assert LastTouch(rs, i, n);
        assert v in before;
      }
    }
    forall v | v in expected
      ensures v in after
    {
      if v == u && Opens(rs[n].kind) {
        assert LastTouch(rs, n, n + 1);
      } else {
        var i :| 0 <= i < n && Opens(rs[i].kind) && LastTouch(rs, i, n) && rs[i].item == v;
        assert LastTouch(rs, i, n + 1);
      }
    }
  }

  // ---------------------------------------------------------------------------------------
  // Rolling window.

  /** One entry of the window queue: a day with its arrivals and its durable closures (absent counted as 0). */
  datatype WindowEntry = WindowEntry(date: int, lambdaExo: nat, muD: nat)

  function DurableOrZero(m: DailyMetrics): nat
  {
    if m.muD.Some? then m.muD.value else 0
  }

  function EntryOf(m: DailyMetrics): WindowEntry
  {
    WindowEntry(m.date, m.lambdaExo, DurableOrZero(m))
  }

  /** The number of days a window effectively covers: the current day is always kept, even for a window of 0 or fewer days. */
  function Span(windowDays: int): int
  {
    if windowDays >= 1 then windowDays else 1
  }

  /** Brute force: the sum over rows `j..` of `ws` dated fewer than Span(windowDays) days before the last row. */
  function WindowSumFrom(ws: seq<DailyMetrics>, windowDays: int, durable: bool, j: nat): nat
    requires 0 < |ws| && j <= |ws|
    decreases |ws| - j
  {
    if j == |ws| then 0
    else (if ws[|ws| - 1].date - ws[j].date < Span(windowDays) then EntryValue(EntryOf(ws[j]), durable) else 0)
         + WindowSumFrom(ws, windowDays, durable, j + 1)
  }

  function WindowSum(ws: seq<DailyMetrics>, windowDays: int, durable: bool): nat
    requires 0 < |ws|
  {
    WindowSumFrom(ws, windowDays, durable, 0)
  }

  function EntryValue(e: WindowEntry, durable: bool): nat
  {
    if durable then e.muD else e.lambdaExo
  }

  /** The running sum that the window queue carries. */
  function QueueSum(queue: seq<WindowEntry>, durable: bool): nat
  {
    if queue == [] then 0 else EntryValue(queue[0], durable) + QueueSum(queue[1..], durable)
  }

  lemma {:induction false} QueueSumAppend(queue: seq<WindowEntry>, e: WindowEntry, durable: bool)
    ensures QueueSum(queue + [e], durable) == QueueSum(queue, durable) + EntryValue(e, durable)
  {
    if queue != [] {
      assert (queue + [e])[1..] == queue[1..] + [e];
      QueueSumAppend(queue[1..], e, durable);
    }
  }

  /** Consecutive days: row `j` is dated `j` days after row 0. */
  ghost predicate Consecutive(ws: seq<DailyMetrics>)
  {
    forall j :: 0 <= j < |ws| ==> ws[j].date == ws[0].date + j
  }

  /**
   * Running sums agree with brute force: a queue holding the entries of the last Span(windowDays)
   * rows of a consecutive series sums to the brute-force window sum of its last row.
   */
  lemma {:induction false} QueueMatchesWindow(ws: seq<DailyMetrics>, windowDays: int, lo: nat, queue: seq<WindowEntry>, j: nat, durable: bool)
    requires 0 < |ws| && Consecutive(ws)
    requires lo == Max0(|ws| - Span(windowDays)) && j <= |ws|
    requires |queue| == |ws| - lo
    requires forall m :: 0 <= m < |queue| ==> queue[m] == EntryOf(ws[lo + m])
    ensures WindowSumFrom(ws, windowDays, durable, j) == QueueSum(queue[if j < lo then 0 else j - lo..], durable)
    decreases |ws| - j
  {
    if j < |ws| {
      QueueMatchesWindow(ws, windowDays, lo, queue, j + 1, durable);
      if j >= lo {
        assert queue[j - lo..][1..] == queue[j - lo + 1..];
      }
    }
  }

  /** The ratio behind `dcr`: absent exactly when the arrival sum is zero. */
  function DcrOf(sumMuD: int, sumLambdaExo: int): Option<Ratio>
  {
    if sumLambdaExo > 0 then Some(Ratio(sumMuD, sumLambdaExo)) else None
  }

  /** The stick rate `q`: absent when there are no completions, durable closures over completions otherwise. */
  function StickRate(muD: nat, muA: nat): Option<Ratio>
  {
    if muA == 0 then None else Some(Ratio(muD, muA))
  }

  // ---------------------------------------------------------------------------------------
  // The whole series.

  function FirstDay(rs: seq<Record>): int
  {
    if |rs| == 0 then 0 else Day(rs[0].ts)
  }

  /** One row per calendar day from the first row's day to the last row's day; none for an empty ledger. */
  function NumDays(rs: seq<Record>): nat
  {
    if |rs| == 0 then 0 else Max0(Day(rs[|rs| - 1].ts) - Day(rs[0].ts) + 1)
  }

  /** Row `m` is the row of day `d`: its counters are that day's tallies over the whole ledger and its backlog is the open set after the day. */
  ghost predicate RowMatches(rs: seq<Record>, flags: seq<Option<bool>>, m: DailyMetrics, d: int)
    requires |flags| == |rs|
  {
    var n := |rs|;
    && m.date == d
    && m.lambdaExo == Tally(rs, flags, n, d, Arrivals)
    && m.muA == Tally(rs, flags, n, d, Attempts)
    && m.muD == Some(Tally(rs, flags, n, d, Sticks))
    && m.rhoGen == Some(Tally(rs, flags, n, d, Bounces))
    && m.q == StickRate(Tally(rs, flags, n, d, Sticks), m.muA)
    && m.backlog == |OpenSet(rs, CountThrough(rs, n, d))|
  }

  /** The last row of `ws` carries the ratio of the brute-force window sums. */
  ghost predicate RollingMatches(ws: seq<DailyMetrics>, windowDays: int)
    requires 0 < |ws|
  {
    ws[|ws| - 1].dcr == DcrOf(WindowSum(ws, windowDays, true), WindowSum(ws, windowDays, false))
  }

  /** Row `k` of `rows` carries the ratio of the brute-force sums over the window ending at it. */
  ghost predicate RollingAt(rows: seq<DailyMetrics>, k: nat, windowDays: int)
  {
    k < |rows| && RollingMatches(rows[..k + 1], windowDays)
  }

  /** `rows` is the daily series of `records` for the given horizon and window. */
  ghost predicate MetricsOf(records: seq<Record>, horizonDays: int, windowDays: int, rows: seq<DailyMetrics>)
  {
    var flags := BounceFlags(records, horizonDays * DaySeconds);
    && |rows| == NumDays(records)
    && (forall k :: 0 <= k < |rows| ==> RowMatches(records, flags, rows[k], FirstDay(records) + k))
    && (forall k :: 0 <= k < |rows| ==> RollingAt(rows, k, windowDays))
  }
}
