/**
 * The diagnostics of a run, taken from the daily series: column totals, the largest backlog,
 * the days on which completions do not split into sticks and bounces, and the backlog-trend
 * regime label. Only the values are modelled; writing them out is not.
 */
module Diagnostics {
  import opened Daily

  /** A day on which both split counts are present but do not add up to the completions. */
  datatype Violation = Violation(date: int, muA: nat, muD: nat, rhoGen: nat)

  /** The backlog-trend label; `Unclassified` is the empty label left for an empty series. */
  datatype Regime = Unclassified | BacklogGrowth | StableOrDeclining

  datatype Report = Report(
    horizonDays: int,
    windowDays: int,
    nDays: nat,
    totalArrivals: nat,
    totalAttempts: nat,
    totalCompletions: nat,
    maxBacklog: nat,
    violations: seq<Violation>,
    regime: Regime)

  /** The value a row contributes to the total of counter `c`; an absent count contributes 0. */
  function Column(m: DailyMetrics, c: Counter): nat
  {
    match c
    case Arrivals => m.lambdaExo
    case Attempts => m.muA
    case Sticks => DurableOrZero(m)
    case Bounces => if m.rhoGen.Some? then m.rhoGen.value else 0
  }

  /** The total of counter `c` over the rows of `ms`. */
  function ColumnSum(ms: seq<DailyMetrics>, c: Counter): nat
  {
    if ms == [] then 0 else ColumnSum(ms[..|ms| - 1], c) + Column(ms[|ms| - 1], c)
  }

  /** The largest backlog of the series, 0 for an empty series. */
  function MaxBacklog(ms: seq<DailyMetrics>): (r: nat)
    ensures forall k :: 0 <= k < |ms| ==> ms[k].backlog <= r
    ensures ms == [] ==> r == 0
    ensures ms != [] ==> exists k :: 0 <= k < |ms| && ms[k].backlog == r
  {
    if ms == [] then 0
    else
      var rest := MaxBacklog(ms[..|ms| - 1]);
      var last := ms[|ms| - 1].backlog;
      assert forall k :: 0 <= k < |ms| - 1 ==> ms[k] == ms[..|ms| - 1][k];
      if last > rest then last else rest
  }

  /** A row is balanced unless both split counts are present and miss the completions. */
  predicate Balanced(m: DailyMetrics)
  {
    m.muD.None? || m.rhoGen.None? || m.muA == m.muD.value + m.rhoGen.value
  }

  /** The violations of the series, in day order: one per unbalanced row. */
  function ViolationsOf(ms: seq<DailyMetrics>): seq<Violation>
  {
    if ms == [] then []
    else
      var m := ms[|ms| - 1];
      ViolationsOf(ms[..|ms| - 1])
      + (if Balanced(m) then [] else [Violation(m.date, m.muA, m.muD.value, m.rhoGen.value)])
  }

  /** The label of the series: growth when the last day ends with more open obligations than the first. */
  function RegimeOf(ms: seq<DailyMetrics>): Regime
  {
    if ms == [] then Unclassified
    else if ms[|ms| - 1].backlog > ms[0].backlog then BacklogGrowth
    else StableOrDeclining
  }

  /** The violation list is empty exactly when every row is balanced, and never longer than the series. */
  lemma {:induction false} ViolationsEmptyIff(ms: seq<DailyMetrics>)
    ensures |ViolationsOf(ms)| <= |ms|
    ensures ViolationsOf(ms) == [] <==> forall k :: 0 <= k < |ms| ==> Balanced(ms[k])
  {
    if ms != [] {
      var init := ms[..|ms| - 1];
      ViolationsEmptyIff(init);
      assert forall k :: 0 <= k < |init| ==> init[k] == ms[k];
    }
  }

  /** Every violation reports an unbalanced row of the series, with that row's date and counts. */
  lemma {:induction false} ViolationsReportRows(ms: seq<DailyMetrics>, v: Violation)
    requires v in ViolationsOf(ms)
    ensures exists k :: 0 <= k < |ms| && !Balanced(ms[k])
                        && v == Violation(ms[k].date, ms[k].muA, ms[k].muD.value, ms[k].rhoGen.value)
  {
    var init := ms[..|ms| - 1];
    var m := ms[|ms| - 1];
    if v in ViolationsOf(init) {
      ViolationsReportRows(init, v);
      var k :| 0 <= k < |init| && !Balanced(init[k])
               && v == Violation(init[k].date, init[k].muA, init[k].muD.value, init[k].rhoGen.value);
      assert init[k] == ms[k];
    } else {
      assert !Balanced(m) && v == Violation(m.date, m.muA, m.muD.value, m.rhoGen.value);
    }
  }

  /**
   * The diagnostics of a series: its length, the arrival, completion and durable-closure
   * totals, the largest backlog, the violations found by scanning the rows, and the regime.
   */
  method Diagnose(metrics: seq<DailyMetrics>, horizonDays: int, windowDays: int) returns (r: Report)
    ensures r.horizonDays == horizonDays && r.windowDays == windowDays && r.nDays == |metrics|
    ensures r.totalArrivals == ColumnSum(metrics, Arrivals)
    ensures r.totalAttempts == ColumnSum(metrics, Attempts)
    ensures r.totalCompletions == ColumnSum(metrics, Sticks)
    ensures r.maxBacklog == MaxBacklog(metrics)
    ensures r.violations == ViolationsOf(metrics)
    ensures r.regime == RegimeOf(metrics)
  {
    var violations: seq<Violation> := [];
    for k := 0 to |metrics|
      invariant violations == ViolationsOf(metrics[..k])
    {
      var m := metrics[k];
      assert metrics[..k + 1][..k] == metrics[..k];
      if m.muD.None? || m.rhoGen.None? {
        continue;
      }
      if m.muA != m.muD.value + m.rhoGen.value {
        violations := violations + [Violation(m.date, m.muA, m.muD.value, m.rhoGen.value)];
      }
    }
    assert metrics[..|metrics|] == metrics;
    var regime := Unclassified;
    if |metrics| > 0 {
      if metrics[|metrics| - 1].backlog > metrics[0].backlog {
        regime := BacklogGrowth;
      } else {
        regime := StableOrDeclining;
      }
    }
    r := Report(horizonDays, windowDays, |metrics|,
                ColumnSum(metrics, Arrivals), ColumnSum(metrics, Attempts), ColumnSum(metrics, Sticks),
                MaxBacklog(metrics), violations, regime);
  }
}
