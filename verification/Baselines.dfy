/** Per-agent baselines: an exponentially weighted mean and variance per metric, updated one
    session at a time, and what they are of the whole history. Arithmetic is over the reals. */
module Baselines {
  import opened Results
  import opened RealFacts

  const ALPHA: real := 2.0 / 21.0

  datatype Metric = DeadEndCount | ToolInvocations | CostUsd | DurationMs

  const TRACKED: seq<Metric> := [DeadEndCount, ToolInvocations, CostUsd, DurationMs]

  /** A metric as it arrives in a session event. */
  datatype Value = Number(number: real) | Items(items: seq<string>) | Null

  type SessionMetrics = map<Metric, Value>

  /** A list counts as its length for tool invocations; otherwise only a number converts. A missing
      metric is zero. */
  function ExtractMetricValue(session: SessionMetrics, metric: Metric): Result<real> {
    var value := if metric in session then session[metric] else Number(0.0);
    match value
    case Number(x) => Success(x)
    case Items(items) => if metric == ToolInvocations then Success(|items| as real) else Failure(TypeError)
    case Null => Failure(TypeError)
  }

  predicate WellFormed(session: SessionMetrics) {
    forall m: Metric :: ExtractMetricValue(session, m).Success?
  }

  function MetricOf(session: SessionMetrics, metric: Metric): real
    requires WellFormed(session)
  {
    ExtractMetricValue(session, metric).value
  }

  /** A session can be folded in exactly when every value it gives is a number, or for the tool invocations a
      list; a metric it does not give counts as 0, a list as its length. */
  lemma MetricsRead(session: SessionMetrics)
    ensures WellFormed(session) <==>
            forall m: Metric :: m in session ==> session[m].Number? || (m == ToolInvocations && session[m].Items?)
    ensures WellFormed(session) ==> forall m: Metric ::
              MetricOf(session, m) == if m !in session then 0.0
                                      else if session[m].Number? then session[m].number else |session[m].items| as real
  {
    assert forall m: Metric :: ExtractMetricValue(session, m).Success? <==>
             (m in session ==> session[m].Number? || (m == ToolInvocations && session[m].Items?));
  }

  datatype MetricStats = MetricStats(mean: real, variance: real, count: nat)

  const NO_STATS := MetricStats(0.0, 0.0, 0)

  function UpdateStats(previous: MetricStats, value: real): MetricStats {
    if previous.count == 0 then
      MetricStats(value, 0.0, 1)
    else
      var diff := value - previous.mean;
      MetricStats(ALPHA * value + (1.0 - ALPHA) * previous.mean,
                  (1.0 - ALPHA) * (previous.variance + ALPHA * Squared(diff)),
                  previous.count + 1)
  }

  datatype AgentBaseline = AgentBaseline(metrics: map<Metric, MetricStats>, totalSessions: int) {
    function Stats(metric: Metric): MetricStats {
      if metric in metrics then metrics[metric] else NO_STATS
    }
  }

  const FRESH_BASELINE := AgentBaseline(map m: Metric | m in TRACKED :: NO_STATS, 0)

  function OrFresh(current: Option<AgentBaseline>): AgentBaseline {
    match current
    case Some(b) => b
    case None => FRESH_BASELINE
  }

  /** The baseline after one session: every tracked metric takes one step. */
  function Updated(current: AgentBaseline, session: SessionMetrics): AgentBaseline
    requires WellFormed(session)
  {
    AgentBaseline(map m: Metric | m in TRACKED :: UpdateStats(current.Stats(m), MetricOf(session, m)),
                  current.totalSessions + 1)
  }

  lemma AllTracked()
    ensures forall m: Metric :: m in TRACKED
  {
    forall m: Metric
      ensures m in TRACKED
    {
      match m
      case DeadEndCount => assert TRACKED[0] == m;
      case ToolInvocations => assert TRACKED[1] == m;
      case CostUsd => assert TRACKED[2] == m;
      case DurationMs => assert TRACKED[3] == m;
    }
  }

  method UpdateBaseline(current: Option<AgentBaseline>, session: SessionMetrics) returns (r: Result<AgentBaseline>)
    ensures WellFormed(session) ==> r == Success(Updated(OrFresh(current), session))
    ensures !WellFormed(session) ==> r == Failure(TypeError)
  {
    hide UpdateStats;
    var base := OrFresh(current);
    var newMetrics: map<Metric, MetricStats> := map[];
    for i := 0 to |TRACKED|
      invariant newMetrics.Keys == set m | m in TRACKED[..i]
      invariant forall m :: m in newMetrics ==>
                  && ExtractMetricValue(session, m).Success?
                  && newMetrics[m] == UpdateStats(base.Stats(m), ExtractMetricValue(session, m).value)
    {
      var metric := TRACKED[i];
      var value := ExtractMetricValue(session, metric);
      if value.Failure? {
        return Failure(value.error);
      }
      newMetrics := newMetrics[metric := UpdateStats(base.Stats(metric), value.value)];
    }
    AllTracked();
    assert TRACKED[..|TRACKED|] == TRACKED;
    assert WellFormed(session);
    assert newMetrics == Updated(base, session).metrics;
    r := Success(AgentBaseline(newMetrics, base.totalSessions + 1));
  }

  // ----- What the recurrence computes of a history -----

  /** The statistics of one metric after the values `xs`, oldest first. */
  function History(xs: seq<real>): (stats: MetricStats)
    ensures stats.count == |xs|
  {
    if xs == [] then NO_STATS else UpdateStats(History(xs[..|xs| - 1]), xs[|xs| - 1])
  }

  function Power(base: real, n: nat): real {
    if n == 0 then 1.0 else base * Power(base, n - 1)
  }

  /** The weight of the `k`-th of `n` values. */
  function Weight(n: nat, k: nat): real
    requires k < n
  {
    if k == 0 then Power(1.0 - ALPHA, n - 1) else ALPHA * Power(1.0 - ALPHA, n - 1 - k)
  }

  /** The first values of a list, weighted as the oldest of `n`. */
  function WeightedSum(n: nat, ys: seq<real>): real
    requires |ys| <= n
  {
    if ys == [] then 0.0
    else WeightedSum(n, ys[..|ys| - 1]) + Weight(n, |ys| - 1) * ys[|ys| - 1]
  }

  function Squares(xs: seq<real>): (r: seq<real>)
    ensures |r| == |xs|
  {
    if xs == [] then [] else Squares(xs[..|xs| - 1]) + [Squared(xs[|xs| - 1])]
  }

  function Ones(n: nat): (r: seq<real>)
    ensures |r| == n
  {
    if n == 0 then [] else Ones(n - 1) + [1.0]
  }

  lemma WeightAges(n: nat, k: nat)
    requires k < n
    ensures Weight(n + 1, k) == (1.0 - ALPHA) * Weight(n, k)
  {
  }

  /** One more value scales the weight of every earlier one by the same factor. */
  lemma {:induction false} WeightedSumAges(n: nat, ys: seq<real>)
    requires |ys| <= n
    ensures WeightedSum(n + 1, ys) == (1.0 - ALPHA) * WeightedSum(n, ys)
  {
    hide Weight;
    if ys != [] {
      var k, y := |ys| - 1, ys[|ys| - 1];
      WeightedSumAges(n, ys[..k]);
      WeightAges(n, k);
      Reassociate(1.0 - ALPHA, Weight(n, k), y);
    }
  }

  lemma NewestWeight(n: nat)
    requires n >= 1
    ensures Weight(n + 1, n) == ALPHA
  {
    assert Power(1.0 - ALPHA, 0) == 1.0;
  }

  lemma WeightedSumLast(n: nat, ys: seq<real>, y: real)
    requires |ys| < n
    ensures WeightedSum(n, ys + [y]) == WeightedSum(n, ys) + Weight(n, |ys|) * y
  {
    hide Weight;
    var longer := ys + [y];
    assert longer[..|longer| - 1] == ys && longer[|longer| - 1] == y;
  }

  lemma WeightedSumStep(ys: seq<real>, y: real)
    requires ys != []
    ensures WeightedSum(|ys| + 1, ys + [y]) == (1.0 - ALPHA) * WeightedSum(|ys|, ys) + ALPHA * y
  {
    hide Weight, WeightedSum;
    var n := |ys|;
    calc {
      WeightedSum(n + 1, ys + [y]);
      { WeightedSumLast(n + 1, ys, y); }
      WeightedSum(n + 1, ys) + Weight(n + 1, n) * y;
      { NewestWeight(n); }
      WeightedSum(n + 1, ys) + ALPHA * y;
      { WeightedSumAges(n, ys); }
      (1.0 - ALPHA) * WeightedSum(n, ys) + ALPHA * y;
    }
  }

  /** The weights are a distribution. */
  lemma {:induction false} WeightsSumToOne(n: nat)
    requires n >= 1
    ensures WeightedSum(n, Ones(n)) == 1.0
  {
    if n == 1 {
      assert Weight(1, 0) == 1.0;
    } else {
      WeightsSumToOne(n - 1);
      WeightedSumStep(Ones(n - 1), 1.0);
    }
  }

  predicate IsMoments(stats: MetricStats, first: real, second: real) {
    stats.mean == first && stats.variance == second - first * first
  }

  lemma FirstMoments(x: real, stats: MetricStats, first: real, second: real)
    requires stats.mean == x && stats.variance == 0.0 && first == x && second == Squared(x)
    ensures IsMoments(stats, first, second)
  {
  }

  lemma OldestOnly(ys: seq<real>)
    requires |ys| == 1
    ensures WeightedSum(1, ys) == ys[0]
  {
    assert ys[..0] == [];
    assert Weight(1, 0) == 1.0;
    assert WeightedSum(1, ys) == 0.0 + 1.0 * ys[0];
  }

  lemma SingleValue(xs: seq<real>)
    requires |xs| == 1
    ensures IsMoments(History(xs), WeightedSum(1, xs), WeightedSum(1, Squares(xs)))
  {
    var front := xs[..0];
    assert front == [] && Squares(front) == [];
    assert Squares(xs) == [Squared(xs[0])];
    OldestOnly(xs);
    OldestOnly(Squares(xs));
    FirstMoments(xs[0], History(xs), WeightedSum(1, xs), WeightedSum(1, Squares(xs)));
  }

  lemma MomentStep(stats: MetricStats, first: real, second: real, x: real)
    requires stats.count > 0 && IsMoments(stats, first, second)
    ensures IsMoments(UpdateStats(stats, x), (1.0 - ALPHA) * first + ALPHA * x,
                      (1.0 - ALPHA) * second + ALPHA * Squared(x))
  {
    var m := (1.0 - ALPHA) * first + ALPHA * x;
    assert (1.0 - ALPHA) * (second - first * first + ALPHA * ((x - first) * (x - first)))
        == (1.0 - ALPHA) * second + ALPHA * (x * x) - m * m;
  }

  /** The recurrence keeps exactly the weighted mean and the weighted second moment about it. */
  lemma {:induction false} HistoryIsWeightedMoments(xs: seq<real>)
    requires xs != []
    ensures IsMoments(History(xs), WeightedSum(|xs|, xs), WeightedSum(|xs|, Squares(xs)))
  {
    var n := |xs| - 1;
    var front, x := xs[..n], xs[n];
    assert xs == front + [x];
    if n == 0 {
      SingleValue(xs);
    } else {
      HistoryIsWeightedMoments(front);
      WeightedSumStep(front, x);
      WeightedSumStep(Squares(front), Squared(x));
      MomentStep(History(front), WeightedSum(n, front), WeightedSum(n, Squares(front)), x);
    }
  }

  // ----- Range -----

  /** Possible statistics of values in `[lo, hi]`. */
  predicate InRange(stats: MetricStats, lo: real, hi: real) {
    lo <= stats.mean <= hi && 0.0 <= stats.variance <= Room(stats.mean, lo, hi)
  }

  lemma RoomStep(m: real, x: real, lo: real, hi: real)
    ensures Room(ALPHA * x + (1.0 - ALPHA) * m, lo, hi)
         == (1.0 - ALPHA) * (Room(m, lo, hi) + ALPHA * Squared(x - m)) + ALPHA * Room(x, lo, hi)
  {
  }

  lemma UpdateKeepsRange(stats: MetricStats, x: real, lo: real, hi: real)
    requires stats.count > 0 ==> InRange(stats, lo, hi)
    requires lo <= x <= hi
    ensures InRange(UpdateStats(stats, x), lo, hi)
  {
    hide Room, Squared;
    RoomSign(x, lo, hi);
    if stats.count > 0 {
      SquaredSign(x - stats.mean);
      RoomStep(stats.mean, x, lo, hi);
    }
  }

  /** Over values in `[lo, hi]` the mean stays there and the variance is at most what the mean leaves
      room for. */
  lemma {:induction false} HistoryRange(xs: seq<real>, lo: real, hi: real)
    requires xs != [] && forall i :: 0 <= i < |xs| ==> lo <= xs[i] <= hi
    ensures InRange(History(xs), lo, hi)
  {
    var n := |xs| - 1;
    if n > 0 {
      HistoryRange(xs[..n], lo, hi);
    }
    UpdateKeepsRange(History(xs[..n]), xs[n], lo, hi);
  }

  lemma HistoryQuarterWidth(xs: seq<real>, lo: real, hi: real)
    requires xs != [] && forall i :: 0 <= i < |xs| ==> lo <= xs[i] <= hi
    ensures 0.0 <= History(xs).variance <= Squared(hi - lo) / 4.0
  {
    hide History, Room, Squared;
    HistoryRange(xs, lo, hi);
    RoomAtMostQuarter(History(xs).mean, lo, hi);
  }

  /** The deviation and the old variance both widen the new variance. */
  lemma VarianceSign(stats: MetricStats, x: real)
    requires stats.count > 0 && stats.variance >= 0.0
    ensures UpdateStats(stats, x).variance >= 0.0
    ensures UpdateStats(stats, x).variance == 0.0 <==> stats.variance == 0.0 && x == stats.mean
  {
    hide Squared;
    SquaredSign(x - stats.mean);
  }

  /** The variance vanishes exactly for a constant history. */
  lemma {:induction false} ZeroVarianceIsConstant(xs: seq<real>)
    requires xs != []
    ensures History(xs).variance >= 0.0
    ensures History(xs).variance == 0.0 <==> forall i :: 0 <= i < |xs| ==> xs[i] == xs[0]
    ensures History(xs).variance == 0.0 ==> History(xs).mean == xs[0]
  {
    var n := |xs| - 1;
    if n > 0 {
      ZeroVarianceIsConstant(xs[..n]);
      VarianceSign(History(xs[..n]), xs[n]);
      assert forall i :: 0 <= i < n ==> xs[i] == xs[..n][i];
    }
  }

  // ----- Units -----

  /** A value in a unit `c` times smaller, counted from `s`. */
  function InUnit(x: real, c: real, s: real): real {
    c * x + s
  }

  function Rescaled(xs: seq<real>, c: real, s: real): (r: seq<real>)
    ensures |r| == |xs|
  {
    if xs == [] then [] else Rescaled(xs[..|xs| - 1], c, s) + [InUnit(xs[|xs| - 1], c, s)]
  }

  /** `image` is `stats` in the other unit. */
  predicate SameInUnit(stats: MetricStats, image: MetricStats, c: real, s: real) {
    image.mean == c * stats.mean + s && image.variance == c * c * stats.variance && image.count == stats.count
  }

  lemma RescaledLast(xs: seq<real>, c: real, s: real)
    requires xs != []
    ensures History(Rescaled(xs, c, s))
         == UpdateStats(History(Rescaled(xs[..|xs| - 1], c, s)), InUnit(xs[|xs| - 1], c, s))
  {
    assert Rescaled(xs, c, s)[..|xs| - 1] == Rescaled(xs[..|xs| - 1], c, s);
  }

  lemma RescaledStep(stats: MetricStats, image: MetricStats, x: real, c: real, s: real)
    requires image.count == stats.count
    requires stats.count > 0 ==> SameInUnit(stats, image, c, s)
    ensures SameInUnit(UpdateStats(stats, x), UpdateStats(image, InUnit(x, c, s)), c, s)
  {
    if stats.count > 0 {
      var d := x - stats.mean;
      var e := InUnit(x, c, s) - image.mean;
      assert e == c * d;
      assert e * e == c * c * (d * d);
      assert ALPHA * e * e == ALPHA * (e * e) && ALPHA * d * d == ALPHA * (d * d);
    }
  }

  /** Changing the unit of a whole history changes the mean as a value and the variance as a
      squared difference. */
  lemma {:induction false} HistoryRescaled(xs: seq<real>, c: real, s: real)
    requires xs != []
    ensures SameInUnit(History(xs), History(Rescaled(xs, c, s)), c, s)
  {
    var n := |xs| - 1;
    if n > 0 {
      HistoryRescaled(xs[..n], c, s);
    }
    RescaledLast(xs, c, s);
    RescaledStep(History(xs[..n]), History(Rescaled(xs[..n], c, s)), xs[n], c, s);
  }
}
