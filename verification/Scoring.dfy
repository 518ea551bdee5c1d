/** Anomaly scores: z-scores of a session against a baseline, and their root mean square. The
    square root is a parameter; `IsSqrt` is all that is known of it. */
module Scoring {
  import opened Results
  import opened RealFacts
  import opened Baselines

  const COLD_START_THRESHOLD: int := 5
  const COLD_START_SCORE: real := 0.5
  const Z_SCORE_CLIP: real := 4.0
  const STD_FLOOR: real := 0.0000000001

  /** (1 - ALPHA) / ALPHA: no session scored against a baseline that includes it gets past this. */
  const Z_SQUARED_BOUND: real := 9.5

  type RealFunction = real -> real

  ghost predicate IsSqrt(sqrt: RealFunction) {
    forall v: real :: v >= 0.0 ==> sqrt(v) >= 0.0 && Squared(sqrt(v)) == v
  }

  function Std(sqrt: RealFunction, stats: MetricStats): real {
    if stats.variance > 0.0 then sqrt(stats.variance) else 0.0
  }

  /** A metric with too little or too even a history is not scored. */
  predicate Scored(sqrt: RealFunction, stats: MetricStats) {
    stats.count >= 2 && Std(sqrt, stats) >= STD_FLOOR
  }

  function RawZ(sqrt: RealFunction, stats: MetricStats, value: real): real
    requires Scored(sqrt, stats)
  {
    (value - stats.mean) / Std(sqrt, stats)
  }

  function Clip(z: real): (r: real)
    ensures -Z_SCORE_CLIP <= r <= Z_SCORE_CLIP
    ensures r == z <==> -Z_SCORE_CLIP <= z <= Z_SCORE_CLIP
    ensures r != z ==> (r == Z_SCORE_CLIP <==> z > 0.0)
  {
    var low := if z < Z_SCORE_CLIP then z else Z_SCORE_CLIP;
    if low > -Z_SCORE_CLIP then low else -Z_SCORE_CLIP
  }

  function ZScore(sqrt: RealFunction, stats: MetricStats, value: real): real {
    if Scored(sqrt, stats) then Clip(RawZ(sqrt, stats, value)) else 0.0
  }

  /** The entry of one metric. A metric that is not scored is not read from the session. */
  function MetricZ(sqrt: RealFunction, baseline: AgentBaseline, session: SessionMetrics, m: Metric): Result<real> {
    if m in baseline.metrics && Scored(sqrt, baseline.metrics[m]) then
      match ExtractMetricValue(session, m)
      case Success(value) => Success(ZScore(sqrt, baseline.metrics[m], value))
      case Failure(error) => Failure(error)
    else
      Success(0.0)
  }

  predicate Scorable(sqrt: RealFunction, baseline: AgentBaseline, session: SessionMetrics) {
    forall m: Metric :: MetricZ(sqrt, baseline, session, m).Success?
  }

  /** The z-scores in the order of the tracked metrics. */
  function ZScores(sqrt: RealFunction, baseline: AgentBaseline, session: SessionMetrics): (zs: seq<real>)
    requires Scorable(sqrt, baseline, session)
    ensures |zs| == |TRACKED|
    ensures forall i :: 0 <= i < |zs| ==> zs[i] == MetricZ(sqrt, baseline, session, TRACKED[i]).value
  {
    seq(|TRACKED|, i requires 0 <= i < |TRACKED| => MetricZ(sqrt, baseline, session, TRACKED[i]).value)
  }

  method ComputeZScores(sqrt: RealFunction, baseline: AgentBaseline, session: SessionMetrics)
    returns (r: Result<seq<real>>)
    ensures Scorable(sqrt, baseline, session) ==> r == Success(ZScores(sqrt, baseline, session))
    ensures !Scorable(sqrt, baseline, session) ==> r == Failure(TypeError)
  {
    var zScores: seq<real> := [];
    for i := 0 to |TRACKED|
      invariant |zScores| == i
      invariant forall j :: 0 <= j < i ==> MetricZ(sqrt, baseline, session, TRACKED[j]) == Success(zScores[j])
    {
      var metric := TRACKED[i];
      if metric !in baseline.metrics || baseline.metrics[metric].count < 2 || Std(sqrt, baseline.metrics[metric]) < STD_FLOOR {
        zScores := zScores + [0.0];
        continue;
      }
      var value := ExtractMetricValue(session, metric);
      if value.Failure? {
        assert MetricZ(sqrt, baseline, session, metric).Failure?;
        return Failure(value.error);
      }
      var stats := baseline.metrics[metric];
      var z := (value.value - stats.mean) / Std(sqrt, stats);
      zScores := zScores + [Clip(z)];
    }
    AllTracked();
    forall m: Metric
      ensures MetricZ(sqrt, baseline, session, m).Success?
    {
      assert m in TRACKED;
      var j :| 0 <= j < |TRACKED| && TRACKED[j] == m;
    }
    assert zScores == ZScores(sqrt, baseline, session);
    r := Success(zScores);
  }

  function SumOfSquares(zs: seq<real>): real {
    if zs == [] then 0.0 else SumOfSquares(zs[..|zs| - 1]) + Squared(zs[|zs| - 1])
  }

  function MeanSquare(zs: seq<real>): real
    requires zs != []
  {
    SumOfSquares(zs) / (|zs| as real)
  }

  /** The root mean square of the z-scores, scaled by the clip and capped at 1. */
  function AnomalyScore(sqrt: RealFunction, zs: seq<real>): real {
    if zs == [] then COLD_START_SCORE else
      var scaled := sqrt(MeanSquare(zs)) / Z_SCORE_CLIP;
      if scaled < 1.0 then scaled else 1.0
  }

  // ----- One metric -----

  /** The identity behind the bound: after the step, 19/2 times the variance is the squared deviation
      from the new mean plus a share of the old variance. */
  lemma DeviationIdentity(stats: MetricStats, x: real)
    requires stats.count > 0
    ensures var s := UpdateStats(stats, x);
            Z_SQUARED_BOUND * s.variance
            == Squared(x - s.mean) + Z_SQUARED_BOUND * (1.0 - ALPHA) * stats.variance
  {
    var d := x - stats.mean;
    assert x - UpdateStats(stats, x).mean == (1.0 - ALPHA) * d;
    SquaredScale(1.0 - ALPHA, d);
  }

  lemma BoundFromIdentity(square: real, v: real, before: real)
    requires v > 0.0 && before >= 0.0
    requires Z_SQUARED_BOUND * v == square * v + Z_SQUARED_BOUND * (1.0 - ALPHA) * before
    ensures square <= Z_SQUARED_BOUND
    ensures square == Z_SQUARED_BOUND <==> before == 0.0
  {
    CancelPositive(square, Z_SQUARED_BOUND, v);
    if before == 0.0 {
      assert square * v == Z_SQUARED_BOUND * v;
    } else {
      assert square * v < Z_SQUARED_BOUND * v;
    }
  }

  /** A session scored against the baseline it has just updated: its squared z-score is at most 19/2,
      the clip never acts, and the bound is met exactly when the history before it was constant. */
  lemma TightZScore(sqrt: RealFunction, stats: MetricStats, x: real)
    requires IsSqrt(sqrt) && stats.count > 0 && stats.variance >= 0.0
    requires Scored(sqrt, UpdateStats(stats, x))
    ensures var s := UpdateStats(stats, x);
            && ZScore(sqrt, s, x) == RawZ(sqrt, s, x)
            && Squared(ZScore(sqrt, s, x)) <= Z_SQUARED_BOUND
            && (Squared(ZScore(sqrt, s, x)) == Z_SQUARED_BOUND <==> stats.variance == 0.0)
  {
    var s := UpdateStats(stats, x);
    var z := RawZ(sqrt, s, x);
    SquaredQuotient(x - s.mean, Std(sqrt, s), s.variance);
    DeviationIdentity(stats, x);
    BoundFromIdentity(Squared(z), s.variance, stats.variance);
    SmallSquare(z);
  }

  /** The same over histories: the bound is met exactly by the first departure from a constant. */
  lemma TightZScoreOfHistory(sqrt: RealFunction, xs: seq<real>, x: real)
    requires IsSqrt(sqrt) && xs != [] && Scored(sqrt, History(xs + [x]))
    ensures var z := ZScore(sqrt, History(xs + [x]), x);
            && Squared(z) <= Z_SQUARED_BOUND
            && (Squared(z) == Z_SQUARED_BOUND <==> forall i :: 0 <= i < |xs| ==> xs[i] == xs[0])
  {
    assert (xs + [x])[..|xs|] == xs;
    ZeroVarianceIsConstant(xs);
    TightZScore(sqrt, History(xs), x);
  }

  /** Against a baseline that does not include the session there is no bound: any z-score occurs. */
  lemma UnseenSessionUnbounded(sqrt: RealFunction, stats: MetricStats, k: real)
    requires Scored(sqrt, stats)
    ensures RawZ(sqrt, stats, stats.mean + k * Std(sqrt, stats)) == k
  {
    var std := Std(sqrt, stats);
    assert k * std / std == k;
  }

  // ----- The composite score -----

  lemma {:induction false} SumOfSquaresBound(zs: seq<real>, bound: real)
    requires forall i :: 0 <= i < |zs| ==> Squared(zs[i]) <= bound
    ensures 0.0 <= SumOfSquares(zs) <= bound * (|zs| as real)
  {
    if zs != [] {
      SumOfSquaresBound(zs[..|zs| - 1], bound);
      SquaredSign(zs[|zs| - 1]);
    }
  }

  lemma {:induction false} SumOfSquaresTight(zs: seq<real>, bound: real)
    requires forall i :: 0 <= i < |zs| ==> Squared(zs[i]) <= bound
    ensures SumOfSquares(zs) == bound * (|zs| as real) <==> forall i :: 0 <= i < |zs| ==> Squared(zs[i]) == bound
  {
    hide Squared;
    if zs != [] {
      var front, z := zs[..|zs| - 1], zs[|zs| - 1];
      SumOfSquaresTight(front, bound);
      SumOfSquaresBound(front, bound);
      assert bound * (|zs| as real) == bound * (|front| as real) + bound;
      assert forall i :: 0 <= i < |front| ==> zs[i] == front[i];
    }
  }

  lemma MeanSquareTight(zs: seq<real>, bound: real)
    requires zs != [] && forall i :: 0 <= i < |zs| ==> Squared(zs[i]) <= bound
    ensures MeanSquare(zs) == bound <==> forall i :: 0 <= i < |zs| ==> Squared(zs[i]) == bound
  {
    hide Squared;
    SumOfSquaresTight(zs, bound);
    var n := |zs| as real;
    assert MeanSquare(zs) * n == SumOfSquares(zs);
    CancelPositive(MeanSquare(zs), bound, n);
  }

  /** With every z-score within the bound, the score is a quarter of the root mean square itself: the
      cap does not act, and the score stays below 1. */
  lemma ScoreBound(sqrt: RealFunction, zs: seq<real>)
    requires IsSqrt(sqrt) && zs != []
    requires forall i :: 0 <= i < |zs| ==> Squared(zs[i]) <= Z_SQUARED_BOUND
    ensures var s := AnomalyScore(sqrt, zs);
            0.0 <= s < 1.0 && Squared(4.0 * s) == MeanSquare(zs) && MeanSquare(zs) <= Z_SQUARED_BOUND
  {
    SumOfSquaresBound(zs, Z_SQUARED_BOUND);
    MeanBound(SumOfSquares(zs), |zs| as real, Z_SQUARED_BOUND);
    var rms := sqrt(MeanSquare(zs));
    SmallSquare(rms);
    assert AnomalyScore(sqrt, zs) == rms / 4.0;
    assert 4.0 * (rms / 4.0) == rms;
  }

  lemma SumOfFour(zs: seq<real>)
    requires |zs| == 4
    ensures SumOfSquares(zs) == zs[0] * zs[0] + zs[1] * zs[1] + zs[2] * zs[2] + zs[3] * zs[3]
  {
    var three := zs[..3];
    assert three[..2] == zs[..2] && zs[..2][..1] == zs[..1] && zs[..1][..0] == [];
    assert SumOfSquares(zs[..1]) == zs[0] * zs[0];
    assert SumOfSquares(zs[..2]) == zs[0] * zs[0] + zs[1] * zs[1];
    assert SumOfSquares(three) == zs[0] * zs[0] + zs[1] * zs[1] + zs[2] * zs[2];
  }

  lemma SquareOf(x: real)
    ensures Squared(x) == x * x
  {
  }

  /** A quarter of the root of a quarter of `total`, capped at 1. */
  lemma CappedRoot(rms: real, total: real)
    requires rms >= 0.0 && rms * rms == total / 4.0
    ensures var s := if rms / 4.0 < 1.0 then rms / 4.0 else 1.0;
            && (total <= 64.0 ==> 4.0 * ((4.0 * s) * (4.0 * s)) == total)
            && (total > 64.0 ==> s == 1.0)
  {
    hide Squared;
    assert Squared(rms) == rms * rms && Squared(4.0) == 16.0 by { SquareOf(rms); SquareOf(4.0); }
    SquareOrder(rms, 4.0);
    SquareOrder(4.0, rms);
    if rms / 4.0 < 1.0 {
      assert 4.0 * (rms / 4.0) == rms;
    }
  }

  lemma FourSquares(a: real, b: real, c: real, d: real)
    ensures a * a + b * b + c * c + d * d >= 0.0
  {
    SquaredSign(a);
    SquaredSign(b);
    SquaredSign(c);
    SquaredSign(d);
  }

  /** What the score of four z-scores is: 4s is the root of their mean square, and s is capped at 1. */
  lemma ScoreOfFour(sqrt: RealFunction, zs: seq<real>)
    requires IsSqrt(sqrt) && |zs| == 4
    ensures var s, total := AnomalyScore(sqrt, zs), zs[0] * zs[0] + zs[1] * zs[1] + zs[2] * zs[2] + zs[3] * zs[3];
            && 0.0 <= s <= 1.0
            && (total <= 64.0 ==> 4.0 * ((4.0 * s) * (4.0 * s)) == total)
            && (total > 64.0 ==> s == 1.0)
  {
    var total := zs[0] * zs[0] + zs[1] * zs[1] + zs[2] * zs[2] + zs[3] * zs[3];
    SumOfFour(zs);
    FourSquares(zs[0], zs[1], zs[2], zs[3]);
    var rms := sqrt(MeanSquare(zs));
    SquareOf(rms);
    CappedRoot(rms, total);
  }

  lemma NoScores(sqrt: RealFunction)
    ensures AnomalyScore(sqrt, []) == 0.5
  {
  }

  // ----- A z-score by squares -----

  /** A metric is scored from its second value on, if its standard deviation is at least 1e-10. */
  lemma ScoredIs(sqrt: RealFunction, stats: MetricStats)
    requires IsSqrt(sqrt)
    ensures Scored(sqrt, stats) <==> stats.count >= 2 && stats.variance >= 0.00000000000000000001
  {
    hide Squared;
    if stats.variance > 0.0 {
      SquareOf(STD_FLOOR);
      SquareOrder(STD_FLOOR, sqrt(stats.variance));
    }
  }

  lemma QuotientSign(d: real, std: real)
    requires std > 0.0
    ensures d / std >= 0.0 <==> d >= 0.0
  {
    var q := d / std;
    assert q * std == d;
    if q >= 0.0 {
      NonNegativeProduct(q, std);
    } else {
      PositiveProduct(-q, std);
      assert (-q) * std == -d;
    }
  }

  lemma CutOff(q: real, d: real, v: real)
    requires v > 0.0 && q * q * v == d * d && (q >= 0.0 <==> d >= 0.0)
    ensures d * d <= 16.0 * v <==> -4.0 <= q <= 4.0
    ensures q > 4.0 ==> d > 0.0
  {
    hide Squared;
    CancelPositive(q * q, 16.0, v);
    CancelPositive(16.0, q * q, v);
    SquareOf(q);
    SquareOf(-q);
    SquareOf(4.0);
    if q >= 0.0 {
      SquareOrder(q, 4.0);
    } else {
      SquareOrder(-q, 4.0);
    }
    if q > 4.0 && d == 0.0 {
      PositiveProduct(q, q);
      PositiveProduct(q * q, v);
    }
  }

  /** The z-score is the deviation from the mean in standard deviations, cut off at 4 on either side, and 0 for
      a metric that is not scored. */
  lemma ZScoreIs(sqrt: RealFunction, stats: MetricStats, value: real)
    requires IsSqrt(sqrt)
    ensures var (z, d, v) := (ZScore(sqrt, stats, value), value - stats.mean, stats.variance);
            if stats.count < 2 || v < 0.00000000000000000001 then z == 0.0
            else if d * d <= 16.0 * v then z * z * v == d * d && (z >= 0.0 <==> d >= 0.0)
            else z == if d > 0.0 then 4.0 else -4.0
  {
    hide Squared;
    ScoredIs(sqrt, stats);
    if Scored(sqrt, stats) {
      var d, std := value - stats.mean, Std(sqrt, stats);
      QuotientSign(d, std);
      SquaredQuotient(d, std, stats.variance);
      SquareOf(d);
      SquareOf(d / std);
      CutOff(d / std, d, stats.variance);
    }
  }

  // ----- Units -----

  lemma RootScales(sqrt: RealFunction, v: real, w: real, c: real)
    requires IsSqrt(sqrt) && v >= 0.0 && c > 0.0 && w == c * c * v
    ensures w >= 0.0 && sqrt(w) == c * sqrt(v)
  {
    var a, b := sqrt(w), c * sqrt(v);
    assert w >= 0.0;
    SquaredScale(c, sqrt(v));
    assert b >= 0.0;
    SameSquare(a, b);
  }

  lemma StatsInUnit(sqrt: RealFunction, here: MetricStats, there: MetricStats, x: real, c: real, s: real)
    requires IsSqrt(sqrt) && c > 0.0 && here.variance >= 0.0 && SameInUnit(here, there, c, s)
    ensures InUnit(x, c, s) == there.mean <==> x == here.mean
    ensures Scored(sqrt, here) && Scored(sqrt, there)
            ==> RawZ(sqrt, there, InUnit(x, c, s)) == RawZ(sqrt, here, x)
  {
    hide Squared;
    var dev := x - here.mean;
    assert InUnit(x, c, s) - there.mean == c * dev;
    QuotientFacts(dev, 1.0, c);
    if Scored(sqrt, here) && Scored(sqrt, there) {
      RootScales(sqrt, here.variance, there.variance, c);
      QuotientFacts(dev, Std(sqrt, here), c);
    }
  }

  lemma ZeroZScore(sqrt: RealFunction, stats: MetricStats, x: real)
    requires Scored(sqrt, stats)
    ensures ZScore(sqrt, stats, x) == 0.0 <==> x == stats.mean
  {
    QuotientFacts(x - stats.mean, Std(sqrt, stats), 1.0);
  }

  /** Measuring a metric's whole history in another unit does not change its z-score, unless the change
      of unit moves the deviation across the floor of 1e-10 and the value is not the mean itself. */
  lemma UnitIndependence(sqrt: RealFunction, xs: seq<real>, x: real, c: real, s: real)
    requires IsSqrt(sqrt) && xs != [] && c > 0.0
    ensures var (here, there) := (History(xs), History(Rescaled(xs, c, s)));
            ZScore(sqrt, there, InUnit(x, c, s)) == ZScore(sqrt, here, x)
            <==> (Scored(sqrt, there) <==> Scored(sqrt, here)) || x == here.mean
  {
    var here, there := History(xs), History(Rescaled(xs, c, s));
    HistoryRescaled(xs, c, s);
    ZeroVarianceIsConstant(xs);
    StatsInUnit(sqrt, here, there, x, c, s);
    if Scored(sqrt, here) {
      ZeroZScore(sqrt, here, x);
    }
    if Scored(sqrt, there) {
      ZeroZScore(sqrt, there, InUnit(x, c, s));
    }
  }
}
