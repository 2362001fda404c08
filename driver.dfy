/**
 * The top-level fixed-point loop of mimir.py: start with every gearing ratio
 * at 1, and repeatedly compute the style-return series, re-estimate every
 * asset's gearing ratio against it, and measure the squared change of the
 * gearing ratios, while that change is at least THRESHOLD.
 */
module Driver {
  import opened Parameters
  import opened Panel
  import opened StyleReturn

  /**
   * The slope that an ordinary-least-squares fit of `y` on the single
   * feature `x` returns (`regr.coef_[0]`). The fit itself is not modelled.
   */
  type Fit = (seq<real>, seq<real>) -> real

  /** Python's `s[:n]`: the first `n` entries, or all of `s` when it is shorter. */
  function Prefix(s: seq<real>, n: nat): (r: seq<real>)
    ensures |r| == if |s| < n then |s| else n
    ensures forall j :: 0 <= j < |r| ==> r[j] == s[j]
  {
    if |s| <= n then s else s[..n]
  }

  /** The multiply and the fit of `get_gearing_ratio` see the same number of periods. */
  predicate RegressionAligned(assetBetas: seq<real>, assetReturns: seq<real>, series: seq<real>)
  {
    && |Prefix(assetBetas, NUM_T_PERIODS)| == |Prefix(series, NUM_T_PERIODS)|
    && |Prefix(assetReturns, NUM_T_PERIODS)| == |Prefix(series, NUM_T_PERIODS)|
  }

  /**
   * The regressor and the response of `get_gearing_ratio`: the style beta
   * times the style return of period `t`, against the asset's return of the
   * same index `t`, with no shift by one period.
   */
  function RegressionInputs(assetBetas: seq<real>, assetReturns: seq<real>, series: seq<real>): (xy: (seq<real>, seq<real>))
    requires RegressionAligned(assetBetas, assetReturns, series)
    ensures |xy.0| == |xy.1| == |Prefix(series, NUM_T_PERIODS)|
    ensures forall t :: 0 <= t < |xy.0| ==> xy.0[t] == assetBetas[t] * series[t] && xy.1[t] == assetReturns[t]
  {
    var b, s := Prefix(assetBetas, NUM_T_PERIODS), Prefix(series, NUM_T_PERIODS);
    (seq(|s|, t requires 0 <= t < |s| => b[t] * s[t]), Prefix(assetReturns, NUM_T_PERIODS))
  }

  /** `get_gearing_ratio`: the fitted slope of the asset's return on beta times style return. */
  function GearingRatio(fit: Fit, assetBetas: seq<real>, assetReturns: seq<real>, series: seq<real>): real
    requires RegressionAligned(assetBetas, assetReturns, series)
  {
    var xy := RegressionInputs(assetBetas, assetReturns, series);
    fit(xy.0, xy.1)
  }

  /** Every asset's rows can be regressed on `series`. */
  predicate AllAligned(assetReturns: seq<seq<real>>, styleBetas: seq<seq<real>>, series: seq<real>)
    requires |assetReturns| == |styleBetas|
  {
    forall i :: 0 <= i < |assetReturns| ==> RegressionAligned(styleBetas[i], assetReturns[i], series)
  }

  /** `new_gearing_ratios`: one re-estimated gearing ratio per asset. */
  function NewGearingRatios(fit: Fit, assetReturns: seq<seq<real>>, styleBetas: seq<seq<real>>, series: seq<real>): (g: seq<real>)
    requires |assetReturns| == |styleBetas| && AllAligned(assetReturns, styleBetas, series)
    ensures |g| == |assetReturns|
  {
    seq(|assetReturns|, i requires 0 <= i < |assetReturns| => GearingRatio(fit, styleBetas[i], assetReturns[i], series))
  }

  /** A style-return series that exists leaves every asset's regression well shaped. */
  lemma SeriesAlignsRegressions(assetReturns: seq<seq<real>>, styleBetas: seq<seq<real>>, gearing: seq<real>)
    requires |assetReturns| == |styleBetas|
    requires StyleReturnSeries(assetReturns, styleBetas, gearing).Ok?
    ensures AllAligned(assetReturns, styleBetas, StyleReturnSeries(assetReturns, styleBetas, gearing).value)
  {
  }

  /** A sum of entries none of which is negative is not negative. */
  lemma {:induction false} SumNonNegative(s: seq<real>)
    requires forall i :: 0 <= i < |s| ==> s[i] >= 0.0
    ensures Sum(s) >= 0.0
  {
    if s != [] {
      SumNonNegative(s[..|s| - 1]);
    }
  }

  /** `np.subtract(a, b) ** 2`: the entrywise squared differences. */
  function SquaredDifferences(a: seq<real>, b: seq<real>): (sq: seq<real>)
    requires |a| == |b|
    ensures |sq| == |a| && forall i :: 0 <= i < |sq| ==> sq[i] >= 0.0
  {
    seq(|a|, i requires 0 <= i < |a| => (a[i] - b[i]) * (a[i] - b[i]))
  }

  /** `delta`: the sum of the squared entrywise differences, which is never negative. */
  function SquaredDistance(a: seq<real>, b: seq<real>): (d: real)
    requires |a| == |b|
    ensures d >= 0.0
  {
    SumNonNegative(SquaredDifferences(a, b));
    Sum(SquaredDifferences(a, b))
  }

  /** A sum of zeros is zero. */
  lemma {:induction false} SumOfZeros(s: seq<real>)
    requires forall i :: 0 <= i < |s| ==> s[i] == 0.0
    ensures Sum(s) == 0.0
  {
    if s != [] {
      SumOfZeros(s[..|s| - 1]);
    }
  }

  /** A vector does not move away from itself: its delta is zero. */
  lemma NoChangeNoDelta(a: seq<real>)
    ensures SquaredDistance(a, a) == 0.0
  {
    SumOfZeros(SquaredDifferences(a, a));
  }

  /** `[1] * n`: the initial gearing ratios. */
  function Ones(n: nat): (g: seq<real>)
    ensures |g| == n
  {
    seq(n, _ => 1.0)
  }

  /**
   * The loop's variables between two passes: the gearing ratios, the last
   * style-return series (empty before the first pass), the last delta, and
   * the number of passes made.
   */
  datatype State = State(gearing: seq<real>, series: seq<real>, delta: real, passes: nat)

  /** How the loop ends: delta fell below THRESHOLD, the pass cap was hit, or a pass raised IndexError. */
  datatype Outcome = Converged(final: State) | CapReached(final: State) | RaisedIndexError

  /** Before the loop: all gearing ratios 1 and `delta = THRESHOLD`. */
  function Initial(n: nat): State
  {
    State(Ones(n), [], THRESHOLD, 0)
  }

  /** One pass of the loop body from the loop state `s`. */
  function Pass(fit: Fit, assetReturns: seq<seq<real>>, styleBetas: seq<seq<real>>, s: State): (r: Result<State>)
    requires |assetReturns| == |styleBetas| && |s.gearing| == |assetReturns|
    ensures r.Ok? <==> Computable(assetReturns, styleBetas, s.gearing, NUM_T_PERIODS - 1)
    ensures r.Ok? ==>
      && |r.value.gearing| == |assetReturns|
      && |r.value.series| == NUM_T_PERIODS
      && r.value.delta == SquaredDistance(r.value.gearing, s.gearing)
      && r.value.passes == s.passes + 1
  {
    match StyleReturnSeries(assetReturns, styleBetas, s.gearing)
    case IndexError => IndexError
    case Ok(series) =>
      SeriesAlignsRegressions(assetReturns, styleBetas, s.gearing);
      var next := NewGearingRatios(fit, assetReturns, styleBetas, series);
      Ok(State(next, series, SquaredDistance(next, s.gearing), s.passes + 1))
  }

  /** The loop `while delta >= THRESHOLD`, allowed at most `fuel` more passes. */
  function Loop(fit: Fit, assetReturns: seq<seq<real>>, styleBetas: seq<seq<real>>, fuel: nat, s: State): Outcome
    requires |assetReturns| == |styleBetas| && |s.gearing| == |assetReturns|
    decreases fuel
  {
    if s.delta < THRESHOLD then Converged(s)
    else if fuel == 0 then CapReached(s)
    else
      match Pass(fit, assetReturns, styleBetas, s)
      case IndexError => RaisedIndexError
      case Ok(s') => Loop(fit, assetReturns, styleBetas, fuel - 1, s')
  }

  /**
   * While delta is at least THRESHOLD and passes remain, the loop makes one
   * more pass: it raises IndexError if the style-return series `r` does, and
   * otherwise goes on from the body's new variables.
   */
  lemma LoopMakesPass(fit: Fit, assetReturns: seq<seq<real>>, styleBetas: seq<seq<real>>, fuel: nat, s: State, r: Result<seq<real>>)
    requires |assetReturns| == |styleBetas| && |s.gearing| == |assetReturns|
    requires s.delta >= THRESHOLD && fuel > 0
    requires r == StyleReturnSeries(assetReturns, styleBetas, s.gearing)
    ensures r.IndexError? ==> Loop(fit, assetReturns, styleBetas, fuel, s) == RaisedIndexError
    ensures r.Ok? ==> AllAligned(assetReturns, styleBetas, r.value)
    ensures r.Ok? ==>
      Loop(fit, assetReturns, styleBetas, fuel, s) ==
      Loop(fit, assetReturns, styleBetas, fuel - 1,
           State(NewGearingRatios(fit, assetReturns, styleBetas, r.value), r.value,
                 SquaredDistance(NewGearingRatios(fit, assetReturns, styleBetas, r.value), s.gearing), s.passes + 1))
  {
    if r.Ok? {
      SeriesAlignsRegressions(assetReturns, styleBetas, s.gearing);
    }
  }

  /** Whether the style returns can be computed depends on the number of gearing ratios, not their values. */
  lemma ComputableIgnoresValues(assetReturns: seq<seq<real>>, styleBetas: seq<seq<real>>, g: seq<real>, h: seq<real>, t: nat)
    requires |g| == |h|
    ensures Computable(assetReturns, styleBetas, g, t) == Computable(assetReturns, styleBetas, h, t)
  {
  }

  /**
   * What the loop promises from any state with delta at least zero: a
   * converged run ends below THRESHOLD after at most `fuel` more passes, with
   * one gearing ratio per asset and, if it had to make a pass, a full series;
   * a run that hits the cap made all `fuel` passes.
   */
  lemma {:induction false} LoopEnds(fit: Fit, assetReturns: seq<seq<real>>, styleBetas: seq<seq<real>>, fuel: nat, s: State)
    requires |assetReturns| == |styleBetas| && |s.gearing| == |assetReturns|
    requires s.delta >= 0.0
    ensures Loop(fit, assetReturns, styleBetas, fuel, s).Converged? ==>
      var f := Loop(fit, assetReturns, styleBetas, fuel, s).final;
      && s.passes <= f.passes <= s.passes + fuel
      && 0.0 <= f.delta < THRESHOLD
      && |f.gearing| == |assetReturns|
      && (s.delta >= THRESHOLD ==> f.passes > s.passes && |f.series| == NUM_T_PERIODS)
    ensures Loop(fit, assetReturns, styleBetas, fuel, s).CapReached? ==>
      var f := Loop(fit, assetReturns, styleBetas, fuel, s).final;
      f.passes == s.passes + fuel && f.delta >= THRESHOLD
    decreases fuel
  {
    if s.delta >= THRESHOLD && fuel > 0 {
      var p := Pass(fit, assetReturns, styleBetas, s);
      if p.Ok? {
        LoopEnds(fit, assetReturns, styleBetas, fuel - 1, p.value);
      }
    }
  }

  /**
   * The loop raises IndexError exactly when it makes a pass and the first
   * pass fails: later passes keep the number of gearing ratios, and that
   * number is all that decides whether a pass can fail.
   */
  lemma {:induction false} LoopRaises(fit: Fit, assetReturns: seq<seq<real>>, styleBetas: seq<seq<real>>, fuel: nat, s: State)
    requires |assetReturns| == |styleBetas| && |s.gearing| == |assetReturns|
    ensures Loop(fit, assetReturns, styleBetas, fuel, s).RaisedIndexError? <==>
      && s.delta >= THRESHOLD
      && fuel > 0
      && !Computable(assetReturns, styleBetas, s.gearing, NUM_T_PERIODS - 1)
    decreases fuel
  {
    if s.delta >= THRESHOLD && fuel > 0 {
      var p := Pass(fit, assetReturns, styleBetas, s);
      if p.Ok? {
        LoopRaises(fit, assetReturns, styleBetas, fuel - 1, p.value);
        ComputableIgnoresValues(assetReturns, styleBetas, p.value.gearing, s.gearing, NUM_T_PERIODS - 1);
      }
    }
  }

  /**
   * The driver of mimir.py from the initial gearing ratios: it runs the body
   * at least once, since the initial delta equals THRESHOLD; when it
   * converges the last delta is a sum of squares below THRESHOLD; and it
   * raises IndexError exactly when the first pass does.
   */
  lemma DriverOutcome(fit: Fit, assetReturns: seq<seq<real>>, styleBetas: seq<seq<real>>, maxPasses: nat)
    requires |assetReturns| == |styleBetas|
    ensures
      var o := Loop(fit, assetReturns, styleBetas, maxPasses, Initial(|assetReturns|));
      && (o.Converged? ==>
            && 1 <= o.final.passes <= maxPasses
            && 0.0 <= o.final.delta < THRESHOLD
            && |o.final.gearing| == |assetReturns|
            && |o.final.series| == NUM_T_PERIODS)
      && (o.CapReached? ==> o.final.passes == maxPasses && o.final.delta >= THRESHOLD)
      && (o.RaisedIndexError? <==>
            0 < maxPasses && !Computable(assetReturns, styleBetas, Ones(|assetReturns|), NUM_T_PERIODS - 1))
  {
    LoopEnds(fit, assetReturns, styleBetas, maxPasses, Initial(|assetReturns|));
    LoopRaises(fit, assetReturns, styleBetas, maxPasses, Initial(|assetReturns|));
  }

  /**
   * Gearing ratios that the regressions reproduce exactly are a fixed point:
   * the next pass finds delta zero and the loop stops there.
   */
  lemma FixedPointConverges(fit: Fit, assetReturns: seq<seq<real>>, styleBetas: seq<seq<real>>, fuel: nat, s: State)
    requires |assetReturns| == |styleBetas| && |s.gearing| == |assetReturns|
    requires s.delta >= THRESHOLD && fuel > 0
    requires StyleReturnSeries(assetReturns, styleBetas, s.gearing).Ok?
    requires
      var series := StyleReturnSeries(assetReturns, styleBetas, s.gearing).value;
      AllAligned(assetReturns, styleBetas, series) && NewGearingRatios(fit, assetReturns, styleBetas, series) == s.gearing
    ensures Loop(fit, assetReturns, styleBetas, fuel, s) ==
      Converged(State(s.gearing, StyleReturnSeries(assetReturns, styleBetas, s.gearing).value, 0.0, s.passes + 1))
  {
    NoChangeNoDelta(s.gearing);
  }

  /**
   * The driver loop of mimir.py, with at most `maxPasses` passes: it computes
   * exactly `Loop` from the initial state.
   */
  method Run(fit: Fit, assetReturns: seq<seq<real>>, styleBetas: seq<seq<real>>, maxPasses: nat) returns (outcome: Outcome)
    requires |assetReturns| == |styleBetas|
    ensures outcome == Loop(fit, assetReturns, styleBetas, maxPasses, Initial(|assetReturns|))
  {
    var n := |assetReturns|;
    var gearing := Ones(n);
    var series: seq<real> := [];
    var delta := THRESHOLD;
    var passes: nat := 0;
    assert Initial(n) == State(gearing, series, delta, passes);
    ghost var spec := Loop(fit, assetReturns, styleBetas, maxPasses - passes, State(gearing, series, delta, passes));
    while delta >= THRESHOLD && passes < maxPasses
      invariant passes <= maxPasses && |gearing| == n
      invariant spec == Loop(fit, assetReturns, styleBetas, maxPasses - passes, State(gearing, series, delta, passes))
      decreases maxPasses - passes
    {
      var r := StyleReturnSeries(assetReturns, styleBetas, gearing);
      LoopMakesPass(fit, assetReturns, styleBetas, maxPasses - passes, State(gearing, series, delta, passes), r);
      if r.IndexError? {
        return RaisedIndexError;
      }
      series := r.value;
      var newGearing := NewGearingRatios(fit, assetReturns, styleBetas, series);
      delta := SquaredDistance(newGearing, gearing);
      gearing := newGearing;
      passes := passes + 1;
    }
    var final := State(gearing, series, delta, passes);
    if delta < THRESHOLD {
      outcome := Converged(final);
    } else {
      outcome := CapReached(final);
    }
  }
}
