/**
 * `get_style_return` of mimir.py: the return, over one period, of a portfolio
 * that is long the assets with the highest gearing-ratio-times-style-beta
 * score and short those with the lowest; and the series of these returns
 * over the first NUM_T_PERIODS periods.
 */
module StyleReturn {
  import opened Parameters
  import opened Panel
  import opened Ranking

  /** Python 3's `round` to an integer: the nearest integer, halves to the even one. */
  function PythonRound(x: real): (r: int)
    ensures x - 0.5 <= r as real <= x + 0.5
    ensures (r as real - x == 0.5 || x - r as real == 0.5) ==> r % 2 == 0
  {
    var f := x.Floor;
    var d := x - f as real;
    if d < 0.5 then f
    else if d > 0.5 then f + 1
    else if f % 2 == 0 then f
    else f + 1
  }

  /** An integer closer than one half to `x` is what `round(x)` gives. */
  lemma RoundOfNear(x: real, k: int)
    requires x - 0.5 < k as real < x + 0.5
    ensures PythonRound(x) == k
  {
    var r := PythonRound(x);
    assert r as real - k as real < 1.0 && k as real - r as real < 1.0;
  }

  /** `round(PORTFOLIO_CUTOFF * n)` is `(n + 2) / 5`: n/5 never has a fractional part of one half. */
  lemma LongCountIsRound(n: nat)
    ensures PythonRound(PORTFOLIO_CUTOFF * n as real) == (n + 2) / 5
  {
    var k := (n + 2) / 5;
    assert n - 2 <= 5 * k <= n + 2;
    assert (5 * k) as real == 5.0 * k as real;
    RoundOfNear(PORTFOLIO_CUTOFF * n as real, k);
  }

  /** `round((1 - PORTFOLIO_CUTOFF) * n)` is `(4n + 2) / 5`. */
  lemma ShortStartIsRound(n: nat)
    ensures PythonRound((1.0 - PORTFOLIO_CUTOFF) * n as real) == (4 * n + 2) / 5
  {
    var m := (4 * n + 2) / 5;
    assert 4 * n - 2 <= 5 * m <= 4 * n + 2;
    assert (5 * m) as real == 5.0 * m as real;
    assert (4 * n) as real == 4.0 * n as real;
    RoundOfNear((1.0 - PORTFOLIO_CUTOFF) * n as real, m);
  }

  /** Size of the long leg among `n` ranked assets: `round(0.2 * n)`. */
  function LongCount(n: nat): (k: nat)
    ensures k == (n + 2) / 5 && k <= n
  {
    LongCountIsRound(n);
    PythonRound(PORTFOLIO_CUTOFF * n as real)
  }

  /** Where the short leg starts among `n` ranked assets: `round(0.8 * n)`. */
  function ShortStart(n: nat): (m: nat)
    ensures m == (4 * n + 2) / 5
    ensures LongCount(n) <= m <= n
  {
    ShortStartIsRound(n);
    PythonRound((1.0 - PORTFOLIO_CUTOFF) * n as real)
  }

  /** Python's `sum` of a list of numbers, adding from the left and starting at zero. */
  function Sum(s: seq<real>): real
  {
    if s == [] then 0.0 else Sum(s[..|s| - 1]) + s[|s| - 1]
  }

  /**
   * `next_period_returns`: column `t + 1` of `zip(*all_asset_returns)`, that is every
   * asset's return over the period after `t`; IndexError when that column
   * does not exist.
   */
  function NextPeriodReturns(assetReturns: seq<seq<real>>, t: nat): (r: Result<seq<real>>)
    ensures r.Ok? <==> HasColumn(assetReturns, t + 1)
    ensures r.Ok? ==>
      && |r.value| == |assetReturns|
      && forall i :: 0 <= i < |assetReturns| ==> r.value[i] == assetReturns[i][t + 1]
  {
    TransposeColumn(assetReturns, t + 1);
    var cols := Transpose(assetReturns);
    if t + 1 < |cols| then Ok(cols[t + 1]) else IndexError
  }

  /** The ranking key can be evaluated for each of the first `n` assets at period `t`. */
  predicate KeysDefined(styleBetas: seq<seq<real>>, gearing: seq<real>, t: nat, n: nat)
  {
    && n <= |gearing|
    && n <= |styleBetas|
    && forall i :: 0 <= i < n ==> t < |styleBetas[i]|
  }

  /** `get_style_return(t, all_asset_returns, all_asset_style_betas, gearing_ratios)` raises no IndexError. */
  predicate Computable(assetReturns: seq<seq<real>>, styleBetas: seq<seq<real>>, gearing: seq<real>, t: nat)
  {
    HasColumn(assetReturns, t + 1) && KeysDefined(styleBetas, gearing, t, |assetReturns|)
  }

  /** The ranking key `gearing_ratios[i] * all_asset_style_betas[i][t]` of each asset. */
  function Scores(styleBetas: seq<seq<real>>, gearing: seq<real>, t: nat, n: nat): (score: seq<real>)
    requires KeysDefined(styleBetas, gearing, t, n)
    ensures |score| == n
  {
    seq(n, i requires 0 <= i < n => gearing[i] * styleBetas[i][t])
  }

  /** `ranked_returns`: the next-period returns listed in ranking order. */
  function RankedReturns(next: seq<real>, ranked: seq<nat>): (rr: seq<real>)
    requires forall j :: 0 <= j < |ranked| ==> ranked[j] < |next|
    ensures |rr| == |ranked|
  {
    seq(|ranked|, j requires 0 <= j < |ranked| => next[ranked[j]])
  }

  /** `top_portion`: the first `round(0.2 * n)` ranked returns. */
  function LongLeg(rr: seq<real>): seq<real>
  {
    rr[..LongCount(|rr|)]
  }

  /** `bottom_portion`: the ranked returns from position `round(0.8 * n)` on. */
  function ShortLeg(rr: seq<real>): seq<real>
  {
    rr[ShortStart(|rr|)..]
  }

  /** Long-leg minus short-leg sum of `next` once the assets are listed in the order `ranked`. */
  function LongShortReturn(next: seq<real>, ranked: seq<nat>): real
    requires forall j :: 0 <= j < |ranked| ==> ranked[j] < |next|
  {
    var rr := RankedReturns(next, ranked);
    Sum(LongLeg(rr)) - Sum(ShortLeg(rr))
  }

  /**
   * `get_style_return`: the summed next-period return of the long leg minus
   * that of the short leg, with no division by the leg sizes; IndexError
   * exactly when a return column, a style beta or a gearing ratio is missing.
   * With one or two assets both legs are empty and the style return is 0.
   */
  function GetStyleReturn(t: nat, assetReturns: seq<seq<real>>, styleBetas: seq<seq<real>>, gearing: seq<real>): (r: Result<real>)
    ensures r.Ok? <==> Computable(assetReturns, styleBetas, gearing, t)
    ensures r.Ok? && |assetReturns| <= 2 ==> r.value == 0.0
  {
    match NextPeriodReturns(assetReturns, t)
    case IndexError => IndexError
    case Ok(next) =>
      var n := |next|;
      if !KeysDefined(styleBetas, gearing, t, n) then IndexError
      else Ok(LongShortReturn(next, Rank(Scores(styleBetas, gearing, t, n))))
  }

  /** Summed next-period return (period `t + 1`) of the listed assets. */
  function LegReturn(assetReturns: seq<seq<real>>, t: nat, assets: seq<nat>): real
    requires forall j :: 0 <= j < |assets| ==> assets[j] < |assetReturns| && t + 1 < |assetReturns[assets[j]]|
  {
    Sum(seq(|assets|, j requires 0 <= j < |assets| => assetReturns[assets[j]][t + 1]))
  }

  /**
   * Whichever stable descending sort produced `order`, the style return is
   * the next-period return of its first `round(0.2 n)` assets minus that of
   * its assets from position `round(0.8 n)` on.
   */
  lemma StyleReturnOfStableOrder(t: nat, assetReturns: seq<seq<real>>, styleBetas: seq<seq<real>>, gearing: seq<real>, order: seq<nat>)
    requires Computable(assetReturns, styleBetas, gearing, t)
    requires IsPermutationOfRange(order, |assetReturns|)
    requires StablyDescending(Scores(styleBetas, gearing, t, |assetReturns|), order)
    ensures GetStyleReturn(t, assetReturns, styleBetas, gearing) ==
      Ok(LegReturn(assetReturns, t, order[..LongCount(|assetReturns|)]) - LegReturn(assetReturns, t, order[ShortStart(|assetReturns|)..]))
  {
    var n := |assetReturns|;
    var score := Scores(styleBetas, gearing, t, n);
    var next := NextPeriodReturns(assetReturns, t).value;
    var legs := LegReturn(assetReturns, t, order[..LongCount(n)]) - LegReturn(assetReturns, t, order[ShortStart(n)..]);
    StyleReturnByRank(t, assetReturns, styleBetas, gearing);
    RankIsTheStableSort(score, order);
    LegsOfOrder(assetReturns, t, next, order);
    assert LongShortReturn(next, Rank(score)) == legs;
  }

  /** A computable style return is the long-short return along `Rank` of the scores. */
  lemma StyleReturnByRank(t: nat, assetReturns: seq<seq<real>>, styleBetas: seq<seq<real>>, gearing: seq<real>)
    requires Computable(assetReturns, styleBetas, gearing, t)
    ensures GetStyleReturn(t, assetReturns, styleBetas, gearing) ==
      Ok(LongShortReturn(NextPeriodReturns(assetReturns, t).value, Rank(Scores(styleBetas, gearing, t, |assetReturns|))))
  {
  }

  /** Along the order `ranked`, the two legs are the returns of its first and of its last assets. */
  lemma LegsOfOrder(assetReturns: seq<seq<real>>, t: nat, next: seq<real>, ranked: seq<nat>)
    requires HasColumn(assetReturns, t + 1)
    requires |next| == |assetReturns| && forall i :: 0 <= i < |next| ==> next[i] == assetReturns[i][t + 1]
    requires |ranked| == |next| && forall j :: 0 <= j < |ranked| ==> ranked[j] < |next|
    ensures LongShortReturn(next, ranked) ==
      LegReturn(assetReturns, t, ranked[..LongCount(|next|)]) - LegReturn(assetReturns, t, ranked[ShortStart(|next|)..])
  {
    var n := |next|;
    var k, m := LongCount(n), ShortStart(n);
    var rr := RankedReturns(next, ranked);
    LegOfRanking(assetReturns, t, next, ranked, 0, k);
    LegOfRanking(assetReturns, t, next, ranked, m, n);
    assert LongLeg(rr) == rr[0..k] && ranked[..k] == ranked[0..k];
    assert ShortLeg(rr) == rr[m..n] && ranked[m..] == ranked[m..n];
  }

  /** A slice of the ranked returns sums to the next-period return of the assets at those ranks. */
  lemma LegOfRanking(assetReturns: seq<seq<real>>, t: nat, next: seq<real>, order: seq<nat>, lo: nat, hi: nat)
    requires HasColumn(assetReturns, t + 1)
    requires |next| == |assetReturns| && forall i :: 0 <= i < |next| ==> next[i] == assetReturns[i][t + 1]
    requires forall j :: 0 <= j < |order| ==> order[j] < |next|
    requires lo <= hi <= |order|
    ensures Sum(RankedReturns(next, order)[lo..hi]) == LegReturn(assetReturns, t, order[lo..hi])
  {
    var assets := order[lo..hi];
    assert RankedReturns(next, order)[lo..hi] == seq(|assets|, j requires 0 <= j < |assets| => assetReturns[assets[j]][t + 1]);
  }

  /**
   * The two legs never share an asset: the long leg is the first
   * `round(0.2 n)` ranked assets, the short leg the last `n - round(0.8 n)`,
   * and every long asset scores at least as high as every short one.
   */
  lemma LegsAreDisjoint(score: seq<real>)
    ensures LongCount(|score|) <= ShortStart(|score|) <= |score| == |Rank(score)|
    ensures LongCount(|score|) == PythonRound(PORTFOLIO_CUTOFF * |score| as real)
    ensures ShortStart(|score|) == PythonRound((1.0 - PORTFOLIO_CUTOFF) * |score| as real)
    ensures forall j, l :: 0 <= j < LongCount(|score|) && ShortStart(|score|) <= l < |score| ==>
      Rank(score)[j] != Rank(score)[l] && score[Rank(score)[j]] >= score[Rank(score)[l]]
  {
    RankIsStableSort(score);
  }

  /** The cross-section of a panel with five assets, ranked at period 0 with all gearing ratios 1. */
  const FIVE_RETURNS: seq<seq<real>> := [[0.0, 0.05], [0.0, 0.02], [0.0, -0.01], [0.0, 0.04], [0.0, -0.03]]
  const FIVE_BETAS: seq<seq<real>> := [[0.1], [0.3], [0.1], [0.3], [-0.2]]
  const FIVE_ORDER: seq<nat> := [1, 3, 0, 2, 4]

  /** The five scores: each asset's style beta, as all gearing ratios are 1. */
  lemma FiveAssetScores()
    ensures Scores(FIVE_BETAS, [1.0, 1.0, 1.0, 1.0, 1.0], 0, 5) == [0.1, 0.3, 0.1, 0.3, -0.2]
  {
  }

  /** The one stable descending order of the five scores: asset 1 before asset 3, 0 before 2. */
  lemma FiveAssetOrder()
    ensures IsPermutationOfRange(FIVE_ORDER, 5)
    ensures StablyDescending([0.1, 0.3, 0.1, 0.3, -0.2], FIVE_ORDER)
  {
    assert forall i: nat :: i < 5 ==> i in FIVE_ORDER by {
      assert FIVE_ORDER[2] == 0 && FIVE_ORDER[0] == 1 && FIVE_ORDER[3] == 2 && FIVE_ORDER[1] == 3 && FIVE_ORDER[4] == 4;
    }
  }

  /** The long leg of the five-asset order is asset 1 and its short leg asset 4. */
  lemma FiveAssetLegs()
    ensures LegReturn(FIVE_RETURNS, 0, FIVE_ORDER[..LongCount(5)]) == 0.02
    ensures LegReturn(FIVE_RETURNS, 0, FIVE_ORDER[ShortStart(5)..]) == -0.03
  {
    var long: seq<nat> := [1];
    var short: seq<nat> := [4];
    assert FIVE_ORDER[..LongCount(5)] == long && FIVE_ORDER[ShortStart(5)..] == short;
    assert seq(1, j requires 0 <= j < 1 => FIVE_RETURNS[long[j]][1]) == [0.02];
    assert seq(1, j requires 0 <= j < 1 => FIVE_RETURNS[short[j]][1]) == [-0.03];
    assert [0.02][..0] == [] && [-0.03][..0] == [];
  }

  /**
   * Five assets: one in each leg. Assets 1 and 3 tie on the top score; the
   * stable sort keeps asset 1 first, so the long leg is asset 1 (not 3) and
   * the short leg asset 4, giving 0.02 - (-0.03).
   */
  lemma FiveAssetExample()
    ensures GetStyleReturn(0, FIVE_RETURNS, FIVE_BETAS, [1.0, 1.0, 1.0, 1.0, 1.0]) == Ok(0.05)
  {
    FiveAssetScores();
    FiveAssetOrder();
    StyleReturnOfStableOrder(0, FIVE_RETURNS, FIVE_BETAS, [1.0, 1.0, 1.0, 1.0, 1.0], FIVE_ORDER);
    FiveAssetLegs();
  }

  /** The periods before a computable one are computable too. */
  lemma ComputableEarlier(assetReturns: seq<seq<real>>, styleBetas: seq<seq<real>>, gearing: seq<real>, t: nat, t': nat)
    requires Computable(assetReturns, styleBetas, gearing, t) && t' <= t
    ensures Computable(assetReturns, styleBetas, gearing, t')
  {
  }

  /** All periods before NUM_T_PERIODS are computable exactly when the last one is. */
  lemma LastPeriodDecides(assetReturns: seq<seq<real>>, styleBetas: seq<seq<real>>, gearing: seq<real>)
    ensures Computable(assetReturns, styleBetas, gearing, NUM_T_PERIODS - 1) <==>
      forall t :: 0 <= t < NUM_T_PERIODS ==> Computable(assetReturns, styleBetas, gearing, t)
  {
    if Computable(assetReturns, styleBetas, gearing, NUM_T_PERIODS - 1) {
      forall t | 0 <= t < NUM_T_PERIODS ensures Computable(assetReturns, styleBetas, gearing, t) {
        ComputableEarlier(assetReturns, styleBetas, gearing, NUM_T_PERIODS - 1, t);
      }
    }
  }

  /**
   * `style_returns`: one style return per period `0 .. NUM_T_PERIODS-1`
   * under the current gearing ratios. The comprehension raises IndexError
   * at the first period that cannot be computed, so the series exists
   * exactly when the last period's style return does.
   */
  function StyleReturnSeries(assetReturns: seq<seq<real>>, styleBetas: seq<seq<real>>, gearing: seq<real>): (r: Result<seq<real>>)
    ensures r.Ok? <==> Computable(assetReturns, styleBetas, gearing, NUM_T_PERIODS - 1)
    ensures r.Ok? ==>
      && |r.value| == NUM_T_PERIODS
      && forall t :: 0 <= t < NUM_T_PERIODS ==> GetStyleReturn(t, assetReturns, styleBetas, gearing) == Ok(r.value[t])
  {
    if Computable(assetReturns, styleBetas, gearing, NUM_T_PERIODS - 1) then
      LastPeriodDecides(assetReturns, styleBetas, gearing);
      Ok(seq(NUM_T_PERIODS, t requires 0 <= t < NUM_T_PERIODS => GetStyleReturn(t, assetReturns, styleBetas, gearing).value))
    else IndexError
  }
}
