/** The tuning constants at the top of mimir.py. */
module Parameters {

  /** Fraction of the ranked assets that goes into each leg of the style portfolio. */
  const PORTFOLIO_CUTOFF: real := 0.2

  /** Number of periods for which a style return is computed and regressed on. */
  const NUM_T_PERIODS: nat := 80

  /** The driver loops while the squared change of the gearing ratios is at least this. */
  const THRESHOLD: real := 0.01
}
