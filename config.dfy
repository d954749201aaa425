/**
 * The catalogs that fix every sweep of the pipeline and the retry settings
 * (pipeline/config.py).  Delays are whole seconds; the two fractional pauses
 * (1.5 s between calls, 3.0 s between endpoints) are only counted, never
 * timed, so they have no constant here.
 */
module Config {

  /** The season used when none is given (the `NBA_SEASON` override is not modelled). */
  const DefaultSeason: string := "2025-26"

  const MeasureTypes: seq<string> :=
    ["Base", "Advanced", "Four Factors", "Misc", "Scoring", "Opponent", "Defense"]

  const GroupQuantities: seq<nat> := [5, 3, 2]

  const PerModes: seq<string> := ["Totals", "PerGame", "Per100Possessions"]

  const SeasonTypes: seq<string> := ["Regular Season", "Playoffs"]

  const PtMeasureTypes: seq<string> :=
    ["SpeedDistance", "CatchShoot", "Drives", "Passing", "Possessions", "Rebounding",
     "Defense", "Efficiency", "PullUpShot", "PostTouch", "PaintTouch", "ElbowTouch"]

  const SynergyPlayTypes: seq<string> :=
    ["Transition", "Isolation", "PRBallHandler", "PRRollman", "Postup", "Spotup",
     "Handoff", "Cut", "OffScreen", "OffRebound", "Misc"]

  const DefenseCategories: seq<string> :=
    ["Overall", "2 Pointers", "3 Pointers", "Less Than 6Ft", "Less Than 10Ft", "Greater Than 15Ft"]

  /** Seconds allowed per request (passed to the endpoint, not modelled further). */
  const ApiTimeout: nat := 120

  /** Attempts per call of the retry caller. */
  const ApiRetries: nat := 5

  /** Seconds waited after the first failed attempt. */
  const ApiBaseDelay: nat := 3

  /** Factor by which each further wait grows. */
  const ApiBackoffMultiplier: nat := 2

  /** No catalog lists the same value twice. */
  predicate Distinct<T(==)>(xs: seq<T>)
  {
    forall i, j :: 0 <= i < j < |xs| ==> xs[i] != xs[j]
  }

  /**
   * The catalog sizes the fetchers' documentation relies on: all 7 measure
   * types (Base and Advanced first), group sizes 5, 3 and 2, 12 tracking
   * measure types, 6 defense categories, 11 play types, 3 per-modes, the
   * two season types, and at least one attempt per retry call.
   */
  lemma CatalogShape()
    ensures |MeasureTypes| == 7 && MeasureTypes[0] == "Base" && MeasureTypes[1] == "Advanced"
    ensures GroupQuantities == [5, 3, 2]
    ensures |PtMeasureTypes| == 12 && |DefenseCategories| == 6 && |SynergyPlayTypes| == 11
    ensures |PerModes| == 3 && SeasonTypes == ["Regular Season", "Playoffs"]
    ensures ApiRetries > 0
    ensures Distinct(MeasureTypes) && Distinct(GroupQuantities) && Distinct(PerModes)
    ensures Distinct(SeasonTypes) && Distinct(PtMeasureTypes) && Distinct(SynergyPlayTypes)
    ensures Distinct(DefenseCategories)
  {
  }
}
