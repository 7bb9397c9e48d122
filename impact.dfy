/**
 * `estimateAgriculturalImpact` of `src/utils/molecules.js`: a local
 * `impact` record starts at zero and, when the simulation succeeded, a
 * `switch` on the molecule's category fills its four fields from the
 * activity score. `Math.floor` is `Floor` on reals.
 */
module AgriculturalImpact {
  import opened Options
  import opened MoleculeData
  import opened MolecularWeight

  /** The object the function returns. */
  datatype Impact = Impact(farmersReached: int, yieldIncrease: int, costReduction: int, environmentalBenefit: int)

  const NoImpact := Impact(0, 0, 0, 0)

  /** The multipliers and the fixed benefit one `switch` case uses. */
  datatype Rates = Rates(reach: real, yieldGain: real, saving: real, benefit: int)

  /** The `switch (category)`: `'pesticide'`, `'nutrient'`, and `default`. */
  function RatesOf(category: string): Rates {
    if category == "pesticide" then Rates(50000.0, 25.0, 30.0, 80)
    else if category == "nutrient" then Rates(75000.0, 35.0, 20.0, 60)
    else Rates(25000.0, 15.0, 15.0, 40)
  }

  /** `simulationResults && simulationResults.success`. */
  predicate Succeeded(results: Option<SimulationResults>) {
    results.Some? && results.value.success
  }

  /** `(agricultural_activity || {}).pesticide_activity_score || 0.5`: a
      missing activity, a missing score and a score of 0 all read as 0.5. */
  function ScoreOf(activity: Option<Activity>): (score: real)
    ensures activity.Some? && activity.value.pesticideActivityScore.Some?
            && activity.value.pesticideActivityScore.value != 0.0
            ==> score == activity.value.pesticideActivityScore.value
    ensures activity.None? || activity.value.pesticideActivityScore.None? ==> score == 0.5
    ensures activity.Some? && activity.value.pesticideActivityScore == Some(0.0) ==> score == 0.5
    ensures score != 0.0
  {
    match activity
    case None => 0.5
    case Some(a) =>
      match a.pesticideActivityScore
      case Some(s) => if s != 0.0 then s else 0.5
      case None => 0.5
  }

  /** The four fields one case of the `switch` assigns. */
  function Scaled(rates: Rates, score: real): Impact {
    Impact((score * rates.reach).Floor, (score * rates.yieldGain).Floor,
           (score * rates.saving).Floor, rates.benefit)
  }

  /** What `estimateAgriculturalImpact(molecule, simulationResults)` returns. */
  function ImpactFor(category: string, results: Option<SimulationResults>): Impact {
    if Succeeded(results) then Scaled(RatesOf(category), ScoreOf(results.value.agriculturalActivity))
    else NoImpact
  }

  /** `estimateAgriculturalImpact`. The molecular weight it computes first is
      never used. */
  method EstimateAgriculturalImpact(molecule: Molecule, simulationResults: Option<SimulationResults>)
    returns (impact: Impact)
    ensures impact == ImpactFor(molecule.category, simulationResults)
  {
    var mw := Weight(molecule.atoms);
    var category := molecule.category;
    impact := NoImpact;
    if simulationResults.Some? && simulationResults.value.success {
      var pesticideScore := ScoreOf(simulationResults.value.agriculturalActivity);
      if category == "pesticide" {
        impact := impact.(farmersReached := (pesticideScore * 50000.0).Floor);
        impact := impact.(yieldIncrease := (pesticideScore * 25.0).Floor);
        impact := impact.(costReduction := (pesticideScore * 30.0).Floor);
        impact := impact.(environmentalBenefit := 80);
      } else if category == "nutrient" {
        impact := impact.(farmersReached := (pesticideScore * 75000.0).Floor);
        impact := impact.(yieldIncrease := (pesticideScore * 35.0).Floor);
        impact := impact.(costReduction := (pesticideScore * 20.0).Floor);
        impact := impact.(environmentalBenefit := 60);
      } else {
        impact := impact.(farmersReached := (pesticideScore * 25000.0).Floor);
        impact := impact.(yieldIncrease := (pesticideScore * 15.0).Floor);
        impact := impact.(costReduction := (pesticideScore * 15.0).Floor);
        impact := impact.(environmentalBenefit := 40);
      }
    }
  }

  // Properties of the estimate.

  /** Without a successful simulation every field is 0. */
  lemma NoImpactWithoutSuccess(category: string, results: Option<SimulationResults>)
    ensures !Succeeded(results) <==> ImpactFor(category, results) == NoImpact
  {
    if Succeeded(results) {
      assert ImpactFor(category, results).environmentalBenefit >= 40;
    }
  }

  /** After a successful simulation the environmental benefit is 80 for a
      pesticide, 60 for a nutrient and 40 for any other category. */
  lemma BenefitByCategory(category: string, results: Option<SimulationResults>)
    requires Succeeded(results)
    ensures ImpactFor(category, results).environmentalBenefit ==
      (if category == "pesticide" then 80 else if category == "nutrient" then 60 else 40)
  {
  }

  /** A missing activity, a missing score and a score of 0 give the same
      estimate as a score of 0.5. */
  lemma MissingScoreCountsAsHalf(category: string, success: bool, atomData: Option<seq<Atom>>,
                                 quantumEnergy: Option<real>, activity: Option<Activity>)
    requires activity.None? || activity.value.pesticideActivityScore.None?
             || activity.value.pesticideActivityScore == Some(0.0)
    ensures ImpactFor(category, Some(SimulationResults(success, atomData, quantumEnergy, activity)))
         == ImpactFor(category, Some(SimulationResults(success, atomData, quantumEnergy, Some(Activity(Some(0.5))))))
  {
  }

  /** Each count is the score times the case's rate, rounded down. */
  lemma CountsRoundDown(category: string, results: Option<SimulationResults>)
    requires Succeeded(results)
    ensures var score := ScoreOf(results.value.agriculturalActivity);
      var rates := RatesOf(category);
      var impact := ImpactFor(category, results);
      && impact.farmersReached as real <= score * rates.reach < impact.farmersReached as real + 1.0
      && impact.yieldIncrease as real <= score * rates.yieldGain < impact.yieldIncrease as real + 1.0
      && impact.costReduction as real <= score * rates.saving < impact.costReduction as real + 1.0
  {
  }

  lemma FloorMonotone(a: real, b: real)
    requires a <= b
    ensures a.Floor <= b.Floor
  {
  }

  lemma ProductMonotone(s: real, t: real, rate: real)
    requires s <= t && rate >= 0.0
    ensures s * rate <= t * rate
  {
    assert t * rate - s * rate == (t - s) * rate;
  }

  /** A higher score never lowers any count, whatever the category. */
  lemma MonotoneInScore(rates: Rates, s: real, t: real)
    requires s <= t
    requires rates.reach >= 0.0 && rates.yieldGain >= 0.0 && rates.saving >= 0.0
    ensures var low, high := Scaled(rates, s), Scaled(rates, t);
      && low.farmersReached <= high.farmersReached
      && low.yieldIncrease <= high.yieldIncrease
      && low.costReduction <= high.costReduction
      && low.environmentalBenefit == high.environmentalBenefit
  {
    ProductMonotone(s, t, rates.reach);
    ProductMonotone(s, t, rates.yieldGain);
    ProductMonotone(s, t, rates.saving);
    FloorMonotone(s * rates.reach, t * rates.reach);
    FloorMonotone(s * rates.yieldGain, t * rates.yieldGain);
    FloorMonotone(s * rates.saving, t * rates.saving);
  }

  /** Every case's rates are non-negative, so a higher effective score
      (after the 0.5 default) never lowers the estimate. */
  lemma HigherScoreNeverLowers(category: string, s: real, t: real)
    requires s <= t
    ensures var low, high := Scaled(RatesOf(category), s), Scaled(RatesOf(category), t);
      && low.farmersReached <= high.farmersReached
      && low.yieldIncrease <= high.yieldIncrease
      && low.costReduction <= high.costReduction
  {
    MonotoneInScore(RatesOf(category), s, t);
  }

  /** Among present, non-zero raw scores, a higher one never lowers the
      estimate. */
  lemma HigherRawScoreNeverLowers(category: string, s: real, t: real)
    requires s != 0.0 && t != 0.0 && s <= t
    ensures var results := (score: real) => Some(SimulationResults(true, None, None, Some(Activity(Some(score)))));
      var low, high := ImpactFor(category, results(s)), ImpactFor(category, results(t));
      && low.farmersReached <= high.farmersReached
      && low.yieldIncrease <= high.yieldIncrease
      && low.costReduction <= high.costReduction
  {
    HigherScoreNeverLowers(category, s, t);
  }

  /** The raw score is not monotone at 0: a raw score of 0 reads as 0.5, so
      a pesticide reaches 25000 farmers at raw score 0 but only 5000 at
      raw score 0.1. */
  lemma ZeroRawScoreReadsAsHalf()
    ensures ImpactFor("pesticide", Some(SimulationResults(true, None, None, Some(Activity(Some(0.0)))))).farmersReached == 25000
    ensures ImpactFor("pesticide", Some(SimulationResults(true, None, None, Some(Activity(Some(0.1)))))).farmersReached == 5000
  {
  }

  /** With the default score of 0.5: a pesticide reaches 25000 farmers, a
      nutrient 37500, anything else 12500. */
  lemma DefaultScoreFigures(category: string)
    ensures Scaled(RatesOf(category), 0.5) ==
      if category == "pesticide" then Impact(25000, 12, 15, 80)
      else if category == "nutrient" then Impact(37500, 17, 10, 60)
      else Impact(12500, 7, 7, 40)
  {
  }
}
