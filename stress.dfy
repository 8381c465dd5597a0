/**
 * The dashboard's stress scorer and its three-level classifier
 * (src/pages/Dashboard.tsx). Readings are exact reals: the model does not
 * follow IEEE-754 rounding.
 */
module StressScore {
  import Wrappers

  /** One column of a biometrics row as the dashboard sees it: absent from the
      object (`undefined`), present but `null`, or a number. */
  datatype Reading = Missing | Null | Num(value: real)

  /** A biometrics row: the four sensor readings and the optional stored score. */
  datatype Sample = Sample(gsr: Reading, heartbeat: Reading, spo2: Reading,
                           temperature: Reading, storedScore: Reading)

  /** The three states the badge can show. */
  datatype StressState = Relaxed | Moderate | High

  /** What the status badge renders (the emoji icon is not modelled). */
  datatype Badge = Badge(state: StressState, text: string, color: string)

  // Normal values and thresholds of the four readings.
  const GSR_NORMAL: real := 1500.0
  const HR_NORMAL: real := 72.0
  const TEMP_NORMAL: real := 36.5
  const SPO2_NORMAL: real := 98.0

  const GSR_THRESHOLD: real := 2500.0
  const HR_THRESHOLD: real := 80.0
  const TEMP_THRESHOLD: real := 37.2
  const SPO2_THRESHOLD: real := 95.0

  // Weights of the four normalised deviations.
  const GSR_WEIGHT: real := 0.3
  const HR_WEIGHT: real := 0.25
  const TEMP_WEIGHT: real := 0.2
  const SPO2_WEIGHT: real := 0.25

  // Classification thresholds.
  const STRESS_LOW: real := 0.3
  const STRESS_HIGH: real := 0.7

  /** The value a destructuring default `x = d` gives: `d` replaces only an
      absent field; a `null` field takes part in subtraction as 0. */
  function ValueOr(r: Reading, default: real): real
  {
    match r
    case Missing => default
    case Null => 0.0
    case Num(v) => v
  }

  /** `Math.max(0, x)` */
  function Max0(x: real): real
  {
    if x < 0.0 then 0.0 else x
  }

  /** The weighted sum of the four clipped, normalised deviations. */
  function RawScore(gsr: real, heartbeat: real, spo2: real, temperature: real): (score: real)
    ensures score >= 0.0
  {
    var gsrFactor := Max0(gsr - GSR_NORMAL) / (GSR_THRESHOLD - GSR_NORMAL);
    var hrFactor := Max0(heartbeat - HR_NORMAL) / (HR_THRESHOLD - HR_NORMAL);
    var tempFactor := Max0(temperature - TEMP_NORMAL) / (TEMP_THRESHOLD - TEMP_NORMAL);
    var spo2Factor := Max0(SPO2_NORMAL - spo2) / (SPO2_NORMAL - SPO2_THRESHOLD);
    gsrFactor * GSR_WEIGHT + hrFactor * HR_WEIGHT + tempFactor * TEMP_WEIGHT + spo2Factor * SPO2_WEIGHT
  }

  /** `calculateStressScore`: no sample scores 0; absent readings take the
      defaults gsr = 0, heartbeat = 0, spo2 = 100, temperature = 0. */
  function CalculateStressScore(metrics: Wrappers.Option<Sample>): (score: real)
    ensures score >= 0.0
    ensures metrics.None? ==> score == 0.0
  {
    match metrics
    case None => 0.0
    case Some(m) =>
      RawScore(ValueOr(m.gsr, 0.0), ValueOr(m.heartbeat, 0.0),
               ValueOr(m.spo2, 100.0), ValueOr(m.temperature, 0.0))
  }

  /** `stress_score ?? calculateStressScore(row)`: a stored numeric score is
      taken as it is, even 0 or negative; a `null` or absent one is computed. */
  function EffectiveScore(row: Sample): (score: real)
    ensures row.storedScore.Num? ==> score == row.storedScore.value
    ensures !row.storedScore.Num? ==> score == CalculateStressScore(Wrappers.Some(row)) && score >= 0.0
  {
    match row.storedScore
    case Num(v) => v
    case _ => CalculateStressScore(Wrappers.Some(row))
  }

  /** `getStressState`'s bucketing of the score. */
  function Classify(score: real): (state: StressState)
    ensures state == Relaxed <==> score < STRESS_LOW
    ensures state == Moderate <==> STRESS_LOW <= score < STRESS_HIGH
    ensures state == High <==> STRESS_HIGH <= score
  {
    if score < STRESS_LOW then Relaxed
    else if score < STRESS_HIGH then Moderate
    else High
  }

  /** The condition under which the dashboard runs its blink timer. */
  predicate InBlinkBand(score: real)
  {
    score >= STRESS_LOW && score < STRESS_HIGH
  }

  /** `getStressState`: the badge for a score and the current blink flag. */
  function StressBadge(score: real, isBlinking: bool): (b: Badge)
    ensures b.state == Classify(score)
  {
    match Classify(score)
    case Relaxed => Badge(Relaxed, "Relaxed", "bg-green-500")
    case Moderate => Badge(Moderate, "Moderate Stress", if isBlinking then "bg-green-500" else "bg-green-600")
    case High => Badge(High, "High Stress", "bg-red-500")
  }

  /** Position of a state in the order Relaxed < Moderate < High. */
  function Rank(s: StressState): nat
  {
    match s
    case Relaxed => 0
    case Moderate => 1
    case High => 2
  }

  // ---------------------------------------------------------------------------
  // Properties of the scorer

  /** The score is zero exactly when no reading deviates beyond its normal. */
  lemma ScoreZeroIff(gsr: real, heartbeat: real, spo2: real, temperature: real)
    ensures RawScore(gsr, heartbeat, spo2, temperature) == 0.0 <==>
            gsr <= GSR_NORMAL && heartbeat <= HR_NORMAL && temperature <= TEMP_NORMAL && spo2 >= SPO2_NORMAL
  {
  }

  /** Nominal readings score exactly 0. */
  lemma NominalScoresZero()
    ensures CalculateStressScore(Wrappers.Some(Sample(Num(1500.0), Num(72.0), Num(98.0), Num(36.5), Missing)))
            == 0.0
  {
    ScoreZeroIff(1500.0, 72.0, 98.0, 36.5);
  }

  /** Readings at their thresholds score exactly 0.3 + 0.25 + 0.2 + 0.25 = 1. */
  lemma ThresholdScoresOne()
    ensures CalculateStressScore(Wrappers.Some(Sample(Num(2500.0), Num(80.0), Num(95.0), Num(37.2), Missing)))
            == 1.0
  {
  }

  /** No sample, or a sample whose readings are all absent, scores 0. */
  lemma EmptySampleScoresZero()
    ensures CalculateStressScore(Wrappers.None) == 0.0
    ensures CalculateStressScore(Wrappers.Some(Sample(Missing, Missing, Missing, Missing, Missing))) == 0.0
  {
    ScoreZeroIff(0.0, 0.0, 100.0, 0.0);
  }

  /** A `null` spo2 column is not defaulted to 100: it counts as 0 % oxygen,
      which alone gives a score of 0.25 * 98 / 3 and the High state. */
  lemma NullSpo2ScoresHigh()
    ensures CalculateStressScore(Wrappers.Some(Sample(Null, Null, Null, Null, Null))) == 49.0 / 6.0
    ensures Classify(EffectiveScore(Sample(Null, Null, Null, Null, Null))) == High
  {
  }

  /** The score never decreases when gsr, heartbeat or temperature rise or
      spo2 falls. */
  lemma ScoreMonotone(gsr: real, heartbeat: real, spo2: real, temperature: real,
                      gsr': real, heartbeat': real, spo2': real, temperature': real)
    requires gsr <= gsr' && heartbeat <= heartbeat' && temperature <= temperature' && spo2' <= spo2
    ensures RawScore(gsr, heartbeat, spo2, temperature) <= RawScore(gsr', heartbeat', spo2', temperature')
  {
  }

  /** The score is not clamped: every bound is exceeded by some gsr reading. */
  lemma ScoreUnbounded(bound: real)
    ensures exists gsr :: RawScore(gsr, HR_NORMAL, SPO2_NORMAL, TEMP_NORMAL) > bound
  {
    var gsr := if bound <= 0.0 then GSR_THRESHOLD else GSR_NORMAL + 10000.0 * bound;
    assert RawScore(gsr, HR_NORMAL, SPO2_NORMAL, TEMP_NORMAL) > bound;
  }

  // ---------------------------------------------------------------------------
  // Properties of the classifier

  /** A higher score never gives a lower state. */
  lemma ClassifyMonotone(score: real, score': real)
    requires score <= score'
    ensures Rank(Classify(score)) <= Rank(Classify(score'))
  {
  }

  /** The blink timer's condition is exactly the Moderate state of the badge. */
  lemma BlinkBandIsModerate(score: real)
    ensures InBlinkBand(score) <==> Classify(score) == Moderate
  {
  }

  /** The blink flag changes the badge only in the Moderate state. */
  lemma BlinkVisibleOnlyWhenModerate(score: real)
    ensures StressBadge(score, true) != StressBadge(score, false) <==> Classify(score) == Moderate
  {
  }

  /** Boundary values of the classification. */
  lemma ClassifyBoundaries()
    ensures Classify(0.29) == Relaxed && Classify(0.3) == Moderate
    ensures Classify(0.69) == Moderate && Classify(0.7) == High
  {
  }
}
