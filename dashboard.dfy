/**
 * The score-related state of the user dashboard (src/pages/Dashboard.tsx):
 * the latest biometrics row, the score shown, and the blink flag that the
 * Moderate badge alternates on. Each React state setter and effect is one
 * step of a method here; the database query and the realtime channel become
 * the arguments of those methods.
 */
module Dashboard {
  import opened Wrappers
  import opened StressScore

  class DashboardState {
    var latestMetrics: Option<Sample>
    var stressScore: real
    var isBlinking: bool

    /** Outside the blink band the flag is always cleared. */
    ghost predicate Valid()
      reads this
    {
      !InBlinkBand(stressScore) ==> !isBlinking
    }

    /** The badge currently shown. */
    function CurrentBadge(): (b: Badge)
      reads this
      ensures b.state == Classify(stressScore)
    {
      StressBadge(stressScore, isBlinking)
    }

    /** Initial state after mounting: no row, score 0, not blinking (the
        blink effect's first run clears the flag). */
    constructor ()
      ensures Valid()
      ensures latestMetrics == None && stressScore == 0.0 && !isBlinking
    {
      latestMetrics := None;
      stressScore := 0.0;
      isBlinking := false;
    }

    /** `setStressScore` followed by the blink effect, which reruns only when
        the score changes: it clears the flag outside the blink band and
        (re)starts the toggle timer, keeping the flag, inside it. */
    method SetStressScore(score: real)
      requires Valid()
      modifies this`stressScore, this`isBlinking
      ensures Valid()
      ensures stressScore == score
      ensures isBlinking == (old(isBlinking) && InBlinkBand(score))
    {
      if score != stressScore {
        stressScore := score;
        if !InBlinkBand(stressScore) {
          isBlinking := false;
        }
      }
    }

    /** `fetchLatestMetrics` once its query has answered: a row replaces the
        metrics and sets the score, stored score first; no row changes
        nothing. */
    method OnLatestFetched(data: Option<Sample>)
      requires Valid()
      modifies this
      ensures Valid()
      ensures data.None? ==> latestMetrics == old(latestMetrics) && stressScore == old(stressScore)
                             && isBlinking == old(isBlinking)
      ensures data.Some? ==> latestMetrics == data && stressScore == EffectiveScore(data.value)
                             && isBlinking == (old(isBlinking) && InBlinkBand(stressScore))
    {
      if data.Some? {
        latestMetrics := data;
        SetStressScore(EffectiveScore(data.value));
      }
    }

    /** The realtime INSERT callback: the new row replaces the metrics and
        sets the score, stored score first. */
    method OnNewSample(row: Sample)
      requires Valid()
      modifies this
      ensures Valid()
      ensures latestMetrics == Some(row) && stressScore == EffectiveScore(row)
      ensures isBlinking == (old(isBlinking) && InBlinkBand(stressScore))
    {
      latestMetrics := Some(row);
      SetStressScore(EffectiveScore(row));
    }

    /** One 500 ms firing of the blink timer. The timer exists only inside the
        blink band, so outside it nothing changes. */
    method BlinkTick()
      requires Valid()
      modifies this`isBlinking
      ensures Valid()
      ensures isBlinking == (InBlinkBand(stressScore) && !old(isBlinking))
    {
      if InBlinkBand(stressScore) {
        isBlinking := !isBlinking;
      }
    }
  }

  /** A client scenario: a Moderate sample makes the badge alternate its colour on
      each blink tick; a High sample stops it. */
  method BlinkScenario()
  {
    var d := new DashboardState();
    d.OnNewSample(Sample(Missing, Missing, Missing, Missing, Num(0.5)));
    assert d.CurrentBadge().color == "bg-green-600";
    d.BlinkTick();
    assert d.CurrentBadge().color == "bg-green-500";
    d.BlinkTick();
    assert d.CurrentBadge().color == "bg-green-600";
    d.BlinkTick();
    d.OnNewSample(Sample(Missing, Missing, Missing, Missing, Num(0.9)));
    assert !d.isBlinking && d.CurrentBadge().state == High;
    d.BlinkTick();
    assert !d.isBlinking;
  }
}
