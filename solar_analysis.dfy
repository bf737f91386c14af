/**
 * analyzeSolarPotential: a 0-100 score from one day's sunshine hours and
 * cloud cover, and a qualitative label bucketed by strict thresholds.
 */
module SolarAnalysis {
  import opened Numeric
  import opened WeatherService

  datatype Label = Low | Moderate | Good | Excellent

  /** The score and its label (`label` is a Dafny keyword, hence `rating`). */
  datatype Analysis = Analysis(score: int, rating: Label)

  /** Sunshine saturates at 14 hours, worth up to 70 points. */
  const FULL_SUN_HOURS: real := 14.0

  /**
   * Up to 70 points for sunshine plus up to 30 for clear sky, rounded. For
   * non-negative sunshine and a cloud cover in 0..100 the score lies in 0..100.
   */
  function Score(sunshineHours: real, cloudCover: real): (score: int)
    ensures sunshineHours >= 0.0 && 0.0 <= cloudCover <= 100.0 ==> 0 <= score <= 100
  {
    var weighted := Min(sunshineHours / FULL_SUN_HOURS, 1.0) * 70.0 + (1.0 - cloudCover / 100.0) * 30.0;
    if sunshineHours >= 0.0 && 0.0 <= cloudCover <= 100.0 then
      RoundWithin(weighted, 0, 100);
      Round(weighted)
    else
      Round(weighted)
  }

  /**
   * The label by strict thresholds; the four labels split the scores into the
   * bands (70, ..), (50, 70], (30, 50] and (.., 30].
   */
  function LabelOf(score: int): (l: Label)
    ensures l == Excellent <==> score > 70
    ensures l == Good <==> 50 < score <= 70
    ensures l == Moderate <==> 30 < score <= 50
    ensures l == Low <==> score <= 30
  {
    if score > 70 then Excellent
    else if score > 50 then Good
    else if score > 30 then Moderate
    else Low
  }

  function Analyze(day: WeatherDay): (a: Analysis)
    ensures a.rating == LabelOf(a.score)
    ensures a.score == Score(day.sunshineHours, day.cloudCover)
  {
    var total := Score(day.sunshineHours, day.cloudCover);
    Analysis(total, LabelOf(total))
  }

  /** The order of the labels, Low lowest. */
  function Rank(l: Label): nat {
    match l
    case Low => 0
    case Moderate => 1
    case Good => 2
    case Excellent => 3
  }

  /** Beyond 14 hours extra sunshine changes nothing: only cloud cover matters. */
  lemma SunshineSaturates(sun1: real, sun2: real, cloudCover: real)
    requires sun1 >= FULL_SUN_HOURS && sun2 >= FULL_SUN_HOURS
    ensures Score(sun1, cloudCover) == Score(sun2, cloudCover)
    ensures Score(sun1, cloudCover) == Round(70.0 + (1.0 - cloudCover / 100.0) * 30.0)
  {
  }

  lemma ScoreExtremes()
    ensures Analyze(WeatherDay("", 0.0, 0.0, 14.0)) == Analysis(100, Excellent)
    ensures Analyze(WeatherDay("", 0.0, 100.0, 0.0)) == Analysis(0, Low)
  {
    RoundOfInteger(100);
    RoundOfInteger(0);
  }

  /** More sunshine never lowers the score. */
  lemma ScoreMonotoneInSunshine(sun1: real, sun2: real, cloudCover: real)
    requires sun1 <= sun2
    ensures Score(sun1, cloudCover) <= Score(sun2, cloudCover)
  {
    var cloud := (1.0 - cloudCover / 100.0) * 30.0;
    RoundMonotone(Min(sun1 / FULL_SUN_HOURS, 1.0) * 70.0 + cloud, Min(sun2 / FULL_SUN_HOURS, 1.0) * 70.0 + cloud);
  }

  /** More cloud never raises the score. */
  lemma ScoreAntitoneInCloudCover(sunshineHours: real, cc1: real, cc2: real)
    requires cc1 <= cc2
    ensures Score(sunshineHours, cc2) <= Score(sunshineHours, cc1)
  {
    var sun := Min(sunshineHours / FULL_SUN_HOURS, 1.0) * 70.0;
    RoundMonotone(sun + (1.0 - cc2 / 100.0) * 30.0, sun + (1.0 - cc1 / 100.0) * 30.0);
  }

  lemma LabelBoundaries()
    ensures LabelOf(71) == Excellent && LabelOf(70) == Good
    ensures LabelOf(51) == Good && LabelOf(50) == Moderate
    ensures LabelOf(31) == Moderate && LabelOf(30) == Low
  {
  }

  /** A higher score never gets a lower label. */
  lemma LabelMonotone(s1: int, s2: int)
    requires s1 <= s2
    ensures Rank(LabelOf(s1)) <= Rank(LabelOf(s2))
  {
  }
}
