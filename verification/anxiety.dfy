/** The rule-based anxiety score that both the in-memory mock store and the
    edge server compute: a linear formula over stress, sleep and an
    "overwhelmed" flag, clamped to [0, 100], then three threshold bands, each
    with a fixed recommendation list. Inputs are finite reals; the score is
    reported rounded as `Math.round` does. */
module Anxiety {

  datatype Level = Low | Moderate | High

  datatype Prediction = Prediction(level: Level, score: int, recommendations: seq<string>)

  const OptimalSleep: real := 7.5
  const LowBelow: real := 35.0
  const ModerateBelow: real := 65.0

  function Abs(x: real): (r: real)
    ensures r >= 0.0 && (r == x || r == -x)
  {
    if x < 0.0 then -x else x
  }

  /** The score as the source accumulates it, step by step. */
  function AccumulatedScore(stress: real, sleep: real, overwhelmed: bool): real {
    var afterStress := 0.0 + (stress / 10.0) * 40.0;
    var sleepDeviation := Abs(sleep - OptimalSleep);
    var afterSleep := afterStress + (sleepDeviation / OptimalSleep) * 30.0;
    if overwhelmed then afterSleep + 30.0 else afterSleep
  }

  /** `Math.min(100, Math.max(0, x))`. */
  function Clamp(x: real): (r: real)
    ensures 0.0 <= r <= 100.0
    ensures 0.0 <= x <= 100.0 ==> r == x
    ensures x < 0.0 ==> r == 0.0
    ensures x > 100.0 ==> r == 100.0
  {
    if 100.0 < (if 0.0 < x then x else 0.0) then 100.0
    else if 0.0 < x then x else 0.0
  }

  /** The normalised score before rounding. */
  function RawScore(stress: real, sleep: real, overwhelmed: bool): (r: real)
    ensures 0.0 <= r <= 100.0
  {
    Clamp(AccumulatedScore(stress, sleep, overwhelmed))
  }

  /** The same score written as exact rationals: 4·stress + 4·|sleep − 7.5|
      + 30 when overwhelmed, clamped to [0, 100]. */
  function ReferenceScore(stress: real, sleep: real, overwhelmed: bool): real {
    var linear := 4.0 * stress + 4.0 * Abs(sleep - 7.5) + (if overwhelmed then 30.0 else 0.0);
    if linear < 0.0 then 0.0 else if linear > 100.0 then 100.0 else linear
  }

  /** The weights (stress/10)·40 and (deviation/7.5)·30 are exactly 4 and 4. */
  lemma RawScoreIsReference(stress: real, sleep: real, overwhelmed: bool)
    ensures RawScore(stress, sleep, overwhelmed) == ReferenceScore(stress, sleep, overwhelmed)
  {
    var d := Abs(sleep - OptimalSleep);
    assert (stress / 10.0) * 40.0 == 4.0 * stress;
    assert (d / OptimalSleep) * 30.0 == 4.0 * d;
  }

  /** The three bands, decided on the unrounded score. */
  function LevelOf(score: real): (l: Level)
    ensures l == Low <==> score < LowBelow
    ensures l == Moderate <==> LowBelow <= score < ModerateBelow
    ensures l == High <==> ModerateBelow <= score
  {
    if score < LowBelow then Low else if score < ModerateBelow then Moderate else High
  }

  const LowAdvice: seq<string> := [
    "Maintain your current healthy habits",
    "Continue regular sleep schedule",
    "Practice daily mindfulness for prevention",
    "Stay connected with support network"
  ]

  const ModerateAdvice: seq<string> := [
    "Consider booking a session with one of our spiritual doctors",
    "Practice daily meditation (15-20 minutes)",
    "Improve sleep hygiene - aim for 7-9 hours",
    "Try breathing exercises when feeling stressed",
    "Engage in regular physical activity"
  ]

  const HighAdvice: seq<string> := [
    "\U{26A0}\U{FE0F} We recommend booking an immediate consultation with a doctor",
    "Practice grounding techniques (5-4-3-2-1 method)",
    "Reach out to a trusted friend or family member",
    "Consider professional counseling services",
    "Use our guided meditation resources in the Kids Zone",
    "Avoid caffeine and maintain regular meals"
  ]

  function Recommendations(l: Level): (recs: seq<string>)
    ensures l == Low ==> |recs| == 4
    ensures l == Moderate ==> |recs| == 5
    ensures l == High ==> |recs| == 6
  {
    match l
    case Low => LowAdvice
    case Moderate => ModerateAdvice
    case High => HighAdvice
  }

  /** `Math.round`: the nearest integer, halves rounded up. */
  function Round(x: real): (n: int)
    ensures x - 0.5 < n as real <= x + 0.5
  {
    (x + 0.5).Floor
  }

  /** The full prediction both copies return. */
  function Predict(stress: real, sleep: real, overwhelmed: bool): (p: Prediction)
    ensures 0 <= p.score <= 100
    ensures p.score == Round(ReferenceScore(stress, sleep, overwhelmed))
    ensures p.level == LevelOf(ReferenceScore(stress, sleep, overwhelmed))
    ensures p.recommendations == Recommendations(p.level)
  {
    RawScoreIsReference(stress, sleep, overwhelmed);
    var raw := RawScore(stress, sleep, overwhelmed);
    var level := LevelOf(raw);
    Prediction(level, Round(raw), Recommendations(level))
  }

  /** The band boundaries: exactly 35 is moderate and exactly 65 is high. */
  lemma BandBoundaries()
    ensures LevelOf(35.0) == Moderate && LevelOf(65.0) == High
    ensures forall s: real :: s < 35.0 ==> LevelOf(s) == Low
  {
  }

  /** Stress 5 with 7 hours' sleep, not overwhelmed, scores 20 + 2 + 0 = 22
      (low); stress 10 with no sleep while overwhelmed is clamped to 100
      (high). */
  lemma WorkedExamples()
    ensures Predict(5.0, 7.0, false) == Prediction(Low, 22, Recommendations(Low))
    ensures Predict(10.0, 0.0, true) == Prediction(High, 100, Recommendations(High))
  {
    RawScoreIsReference(5.0, 7.0, false);
    RawScoreIsReference(10.0, 0.0, true);
  }

  /** The band uses the unrounded score, so a reported score of 35 can still
      carry the level `low`: stress 8 and 6.875 hours of sleep score 34.5. */
  lemma ReportedScoreCanSitAboveItsBand()
    ensures Predict(8.0, 6.875, false).score == 35
    ensures Predict(8.0, 6.875, false).level == Low
  {
    RawScoreIsReference(8.0, 6.875, false);
  }

  /** More stress never lowers the score. */
  lemma {:induction false} ScoreMonotoneInStress(s1: real, s2: real, sleep: real, overwhelmed: bool)
    requires s1 <= s2
    ensures RawScore(s1, sleep, overwhelmed) <= RawScore(s2, sleep, overwhelmed)
  {
    RawScoreIsReference(s1, sleep, overwhelmed);
    RawScoreIsReference(s2, sleep, overwhelmed);
  }
}
