/** The six wellness sub-scores shown on the results radar chart
    (`calculateRadarScores`). Each score is a sum of point lookups on the
    answer labels; a label no lookup knows contributes 0, except for the
    mental-wellbeing base, which stays at 100. */
module RadarScores {

  import opened Questionnaire

  /** The result record; the field names are the keys the chart reads. */
  datatype Scores = Scores(
    sono: int,
    atividadeFisica: int,
    alimentacao: int,
    hidratacao: int,
    saudeGeral: int,
    bemEstar: int
  )

  predicate InPercentRange(x: int) {
    0 <= x <= 100
  }

  function Max0(x: int): (m: int)
    ensures m >= 0 && m >= x && (m == 0 || m == x)
  {
    if x < 0 then 0 else x
  }

  // 1. Sleep: duration bucket plus quality bucket.

  function SleepHoursPoints(answer: string): (p: nat)
    ensures p <= 50
    ensures p == 0 <==> answer !in {SLEEP_7_TO_8, SLEEP_OVER_8, SLEEP_5_TO_6, SLEEP_UNDER_5}
  {
    if answer == SLEEP_7_TO_8 then 50
    else if answer == SLEEP_OVER_8 then 40
    else if answer == SLEEP_5_TO_6 then 25
    else if answer == SLEEP_UNDER_5 then 10
    else 0
  }

  function SleepQualityPoints(answer: string): (p: nat)
    ensures p <= 50
    ensures p == 0 <==> answer !in {SLEEP_GOOD, SLEEP_REGULAR, SLEEP_POOR}
  {
    if answer == SLEEP_GOOD then 50
    else if answer == SLEEP_REGULAR then 25
    else if answer == SLEEP_POOR then 10
    else 0
  }

  // 2. Physical activity: frequency bucket plus intensity bucket.

  function ActivityFreqPoints(answer: string): (p: nat)
    ensures p <= 50
    ensures p == 0 <==> answer !in {ACTIVITY_5_PLUS, ACTIVITY_3_TO_4, ACTIVITY_1_TO_2}
  {
    if answer == ACTIVITY_5_PLUS then 50
    else if answer == ACTIVITY_3_TO_4 then 40
    else if answer == ACTIVITY_1_TO_2 then 20
    else 0  // SEDENTARY and every unknown answer
  }

  function ActivityTypePoints(answer: string): (p: nat)
    ensures p <= 50
    ensures p == 0 <==> answer !in {INTENSITY_HIGH, INTENSITY_MODERATE, INTENSITY_LIGHT}
  {
    if answer == INTENSITY_HIGH then 50
    else if answer == INTENSITY_MODERATE then 40
    else if answer == INTENSITY_LIGHT then 25
    else 0  // INTENSITY_NONE and every unknown answer
  }

  // 3. Diet: fruit and vegetables (positive scale), processed food and
  // sweets (inverted scales: the rarer, the more points).

  function FruitPoints(answer: string): (p: nat)
    ensures p <= 35
    ensures p == 0 <==> answer !in {FRUIT_DAILY_PLENTY, FRUIT_DAILY_LITTLE, FRUIT_WEEKLY, FRUIT_RARELY}
  {
    if answer == FRUIT_DAILY_PLENTY then 35
    else if answer == FRUIT_DAILY_LITTLE then 25
    else if answer == FRUIT_WEEKLY then 15
    else if answer == FRUIT_RARELY then 5
    else 0
  }

  function ProcessedPoints(answer: string): (p: nat)
    ensures p <= 35
    ensures p == 0 <==> answer !in {RARELY, ONE_TO_TWO_WEEKLY, THREE_TO_FIVE_WEEKLY}
  {
    if answer == RARELY then 35
    else if answer == ONE_TO_TWO_WEEKLY then 25
    else if answer == THREE_TO_FIVE_WEEKLY then 10
    else 0  // DAILY and every unknown answer
  }

  function SweetsPoints(answer: string): (p: nat)
    ensures p <= 30
    ensures p == 0 <==> answer !in {RARELY, ONE_TO_TWO_WEEKLY, THREE_TO_FIVE_WEEKLY}
  {
    if answer == RARELY then 30
    else if answer == ONE_TO_TWO_WEEKLY then 20
    else if answer == THREE_TO_FIVE_WEEKLY then 10
    else 0  // DAILY and every unknown answer
  }

  // 4. Hydration: a single lookup with no default branch.

  function HydrationPoints(answer: string): (p: nat)
    ensures p <= 100
    ensures p == 0 <==> answer !in {WATER_8_PLUS, WATER_4_TO_7, WATER_UNDER_4}
  {
    if answer == WATER_8_PLUS then 100
    else if answer == WATER_4_TO_7 then 65
    else if answer == WATER_UNDER_4 then 30
    else 0
  }

  // 5. General health.

  /** `list.filter(x => x !== sentinel)`: every entry other than the
      sentinel, each as often as it occurs. */
  function WithoutSentinel(xs: seq<string>, sentinel: string): (r: seq<string>)
    ensures multiset(r) == multiset(xs)[sentinel := 0]
    ensures |r| == |xs| - multiset(xs)[sentinel]
  {
    if xs == [] then []
    else
      assert xs == [xs[0]] + xs[1..];
      (if xs[0] == sentinel then [] else [xs[0]]) + WithoutSentinel(xs[1..], sentinel)
  }

  /** 100, minus 15 per symptom entry and 20 per disease entry other than the
      "none" entries, floored at 0. */
  function HealthScore(symptoms: seq<string>, diseases: seq<string>): (h: int)
    ensures InPercentRange(h)
  {
    var healthScore := 100
      - |WithoutSentinel(symptoms, NO_SYMPTOM)| * 15
      - |WithoutSentinel(diseases, NO_DISEASE)| * 20;
    Max0(healthScore)
  }

  // 6. Mental wellbeing.

  /** The starting value; an unknown stress level keeps the initial 100. */
  function StressBase(answer: string): (p: nat)
    ensures 30 <= p <= 100
    ensures p == 100 <==> answer !in {STRESS_HIGH, STRESS_MODERATE, STRESS_LOW}
  {
    if answer == STRESS_HIGH then 30
    else if answer == STRESS_MODERATE then 60
    else if answer == STRESS_LOW then 95
    else 100
  }

  function WellbeingScore(stressLevel: string, sleepQuality: string): (w: int)
    ensures 15 <= w <= 100
  {
    var mentalScore := StressBase(stressLevel) - (if sleepQuality == SLEEP_POOR then 15 else 0);
    Max0(mentalScore)
  }

  /** All six scores of one questionnaire. */
  function CalculateRadarScores(a: Answers): (s: Scores)
    ensures InPercentRange(s.sono) && InPercentRange(s.atividadeFisica)
    ensures InPercentRange(s.alimentacao) && InPercentRange(s.hidratacao)
    ensures InPercentRange(s.saudeGeral) && InPercentRange(s.bemEstar)
    ensures s.bemEstar >= 15
    ensures s.hidratacao == 0 <==> a.waterIntake !in {WATER_8_PLUS, WATER_4_TO_7, WATER_UNDER_4}
  {
    Scores(
      sono := SleepHoursPoints(a.sleepHours) + SleepQualityPoints(a.sleepQuality),
      atividadeFisica := ActivityFreqPoints(a.activityFreq) + ActivityTypePoints(a.activityType),
      alimentacao := FruitPoints(a.fruitsVegetables) + ProcessedPoints(a.processedFood) + SweetsPoints(a.sweets),
      hidratacao := HydrationPoints(a.waterIntake),
      saudeGeral := HealthScore(a.symptoms, a.diseases),
      bemEstar := WellbeingScore(a.stressLevel, a.sleepQuality)
    )
  }

  /** The general-health score counts list ENTRIES, not distinct values:
      every occurrence of a symptom other than "Nenhum" costs 15 points and
      every occurrence of a disease other than "Nenhuma" 20. */
  lemma HealthScoreCountsEntries(a: Answers)
    ensures CalculateRadarScores(a).saudeGeral
         == Max0(100 - 15 * (|a.symptoms| - multiset(a.symptoms)[NO_SYMPTOM])
                     - 20 * (|a.diseases| - multiset(a.diseases)[NO_DISEASE]))
  {
  }

  /** Three symptoms and one disease, none of them a "none" entry, leave
      100 - 45 - 20 = 35; repeated entries are counted again. */
  lemma HealthScoreExample(s1: string, s2: string, s3: string, d: string)
    requires s1 != NO_SYMPTOM && s2 != NO_SYMPTOM && s3 != NO_SYMPTOM && d != NO_DISEASE
    ensures HealthScore([s1, s2, s3], [d]) == 35
    ensures HealthScore([s1, s1, s1], [d, NO_DISEASE]) == 35
  {
    assert multiset([s1, s2, s3])[NO_SYMPTOM] == 0;
    assert multiset([s1, s1, s1])[NO_SYMPTOM] == 0;
    assert multiset([d])[NO_DISEASE] == 0;
    assert multiset([d, NO_DISEASE])[NO_DISEASE] == 1;
  }

  /** A poor-sleep answer costs exactly 15 wellbeing points, whatever the
      stress level. */
  lemma PoorSleepCostsFifteen(stressLevel: string, otherQuality: string)
    requires otherQuality != SLEEP_POOR
    ensures WellbeingScore(stressLevel, SLEEP_POOR) == WellbeingScore(stressLevel, otherQuality) - 15
  {
  }

  /** An unrecognised stress level scores 100 (85 with poor sleep), above
      every recognised one: the asymmetric default of the wellbeing scale. */
  lemma UnknownStressScoresHighest(unknown: string, known: string, quality: string)
    requires unknown !in {STRESS_HIGH, STRESS_MODERATE, STRESS_LOW}
    requires known in {STRESS_HIGH, STRESS_MODERATE, STRESS_LOW}
    ensures WellbeingScore(unknown, quality) == if quality == SLEEP_POOR then 85 else 100
    ensures WellbeingScore(known, quality) < WellbeingScore(unknown, quality)
  {
  }

}
