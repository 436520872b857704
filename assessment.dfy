/** What `handleAssessmentSubmit` derives from one questionnaire before it
    stores it: the body-mass index, its classification, the ordered list of
    risk alerts and the profile tag that summarises them. */
module Assessment {

  import opened Wrappers
  import opened Questionnaire

  datatype Classification = Unclassified | Underweight | Normal | Overweight | ObesityI {

    /** The text stored in the record ('' when the BMI is not finite). */
    function Text(): string {
      match this
      case Unclassified => ""
      case Underweight => "Abaixo do peso"
      case Normal => "Eutrofia (peso ideal)"
      case Overweight => "Sobrepeso"
      case ObesityI => "Obesidade grau I"
    }

    /** Position on the BMI scale, for stating monotonicity. */
    function Rank(): nat {
      match this
      case Unclassified => 0
      case Underweight => 1
      case Normal => 2
      case Overweight => 3
      case ObesityI => 4
    }
  }

  /** The five alert rules, in the order they are evaluated and pushed. */
  datatype Alert = PoorSleep | HighStress | Sedentary | ProcessedOrSweets | HighWaist {

    function Rank(): nat {
      match this
      case PoorSleep => 0
      case HighStress => 1
      case Sedentary => 2
      case ProcessedOrSweets => 3
      case HighWaist => 4
    }

    function Text(): string {
      match this
      case PoorSleep => "Qualidade do sono ruim pode impactar a saúde e o peso."
      case HighStress => "Estresse alto é um fator de risco."
      case Sedentary => "Sedentarismo é um risco à saúde."
      case ProcessedOrSweets => "Alto consumo de processados e açúcares."
      case HighWaist => "Circunferência da cintura elevada (risco cardiovascular)."
    }
  }

  datatype Profile = Healthy | NeedsImprovement | CriticalAttention {

    function Text(): string {
      match this
      case Healthy => "Perfil Saudável"
      case NeedsImprovement => "Perfil com Pontos de Melhoria"
      case CriticalAttention => "Perfil com Pontos Críticos de Atenção"
    }
  }

  /** One stored assessment. `date` is the creation instant in milliseconds
      since the epoch; `bmi` is the unrounded quotient, None when it is not a
      finite number. */
  datatype Assessment = Assessment(
    id: string,
    date: int,
    bmi: Option<real>,
    classification: Classification,
    alerts: seq<Alert>,
    profile: Profile,
    formInputs: Answers
  )

  /** weight / (height * height): undefined when an input is NaN or the
      height is 0 (the quotient is then infinite or NaN). */
  function Bmi(weight: Option<real>, height: Option<real>): (bmi: Option<real>)
    ensures bmi.Some? <==> weight.Some? && height.Some? && height.value != 0.0
    ensures bmi.Some? ==> bmi.value * (height.value * height.value) == weight.value
  {
    if weight.None? || height.None? || height.value == 0.0 then None
    else Some(weight.value / (height.value * height.value))
  }

  /** Closed-open thresholds on the unrounded BMI. */
  function Classify(bmi: Option<real>): (c: Classification)
    ensures c == Unclassified <==> bmi.None?
    ensures c == Underweight <==> bmi.Some? && bmi.value < 18.5
    ensures c == Normal <==> bmi.Some? && 18.5 <= bmi.value < 25.0
    ensures c == Overweight <==> bmi.Some? && 25.0 <= bmi.value < 30.0
    ensures c == ObesityI <==> bmi.Some? && 30.0 <= bmi.value
  {
    if bmi.None? then Unclassified
    else if bmi.value < 18.5 then Underweight
    else if bmi.value < 25.0 then Normal
    else if bmi.value < 30.0 then Overweight
    else ObesityI
  }

  /** A larger BMI never gets a lower class. */
  lemma ClassifyMonotone(b1: real, b2: real)
    requires b1 <= b2
    ensures Classify(Some(b1)).Rank() <= Classify(Some(b2)).Rank()
  {
  }

  /** The waist test as written: `parseFloat(waist)` must be truthy (a number
      other than 0) and then exceed 88 for 'Feminino' or 102 for 'Masculino'. */
  predicate WaistAlertFires(gender: string, waist: Option<real>) {
    (waist.Some? && waist.value != 0.0 && gender == FEMALE && waist.value > 88.0) ||
    (waist.Some? && waist.value != 0.0 && gender == MALE && waist.value > 102.0)
  }

  /** Strictly increasing rule positions: rule order, and no alert twice. */
  predicate InRuleOrder(alerts: seq<Alert>) {
    forall i, j :: 0 <= i < j < |alerts| ==> alerts[i].Rank() < alerts[j].Rank()
  }

  /** `if (fires) alerts.push(alert)`, for an alert whose rule comes after
      every alert already pushed. */
  function PushIf(alerts: seq<Alert>, fires: bool, alert: Alert): (r: seq<Alert>)
    requires forall x :: x in alerts ==> x.Rank() < alert.Rank()
    ensures InRuleOrder(alerts) ==> InRuleOrder(r)
    ensures forall x :: x in r <==> x in alerts || (fires && x == alert)
    ensures forall x :: x in r ==> x.Rank() <= alert.Rank()
    ensures |r| <= |alerts| + 1
  {
    if fires then alerts + [alert] else alerts
  }

  /** The alerts of one questionnaire, pushed in rule order. */
  function Alerts(a: Answers): (r: seq<Alert>)
    ensures InRuleOrder(r)
    ensures |r| <= 5
    ensures PoorSleep in r <==> a.sleepQuality == SLEEP_POOR
    ensures HighStress in r <==> a.stressLevel == STRESS_HIGH
    ensures Sedentary in r <==> a.activityFreq == SEDENTARY
    ensures ProcessedOrSweets in r <==> a.processedFood == DAILY || a.sweets == DAILY
    ensures HighWaist in r <==>
      a.waist.Some? && ((a.gender == FEMALE && a.waist.value > 88.0) || (a.gender == MALE && a.waist.value > 102.0))
  {
    var r1 := PushIf([], a.sleepQuality == SLEEP_POOR, PoorSleep);
    var r2 := PushIf(r1, a.stressLevel == STRESS_HIGH, HighStress);
    var r3 := PushIf(r2, a.activityFreq == SEDENTARY, Sedentary);
    var r4 := PushIf(r3, a.processedFood == DAILY || a.sweets == DAILY, ProcessedOrSweets);
    PushIf(r4, WaistAlertFires(a.gender, a.waist), HighWaist)
  }

  /** The tag depends on the number of alerts alone. */
  function ProfileFor(alertCount: nat): (p: Profile)
    ensures p == CriticalAttention <==> alertCount > 2
    ensures p == NeedsImprovement <==> 1 <= alertCount <= 2
    ensures p == Healthy <==> alertCount == 0
  {
    if alertCount > 2 then CriticalAttention
    else if alertCount > 0 then NeedsImprovement
    else Healthy
  }

  /** The record an accepted submission stores, given its id and date. */
  function Evaluate(id: string, date: int, a: Answers): (rec: Assessment)
    ensures rec.id == id && rec.date == date && rec.formInputs == a
    ensures rec.bmi == Bmi(a.weight, a.height) && rec.classification == Classify(rec.bmi)
    ensures rec.alerts == Alerts(a) && rec.profile == ProfileFor(|rec.alerts|)
    ensures rec.classification == Unclassified <==> rec.bmi.None?
    ensures rec.bmi.None? <==> a.weight.None? || a.height.None? || a.height.value == 0.0
    ensures |rec.alerts| <= 5
    ensures rec.profile == CriticalAttention <==> |rec.alerts| > 2
    ensures rec.profile == Healthy <==> rec.alerts == []
  {
    var bmi := Bmi(a.weight, a.height);
    var alerts := Alerts(a);
    Assessment(id, date, bmi, Classify(bmi), alerts, ProfileFor(|alerts|), a)
  }

  /** The worked scenario: 70 kg at 1.75 m with poor sleep and a sedentary
      routine is in the normal range, with two alerts and the
      "points of improvement" profile. */
  lemma WorkedExample(a: Answers, id: string, date: int)
    requires a.weight == Some(70.0) && a.height == Some(1.75)
    requires a.sleepQuality == SLEEP_POOR && a.stressLevel == STRESS_LOW
    requires a.activityFreq == SEDENTARY
    requires a.processedFood == RARELY && a.sweets == RARELY
    requires a.waist.None? && a.gender == MALE
    ensures Evaluate(id, date, a).classification == Normal
    ensures Evaluate(id, date, a).alerts == [PoorSleep, Sedentary]
    ensures Evaluate(id, date, a).profile == NeedsImprovement
  {
    var bmi := Bmi(a.weight, a.height);
    assert bmi.value * 3.0625 == 70.0;
  }

}
