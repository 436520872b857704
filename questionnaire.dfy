/** The questionnaire a client fills in, as the assessment form hands it to the
    scoring code once its fields have been read and parsed.

    Every categorical answer is the label string the form offers; a value outside
    the known labels (an old form version, a missing field) is just another
    string and is never an error. */
module Questionnaire {

  import opened Wrappers

  // sleep_hours
  const SLEEP_7_TO_8: string := "7 a 8h"
  const SLEEP_OVER_8: string := "Mais de 8h"
  const SLEEP_5_TO_6: string := "5 a 6h"
  const SLEEP_UNDER_5: string := "Menos de 5h"

  // sleep_quality
  const SLEEP_GOOD: string := "Boa (revigorante)"
  const SLEEP_REGULAR: string := "Regular"
  const SLEEP_POOR: string := "Ruim (acordo cansado)"

  // physical_activity_freq
  const ACTIVITY_5_PLUS: string := "5 ou mais vezes/semana"
  const ACTIVITY_3_TO_4: string := "3 a 4 vezes/semana"
  const ACTIVITY_1_TO_2: string := "1 a 2 vezes/semana"
  const SEDENTARY: string := "Sedentário"

  // physical_activity_type
  const INTENSITY_HIGH: string := "Intensa (Crossfit, HIIT)"
  const INTENSITY_MODERATE: string := "Moderada (musculação, corrida leve)"
  const INTENSITY_LIGHT: string := "Leve (caminhada, yoga)"
  const INTENSITY_NONE: string := "Nenhuma"

  // fruits_vegetables
  const FRUIT_DAILY_PLENTY: string := "Diariamente, em boa quantidade"
  const FRUIT_DAILY_LITTLE: string := "Diariamente, em pouca quantidade"
  const FRUIT_WEEKLY: string := "1 a 3 vezes/semana"
  const FRUIT_RARELY: string := "Nunca ou raramente"

  // processed_food and sweets share one scale
  const RARELY: string := "Raramente ou nunca"
  const ONE_TO_TWO_WEEKLY: string := "1 a 2 vezes/semana"
  const THREE_TO_FIVE_WEEKLY: string := "3 a 5 vezes/semana"
  const DAILY: string := "Diariamente"

  // water_intake
  const WATER_8_PLUS: string := "8 ou mais copos (2L+)"
  const WATER_4_TO_7: string := "4 a 7 copos (1-1.5L)"
  const WATER_UNDER_4: string := "Menos de 4 copos"

  // stress_level
  const STRESS_HIGH: string := "Alto e constante"
  const STRESS_MODERATE: string := "Moderado"
  const STRESS_LOW: string := "Baixo"

  // the "none" entries of the symptoms and diseases checkbox groups
  const NO_SYMPTOM: string := "Nenhum"
  const NO_DISEASE: string := "Nenhuma"

  // gender
  const FEMALE: string := "Feminino"
  const MALE: string := "Masculino"

  /** The answers the scoring code reads. Numeric fields are the result of
      `parseFloat` on the form text: None stands for NaN (an empty or
      unparsable field). */
  datatype Answers = Answers(
    gender: string,
    weight: Option<real>,       // kg
    height: Option<real>,       // m
    waist: Option<real>,        // cm, parseFloat(waist_circ)
    sleepHours: string,
    sleepQuality: string,
    stressLevel: string,
    activityFreq: string,
    activityType: string,
    waterIntake: string,
    fruitsVegetables: string,
    processedFood: string,
    sweets: string,
    symptoms: seq<string>,      // checked boxes, in form order
    diseases: seq<string>
  )

}
