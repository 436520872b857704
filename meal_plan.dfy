/** The one rule the plan editor enforces before saving a plan: breakfast,
    lunch and dinner must each be non-empty once trimmed. */
module MealPlan {

  import opened JsText

  function EssentialMealsFilled(breakfast: string, lunch: string, dinner: string): (ok: bool)
    ensures ok <==> HasVisibleChar(breakfast) && HasVisibleChar(lunch) && HasVisibleChar(dinner)
  {
    Trim(breakfast) != "" && Trim(lunch) != "" && Trim(dinner) != ""
  }

}
