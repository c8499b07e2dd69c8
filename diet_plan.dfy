/** The health plan: a nutrition list built from the result's category and three
    exercise texts chosen by age and by whether the category is obese. */
module DietPlan {
  import opened Engine

  /** One nutrition card (its icon is presentation and is not kept). */
  datatype Recommendation = Recommendation(title: string, content: string)

  const BalancedDiet := Recommendation("Eat a Balanced Diet",
    "Include plenty of fruits, vegetables, legumes, nuts and whole grains. WHO recommends at least 400g (roughly 5 servings) of fruits and vegetables daily.")
  const LimitSugars := Recommendation("Limit Added Sugars",
    "Keep free sugars under 10% of total calories (about 6 teaspoons per day). Choose natural sweeteners when possible.")
  const HealthyFats := Recommendation("Choose Healthy Fats",
    "Restrict total fat to less than 30% of energy intake. Prefer unsaturated fats (olive oil, fish, nuts) and avoid trans/saturated fats.")
  const ReduceSalt := Recommendation("Reduce Salt Intake",
    "Aim for less than 5g of salt per day to help control blood pressure and reduce cardiovascular risk.")

  /** The four cards every plan starts with, in this order. */
  const BaseRecommendations: seq<Recommendation> := [BalancedDiet, LimitSugars, HealthyFats, ReduceSalt]

  const IncreaseCalories := Recommendation("Increase Caloric Intake",
    "Focus on nutrient-dense, calorie-rich foods. Include healthy fats, lean proteins, and complex carbohydrates. Consider eating more frequent, smaller meals.")
  const CaloricDeficit := Recommendation("Create Caloric Deficit",
    "Reduce portion sizes gradually and focus on low-calorie, nutrient-dense foods. Increase fiber intake to improve satiety.")

  /** `getDietRecommendations`: the base cards, then the category's own card pushed
      onto an initially empty list. Only `result.category` is read: no form field
      and not the index itself. */
  method GetDietRecommendations(result: BMIResult) returns (recs: seq<Recommendation>)
    ensures |recs| == if result.category == Normal then 4 else 5
    ensures recs[..4] == BaseRecommendations
    ensures result.category == Underweight ==> recs[4] == IncreaseCalories
    ensures result.category == Overweight || result.category == Obese ==> recs[4] == CaloricDeficit
  {
    var categorySpecific: seq<Recommendation> := [];
    if result.category == Underweight {
      categorySpecific := categorySpecific + [IncreaseCalories];
    } else if result.category == Overweight || result.category == Obese {
      categorySpecific := categorySpecific + [CaloricDeficit];
    }
    recs := BaseRecommendations + categorySpecific;
  }

  datatype ExercisePlan = ExercisePlan(cardio: string, strength: string, intensity: string)

  const AdultCardio := "150-300 minutes of moderate aerobic activity per week (like brisk walking or cycling)"
  const SeniorCardio := "150 minutes of moderate aerobic activity per week, adjusted for mobility"
  const AdultStrength := "Muscle-strengthening activities on 2 or more days per week"
  const SeniorStrength := "Light resistance exercises 2-3 times per week to maintain muscle mass"
  const LowImpact := "Start with low-impact activities and gradually increase intensity"
  const SteadyActivity := "Maintain consistent activity level based on current fitness"

  /** `getExerciseRecommendations`: under 65 is an adult, 65 and over a senior; the
      intensity advice is the low-impact one exactly for the obese category. */
  function GetExerciseRecommendations(formData: BMIData, result: BMIResult): (plan: ExercisePlan)
    ensures plan.cardio == AdultCardio <==> formData.age < 65
    ensures plan.cardio == SeniorCardio <==> formData.age >= 65
    ensures plan.strength == AdultStrength <==> formData.age < 65
    ensures plan.strength == SeniorStrength <==> formData.age >= 65
    ensures plan.intensity == LowImpact <==> result.category == Obese
    ensures plan.intensity == SteadyActivity <==> result.category != Obese
  {
    var adult := formData.age < 65;
    ExercisePlan(
      if adult then AdultCardio else SeniorCardio,
      if adult then AdultStrength else SeniorStrength,
      if result.category == Obese then LowImpact else SteadyActivity)
  }

  /** The age texts ignore the result; the intensity text ignores the form. */
  lemma ExerciseTextsIndependent(f: BMIData, g: BMIData, r: BMIResult, s: BMIResult)
    ensures GetExerciseRecommendations(f, r).cardio == GetExerciseRecommendations(f, s).cardio
    ensures GetExerciseRecommendations(f, r).strength == GetExerciseRecommendations(f, s).strength
    ensures GetExerciseRecommendations(f, r).intensity == GetExerciseRecommendations(g, r).intensity
  {
  }
}
