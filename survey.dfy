/** The eleven answers collected by the prediction form, and the classifier
    the application loads from its model artifact. */
module Survey {

  /** One form submission. Categorical answers are kept as the option strings
      the form widgets return, because the encoder builds column names from them. */
  datatype Response = Response(
    age: int,
    gender: string,
    degree: string,
    academicPressure: int,
    studySatisfaction: int,
    financialStress: int,
    familyHistory: string,
    suicidalThoughts: string,
    sleepDuration: string,
    dietaryHabits: string,
    workStudyHours: int)

  const GenderOptions: seq<string> := ["Male", "Female"]
  const YesNoOptions: seq<string> := ["Yes", "No"]
  const DegreeOptions: seq<string> := [
    "B.Tech", "B.Com", "BSc", "BA", "BBA", "BE", "BCA", "M.Tech", "MBA",
    "MSc", "MA", "PhD", "MBBS", "LLB", "B.Ed", "B.Pharm", "M.Com",
    "Class 12", "ME", "M.Ed", "M.Pharm", "BHM", "MD", "LLM", "MHM", "Others"]
  const SleepOptions: seq<string> :=
    ["Less than 5 hours", "5-6 hours", "7-8 hours", "More than 8 hours", "Others"]
  const DietOptions: seq<string> := ["Healthy", "Moderate", "Unhealthy", "Others"]

  /** The values the form's sliders, radios and select boxes can produce. */
  predicate FromForm(r: Response) {
    && 18 <= r.age <= 60
    && r.gender in GenderOptions
    && r.degree in DegreeOptions
    && 0 <= r.academicPressure <= 5
    && 0 <= r.studySatisfaction <= 5
    && 1 <= r.financialStress <= 5
    && r.familyHistory in YesNoOptions
    && r.suicidalThoughts in YesNoOptions
    && r.sleepDuration in SleepOptions
    && r.dietaryHabits in DietOptions
    && 0 <= r.workStudyHours <= 12
  }

  /** The class label the classifier returns: 1 is high risk, 0 low risk. */
  type Label = x: int | 0 <= x <= 1

  /** The first (and only) row of the classifier's probability output:
      index 0 is the probability of label 0, index 1 that of label 1. */
  datatype Proba = Proba(negative: real, positive: real)

  /** The loaded model artifact: its ordered feature schema and its two
      prediction entry points, which this model leaves uninterpreted. */
  datatype Classifier = Classifier(
    featureNames: seq<string>,
    predict: seq<int> -> Label,
    predictProba: seq<int> -> Proba)
}
