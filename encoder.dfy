/** The feature-row encoder of the prediction form: turns one survey response
    into the numeric row, in the classifier's own column order, that is handed
    to the classifier. */
module Encoder {
  import opened Survey

  // Columns overwritten with an answer, or with a fixed 0, by the dictionary update.
  const AgeColumn: string := "Age"
  const AcademicPressureColumn: string := "Academic Pressure"
  const StudySatisfactionColumn: string := "Study Satisfaction"
  const FinancialStressColumn: string := "Financial Stress"
  const WorkStudyHoursColumn: string := "Work/Study Hours"
  const WorkPressureColumn: string := "Work Pressure"
  const CgpaColumn: string := "CGPA"
  const JobSatisfactionColumn: string := "Job Satisfaction"

  // Indicator columns with fixed names.
  const GenderMaleColumn: string := "Gender_Male"
  const SuicidalThoughtsColumn: string := "Have you ever had suicidal thoughts ?_Yes"
  const FamilyHistoryColumn: string := "Family History of Mental Illness_Yes"
  const DegreeOthersColumn: string := "Degree_Others"

  // Prefixes of the templated indicator columns "<Label>_<answer>".
  const SleepPrefix: string := "Sleep Duration_"
  const DietPrefix: string := "Dietary Habits_"
  const DegreePrefix: string := "Degree_"

  /** The columns the form does not collect; the encoder pins them to 0. */
  const UnsetColumns: set<string> := {WorkPressureColumn, CgpaColumn, JobSatisfactionColumn}

  /** Every key written by the dictionary update. */
  const NumericColumns: set<string> :=
    {AgeColumn, AcademicPressureColumn, StudySatisfactionColumn, FinancialStressColumn,
     WorkStudyHoursColumn} + UnsetColumns

  predicate HasPrefix(k: string, p: string) {
    |p| <= |k| && k[..|p|] == p
  }

  predicate IsSleepColumn(k: string) { HasPrefix(k, SleepPrefix) }
  predicate IsDietColumn(k: string) { HasPrefix(k, DietPrefix) }
  predicate IsDegreeColumn(k: string) { HasPrefix(k, DegreePrefix) }

  function SleepColumn(r: Response): string { SleepPrefix + r.sleepDuration }
  function DietColumn(r: Response): string { DietPrefix + r.dietaryHabits }
  function DegreeColumn(r: Response): string { DegreePrefix + r.degree }

  /** The one degree indicator the encoder switches on: the templated column
      when the schema knows it, the catch-all column otherwise. */
  function ChosenDegree(features: seq<string>, r: Response): string {
    if DegreeColumn(r) in features then DegreeColumn(r) else DegreeOthersColumn
  }

  /** Whether one of the first n indicator writes (1 gender, 2 sleep, 3 diet,
      4 suicidal thoughts, 5 family history, 6 degree) switches column k on. */
  predicate ActivatedUpTo(features: seq<string>, r: Response, n: nat, k: string) {
    || (n >= 1 && r.gender == "Male" && k == GenderMaleColumn)
    || (n >= 2 && SleepColumn(r) in features && k == SleepColumn(r))
    || (n >= 3 && DietColumn(r) in features && k == DietColumn(r))
    || (n >= 4 && r.suicidalThoughts == "Yes" && k == SuicidalThoughtsColumn)
    || (n >= 5 && r.familyHistory == "Yes" && k == FamilyHistoryColumn)
    || (n >= 6 && k == ChosenDegree(features, r))
  }

  /** The indicator keys the encoder sets to 1 (some of them may lie outside
      the schema, and are then dropped by the projection). */
  predicate Activated(features: seq<string>, r: Response, k: string) {
    ActivatedUpTo(features, r, 6, k)
  }

  /** The keys of the dictionary just before the projection. */
  predicate InputKey(features: seq<string>, r: Response, k: string) {
    k in features || k in NumericColumns || Activated(features, r, k)
  }

  /** The value the dictionary update gives a numeric column. */
  function NumericValue(r: Response, k: string): int {
    if k == AgeColumn then r.age
    else if k == AcademicPressureColumn then r.academicPressure
    else if k == StudySatisfactionColumn then r.studySatisfaction
    else if k == FinancialStressColumn then r.financialStress
    else if k == WorkStudyHoursColumn then r.workStudyHours
    else 0
  }

  /** Reference definition of the value a column ends up with. */
  function ExpectedCell(features: seq<string>, r: Response, k: string): int {
    if k in NumericColumns then NumericValue(r, k)
    else if Activated(features, r, k) then 1
    else 0
  }

  /** Reference definition of the encoded row: one cell per schema column, in schema order. */
  function Row(features: seq<string>, r: Response): seq<int> {
    seq(|features|, i requires 0 <= i < |features| => ExpectedCell(features, r, features[i]))
  }

  lemma TemplateHasPrefix(p: string, x: string)
    ensures HasPrefix(p + x, p)
  {
    assert (p + x)[..|p|] == p;
  }

  /** The column families never share a name: the numeric columns, the fixed
      indicators and the three templated families all differ in their first
      two characters. */
  lemma FamiliesApart(k: string)
    ensures IsSleepColumn(k) ==>
      k !in NumericColumns && k != GenderMaleColumn && k != SuicidalThoughtsColumn
      && k != FamilyHistoryColumn && !IsDietColumn(k) && !IsDegreeColumn(k)
    ensures IsDietColumn(k) ==>
      k !in NumericColumns && k != GenderMaleColumn && k != SuicidalThoughtsColumn
      && k != FamilyHistoryColumn && !IsDegreeColumn(k)
    ensures IsDegreeColumn(k) ==>
      k !in NumericColumns && k != GenderMaleColumn && k != SuicidalThoughtsColumn
      && k != FamilyHistoryColumn
  {
    if IsSleepColumn(k) {
      assert k[0] == SleepPrefix[0] && k[1] == SleepPrefix[1];
    }
    if IsDietColumn(k) {
      assert k[0] == DietPrefix[0] && k[1] == DietPrefix[1];
    }
    if IsDegreeColumn(k) {
      assert k[0] == DegreePrefix[0] && k[1] == DegreePrefix[1];
    }
  }

  /** The templated keys of one response fall in their families and pairwise apart. */
  lemma ResponseColumnsApart(r: Response)
    ensures IsSleepColumn(SleepColumn(r)) && IsDietColumn(DietColumn(r))
    ensures IsDegreeColumn(DegreeColumn(r)) && IsDegreeColumn(DegreeOthersColumn)
    ensures SleepColumn(r) !in NumericColumns && DietColumn(r) !in NumericColumns
    ensures DegreeColumn(r) !in NumericColumns && DegreeOthersColumn !in NumericColumns
    ensures GenderMaleColumn !in NumericColumns && SuicidalThoughtsColumn !in NumericColumns
    ensures FamilyHistoryColumn !in NumericColumns
    ensures SleepColumn(r) != GenderMaleColumn && DietColumn(r) != GenderMaleColumn
    ensures DegreeColumn(r) != GenderMaleColumn && DegreeColumn(r) != SuicidalThoughtsColumn
    ensures DegreeColumn(r) != FamilyHistoryColumn
  {
    TemplateHasPrefix(SleepPrefix, r.sleepDuration);
    TemplateHasPrefix(DietPrefix, r.dietaryHabits);
    TemplateHasPrefix(DegreePrefix, r.degree);
    assert DegreeOthersColumn == DegreePrefix + "Others";
    TemplateHasPrefix(DegreePrefix, "Others");
    FamiliesApart(SleepColumn(r));
    FamiliesApart(DietColumn(r));
    FamiliesApart(DegreeColumn(r));
    FamiliesApart(DegreeOthersColumn);
  }

  /** The dictionary of lines 270-289 after the comprehension, the update and
      the first n indicator writes (1 gender, 2 sleep, 3 diet, 4 suicidal
      thoughts, 5 family history, 6 degree), each test made on the dictionary
      itself as the code makes it. */
  ghost function Dictionary(features: seq<string>, r: Response, n: nat): map<string, int>
    decreases n
  {
    if n == 0 then
      (map f | f in features :: 0)[AgeColumn := r.age][AcademicPressureColumn := r.academicPressure]
        [StudySatisfactionColumn := r.studySatisfaction][FinancialStressColumn := r.financialStress]
        [WorkStudyHoursColumn := r.workStudyHours][WorkPressureColumn := 0]
        [CgpaColumn := 0][JobSatisfactionColumn := 0]
    else
      var d := Dictionary(features, r, n - 1);
      match n
      case 1 => if r.gender == "Male" then d[GenderMaleColumn := 1] else d
      case 2 => if SleepColumn(r) in d then d[SleepColumn(r) := 1] else d
      case 3 => if DietColumn(r) in d then d[DietColumn(r) := 1] else d
      case 4 => if r.suicidalThoughts == "Yes" then d[SuicidalThoughtsColumn := 1] else d
      case 5 => if r.familyHistory == "Yes" then d[FamilyHistoryColumn := 1] else d
      case _ => if DegreeColumn(r) in d then d[DegreeColumn(r) := 1] else d[DegreeOthersColumn := 1]
  }

  /** The dictionary after the update, key by key. */
  lemma DictionaryBase(features: seq<string>, r: Response, k: string)
    ensures k in Dictionary(features, r, 0) <==> k in features || k in NumericColumns
    ensures k in Dictionary(features, r, 0) ==>
      Dictionary(features, r, 0)[k] == (if k in NumericColumns then NumericValue(r, k) else 0)
  {
  }

  /** Each stage of the dictionary, key by key: the schema, the numeric columns
      and the indicators written so far are present, with the reference values. */
  lemma {:induction false} DictionaryAt(features: seq<string>, r: Response, n: nat, k: string)
    requires n <= 6
    ensures k in Dictionary(features, r, n) <==>
      k in features || k in NumericColumns || ActivatedUpTo(features, r, n, k)
    ensures k in Dictionary(features, r, n) ==>
      Dictionary(features, r, n)[k] ==
        (if k in NumericColumns then NumericValue(r, k)
         else if ActivatedUpTo(features, r, n, k) then 1 else 0)
  {
    if n == 0 {
      DictionaryBase(features, r, k);
    } else {
      ResponseColumnsApart(r);
      DictionaryAt(features, r, n - 1, k);
      if n == 2 { DictionaryAt(features, r, 1, SleepColumn(r)); }
      if n == 3 { DictionaryAt(features, r, 2, DietColumn(r)); }
      if n == 6 { DictionaryAt(features, r, 5, DegreeColumn(r)); }
    }
  }

  /** Builds the pre-projection dictionary of lines 270-289 in place: all schema
      columns at 0, the numeric update, then the indicator writes. */
  method BuildInputData(features: seq<string>, r: Response) returns (data: map<string, int>)
    ensures forall k :: k in data <==> InputKey(features, r, k)
    ensures forall k :: k in data ==> data[k] == ExpectedCell(features, r, k)
  {
    data := map f | f in features :: 0;
    data := data[AgeColumn := r.age][AcademicPressureColumn := r.academicPressure]
                [StudySatisfactionColumn := r.studySatisfaction]
                [FinancialStressColumn := r.financialStress]
                [WorkStudyHoursColumn := r.workStudyHours][WorkPressureColumn := 0]
                [CgpaColumn := 0][JobSatisfactionColumn := 0];
    assert data == Dictionary(features, r, 0);
    if r.gender == "Male" {
      data := data[GenderMaleColumn := 1];
    }
    assert data == Dictionary(features, r, 1);
    var sleepColumn := SleepColumn(r);
    if sleepColumn in data {
      data := data[sleepColumn := 1];
    }
    assert data == Dictionary(features, r, 2);
    var dietColumn := DietColumn(r);
    if dietColumn in data {
      data := data[dietColumn := 1];
    }
    assert data == Dictionary(features, r, 3);
    if r.suicidalThoughts == "Yes" {
      data := data[SuicidalThoughtsColumn := 1];
    }
    assert data == Dictionary(features, r, 4);
    if r.familyHistory == "Yes" {
      data := data[FamilyHistoryColumn := 1];
    }
    assert data == Dictionary(features, r, 5);
    var degreeColumn := DegreeColumn(r);
    if degreeColumn in data {
      data := data[degreeColumn := 1];
    } else {
      data := data[DegreeOthersColumn := 1];
    }
    assert data == Dictionary(features, r, 6);
    forall k
      ensures k in data <==> InputKey(features, r, k)
      ensures k in data ==> data[k] == ExpectedCell(features, r, k)
    {
      DictionaryAt(features, r, 6, k);
    }
  }

  /** Selecting the schema columns, in order, from the dictionary (the
      one-row data frame indexed by the feature list). */
  function Project(data: map<string, int>, columns: seq<string>): (row: seq<int>)
    requires forall c :: c in columns ==> c in data
    ensures |row| == |columns|
    ensures forall i :: 0 <= i < |columns| ==> row[i] == data[columns[i]]
  {
    if columns == [] then [] else [data[columns[0]]] + Project(data, columns[1..])
  }

  /** The whole data-preparation step: the row has exactly the schema's columns,
      in the schema's order, each with the value the encoding rules give it. */
  method EncodeRow(features: seq<string>, r: Response) returns (row: seq<int>)
    ensures |row| == |features|
    ensures row == Row(features, r)
  {
    var data := BuildInputData(features, r);
    row := Project(data, features);
    assert forall i :: 0 <= i < |features| ==> row[i] == Row(features, r)[i];
  }

  /** The answered numeric columns carry the answers; the uncollected ones are 0. */
  lemma PassthroughColumns(features: seq<string>, r: Response, i: nat)
    requires i < |features|
    ensures features[i] == AgeColumn ==> Row(features, r)[i] == r.age
    ensures features[i] == AcademicPressureColumn ==> Row(features, r)[i] == r.academicPressure
    ensures features[i] == StudySatisfactionColumn ==> Row(features, r)[i] == r.studySatisfaction
    ensures features[i] == FinancialStressColumn ==> Row(features, r)[i] == r.financialStress
    ensures features[i] == WorkStudyHoursColumn ==> Row(features, r)[i] == r.workStudyHours
    ensures features[i] in UnsetColumns ==> Row(features, r)[i] == 0
  {
  }

  /** The three yes/no style indicators are 1 exactly when the answer selects them. */
  lemma BinaryIndicators(features: seq<string>, r: Response, i: nat)
    requires i < |features|
    ensures features[i] == GenderMaleColumn ==>
      Row(features, r)[i] == (if r.gender == "Male" then 1 else 0)
    ensures features[i] == SuicidalThoughtsColumn ==>
      Row(features, r)[i] == (if r.suicidalThoughts == "Yes" then 1 else 0)
    ensures features[i] == FamilyHistoryColumn ==>
      Row(features, r)[i] == (if r.familyHistory == "Yes" then 1 else 0)
  {
    ResponseColumnsApart(r);
    FamiliesApart(features[i]);
  }

  /** A sleep or diet indicator is 1 exactly when it is the templated column of
      the answer; an answer without a column leaves its whole family at 0. */
  lemma TemplatedIndicators(features: seq<string>, r: Response, i: nat)
    requires i < |features|
    ensures IsSleepColumn(features[i]) ==>
      Row(features, r)[i] == (if features[i] == SleepColumn(r) then 1 else 0)
    ensures IsDietColumn(features[i]) ==>
      Row(features, r)[i] == (if features[i] == DietColumn(r) then 1 else 0)
    ensures SleepColumn(r) !in features && IsSleepColumn(features[i]) ==> Row(features, r)[i] == 0
    ensures DietColumn(r) !in features && IsDietColumn(features[i]) ==> Row(features, r)[i] == 0
  {
    ResponseColumnsApart(r);
    FamiliesApart(features[i]);
  }

  /** Among the schema's degree columns, exactly the chosen one is 1; an unknown
      degree switches on the catch-all column whatever was selected. */
  lemma DegreeIndicators(features: seq<string>, r: Response, i: nat)
    requires i < |features|
    ensures IsDegreeColumn(features[i]) ==>
      Row(features, r)[i] == (if features[i] == ChosenDegree(features, r) then 1 else 0)
    ensures features[i] == DegreeColumn(r) ==> Row(features, r)[i] == 1
    ensures DegreeColumn(r) !in features && features[i] == DegreeOthersColumn ==>
      Row(features, r)[i] == 1
  {
    ResponseColumnsApart(r);
    FamiliesApart(features[i]);
  }

  /** Nothing else changes: a column neither updated nor switched on keeps its initial 0. */
  lemma UnwrittenColumnsStayZero(features: seq<string>, r: Response, i: nat)
    requires i < |features|
    requires features[i] !in NumericColumns && !Activated(features, r, features[i])
    ensures Row(features, r)[i] == 0
  {
  }

  /** Before the projection, the dictionary holds exactly one degree key set to 1. */
  lemma DegreeExactlyOne(features: seq<string>, r: Response, k: string)
    ensures InputKey(features, r, k) && IsDegreeColumn(k) && ExpectedCell(features, r, k) == 1
            <==> k == ChosenDegree(features, r)
  {
    ResponseColumnsApart(r);
    FamiliesApart(k);
  }
}
