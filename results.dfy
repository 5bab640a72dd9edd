/** The results page: the verdict box, the guidance box and the factor cards
    laid out over two columns. */
module Results {
  import opened Survey
  import opened Factors

  /** Which prediction box is shown. */
  datatype Verdict = HighRisk | LowRisk

  /** Which guidance box is shown under the prediction. */
  datatype Guidance = NextStepsAndResources | MaintainingWellBeing

  /** The left column of the results page, minus its markup. */
  datatype Summary = Summary(verdict: Verdict, probability: real, guidance: Guidance)

  /** Lines 320-367: label 1 gets the high-risk box with the probability of class 1
      and the next-steps box; any other label gets the low-risk box with the
      probability of class 0 and the well-being tips. */
  function Summarise(prediction: int, proba: Proba): (s: Summary)
    ensures s.verdict == HighRisk <==> prediction == 1
    ensures s.guidance == NextStepsAndResources <==> s.verdict == HighRisk
    ensures s.probability == if s.verdict == HighRisk then proba.positive else proba.negative
  {
    if prediction == 1 then Summary(HighRisk, proba.positive, NextStepsAndResources)
    else Summary(LowRisk, proba.negative, MaintainingWellBeing)
  }

  /** One rendered factor card: the CSS class, the title, the shown input and
      the impact text it prints. */
  datatype Card = Card(cssClass: string, title: string, value: Shown, impactText: string)

  /** The card of one annotation (lines 390-405): red for a risk, yellow for a
      neutral entry that is no risk, green for the rest. */
  function CardOf(f: Factor): (c: Card)
    ensures c.title == f.name && c.value == f.value && c.impactText == f.impact.Text()
    ensures c.cssClass == "high-impact" <==> f.isRisk
    ensures c.cssClass == "neutral-impact" <==> !f.isRisk && f.impact == NeutralImpact
    ensures c.cssClass == "low-impact" <==> !f.isRisk && f.impact != NeutralImpact
  {
    Card(CardClassOf(f.isRisk, f.impact).CssName(), f.name, f.value, f.impact.Text())
  }

  /** Lines 385-410: the cards go round-robin into two columns, the column index
      advancing by one modulo 2 after each card, so card i lands in column i % 2. */
  method LayoutCards(factors: seq<Factor>) returns (columns: seq<seq<Card>>)
    ensures |columns| == 2
    ensures |columns[0]| == (|factors| + 1) / 2 && |columns[1]| == |factors| / 2
    ensures forall j :: 0 <= j < |columns[0]| ==> columns[0][j] == CardOf(factors[2 * j])
    ensures forall j :: 0 <= j < |columns[1]| ==> columns[1][j] == CardOf(factors[2 * j + 1])
  {
    columns := [[], []];
    var colIdx := 0;
    for i := 0 to |factors|
      invariant |columns| == 2
      invariant colIdx == if i % 2 == 0 then 0 else 1
      invariant |columns[0]| == (i + 1) / 2 && |columns[1]| == i / 2
      invariant forall j :: 0 <= j < |columns[0]| ==> columns[0][j] == CardOf(factors[2 * j])
      invariant forall j :: 0 <= j < |columns[1]| ==> columns[1][j] == CardOf(factors[2 * j + 1])
    {
      columns := columns[colIdx := columns[colIdx] + [CardOf(factors[i])]];
      colIdx := (colIdx + 1) % 2;
    }
  }

  /** Read the other way round: the i-th card is in column i % 2, at row i / 2. */
  lemma CardPlacement(factors: seq<Factor>, columns: seq<seq<Card>>, i: nat)
    requires |columns| == 2
    requires |columns[0]| == (|factors| + 1) / 2 && |columns[1]| == |factors| / 2
    requires forall j :: 0 <= j < |columns[0]| ==> columns[0][j] == CardOf(factors[2 * j])
    requires forall j :: 0 <= j < |columns[1]| ==> columns[1][j] == CardOf(factors[2 * j + 1])
    requires i < |factors|
    ensures i / 2 < |columns[i % 2]| && columns[i % 2][i / 2] == CardOf(factors[i])
  {
    if i % 2 == 0 {
      assert 2 * (i / 2) == i;
    } else {
      assert 2 * (i / 2) + 1 == i;
    }
  }
}
