/** The per-factor annotations stored for the results page, and the card
    class each annotation is shown with. */
module Factors {
  import opened Survey

  /** The impact text of an annotation. */
  datatype Impact = HighImpact | LowImpact | NeutralImpact {
    function Text(): string {
      match this
      case HighImpact => "High Impact"
      case LowImpact => "Low Impact"
      case NeutralImpact => "Neutral Impact"
    }
  }

  /** What a card shows as "Your Input": the answer itself, or a score "n/5". */
  datatype Shown = Answer(text: string) | OutOfFive(score: int)

  /** One entry of the annotation table: its title, the shown input, the risk flag
      and the impact text. */
  datatype Factor = Factor(name: string, value: Shown, isRisk: bool, impact: Impact)

  /** The titles of the six entries, in the table's insertion order. */
  const FactorNames: seq<string> := [
    "Suicidal Thoughts", "Academic Pressure", "Family History",
    "Financial Stress", "Sleep Duration", "Study Satisfaction"]

  /** The two answers that count as short sleep. */
  const ShortSleep: seq<string> := ["Less than 5 hours", "5-6 hours"]

  /** A yes/no factor: a risk when answered "Yes", and always labelled high impact. */
  function YesNoFactor(name: string, answer: string): (f: Factor)
    ensures f.name == name && f.value == Answer(answer)
    ensures f.isRisk <==> answer == "Yes"
    ensures f.impact == HighImpact
  {
    Factor(name, Answer(answer), answer == "Yes", HighImpact)
  }

  /** A 0-5 score where a high value is bad (pressure, stress). */
  function StressFactor(name: string, score: int): (f: Factor)
    ensures f.name == name && f.value == OutOfFive(score)
    ensures f.isRisk <==> score > 3
    ensures f.impact == HighImpact <==> score > 3
    ensures f.impact == LowImpact <==> score < 2
    ensures f.impact == NeutralImpact <==> 2 <= score <= 3
  {
    Factor(name, OutOfFive(score), score > 3,
           if score > 3 then HighImpact else if score < 2 then LowImpact else NeutralImpact)
  }

  /** A 0-5 score where a low value is bad (satisfaction). */
  function SatisfactionFactor(name: string, score: int): (f: Factor)
    ensures f.name == name && f.value == OutOfFive(score)
    ensures f.isRisk <==> score < 2
    ensures f.impact == HighImpact <==> score < 2
    ensures f.impact == LowImpact <==> score > 3
    ensures f.impact == NeutralImpact <==> 2 <= score <= 3
  {
    Factor(name, OutOfFive(score), score < 2,
           if score < 2 then HighImpact else if score > 3 then LowImpact else NeutralImpact)
  }

  /** Sleep: a risk, and high impact, exactly for the two short-sleep answers;
      every other answer is low impact, never neutral. */
  function SleepFactor(name: string, sleep: string): (f: Factor)
    ensures f.name == name && f.value == Answer(sleep)
    ensures f.isRisk <==> sleep == "Less than 5 hours" || sleep == "5-6 hours"
    ensures f.impact == (if f.isRisk then HighImpact else LowImpact)
  {
    var short := sleep in ShortSleep;
    Factor(name, Answer(sleep), short, if short then HighImpact else LowImpact)
  }

  /** The annotation table stored with a prediction (lines 297-304). */
  function FactorTable(r: Response): (t: seq<Factor>)
    ensures |t| == 6
    ensures forall i :: 0 <= i < 6 ==> t[i].name == FactorNames[i]
    ensures forall i :: 0 <= i < 6 ==> t[i].isRisk ==> t[i].impact == HighImpact
    // Each entry shows its own answer and follows its own rule.
    ensures t[0].value == Answer(r.suicidalThoughts)
      && (t[0].isRisk <==> r.suicidalThoughts == "Yes") && t[0].impact == HighImpact
    ensures t[1].value == OutOfFive(r.academicPressure) && (t[1].isRisk <==> r.academicPressure > 3)
      && (t[1].impact == HighImpact <==> r.academicPressure > 3)
      && (t[1].impact == LowImpact <==> r.academicPressure < 2)
      && (t[1].impact == NeutralImpact <==> 2 <= r.academicPressure <= 3)
    ensures t[2].value == Answer(r.familyHistory)
      && (t[2].isRisk <==> r.familyHistory == "Yes") && t[2].impact == HighImpact
    ensures t[3].value == OutOfFive(r.financialStress) && (t[3].isRisk <==> r.financialStress > 3)
      && (t[3].impact == HighImpact <==> r.financialStress > 3)
      && (t[3].impact == LowImpact <==> r.financialStress < 2)
      && (t[3].impact == NeutralImpact <==> 2 <= r.financialStress <= 3)
    ensures t[4].value == Answer(r.sleepDuration)
      && (t[4].isRisk <==> r.sleepDuration == "Less than 5 hours" || r.sleepDuration == "5-6 hours")
      && t[4].impact == (if t[4].isRisk then HighImpact else LowImpact)
    ensures t[5].value == OutOfFive(r.studySatisfaction) && (t[5].isRisk <==> r.studySatisfaction < 2)
      && (t[5].impact == HighImpact <==> r.studySatisfaction < 2)
      && (t[5].impact == LowImpact <==> r.studySatisfaction > 3)
      && (t[5].impact == NeutralImpact <==> 2 <= r.studySatisfaction <= 3)
  {
    [YesNoFactor(FactorNames[0], r.suicidalThoughts),
     StressFactor(FactorNames[1], r.academicPressure),
     YesNoFactor(FactorNames[2], r.familyHistory),
     StressFactor(FactorNames[3], r.financialStress),
     SleepFactor(FactorNames[4], r.sleepDuration),
     SatisfactionFactor(FactorNames[5], r.studySatisfaction)]
  }

  /** The CSS class of a factor card. */
  datatype CardClass = HighCard | LowCard | NeutralCard {
    function CssName(): string {
      match this
      case HighCard => "high-impact"
      case LowCard => "low-impact"
      case NeutralCard => "neutral-impact"
    }
  }

  /** The card class as lines 390-396 compute it: an initial choice followed by
      two overrides. Its closed form: red for a risk, otherwise yellow only for a
      neutral text, and green for everything else, a non-risk "High Impact"
      included. */
  function CardClassOf(isRisk: bool, impact: Impact): (c: CardClass)
    ensures c == (if isRisk then HighCard else if impact == NeutralImpact then NeutralCard else LowCard)
  {
    var initial := if isRisk then HighCard else if impact == LowImpact then LowCard else NeutralCard;
    if impact == LowImpact && !isRisk then LowCard
    else if impact == HighImpact && !isRisk then LowCard
    else assert isRisk || impact == NeutralImpact; initial
  }

  /** Every card of the table: red exactly for a risk, yellow exactly for a middle
      score (2 or 3) on one of the three scales, green otherwise. */
  lemma TableCards(r: Response, i: nat)
    requires i < 6
    ensures var f := FactorTable(r)[i];
      (CardClassOf(f.isRisk, f.impact) == HighCard <==> f.isRisk)
      && (CardClassOf(f.isRisk, f.impact) == NeutralCard <==>
            (i == 1 && 2 <= r.academicPressure <= 3)
            || (i == 3 && 2 <= r.financialStress <= 3)
            || (i == 5 && 2 <= r.studySatisfaction <= 3))
  {
  }

  /** A favourable answer to a "High Impact" factor is shown green, not yellow. */
  lemma FavourableHighIsShownLow(f: Factor)
    requires f.impact == HighImpact && !f.isRisk
    ensures CardClassOf(f.isRisk, f.impact) == LowCard
  {
  }

  /** The first example answer set: every factor is a risk and every card red. */
  lemma AllHighScenario(r: Response)
    requires r == Response(25, "Male", "B.Tech", 4, 1, 4, "Yes", "Yes", "Less than 5 hours", "Unhealthy", 6)
    ensures FromForm(r)
    ensures forall i :: 0 <= i < 6 ==>
      FactorTable(r)[i].isRisk && FactorTable(r)[i].impact == HighImpact
      && CardClassOf(FactorTable(r)[i].isRisk, FactorTable(r)[i].impact) == HighCard
  {
  }

  /** The second example answer set: no risk at all, and every card green,
      including the two yes/no factors whose text still reads "High Impact". */
  lemma AllLowScenario(r: Response)
    requires r == Response(25, "Male", "B.Tech", 1, 5, 1, "No", "No", "More than 8 hours", "Unhealthy", 6)
    ensures FromForm(r)
    ensures forall i :: 0 <= i < 6 ==>
      !FactorTable(r)[i].isRisk
      && CardClassOf(FactorTable(r)[i].isRisk, FactorTable(r)[i].impact) == LowCard
    ensures FactorTable(r)[0].impact == HighImpact && FactorTable(r)[2].impact == HighImpact
  {
  }
}
