/**
 * The sidebar: ten fixed choices in a fixed order, and the chain of label
 * comparisons that picks the one chart to draw.
 */
module Views {
  import opened Wrappers

  datatype View =
    | GoalsOverSeasons
    | TopScoringLeagues
    | TopFiveOutcomes
    | HomeAwayGoals
    | EloVsGoals
    | ShotEfficiency
    | FormImpact
    | FoulsVsCards
    | CornersVsGoals
    | OddsVsReality

  /** The options of the select box, as displayed. */
  const Choices: seq<string> := [
    "1. Evolution of Goals Over Seasons",
    "2. Top 15 High-Scoring Leagues",
    "3. Match Outcomes in Top 5 Leagues",
    "4. Distribution of Home vs. Away Goals",
    "5. Elo Rating vs. Goals Scored",
    "6. Shots vs. Goals Efficiency",
    "7. Impact of Recent Form on Outcome",
    "8. Fouls vs. Yellow Cards",
    "9. Corners vs. Goals by League",
    "10. Betting Odds vs. Reality"
  ]

  /** The number a view's label starts with. */
  function Number(v: View): (n: int)
    ensures 1 <= n <= |Choices|
  {
    match v
    case GoalsOverSeasons => 1
    case TopScoringLeagues => 2
    case TopFiveOutcomes => 3
    case HomeAwayGoals => 4
    case EloVsGoals => 5
    case ShotEfficiency => 6
    case FormImpact => 7
    case FoulsVsCards => 8
    case CornersVsGoals => 9
    case OddsVsReality => 10
  }

  function Label(v: View): string {
    Choices[Number(v) - 1]
  }

  /** The `if`/`elif` chain on the selected label: the view it names, or none. */
  function Parse(choice: string): (v: Option<View>)
    ensures v.Some? <==> choice in Choices
    ensures v.Some? ==> Label(v.value) == choice
  {
    if choice == Choices[0] then Some(GoalsOverSeasons)
    else if choice == Choices[1] then Some(TopScoringLeagues)
    else if choice == Choices[2] then Some(TopFiveOutcomes)
    else if choice == Choices[3] then Some(HomeAwayGoals)
    else if choice == Choices[4] then Some(EloVsGoals)
    else if choice == Choices[5] then Some(ShotEfficiency)
    else if choice == Choices[6] then Some(FormImpact)
    else if choice == Choices[7] then Some(FoulsVsCards)
    else if choice == Choices[8] then Some(CornersVsGoals)
    else if choice == Choices[9] then Some(OddsVsReality)
    else None
  }

  /** No two choices share a label (each starts with a different number). */
  lemma ChoicesDistinct()
    ensures forall i, j :: 0 <= i < j < |Choices| ==> Choices[i] != Choices[j]
  {
  }

  /** Selecting a view's label draws that view and no other. */
  lemma ParseLabel(v: View)
    ensures Parse(Label(v)) == Some(v)
  {
  }
}
