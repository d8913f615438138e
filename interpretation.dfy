/** The three-way severity reading of a 0-100 score: a label and the colour
    the page shows it in. */
module Interpretation {

  /** Below 30 is "Low" (red), below 70 "Medium" (orange), otherwise
      "High" (green). */
  function ScoreInterpretation(score: int): (r: (string, string))
    ensures r.0 == "Low" <==> score < 30
    ensures r.0 == "Medium" <==> 30 <= score < 70
    ensures r.0 == "High" <==> 70 <= score
    ensures r.0 == "Low" ==> r.1 == "red"
    ensures r.0 == "Medium" ==> r.1 == "orange"
    ensures r.0 == "High" ==> r.1 == "green"
  {
    if score < 30 then ("Low", "red")
    else if score < 70 then ("Medium", "orange")
    else ("High", "green")
  }

  /** Position of a label on the Low < Medium < High scale. */
  function Rank(severity: string): (n: nat)
    ensures severity == "Low" <==> n == 0
    ensures severity == "Medium" <==> n == 1
    ensures n <= 2
  {
    if severity == "Low" then 0 else if severity == "Medium" then 1 else 2
  }

  /** A higher score never reads as a lower severity. */
  lemma InterpretationMonotone(a: int, b: int)
    requires a <= b
    ensures Rank(ScoreInterpretation(a).0) <= Rank(ScoreInterpretation(b).0)
  {
  }

  /** The boundaries fall exactly at 30 and 70. */
  lemma InterpretationBoundaries()
    ensures ScoreInterpretation(29).0 == "Low" && ScoreInterpretation(30).0 == "Medium"
    ensures ScoreInterpretation(69).0 == "Medium" && ScoreInterpretation(70).0 == "High"
  {
  }
}
