/** One top-to-bottom run of the page. Streamlit runs the script again after
    every widget interaction. The widgets themselves (text input, sliders,
    text areas, buttons) are not modelled: by the time the summary is
    computed they have written their values into the store, and the store
    handed to a run already holds them. Whether "Reset All" was pressed in
    this run is a parameter. */
module Page {
  import opened Dimensions
  import opened Averaging
  import opened SessionState
  import opened WordReport

  /** Every score the store holds for the table lies within the sliders'
      range of 0 to 100. */
  predicate ScoresInSliderRange(m: map<string, Value>)
    requires Complete(DIMENSIONS, m)
  {
    forall i :: 0 <= i < |DIMENSIONS| ==> 0 <= ScoreAt(DIMENSIONS, m, i) <= 100
  }

  /** The overall score of six slider values lies within 0 to 100 as well. */
  lemma OverallScoreInRange(m: map<string, Value>)
    requires Complete(DIMENSIONS, m) && ScoresInSliderRange(m)
    ensures 0 <= OverallScore(m) <= 100
  {
    DimensionTable();
    AverageInRange(Scores(DIMENSIONS, m));
  }

  /** The overall score is the half-to-even rounding of the six-score total
      divided by six. */
  function OverallScore(m: map<string, Value>): (avg: int)
    requires Complete(DIMENSIONS, m)
    ensures -3 <= 6 * avg - TotalScore(DIMENSIONS, m) <= 3
    ensures (6 * avg - TotalScore(DIMENSIONS, m) == 3 || 6 * avg - TotalScore(DIMENSIONS, m) == -3) ==> avg % 2 == 0
  {
    AverageScore(TotalScore(DIMENSIONS, m))
  }

  /** One run: fill in the missing keys, compute the overall score, build
      the report and its file name from the store, and, when "Reset All"
      was pressed, put every managed key back to its default. The store may
      hold other keys; a managed key that is present holds a value of its
      kind. */
  method Rerun(store: SessionStore, resetPressed: bool) returns (avg: int, doc: seq<Block>, fileName: string)
    requires WellTyped(DIMENSIONS, store.entries)
    modifies store
    ensures var s := Initialized(DIMENSIONS, old(store.entries));
      && Complete(DIMENSIONS, s)
      && avg == OverallScore(s)
      && doc == Report(DIMENSIONS, CompanyName(DIMENSIONS, s), avg, s)
      && fileName == ExportFileName(CompanyName(DIMENSIONS, s))
      && store.entries == (if resetPressed then ResetEntries(DIMENSIONS, s) else s)
  {
    store.InitDefaults(DIMENSIONS);
    var companyName := CompanyName(DIMENSIONS, store.entries);
    avg := OverallScore(store.entries);
    doc := GenerateWordDoc(DIMENSIONS, store, companyName, avg);
    fileName := ExportFileName(companyName);
    if resetPressed {
      store.Reset(DIMENSIONS);
    }
  }
}
