# Fintech IMPACT Radar — verified model of the page logic

The IMPACT Radar is a single Streamlit page, `app.py`. A user rates a
fintech company on six dimensions: Integration, Monetization, Pain point,
Automation, Compliance and Target. Each rating is a 0–100 slider with a free-text
note. The page keeps everything in Streamlit's session state, shows an
overall score, offers a Word export and has a "Reset All" button.

This project models the logic among the widget calls:

- `dimensions.dfy` (`Dimensions`): the fixed table of the six dimensions.
  It covers the id, the letter, the title, the subtitle, the question and
  the three challenge prompts of each.
- `interpretation.dfy` (`Interpretation`): `get_score_interpretation`, the
  three-way Low / Medium / High reading of a score and its colour.
- `averaging.dfy` (`Averaging`): the total of the six scores and
  `round(total / 6)`, with Python 3's half-to-even rounding.
- `session_state.dfy` (`SessionState`): the session store. It is a
  string-keyed map holding `company_name`, `score_<id>` and `note_<id>`.
  - The class `SessionStore` has the start-up initialisation (`InitDefaults`),
    which fills in only missing keys.
  - It also has `reset_state` (`Reset`), which overwrites every managed key
    with its default.
  - Both are loops over the dimension table, proved against the pure maps
    `Initialized` and `ResetEntries`.
- `word_report.dfy` (`WordReport`): `generate_word_doc`.
  - It is modelled as a method that appends abstract blocks
    (`Heading(level, text)` / `Paragraph(text)`) in the order the document
    receives them, proved equal to the pure `Report`.
  - The file also has the decimal rendering of scores and the download
    file name.
- `page.dfy` (`Page`): one top-to-bottom run of the script. The run
  initialises the store, computes the overall score, builds the report and
  the file name, and resets the store when "Reset All" was pressed.

The operations take the dimension table as a parameter `dims`, and the page
passes `DIMENSIONS`. This keeps the long literal table out of the proofs
that do not depend on its contents.

Two facts about `app.py` shape the model:

- **Rounding.** Python 3's `round` sends halves to the even neighbour, so
  an average of 68.5 gives 68 and an average of 69.5 gives 70.
- **Report contents.** The exported document lists, for each dimension,
  its title with score and severity, subtitle, question, notes and a
  divider. The overall score line carries the number only.

## Model

| member | source | states |
|---|---|---|
| Dimensions.DimensionTable | app.py:28-119 | the table has exactly six dimensions, and each has exactly three challenge prompts |
| Dimensions.DimensionLetters | app.py:28-119 | the dimensions' letters, read in table order, are I, M, P, A, C, T |
| Dimensions.DimensionIdsDistinct | app.py:28-119 | the six ids are pairwise distinct |
| Dimensions.Letters | app.py:28-119 | the letter string has one letter per dimension, in table order |
| Interpretation.ScoreInterpretation | app.py:122-127 | the label is "Low" iff score < 30, "Medium" iff 30 <= score < 70, "High" iff score >= 70; Low comes with red, Medium with orange, High with green |
| Interpretation.InterpretationBoundaries | app.py:122-127 | 29 is Low, 30 Medium, 69 Medium, 70 High |
| Interpretation.InterpretationMonotone | app.py:122-127 | a higher score never gets a lower severity |
| Interpretation.Rank | app.py:122-127 | "Low" ranks 0, "Medium" ranks 1 and "High" ranks 2, so the labels are ordered Low < Medium < High |
| SessionState.KeyKinds | app.py:129-133 | score keys are "score_"-prefixed and get 50; note keys and `company_name` are not, and get "" |
| SessionState.KeysInjective | app.py:179-185 | distinct ids give distinct score keys and distinct note keys, and no score key equals a note key |
| SessionState.KeysUpToMembers | app.py:176-185 | after n dimensions the keys touched are `company_name` plus the score and note keys of the first n dimensions, and nothing else |
| SessionState.ManagedKeysAre | app.py:176-185 | the managed keys are exactly `company_name` and every dimension's score and note key |
| SessionState.KeysUpToCount | app.py:176-185 | with distinct ids, n dimensions give 1 + 2n distinct keys |
| SessionState.ManagedKeyCount | app.py:176-185 | the page manages exactly 13 keys |
| SessionState.ManagedKeysOf | app.py:179-185 | each dimension's score and note key is managed, and only the score key holds a number |
| SessionState.Initialized | app.py:176-185 | initialisation adds exactly the managed keys, never overwrites a present key, gives missing keys their defaults, and leaves a store holding every key with its kind |
| SessionState.ResetEntries | app.py:129-133 | reset sets every managed key to its default and leaves every other key unchanged |
| SessionState.InitializedIdempotent | app.py:176-185 | initialising twice is the same as initialising once |
| SessionState.ResetIdempotent | app.py:129-133 | resetting twice is the same as resetting once, and initialising after a reset changes nothing |
| SessionState.ResetValues | app.py:129-133 | after a reset the name is "", every score is 50, every note is "", and the overall score is 50 |
| SessionState.Scores | app.py:262 | the scores are read from the store in table order |
| SessionState.CompanyKeyManaged | app.py:176-177 | `company_name` is always among the initialised keys and holds text |
| SessionState.InitStep | app.py:179-185 | one guarded step for a dimension's two keys extends the initialised map by those keys |
| SessionState.ResetStep | app.py:130-133 | one reset step for a dimension's two keys extends the reset map by those keys |
| SessionState.SessionStore.InitDefaults | app.py:176-185 | the store afterwards equals `Initialized` of the store before |
| SessionState.SessionStore.Reset | app.py:129-133 | the store afterwards equals `ResetEntries` of the store before |
| Averaging.AverageScore | app.py:263 | the result is within half a unit of total / 6, and an exact tie goes to the even neighbour |
| Averaging.AverageScoreUnique | app.py:263 | only one integer satisfies the rounding rule, so the rule defines the result |
| Averaging.HalfToEven | app.py:263 | totals 411, 417, 3 and 9 give 68, 70, 0 and 2 |
| Averaging.SumOfConstant | app.py:262 | the total of equal scores is the score times their count |
| Averaging.SumBounds | app.py:262 | scores within 0..100 total within 0..100 per score |
| Averaging.AverageOfEqualScores | app.py:262-263 | six equal scores k average to k |
| Averaging.AverageInRange | app.py:262-263 | six scores within 0..100 average to within 0..100 |
| WordReport.NatToString | app.py:146 | a number prints as a non-empty string of digits with no leading zero; 0 prints as "0" |
| WordReport.NatToStringRoundTrip | app.py:146 | reading back the printed digits gives the number |
| WordReport.IntToStringRoundTrip | app.py:154 | reading back a printed integer, with its sign, gives the integer |
| WordReport.Divider | app.py:167 | the divider is exactly 50 underscores |
| WordReport.HeaderLayout | app.py:138-146 | the document opens with the level-0 title, "Company: " plus the name or "Not specified", and the level-1 "Overall Impact Score: {avg}/100" |
| WordReport.SectionLayout | app.py:151-167 | each dimension's section contains, in order: a level-2 "{title} ({score}/100 - {label})" with the interpretation's label, the subtitle, "Question: {question}", the level-3 "Analysis / Evidence:", the notes or "No notes recorded.", and the divider |
| WordReport.Flatten | app.py:148-167 | writing the sections one after the other gives six blocks per section |
| WordReport.FlattenIndex | app.py:148-167 | block k of section i lands at position 6i + k |
| WordReport.HeaderThenParts | app.py:138-167 | after the three opening blocks, block k of section i lands at position 3 + 6i + k |
| WordReport.Sections | app.py:148-151 | there is one six-block section per dimension (what each is built from is stated by `SectionsIndex`) |
| WordReport.SectionsIndex | app.py:148-151 | section i is built from dimension i, its score and its note |
| WordReport.Report | app.py:135-167 | the document has 3 + 6 blocks per dimension |
| WordReport.ReportLayout | app.py:135-167 | the document is the header followed by each dimension's section, in table order |
| WordReport.ReportLength | app.py:148 | for the page's table the document has 39 blocks |
| WordReport.ReportStep | app.py:148-167 | writing dimension i's section appends it to the document written so far |
| WordReport.SectionAppended | app.py:154-167 | the six appends of one iteration together append that dimension's section |
| WordReport.GenerateWordDoc | app.py:135-167 | the blocks built equal `Report` for the store's scores and notes; the store is only read (no modifies clause) |
| WordReport.ExportFileName | app.py:294 | the name is the company name, or "fintech" when it is empty, followed by "-impact-radar.docx" |
| WordReport.ExportFileNameInjective | app.py:294 | distinct non-empty names give distinct file names; the empty name shares its file name with "fintech" |
| Page.OverallScore | app.py:262-263 | the overall score is within half a unit of the six-score total divided by 6, and an exact tie goes to the even neighbour |
| Page.OverallScoreInRange | app.py:238-239 | with every slider value within 0..100 the overall score is within 0..100 |
| Page.Rerun | app.py:176-303 | one run leaves the store initialised, or reset when "Reset All" was pressed, and yields the overall score, the report and the file name of the initialised store |

## Left out

- Streamlit rendering is not modelled. This covers page configuration, CSS and HTML snippets, columns, containers, expanders, the score cards, the mini score grid, the info box, the download button and `st.rerun`. These only display or hand over state. The reset button's effect is `reset_state`, which is modelled.
- The widgets themselves are not modelled: the text input, the sliders and the text areas write to the store between runs, outside the model. The store handed to `Page.Rerun` already holds their values. The sliders' 0..100 range is not behaviour of the model; it is the hypothesis (`Page.ScoresInSliderRange`) of `Page.OverallScoreInRange`.
- The python-docx side is not modelled: `Document`, paragraph styles (bold run, "Intense Quote", "No Spacing"), `doc.save` and the `BytesIO` buffer are foreign library calls. The report is the ordered list of abstract blocks only, not the .docx bytes.
- Display-only fields of the table (icon, left and right slider labels) are not kept in `Dimension`.
- The store may hold keys besides the managed ones. A managed key that is present is assumed to hold a value of its kind (a number under a score key, text otherwise); the widgets guarantee this, and `Page.Rerun` requires it as `SessionState.WellTyped`.
- Averaging.AverageScore: floating-point division is modelled exactly. `total / 6` of a total of at most 600 is exact at the halves, so nothing is lost for slider values.
- Page.Rerun: the `company_name or 'fintech'` at app.py:294 reads the store after the widgets' writes; the model reads it from the initialised store, because no widget is modelled.
- Page.Rerun: assumes the writes of `reset_state` succeed, as they would if it ran as the button's `on_click` callback. As written, app.py:301-302 calls `reset_state` after the run has already created the widgets bound to `company_name`, `score_<id>` and `note_<id>` (app.py:193-197, 235-241, 252-257). Streamlit refuses a write to a widget's key once that widget exists in the run, so the first write at app.py:130 would raise an error and leave the store unchanged. The framework's behaviour is not modelled; the reset the button is meant to perform is what `SessionState.SessionStore.Reset` proves.
