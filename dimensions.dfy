/** The fixed table of the six IMPACT dimensions a company is rated on.
    Icons and the slider end labels are display-only and are not kept. */
module Dimensions {

  datatype Dimension = Dimension(
    id: string,                      // slug used to build the store keys
    letter: char,                    // the dimension's letter in "IMPACT"
    title: string,
    subtitle: string,
    question: string,
    challengePrompts: seq<string>)

  const INTEGRATION: Dimension := Dimension(
    "integration", 'I', "INTEGRATION", "Platform Theory & Connectivity",
    "Is it a standalone \"island\" or does it connect openly with others?",
    [ "What evidence do they provide about their API partnerships?",
      "Are their integrations truly bidirectional or just cosmetic?",
      "Do they have a documented developer platform?" ])

  const MONETIZATION: Dimension := Dimension(
    "monetization", 'M', "MONETIZATION", "Viability & Unit Economics",
    "Is the model based on \"growth at all costs\" or sustainable revenue?",
    [ "Can they articulate their unit economics clearly?",
      "What is their path to profitability?",
      "How do customer acquisition costs compare to lifetime value?" ])

  const PAIN_POINT: Dimension := Dimension(
    "painPoint", 'P', "PAIN POINT", "Differentiation Strategy",
    "Are they solving a slightly better digital experience, or a fundamentally broken process?",
    [ "What is the incumbent solution they're replacing?",
      "Is this 10% better or 10x better?",
      "What happens if users go back to the old way?" ])

  const AUTOMATION: Dimension := Dimension(
    "automation", 'A', "AUTOMATION", "Technology Depth",
    "Is the \"tech\" just a nice mobile interface, or genuine deep technology?",
    [ "What proprietary technology do they actually own?",
      "Is there real machine learning or just rule-based logic?",
      "Could this be replicated easily by competitors?" ])

  const COMPLIANCE: Dimension := Dimension(
    "compliance", 'C', "COMPLIANCE", "Trust & Regulatory Stance",
    "How do they build trust without a 100-year history? Do they operate in grey areas?",
    [ "What licenses do they hold?",
      "Have they faced regulatory scrutiny?",
      "How do they signal trustworthiness to users?" ])

  const TARGET: Dimension := Dimension(
    "target", 'T', "TARGET", "Inclusion & The \"Long Tail\"",
    "Are they competing for the same customers as major banks, or serving segments banks ignore?",
    [ "Who specifically is being underserved?",
      "Why have traditional providers ignored this segment?",
      "Is this truly underserved or just a marketing claim?" ])

  const DIMENSIONS: seq<Dimension> := [INTEGRATION, MONETIZATION, PAIN_POINT, AUTOMATION, COMPLIANCE, TARGET]

  /** The letters of the dimensions, in table order. */
  function Letters(dims: seq<Dimension>): (s: string)
    ensures |s| == |dims|
    ensures forall i :: 0 <= i < |dims| ==> s[i] == dims[i].letter
  {
    if dims == [] then [] else [dims[0].letter] + Letters(dims[1..])
  }

  predicate DistinctIds(dims: seq<Dimension>)
  {
    forall i, j :: 0 <= i < j < |dims| ==> dims[i].id != dims[j].id
  }

  /** The table has six dimensions, each with exactly three challenge
      prompts. */
  lemma DimensionTable()
    ensures |DIMENSIONS| == 6
    ensures forall i :: 0 <= i < |DIMENSIONS| ==> |DIMENSIONS[i].challengePrompts| == 3
  {
  }

  /** Read in table order, the letters of the dimensions spell IMPACT. */
  lemma DimensionLetters()
    ensures Letters(DIMENSIONS) == "IMPACT"
  {
    DimensionTable();
  }

  /** The ids of the table are pairwise distinct; they already differ in
      their first character. */
  lemma DimensionIdsDistinct()
    ensures DistinctIds(DIMENSIONS)
  {
    var initials := "impact";
    assert forall i :: 0 <= i < 6 ==> |DIMENSIONS[i].id| > 0 && DIMENSIONS[i].id[0] == initials[i];
  }
}
