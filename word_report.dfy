/** The exported analysis document, as the ordered list of headings and
    paragraphs the page adds to it, and the name it is downloaded under. */
module WordReport {
  import opened Dimensions
  import opened Interpretation
  import opened SessionState

  /** One block of the document: a heading of a level (0 is the title) or a
      paragraph. */
  datatype Block = Heading(level: nat, text: string) | Paragraph(text: string)

  const Title: string := "FINTECH IMPACT RADAR ANALYSIS"
  const NotesHeading: string := "Analysis / Evidence:"
  const NoNotes: string := "No notes recorded."

  function DigitChar(d: nat): (c: char)
    requires d < 10
    ensures '0' <= c <= '9' && (c as int) - ('0' as int) == d
  {
    "0123456789"[d]
  }

  /** The decimal digits of n, most significant first, without leading
      zeros. */
  function NatToString(n: nat): (s: string)
    ensures |s| >= 1 && (s[0] == '0' ==> n == 0)
    ensures s[0] == '0' ==> s == "0"
    ensures forall i :: 0 <= i < |s| ==> '0' <= s[i] <= '9'
  {
    if n < 10 then [DigitChar(n)] else NatToString(n / 10) + [DigitChar(n % 10)]
  }

  /** An integer as Python's str() writes it: a minus sign for negatives,
      then the digits. */
  function IntToString(x: int): string
  {
    if x < 0 then "-" + NatToString(-x) else NatToString(x)
  }

  /** The value of a string of decimal digits. */
  function DigitsValue(s: string): int
  {
    if s == [] then 0 else 10 * DigitsValue(s[..|s| - 1]) + ((s[|s| - 1] as int) - ('0' as int))
  }

  /** Reading an optional minus sign and digits back. */
  function ParseInt(s: string): int
  {
    if |s| > 0 && s[0] == '-' then -DigitsValue(s[1..]) else DigitsValue(s)
  }

  lemma {:induction false} NatToStringRoundTrip(n: nat)
    ensures DigitsValue(NatToString(n)) == n
  {
    if n >= 10 {
      NatToStringRoundTrip(n / 10);
      var s := NatToString(n);
      assert s[..|s| - 1] == NatToString(n / 10);
    }
  }

  /** The formatted number reads back as the number it was made from. */
  lemma IntToStringRoundTrip(x: int)
    ensures ParseInt(IntToString(x)) == x
  {
    if x < 0 {
      NatToStringRoundTrip(-x);
      assert IntToString(x)[1..] == NatToString(-x);
    } else {
      NatToStringRoundTrip(x);
    }
  }

  /** The divider line: fifty underscores ("_" * 50). */
  function Divider(): (line: string)
    ensures |line| == 50 && forall i :: 0 <= i < 50 ==> line[i] == '_'
  {
    seq(50, _ => '_')
  }

  /** "Company: " and the name, or "Not specified" when it is empty. */
  function CompanyLine(companyName: string): string
  {
    "Company: " + (if companyName != "" then companyName else "Not specified")
  }

  function OverallLine(avgScore: int): string
  {
    "Overall Impact Score: " + IntToString(avgScore) + "/100"
  }

  /** "<title> (<score>/100 - <severity label>)" */
  function DimensionHeadingLine(d: Dimension, score: int): string
  {
    d.title + " (" + IntToString(score) + "/100 - " + ScoreInterpretation(score).0 + ")"
  }

  /** The three blocks that open the document. */
  function Header(companyName: string, avgScore: int): seq<Block>
  {
    [Heading(0, Title), Paragraph(CompanyLine(companyName)), Heading(1, OverallLine(avgScore))]
  }

  /** The six blocks written for one dimension. */
  function Section(d: Dimension, score: int, notes: string): seq<Block>
  {
    [ Heading(2, DimensionHeadingLine(d, score)),
      Paragraph(d.subtitle),
      Paragraph("Question: " + d.question),
      Heading(3, NotesHeading),
      Paragraph(if notes != "" then notes else NoNotes),
      Paragraph(Divider()) ]
  }

  /** Every part is one dimension's section of six blocks. */
  predicate SixEach(parts: seq<seq<Block>>)
  {
    forall j :: 0 <= j < |parts| ==> |parts[j]| == 6
  }

  /** The parts written one after the other. */
  function Flatten(parts: seq<seq<Block>>): (blocks: seq<Block>)
    requires SixEach(parts)
    ensures |blocks| == 6 * |parts|
  {
    if parts == [] then [] else Flatten(parts[..|parts| - 1]) + parts[|parts| - 1]
  }

  /** Block k of part i sits at position 6 * i + k of the flattened parts. */
  lemma {:induction false} FlattenIndex(parts: seq<seq<Block>>, i: nat, k: nat)
    requires SixEach(parts) && i < |parts| && k < 6
    ensures Flatten(parts)[6 * i + k] == parts[i][k]
  {
    var init := parts[..|parts| - 1];
    assert Flatten(parts) == Flatten(init) + parts[|parts| - 1];
    if i < |parts| - 1 {
      assert init[i] == parts[i];
      FlattenIndex(init, i, k);
    }
  }

  /** The sections of the first n dimensions of the table, in table order,
      with the score and the note of each read from the store. */
  function Sections(dims: seq<Dimension>, m: map<string, Value>, n: nat): (parts: seq<seq<Block>>)
    requires Complete(dims, m) && n <= |dims|
    ensures |parts| == n && SixEach(parts)
  {
    if n == 0 then []
    else Sections(dims, m, n - 1) + [Section(dims[n - 1], ScoreAt(dims, m, n - 1), NoteAt(dims, m, n - 1))]
  }

  lemma {:induction false} SectionsIndex(dims: seq<Dimension>, m: map<string, Value>, n: nat, i: nat)
    requires Complete(dims, m) && i < n <= |dims|
    ensures Sections(dims, m, n)[i] == Section(dims[i], ScoreAt(dims, m, i), NoteAt(dims, m, i))
  {
    if i < n - 1 {
      SectionsIndex(dims, m, n - 1, i);
    }
  }

  /** The whole document for a company name, an overall score and the
      scores and notes held in the store: the header, then one section per
      dimension in table order. */
  function Report(dims: seq<Dimension>, companyName: string, avgScore: int, m: map<string, Value>)
    : (blocks: seq<Block>)
    requires Complete(dims, m)
    ensures |blocks| == 3 + 6 * |dims|
  {
    Header(companyName, avgScore) + Flatten(Sections(dims, m, |dims|))
  }

  /** The texts of the header: the title, the company line ("Not specified"
      for an empty name) and the overall score out of 100. */
  lemma HeaderLayout(companyName: string, avgScore: int)
    ensures var h := Header(companyName, avgScore);
      && |h| == 3
      && h[0] == Heading(0, "FINTECH IMPACT RADAR ANALYSIS")
      && h[1] == Paragraph("Company: " + (if companyName == "" then "Not specified" else companyName))
      && h[2] == Heading(1, "Overall Impact Score: " + IntToString(avgScore) + "/100")
  {
  }

  /** The texts of one dimension's section: its heading with score and
      severity, its subtitle, its question, the notes heading, the notes or
      a placeholder, and a divider of 50 underscores. */
  lemma SectionLayout(d: Dimension, score: int, notes: string)
    ensures var s := Section(d, score, notes);
      && |s| == 6
      && s[0] == Heading(2, d.title + " (" + IntToString(score) + "/100 - " + ScoreInterpretation(score).0 + ")")
      && s[1] == Paragraph(d.subtitle)
      && s[2] == Paragraph("Question: " + d.question)
      && s[3] == Heading(3, "Analysis / Evidence:")
      && s[4] == Paragraph(if notes == "" then "No notes recorded." else notes)
      && s[5] == Paragraph(Divider())
  {
  }

  /** Three opening blocks followed by the parts: block k of part i sits at
      position 3 + 6 * i + k. */
  lemma HeaderThenParts(header: seq<Block>, parts: seq<seq<Block>>, i: nat, k: nat)
    requires |header| == 3 && SixEach(parts) && i < |parts| && k < 6
    ensures (header + Flatten(parts))[..3] == header
    ensures (header + Flatten(parts))[3 + 6 * i + k] == parts[i][k]
  {
    FlattenIndex(parts, i, k);
  }

  /** The document is the three header blocks followed by, for each
      dimension i in table order, the six blocks of its section at
      positions 3 + 6 * i to 3 + 6 * i + 5. */
  lemma ReportLayout(dims: seq<Dimension>, companyName: string, avgScore: int, m: map<string, Value>,
                     i: nat, k: nat)
    requires Complete(dims, m) && i < |dims| && k < 6
    ensures var r := Report(dims, companyName, avgScore, m);
      && r[..3] == Header(companyName, avgScore)
      && r[3 + 6 * i + k] == Section(dims[i], ScoreAt(dims, m, i), NoteAt(dims, m, i))[k]
  {
    HeaderThenParts(Header(companyName, avgScore), Sections(dims, m, |dims|), i, k);
    SectionsIndex(dims, m, |dims|, i);
  }

  /** For the page's own table the document has 39 blocks. */
  lemma ReportLength(companyName: string, avgScore: int, m: map<string, Value>)
    requires Complete(DIMENSIONS, m)
    ensures |Report(DIMENSIONS, companyName, avgScore, m)| == 39
  {
    DimensionTable();
  }

  /** Writing dimension i's section extends the document written so far. */
  lemma ReportStep(dims: seq<Dimension>, companyName: string, avgScore: int, m: map<string, Value>, i: nat)
    requires Complete(dims, m) && i < |dims|
    ensures Header(companyName, avgScore) + Flatten(Sections(dims, m, i + 1))
            == Header(companyName, avgScore) + Flatten(Sections(dims, m, i))
               + Section(dims[i], ScoreAt(dims, m, i), NoteAt(dims, m, i))
  {
    assert Sections(dims, m, i + 1)[..i] == Sections(dims, m, i);
  }

  /** Appending a dimension's six blocks one at a time appends its section. */
  lemma SectionAppended(before: seq<Block>, d: Dimension, score: int, notes: string)
    ensures before + [Heading(2, DimensionHeadingLine(d, score))] + [Paragraph(d.subtitle)]
              + [Paragraph("Question: " + d.question)] + [Heading(3, NotesHeading)]
              + [Paragraph(if notes != "" then notes else NoNotes)] + [Paragraph(Divider())]
            == before + Section(d, score, notes)
  {
  }

  /** Builds the document block by block, going through the dimension table
      `dims` (the page passes DIMENSIONS) and reading the score and the note
      of each dimension from the store. It has no modifies clause: the store
      is the same afterwards. */
  method GenerateWordDoc(dims: seq<Dimension>, store: SessionStore, companyName: string, avgScore: int)
    returns (doc: seq<Block>)
    requires Complete(dims, store.entries)
    ensures doc == Report(dims, companyName, avgScore, store.entries)
  {
    doc := [Heading(0, Title), Paragraph(CompanyLine(companyName)), Heading(1, OverallLine(avgScore))];
    for i := 0 to |dims|
      invariant doc == Header(companyName, avgScore) + Flatten(Sections(dims, store.entries, i))
    {
      var dim := dims[i];
      var score := ScoreAt(dims, store.entries, i);
      var notes := NoteAt(dims, store.entries, i);
      ghost var before := doc;
      doc := doc + [Heading(2, DimensionHeadingLine(dim, score))];
      doc := doc + [Paragraph(dim.subtitle)];
      doc := doc + [Paragraph("Question: " + dim.question)];
      doc := doc + [Heading(3, NotesHeading)];
      if notes != "" {
        doc := doc + [Paragraph(notes)];
      } else {
        doc := doc + [Paragraph(NoNotes)];
      }
      doc := doc + [Paragraph(Divider())];
      SectionAppended(before, dim, score, notes);
      ReportStep(dims, companyName, avgScore, store.entries, i);
    }
  }

  const FileSuffix: string := "-impact-radar.docx"

  /** The download name: the company name, or "fintech" when it is empty,
      followed by "-impact-radar.docx". */
  function ExportFileName(companyName: string): (name: string)
    ensures |name| > |FileSuffix| && name[|name| - |FileSuffix|..] == FileSuffix
    ensures name[..|name| - |FileSuffix|] == (if companyName != "" then companyName else "fintech")
  {
    (if companyName != "" then companyName else "fintech") + FileSuffix
  }

  /** Distinct non-empty company names give distinct file names; the empty
      name shares its file name with the company called "fintech". */
  lemma ExportFileNameInjective(a: string, b: string)
    ensures a != "" && b != "" && ExportFileName(a) == ExportFileName(b) ==> a == b
    ensures ExportFileName("") == ExportFileName("fintech")
  {
    if a != "" && b != "" && ExportFileName(a) == ExportFileName(b) {
      var n := |ExportFileName(a)| - |FileSuffix|;
      assert a == ExportFileName(a)[..n] == ExportFileName(b)[..n] == b;
    }
  }
}
