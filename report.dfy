/** `PDFReportGenerator`: the data of the drug recommendation table and the
    executive summary paragraph. */
module Report {
  import opened Wrappers
  import opened Text
  import opened Records

  // ---------------------------------------------------------------------
  // Drug recommendation table
  // ---------------------------------------------------------------------

  /** A rationale longer than 50 characters is cut to its first 50 and
      followed by "..."; a shorter one is kept as it is. */
  function Truncate(s: string): (r: string)
    ensures |s| <= 50 ==> r == s
    ensures |s| > 50 ==> |r| == 53 && r[..50] == s[..50] && r[50..] == "..."
  {
    if |s| > 50 then s[..50] + "..." else s
  }

  /** Truncating twice is truncating once: a cut rationale is never cut
      again into something else. */
  lemma TruncateIdempotent(s: string)
    ensures Truncate(Truncate(s)) == Truncate(s)
  {
    if |s| > 50 {
      var r := Truncate(s);
      assert r[..50] == s[..50];
      assert Truncate(r) == r[..50] + "...";
    }
  }

  /** The header row of the table data. */
  const Header: seq<string> := ["Drug", "Class", "Efficacy", "Rationale"]

  /** One data row: name, class and efficacy as the record carries them,
      and the truncated rationale. */
  function TableRow(r: Recommendation): seq<string>
  {
    [r.name, r.drugClass, EfficacyName(r.efficacy), Truncate(r.rationale)]
  }

  /** The data rows of a list of recommendations, one per recommendation. */
  function TableRows(recs: seq<Recommendation>): (rows: seq<seq<string>>)
    ensures |rows| == |recs|
    ensures forall k :: 0 <= k < |recs| ==> rows[k] == TableRow(recs[k])
  {
    seq(|recs|, k requires 0 <= k < |recs| => TableRow(recs[k]))
  }

  /** `_create_drug_recommendation_table`: the nested loop that collects one
      row per recommendation, result by result, after the header. */
  method DrugTable(rs: seq<Record>) returns (data: seq<seq<string>>)
    ensures data == [Header] + TableRows(AllRecommendations(rs))
    ensures |data| == 1 + RecommendationCount(rs)
  {
    var allDrugs: seq<seq<string>> := [];
    var k := 0;
    while k < |rs|
      invariant 0 <= k <= |rs|
      invariant allDrugs == TableRows(AllRecommendations(rs[..k]))
    {
      var recs := rs[k].recommendations;
      var j := 0;
      while j < |recs|
        invariant 0 <= j <= |recs|
        invariant allDrugs == TableRows(AllRecommendations(rs[..k]) + recs[..j])
      {
        var drug := recs[j];
        allDrugs := allDrugs + [[drug.name, drug.drugClass, EfficacyName(drug.efficacy), Truncate(drug.rationale)]];
        assert AllRecommendations(rs[..k]) + recs[..j + 1] == AllRecommendations(rs[..k]) + recs[..j] + [drug];
        j := j + 1;
      }
      assert recs[..j] == recs;
      assert rs[..k + 1][..k] == rs[..k];
      k := k + 1;
    }
    assert rs[..k] == rs;
    data := [Header] + allDrugs;
    AllRecommendationsLength(rs);
  }

  /** The row of recommendation `j` of result `i` comes after the header and
      the rows of the results before `i`: rows are ordered by result, then by
      recommendation, and copy the recommendation's fields. */
  lemma DrugTableRowAt(rs: seq<Record>, i: nat, j: nat)
    requires i < |rs| && j < |rs[i].recommendations|
    ensures var data := [Header] + TableRows(AllRecommendations(rs));
      var p := 1 + RecommendationCount(rs[..i]) + j;
      var rec := rs[i].recommendations[j];
      && p < |data|
      && data[p] == [rec.name, rec.drugClass, EfficacyName(rec.efficacy), Truncate(rec.rationale)]
  {
    AllRecommendationsAt(rs, i, j);
  }

  // ---------------------------------------------------------------------
  // Executive summary
  // ---------------------------------------------------------------------

  /** The summary text before the result count. */
  const Opening := "This report analyzes "

  /** The text between the two counts: the end of the first line, with its
      trailing space and the template's indentation. */
  const Middle := " EGFR mutation(s) identified in the sample. \n        "

  /** The text after the high-resistance count. */
  const Closing := " mutation(s) show high resistance potential (score > 0.7), indicating \n        "
    + "potential challenges with standard targeted therapy approaches. The analysis incorporates \n        "
    + "current clinical knowledge of EGFR mutation mechanisms and drug resistance patterns \n        "
    + "to provide evidence-based treatment recommendations."

  /** `_generate_executive_summary`: the f-string with the number of results
      and the number whose score is above 0.7, stripped. */
  function ExecutiveSummary(rs: seq<Record>): string
  {
    Strip(Framed(Opening + Counts(rs) + Closing))
  }

  /** The two counts with the text between them. */
  function Counts(rs: seq<Record>): string
  {
    IntToString(|rs|) + Middle + IntToString(HighResistanceCount(rs))
  }

  /** Stripping removes exactly the frame: the summary runs from "This" to
      the final full stop, with the two counts in between. */
  lemma ExecutiveSummaryText(rs: seq<Record>)
    ensures ExecutiveSummary(rs) == Opening + Counts(rs) + Closing
  {
    ClosingEnd();
    OpeningStart();
    StripFilled(Opening, Counts(rs), Closing);
  }

  /** The two numbers in the summary read back as the number of results and
      the number of high-resistance results. */
  lemma CountsReport(rs: seq<Record>)
    ensures var n, h := IntToString(|rs|), IntToString(HighResistanceCount(rs));
      && Counts(rs) == n + Middle + h
      && ParseInt(n) == Some(|rs|)
      && ParseInt(h) == Some(HighResistanceCount(rs))
  {
    ParseIntToString(|rs|);
    ParseIntToString(HighResistanceCount(rs));
  }

  /** A template text that starts and ends with a visible character
      strips back to itself. */
  lemma StripFilled(first: string, inner: string, last: string)
    requires |first| > 0 && !IsSpace(first[0]) && |last| > 0 && !IsSpace(last[|last| - 1])
    ensures Strip(Framed(first + inner + last)) == first + inner + last
  {
    var body := first + inner + last;
    assert body[0] == first[0];
    assert body[|body| - 1] == last[|last| - 1];
    EdgeIsSpace();
    StripFramed(Edge, body, Edge);
  }

  lemma OpeningStart()
    ensures |Opening| > 0 && !IsSpace(Opening[0])
  {
  }

  lemma ClosingEnd()
    ensures |Closing| > 0 && !IsSpace(Closing[|Closing| - 1])
  {
    var last := "to provide evidence-based treatment recommendations.";
    assert Closing[|Closing| - 1] == last[|last| - 1];
  }
}
