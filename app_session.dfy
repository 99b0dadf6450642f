/** The app's session state: the two lists `st.session_state.mutations` and
    `st.session_state.analysis_results`, which every input path appends to
    in lock-step and which "Clear All Data", "Load Example Case" and
    "Process CSV File" empty together. */
module AppSession {
  import opened Records
  import AppEngine

  /** The analyses of a list of mutations, one per mutation, in order. */
  function AnalysesOf(ms: seq<Mutation>): (rs: seq<Record>)
    ensures |rs| == |ms|
    ensures forall i :: 0 <= i < |ms| ==> rs[i] == AppEngine.Analysis(ms[i])
  {
    seq(|ms|, i requires 0 <= i < |ms| => AppEngine.Analysis(ms[i]))
  }

  /** Appending a descriptor appends its analysis. */
  lemma AnalysesOfSnoc(ms: seq<Mutation>, m: Mutation)
    ensures AnalysesOf(ms + [m]) == AnalysesOf(ms) + [AppEngine.Analysis(m)]
  {
    var lhs, rhs := AnalysesOf(ms + [m]), AnalysesOf(ms) + [AppEngine.Analysis(m)];
    assert forall i :: 0 <= i < |lhs| ==> lhs[i] == rhs[i];
  }

  /** The first k + 1 elements are the first k followed by element k. */
  lemma TakeOneMore<T>(s: seq<T>, k: nat)
    requires k < |s|
    ensures s[..k + 1] == s[..k] + [s[k]]
  {
  }

  /** A CSV row as pandas hands it over: column name to cell text. */
  type CsvRow = map<string, string>

  /** The descriptor built from one CSV row: the type defaults to
      "Point Mutation", the detail is the 'mutation' column, else the
      'detail' column, else empty, and the exon defaults to "Unknown". */
  function RowToMutation(row: CsvRow): (m: Mutation)
    ensures m.mtype == (if "type" in row then row["type"] else "Point Mutation")
    ensures "mutation" in row ==> m.detail == row["mutation"]
    ensures "mutation" !in row && "detail" in row ==> m.detail == row["detail"]
    ensures "mutation" !in row && "detail" !in row ==> m.detail == ""
    ensures m.exon == (if "exon" in row then row["exon"] else "Unknown")
  {
    Mutation(
      if "type" in row then row["type"] else "Point Mutation",
      if "mutation" in row then row["mutation"] else if "detail" in row then row["detail"] else "",
      if "exon" in row then row["exon"] else "Unknown")
  }

  /** The descriptors of a CSV file's rows, in row order. */
  function RowsToMutations(rows: seq<CsvRow>): (ms: seq<Mutation>)
    ensures |ms| == |rows|
    ensures forall i :: 0 <= i < |rows| ==> ms[i] == RowToMutation(rows[i])
  {
    if |rows| == 0 then [] else RowsToMutations(rows[..|rows| - 1]) + [RowToMutation(rows[|rows| - 1])]
  }

  /** The six example cases of the "Example Cases" interface. */
  const ExampleCases: map<string, seq<Mutation>> := map[
    "\U{1F7E2} Classic EGFR+ NSCLC (Treatment-Naive)" :=
      [Mutation("Point Mutation", "L858R", "Exon 21")],
    "\U{1F7E1} Acquired Resistance Case" :=
      [Mutation("Point Mutation", "L858R", "Exon 21"), Mutation("Point Mutation", "T790M", "Exon 20")],
    "\U{1F534} High Amplification Case" :=
      [Mutation("Amplification", "8", "Whole Gene")],
    "\U{1F7E0} Exon 19 Deletion (Highly Sensitive)" :=
      [Mutation("Deletion", "Del19", "Exon 19")],
    "\U{1F534} Resistant Insertion Case" :=
      [Mutation("Insertion", "Exon 20 ins", "Exon 20")],
    "\U{26AB} Complex Multi-Mutation Case" :=
      [Mutation("Point Mutation", "G719X", "Exon 18"), Mutation("Amplification", "4", "Whole Gene")]]

  class Session {
    var mutations: seq<Mutation>
    var analysisResults: seq<Record>

    /** The two lists are parallel: entry `i` of the results is the analysis
        of entry `i` of the mutations. */
    ghost predicate Valid()
      reads this
    {
      analysisResults == AnalysesOf(mutations)
    }

    /** The session starts with both lists empty. */
    constructor ()
      ensures Valid()
      ensures mutations == [] && analysisResults == []
    {
      mutations := [];
      analysisResults := [];
    }

    /** "Clear All Data": both lists become empty. */
    method Clear()
      modifies this
      ensures Valid()
      ensures mutations == [] && analysisResults == []
    {
      mutations := [];
      analysisResults := [];
    }

    /** "Add Mutation" in the manual-entry form: nothing happens for an empty
        detail; otherwise the descriptor and its analysis are appended, one
        element to each list. */
    method AddManual(mtype: string, detail: string, exon: string) returns (added: bool)
      requires Valid()
      modifies this
      ensures Valid()
      ensures added <==> detail != ""
      ensures added ==> mutations == old(mutations) + [Mutation(mtype, detail, exon)]
                        && analysisResults == old(analysisResults) + [AppEngine.Analysis(Mutation(mtype, detail, exon))]
      ensures !added ==> mutations == old(mutations) && analysisResults == old(analysisResults)
    {
      added := detail != "";
      if added {
        Append(Mutation(mtype, detail, exon));
      }
    }

    /** The step every input path repeats: append the descriptor to the
        mutations, analyse it, and append the result to the analyses. */
    method Append(m: Mutation)
      requires Valid()
      modifies this
      ensures Valid()
      ensures mutations == old(mutations) + [m]
      ensures analysisResults == old(analysisResults) + [AppEngine.Analysis(m)]
    {
      mutations := mutations + [m];
      var result := AppEngine.AnalyzeMutation(m.mtype, m.detail, m.exon);
      analysisResults := analysisResults + [result];
      AnalysesOfSnoc(old(mutations), m);
    }

    /** Replaces the session by the given descriptors: both lists are
        cleared, then each descriptor is appended with its analysis, in
        order. "Load Example Case" and "Process CSV File" both do this. */
    method Load(entries: seq<Mutation>)
      modifies this
      ensures Valid()
      ensures mutations == entries
      ensures analysisResults == AnalysesOf(entries)
    {
      Clear();
      var k := 0;
      while k < |entries|
        invariant 0 <= k <= |entries|
        invariant mutations == entries[..k]
        invariant analysisResults == AnalysesOf(entries[..k])
      {
        Append(entries[k]);
        TakeOneMore(entries, k);
        k := k + 1;
      }
      assert entries[..k] == entries;
    }

    /** "Load Example Case" for the case selected by its title. */
    method LoadExample(title: string)
      requires title in ExampleCases
      modifies this
      ensures Valid()
      ensures mutations == ExampleCases[title]
      ensures analysisResults == AnalysesOf(ExampleCases[title])
    {
      Load(ExampleCases[title]);
    }

    /** "Process CSV File": one descriptor per row, in row order. */
    method ProcessCsv(rows: seq<CsvRow>)
      modifies this
      ensures Valid()
      ensures mutations == RowsToMutations(rows)
      ensures analysisResults == AnalysesOf(RowsToMutations(rows))
    {
      Load(RowsToMutations(rows));
    }
  }
}
