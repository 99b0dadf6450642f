/** The analysis engine the Streamlit app uses (class `EGFRAnalyzer` in
    app.py): a five-entry mutation knowledge base, a four-class drug table,
    the three-way classification dispatch and the drug recommendations. */
module AppEngine {
  import opened Wrappers
  import opened Text
  import opened Records
  import opened Ladder

  /** One entry of `drug_database`. */
  datatype DrugClass = DrugClass(
    name: string,
    drugs: seq<string>,
    mechanism: string,
    effective: seq<string>,
    resistant: seq<string>,
    approvalYear: int)

  const L858R := Classification(
    Activating,
    "Structural gain-of-function in kinase domain",
    "Constitutive kinase activation",
    "Sensitive to 1st/2nd gen TKIs, resistant to 3rd gen initially",
    "Most common EGFR mutation in NSCLC (40-45% of EGFR+ cases)",
    ["MAPK/ERK", "PI3K/AKT"], 30, Some(45))

  const T790M := Classification(
    Resistance,
    "Gatekeeper mutation increasing ATP affinity",
    "Reduced TKI binding affinity, maintained kinase activity",
    "Resistant to 1st/2nd gen TKIs, sensitive to 3rd gen (osimertinib)",
    "Primary acquired resistance mechanism (50-60% of resistance cases)",
    ["MAPK/ERK", "PI3K/AKT"], 80, Some(50))

  const Del19 := Classification(
    Activating,
    "In-frame deletion causing conformational change",
    "Constitutive kinase activation with high sensitivity",
    "Highly sensitive to 1st/2nd gen TKIs",
    "Most common EGFR mutation (45-50% of EGFR+ cases)",
    ["MAPK/ERK", "PI3K/AKT"], 20, Some(45))

  const G719X := Classification(
    Activating,
    "Point mutation in ATP-binding domain",
    "Moderate kinase activation",
    "Variable response to TKIs, often requires combination therapy",
    "Uncommon mutation (2-3% of EGFR mutations)",
    ["MAPK/ERK"], 40, Some(3))

  const Exon20Ins := Classification(
    Resistance,
    "Insertion disrupting drug binding pocket",
    "Altered kinase domain structure",
    "Resistant to 1st/2nd gen TKIs, limited response to newer agents",
    "Exon 20 insertions represent 4-10% of EGFR mutations",
    ["MAPK/ERK", "PI3K/AKT"], 75, Some(8))

  /** `mutation_database`, keyed by the exact detail string. */
  const MutationDatabase: map<string, Classification> := map[
    "L858R" := L858R, "T790M" := T790M, "Del19" := Del19, "G719X" := G719X,
    "Exon 20 ins" := Exon20Ins]

  const FirstGen := DrugClass(
    "1st Generation TKI", ["Gefitinib", "Erlotinib"], "Reversible EGFR kinase inhibition",
    ["L858R", "Del19", "G719X"], ["T790M", "Exon 20 ins"], 2003)

  const SecondGen := DrugClass(
    "2nd Generation TKI", ["Afatinib", "Dacomitinib"], "Irreversible pan-HER inhibition",
    ["L858R", "Del19", "G719X"], ["T790M"], 2013)

  const ThirdGen := DrugClass(
    "3rd Generation TKI", ["Osimertinib"], "Selective T790M-mutant EGFR inhibition",
    ["T790M", "L858R+T790M", "Del19+T790M"], ["C797S", "Amplification"], 2015)

  const Antibody := DrugClass(
    "Monoclonal Antibody", ["Cetuximab", "Panitumumab"], "EGFR extracellular domain blocking",
    ["Amplification", "Overexpression"], ["KRAS mutations"], 2004)

  /** `drug_database`, in declaration order. */
  const DrugDatabase: seq<DrugClass> := [FirstGen, SecondGen, ThirdGen, Antibody]

  // ---------------------------------------------------------------------
  // Classification
  // ---------------------------------------------------------------------

  /** `int(copy_number)`, or 6 when `int` raises. */
  function CopyNumber(detail: string): int
  {
    match ParseInt(detail)
    case Some(n) => n
    case None => 6
  }

  /** `min(0.7, 0.3 + (n - 2) * 0.05)` in hundredths. */
  function AmplificationScore(n: int): int
  {
    if 30 + 5 * (n - 2) < 70 then 30 + 5 * (n - 2) else 70
  }

  /** `_analyze_amplification`. */
  function AnalyzeAmplification(detail: string): (c: Classification)
    ensures c.kind == Amplification && c.affectedPathways == ["MAPK/ERK", "PI3K/AKT", "JAK/STAT"]
    ensures c.score <= 70
  {
    var n := CopyNumber(detail);
    Classification(
      Amplification,
      "Gene amplification leading to " + IntToString(n) + "x overexpression",
      "Ligand-hypersensitive receptor overexpression",
      "High protein levels may require increased drug dosing or combination therapy",
      IntToString(n) + "x amplification - significant therapeutic challenge",
      ["MAPK/ERK", "PI3K/AKT", "JAK/STAT"],
      AmplificationScore(n),
      Some(15))
  }

  /** `_analyze_unknown`. */
  function AnalyzeUnknown(mtype: string, detail: string): Classification
  {
    Classification(
      Unknown,
      "Unknown mechanism for " + mtype + ": " + detail,
      "Requires functional characterization",
      "Unknown - requires experimental validation",
      "Novel or rare mutation requiring further study",
      ["Unknown"], 50, Some(1))
  }

  /** The base analysis of `analyze_mutation`: knowledge-base entry first,
      whatever the type; then the amplification formula; then unknown. */
  function Classify(mtype: string, detail: string): Classification
  {
    if detail in MutationDatabase then MutationDatabase[detail]
    else if mtype == "Amplification" then AnalyzeAmplification(detail)
    else AnalyzeUnknown(mtype, detail)
  }

  // ---------------------------------------------------------------------
  // Drug recommendations
  // ---------------------------------------------------------------------

  /** `_calculate_efficacy`. */
  function CalculateEfficacy(detail: string, cls: DrugClass, c: Classification): (e: Efficacy)
    ensures e != Unrated
    ensures MatchesAny(detail, cls.effective) ==> e == ScoreEfficacy(c.score)
    ensures !MatchesAny(detail, cls.effective) && MatchesAny(detail, cls.resistant) ==> e == Low
    ensures !(cls.name == "Monoclonal Antibody") && !MatchesAny(detail, cls.effective) && !MatchesAny(detail, cls.resistant) ==> e == Medium
  {
    Assess(detail, c.score, cls.effective, cls.resistant, cls.name == "Monoclonal Antibody")
  }

  /** `_get_rationale`: chosen by the classification's kind alone. */
  function Rationale(kind: Kind): string
  {
    match kind
    case Activating => "Activating mutation typically responsive to kinase inhibition"
    case Resistance => "Resistance mutation requiring specialized targeting approach"
    case Amplification => "Overexpression benefits from receptor blocking or high-dose TKI"
    case _ => "General EGFR targeting approach recommended"
  }

  /** The entry appended for one drug of one class. */
  function DrugRecommendation(detail: string, cls: DrugClass, drug: string, c: Classification): Recommendation
  {
    Recommendation(drug, cls.name, CalculateEfficacy(detail, cls, c), Some(cls.mechanism), Rationale(c.kind))
  }

  /** What the inner loop appends for the first drugs of a class: every drug
      whose efficacy is not "None". */
  function ClassRecommendations(detail: string, cls: DrugClass, drugs: seq<string>, c: Classification): seq<Recommendation>
  {
    if |drugs| == 0 then []
    else
      ClassRecommendations(detail, cls, drugs[..|drugs| - 1], c)
      + (if CalculateEfficacy(detail, cls, c) != Unrated
         then [DrugRecommendation(detail, cls, drugs[|drugs| - 1], c)] else [])
  }

  /** What the outer loop appends for the first classes. */
  function RecommendationsOver(detail: string, classes: seq<DrugClass>, c: Classification): seq<Recommendation>
  {
    if |classes| == 0 then []
    else
      RecommendationsOver(detail, classes[..|classes| - 1], c)
      + ClassRecommendations(detail, classes[|classes| - 1], classes[|classes| - 1].drugs, c)
  }

  /** The list `_generate_drug_recommendations` returns. */
  function Recommendations(detail: string, c: Classification): seq<Recommendation>
  {
    RecommendationsOver(detail, DrugDatabase, c)
  }

  /** `_generate_drug_recommendations`: nested loops over the classes and
      their drugs, appending one entry per drug not rated "None". */
  method GenerateRecommendations(detail: string, c: Classification) returns (recs: seq<Recommendation>)
    ensures recs == Recommendations(detail, c)
  {
    recs := [];
    var i := 0;
    while i < |DrugDatabase|
      invariant 0 <= i <= |DrugDatabase|
      invariant recs == RecommendationsOver(detail, DrugDatabase[..i], c)
    {
      var cls := DrugDatabase[i];
      var j := 0;
      while j < |cls.drugs|
        invariant 0 <= j <= |cls.drugs|
        invariant recs == RecommendationsOver(detail, DrugDatabase[..i], c)
                          + ClassRecommendations(detail, cls, cls.drugs[..j], c)
      {
        var efficacy := CalculateEfficacy(detail, cls, c);
        if efficacy != Unrated {
          recs := recs + [DrugRecommendation(detail, cls, cls.drugs[j], c)];
        }
        assert cls.drugs[..j + 1][..j] == cls.drugs[..j];
        j := j + 1;
      }
      assert cls.drugs[..j] == cls.drugs;
      assert DrugDatabase[..i + 1][..i] == DrugDatabase[..i];
      i := i + 1;
    }
    assert DrugDatabase[..i] == DrugDatabase;
  }

  /** `analyze_mutation` as a value. */
  function Analysis(m: Mutation): Record
  {
    var c := Classify(m.mtype, m.detail);
    Record(m, c, Recommendations(m.detail, c), None)
  }

  /** `analyze_mutation(mutation_type, mutation_detail, exon)`. */
  method AnalyzeMutation(mtype: string, detail: string, exon: string) returns (r: Record)
    ensures r == Analysis(Mutation(mtype, detail, exon))
    ensures r.mutation == Mutation(mtype, detail, exon)
  {
    var c := Classify(mtype, detail);
    var recs := GenerateRecommendations(detail, c);
    r := Record(Mutation(mtype, detail, exon), c, recs, None);
  }
}
