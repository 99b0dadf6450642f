/** The second engine (logic.py): `MutationClassifier`, whose knowledge base
    is consulted only for point mutations and which classifies insertions and
    deletions by substring tests, and `EGFRAnalyzer`, which maps a list of
    mutations to analysis records with recommendations and detailed texts.
    Its tables and texts differ from the app's engine; only the efficacy
    ladder is shared. */
module LogicEngine {
  import opened Wrappers
  import opened Text
  import opened Records
  import opened Ladder

  // ---------------------------------------------------------------------
  // MutationClassifier
  // ---------------------------------------------------------------------

  const L858R := Classification(
    Activating,
    "Structural gain-of-function",
    "Constitutive kinase activation",
    "Sensitive to 1st/2nd gen TKIs, resistant to 3rd gen",
    "Most common EGFR mutation in NSCLC (40-45%)",
    ["MAPK/ERK", "PI3K/AKT"], 30, None)

  const T790M := Classification(
    Resistance,
    "Gatekeeper mutation",
    "Increased ATP affinity, reduced TKI binding",
    "Resistant to 1st/2nd gen TKIs, sensitive to 3rd gen (osimertinib)",
    "Primary resistance mechanism (50-60% of acquired resistance)",
    ["MAPK/ERK", "PI3K/AKT"], 80, None)

  const G719X := Classification(
    Activating,
    "Structural alteration in ATP-binding domain",
    "Moderate kinase activation",
    "Variable response to TKIs",
    "Uncommon mutation (2-3% of EGFR mutations)",
    ["MAPK/ERK"], 40, None)

  const Del19 := Classification(
    Activating,
    "In-frame deletion causing conformational change",
    "Constitutive kinase activation",
    "Highly sensitive to 1st/2nd gen TKIs",
    "Most common EGFR mutation (45-50%)",
    ["MAPK/ERK", "PI3K/AKT"], 20, None)

  /** `_load_mutation_knowledge`: four entries, no insertion entry. */
  const MutationDatabase: map<string, Classification> := map[
    "L858R" := L858R, "T790M" := T790M, "G719X" := G719X, "Del19" := Del19]

  /** `min(0.7, 0.3 + (n - 2) * 0.1)` from six copies on (always 0.7
      there), `0.3 + (n - 2) * 0.05` below; in hundredths. */
  function AmplificationScore(n: int): int
  {
    if n >= 6 then (if 30 + 10 * (n - 2) < 70 then 30 + 10 * (n - 2) else 70)
    else 30 + 5 * (n - 2)
  }

  /** The least magnitude of an integer that `float()` rejects with
      OverflowError: 2^1024 - 2^970, halfway between the largest finite
      double and 2^1024, to which it rounds. */
  const FloatOverflow: int := 0xfffffffffffffc00000000000000000000000000000000000000000000000000000000000000000000000000000000000000000000000000000000000000000000000000000000000000000000000000000000000000000000000000000000000000000000000000000000000000000000000000000000000000000000000000

  /** Python converts the integer to a float without OverflowError. */
  predicate FitsFloat(n: int)
  {
    -FloatOverflow < n < FloatOverflow
  }

  /** A detail the amplification rule can score: `int()` accepts it, and
      `copy_num - 2` converts to a float in the score's product. */
  predicate ScorableCopyNumber(detail: string)
  {
    ParseInt(detail).Some? && FitsFloat(ParseInt(detail).value - 2)
  }

  /** `_classify_amplification`: `int(copy_number)` with no fallback; a
      detail that is not an integer raises, and so does a copy number too
      large for `(copy_num - 2) * 0.1` or `* 0.05`; each raise is a
      `Failure` here. */
  function ClassifyAmplification(detail: string): (r: Result<Classification>)
    ensures r.Success? <==> ScorableCopyNumber(detail)
    ensures r.Success? ==> r.value.kind == Amplification && r.value.score <= 70
  {
    match ParseInt(detail)
    case None => Failure("invalid literal for int() with base 10: '" + detail + "'")
    case Some(n) =>
      if !FitsFloat(n - 2) then Failure("int too large to convert to float")
      else Success(Classification(
        Amplification,
        "Copy number amplification leading to overexpression",
        "Ligand-hypersensitive overexpression",
        "High protein levels may require increased drug dosing",
        IntToString(n) + "x amplification - significant overexpression",
        ["MAPK/ERK", "PI3K/AKT", "JAK/STAT"],
        AmplificationScore(n),
        None))
  }

  /** `_classify_unknown`. */
  function ClassifyUnknown(mtype: string, detail: string): Classification
  {
    Classification(
      Unknown,
      "Unknown mechanism for " + mtype + ": " + detail,
      "Requires further characterization",
      "Unknown resistance profile",
      "Novel or rare mutation requiring functional studies",
      ["Unknown"], 50, None)
  }

  /** `_classify_insertion`: an "Exon 20" insertion is a resistance
      mutation; anything else is unknown, typed "Insertion". */
  function ClassifyInsertion(detail: string): Classification
  {
    if Contains("Exon 20", detail) then
      Classification(
        Resistance,
        "Exon 20 insertion disrupting drug binding",
        "Altered kinase domain structure",
        "Resistant to 1st/2nd gen TKIs, variable response to newer agents",
        "Exon 20 insertions represent 4-10% of EGFR mutations",
        ["MAPK/ERK", "PI3K/AKT"], 75, None)
    else ClassifyUnknown("Insertion", detail)
  }

  /** `_classify_deletion`: a detail mentioning "Del19" or "Exon 19" is the
      Del19 entry; any other deletion is a structural variant. */
  function ClassifyDeletion(detail: string): Classification
  {
    if Contains("Del19", detail) || Contains("Exon 19", detail) then Del19
    else
      Classification(
        Structural,
        "In-frame deletion causing structural alteration",
        "Variable kinase activation",
        "Variable TKI response depending on specific deletion",
        "Uncommon deletion variant",
        ["MAPK/ERK"], 40, None)
  }

  /** `classify_mutation`: the knowledge base for point mutations only, then
      dispatch on the type. */
  function Classify(mtype: string, detail: string): Result<Classification>
  {
    if mtype == "Point Mutation" && detail in MutationDatabase then Success(MutationDatabase[detail])
    else if mtype == "Amplification" then ClassifyAmplification(detail)
    else if mtype == "Insertion" then Success(ClassifyInsertion(detail))
    else if mtype == "Deletion" then Success(ClassifyDeletion(detail))
    else Success(ClassifyUnknown(mtype, detail))
  }

  // ---------------------------------------------------------------------
  // EGFRAnalyzer: drug recommendations
  // ---------------------------------------------------------------------

  /** One entry of `drug_database`, under its dictionary key. `classLabel` is
      the text the recommendations show for the class,
      `key.replace('_', ' ').title()`; `LabelsAreTitleCasedKeys` proves each
      one equal to `ClassLabel(key)`. */
  datatype DrugClass = DrugClass(
    key: string,
    classLabel: string,
    drugs: seq<string>,
    mechanism: string,
    effective: seq<string>,
    resistant: seq<string>)

  const FirstGen := DrugClass(
    "1st_gen_TKI", "1St Gen Tki", ["Gefitinib", "Erlotinib"], "Reversible EGFR kinase inhibition",
    ["L858R", "Del19", "G719X"], ["T790M", "Exon 20 ins"])

  const SecondGen := DrugClass(
    "2nd_gen_TKI", "2Nd Gen Tki", ["Afatinib", "Dacomitinib"], "Irreversible pan-HER inhibition",
    ["L858R", "Del19", "G719X", "Exon 20 ins (limited)"], ["T790M"])

  const ThirdGen := DrugClass(
    "3rd_gen_TKI", "3Rd Gen Tki", ["Osimertinib"], "Selective T790M-mutant EGFR inhibition",
    ["T790M", "L858R+T790M", "Del19+T790M"], ["C797S", "Amplification (high level)"])

  const Antibody := DrugClass(
    "Monoclonal_Antibody", "Monoclonal Antibody", ["Cetuximab", "Panitumumab"], "EGFR extracellular domain blocking",
    ["Amplification", "Overexpression"], ["KRAS mutations", "Downstream pathway activation"])

  /** `drug_database`, in declaration order. */
  const DrugDatabase: seq<DrugClass> := [FirstGen, SecondGen, ThirdGen, Antibody]

  /** `_calculate_drug_efficacy`: the shared ladder on this file's tables,
      the antibody rule applying to the key 'Monoclonal_Antibody'. */
  function CalculateDrugEfficacy(detail: string, cls: DrugClass, c: Classification): (e: Efficacy)
    ensures e != Unrated
    ensures MatchesAny(detail, cls.effective) ==> e == ScoreEfficacy(c.score)
    ensures !MatchesAny(detail, cls.effective) && MatchesAny(detail, cls.resistant) ==> e == Low
    ensures !(cls.key == "Monoclonal_Antibody") && !MatchesAny(detail, cls.effective) && !MatchesAny(detail, cls.resistant) ==> e == Medium
  {
    Assess(detail, c.score, cls.effective, cls.resistant, cls.key == "Monoclonal_Antibody")
  }

  /** `drug_class.replace('_', ' ').title()`. */
  function ClassLabel(key: string): string
  {
    Title(ReplaceChar(key, '_', ' '))
  }

  /** `_get_drug_rationale`: chosen by the classification's kind alone. */
  function DrugRationale(kind: Kind): string
  {
    match kind
    case Activating => "Activating mutation responsive to kinase inhibition"
    case Resistance => "Resistance mutation requiring specialized targeting"
    case Amplification => "Overexpression may benefit from receptor blocking"
    case _ => "General EGFR targeting approach"
  }

  /** The entry appended for one drug of one class (no mechanism field). */
  function DrugRecommendation(detail: string, cls: DrugClass, drug: string, c: Classification): Recommendation
  {
    Recommendation(drug, cls.classLabel, CalculateDrugEfficacy(detail, cls, c), None, DrugRationale(c.kind))
  }

  /** What the inner loop appends for the first drugs of a class. */
  function ClassRecommendations(detail: string, cls: DrugClass, drugs: seq<string>, c: Classification): seq<Recommendation>
  {
    if |drugs| == 0 then []
    else
      ClassRecommendations(detail, cls, drugs[..|drugs| - 1], c)
      + (if CalculateDrugEfficacy(detail, cls, c) != Unrated
         then [DrugRecommendation(detail, cls, drugs[|drugs| - 1], c)] else [])
  }

  /** What the outer loop appends for the first classes. */
  function RecommendationsOver(detail: string, classes: seq<DrugClass>, c: Classification): seq<Recommendation>
  {
    if |classes| == 0 then []
    else
      RecommendationsOver(detail, classes[..|classes| - 1], c)
      + ClassRecommendations(detail, classes[|classes| - 1], classes[|classes| - 1].drugs, c)
  }

  /** The list `_generate_drug_recommendations` returns. */
  function Recommendations(detail: string, c: Classification): seq<Recommendation>
  {
    RecommendationsOver(detail, DrugDatabase, c)
  }

  /** `_generate_drug_recommendations`: nested loops over the classes and
      their drugs, appending one entry per drug not rated "None". */
  method GenerateDrugRecommendations(detail: string, c: Classification) returns (recs: seq<Recommendation>)
    ensures recs == Recommendations(detail, c)
  {
    recs := RecommendationsLoop(detail, DrugDatabase, c);
  }

  /** The two loops of `_generate_drug_recommendations`, over any table. */
  method RecommendationsLoop(detail: string, classes: seq<DrugClass>, c: Classification) returns (recs: seq<Recommendation>)
    ensures recs == RecommendationsOver(detail, classes, c)
  {
    recs := [];
    var i := 0;
    while i < |classes|
      invariant 0 <= i <= |classes|
      invariant recs == RecommendationsOver(detail, classes[..i], c)
    {
      var cls := classes[i];
      var j := 0;
      while j < |cls.drugs|
        invariant 0 <= j <= |cls.drugs|
        invariant recs == RecommendationsOver(detail, classes[..i], c)
                          + ClassRecommendations(detail, cls, cls.drugs[..j], c)
      {
        var efficacy := CalculateDrugEfficacy(detail, cls, c);
        if efficacy != Unrated {
          recs := recs + [DrugRecommendation(detail, cls, cls.drugs[j], c)];
        }
        assert cls.drugs[..j + 1][..j] == cls.drugs[..j];
        j := j + 1;
      }
      assert cls.drugs[..j] == cls.drugs;
      assert classes[..i + 1][..i] == classes[..i];
      i := i + 1;
    }
    assert classes[..i] == classes;
  }

  // ---------------------------------------------------------------------
  // EGFRAnalyzer: detailed analysis and the list of results
  // ---------------------------------------------------------------------

  /** The mechanism template's text between its framing lines. */
  function MechanismText(c: Classification): string
  {
    c.mechanism + "\n" + Indent + "\n" + Indent
    + "This mutation affects EGFR function through " + Lower(c.pathwayImpact) + ".\n" + Indent
    + "The structural changes lead to altered protein conformation and signaling capacity."
  }

  /** The clinical template's text between its framing lines. */
  function ClinicalText(c: Classification): string
  {
    c.clinicalSignificance + "\n" + Indent + "\n" + Indent
    + "Resistance Score: " + FormatHundredths(c.score) + "/1.0\n" + Indent
    + "This score reflects the likelihood of treatment resistance based on known mechanisms."
  }

  /** `mechanism_detail.strip()`. */
  function MechanismDetail(c: Classification): string
  {
    Strip(Framed(MechanismText(c)))
  }

  /** `clinical_detail.strip()`. */
  function ClinicalDetail(c: Classification): string
  {
    Strip(Framed(ClinicalText(c)))
  }

  /** One iteration of `analyze_mutations`: the classification's fields,
      with `clinical_significance` replaced by the clinical detail, plus the
      recommendations and the detailed mechanism. */
  function Analyze(m: Mutation): Result<Record>
  {
    match Classify(m.mtype, m.detail)
    case Failure(e) => Failure(e)
    case Success(c) =>
      Success(Record(
        m,
        c.(clinicalSignificance := ClinicalDetail(c)),
        Recommendations(m.detail, c),
        Some(MechanismDetail(c))))
  }

  /** The per-mutation outcomes, one per mutation, in order. */
  function Outcomes(ms: seq<Mutation>): (os: seq<Result<Record>>)
    ensures |os| == |ms|
  {
    if |ms| == 0 then [] else Outcomes(ms[..|ms| - 1]) + [Analyze(ms[|ms| - 1])]
  }

  /** Entry `k` of the outcomes is the outcome of mutation `k`. */
  lemma {:induction false} OutcomesAt(ms: seq<Mutation>, k: nat)
    requires k < |ms|
    ensures Outcomes(ms)[k] == Analyze(ms[k])
  {
    var init := ms[..|ms| - 1];
    var os := Outcomes(init);
    assert Outcomes(ms) == os + [Analyze(ms[|ms| - 1])];
    if k < |ms| - 1 {
      OutcomesAt(init, k);
      assert init[k] == ms[k];
    }
  }

  /** The list of successful outcomes, or the first failure. */
  function Collect(os: seq<Result<Record>>): Result<seq<Record>>
  {
    if |os| == 0 then Success([])
    else
      match Collect(os[..|os| - 1])
      case Failure(e) => Failure(e)
      case Success(rs) =>
        match os[|os| - 1]
        case Failure(e) => Failure(e)
        case Success(r) => Success(rs + [r])
  }

  /** `analyze_mutations` as a value: the first failure in input order
      propagates. */
  function AnalyzeAll(ms: seq<Mutation>): Result<seq<Record>>
  {
    Collect(Outcomes(ms))
  }

  /** One iteration of the loop of `analyze_mutations`. */
  method AnalyzeOne(m: Mutation) returns (r: Result<Record>)
    ensures r == Analyze(m)
  {
    var classification := Classify(m.mtype, m.detail);
    if classification.Failure? {
      return Failure(classification.error);
    }
    var c := classification.value;
    var recs := GenerateDrugRecommendations(m.detail, c);
    return Success(Record(m, c.(clinicalSignificance := ClinicalDetail(c)), recs, Some(MechanismDetail(c))));
  }

  /** The loop of `analyze_mutations`, given the outcomes `os` its steps
      produce: the first failure, or every record in order. */
  method CollectAnalyses(ms: seq<Mutation>, ghost os: seq<Result<Record>>) returns (result: Result<seq<Record>>)
    requires |os| == |ms|
    requires forall i :: 0 <= i < |ms| ==> os[i] == Analyze(ms[i])
    ensures result == Collect(os)
  {
    var results: seq<Record> := [];
    var k := 0;
    while k < |ms|
      invariant 0 <= k <= |ms|
      invariant Collect(os[..k]) == Success(results)
    {
      var r := AnalyzeOne(ms[k]);
      CollectStep(os, k, results);
      if r.Failure? {
        return Failure(r.error);
      }
      results := results + [r.value];
      k := k + 1;
    }
    CollectAll(os, results);
    return Success(results);
  }

  /** `analyze_mutations`: one result appended per mutation, in order; an
      amplification detail that is not an integer aborts the whole call. */
  method AnalyzeMutations(ms: seq<Mutation>) returns (result: Result<seq<Record>>)
    ensures result == AnalyzeAll(ms)
  {
    ghost var os := Outcomes(ms);
    forall i | 0 <= i < |ms|
      ensures os[i] == Analyze(ms[i])
    {
      OutcomesAt(ms, i);
    }
    result := CollectAnalyses(ms, os);
  }

  /** One more outcome after a successful prefix: its failure is the whole
      list's failure, and its record extends the prefix's list. */
  lemma CollectStep(os: seq<Result<Record>>, k: nat, results: seq<Record>)
    requires k < |os| && Collect(os[..k]) == Success(results)
    ensures os[k].Failure? ==> Collect(os) == Failure(os[k].error)
    ensures os[k].Success? ==> Collect(os[..k + 1]) == Success(results + [os[k].value])
  {
    assert os[..k + 1][..k] == os[..k];
    if os[k].Failure? {
      FailureSticks(os, k + 1);
    }
  }

  lemma CollectAll(os: seq<Result<Record>>, results: seq<Record>)
    requires Collect(os[..|os|]) == Success(results)
    ensures Collect(os) == Success(results)
  {
    assert os[..|os|] == os;
  }

  /** Once a prefix fails, the whole list fails with the same error. */
  lemma {:induction false} FailureSticks(os: seq<Result<Record>>, k: nat)
    requires k <= |os| && Collect(os[..k]).Failure?
    ensures Collect(os) == Collect(os[..k])
    decreases |os| - k
  {
    if k < |os| {
      assert os[..k + 1][..k] == os[..k];
      FailureSticks(os, k + 1);
    } else {
      assert os[..k] == os;
    }
  }
}
