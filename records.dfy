/** The records both engines produce and the presentation code consumes:
    a mutation descriptor, its classification, its drug recommendations and
    the analysis record that holds them together. Resistance scores are
    whole numbers of hundredths (0.3 is 30). Fields that only one engine
    fills in are `Option`s, as the Python dictionaries simply lack the key. */
module Records {
  import opened Wrappers

  /** A mutation as entered: its type ("Point Mutation", "Amplification", ...,
      any string), its detail ("L858R", a copy number, ...) and its exon. */
  datatype Mutation = Mutation(mtype: string, detail: string, exon: string)

  /** The classification's 'type' field. */
  datatype Kind = Activating | Resistance | Amplification | Structural | Unknown

  datatype Classification = Classification(
    kind: Kind,
    mechanism: string,
    pathwayImpact: string,
    resistanceProfile: string,
    clinicalSignificance: string,
    affectedPathways: seq<string>,
    score: int,                 // resistance score in hundredths
    frequency: Option<int>)     // population frequency in hundredths (app.py only)

  /** A drug's efficacy; `Unrated` is the string "None" the generators filter out. */
  datatype Efficacy = High | Medium | Low | Unrated

  /** The efficacy as the text the records carry. */
  function EfficacyName(e: Efficacy): string
  {
    match e
    case High => "High"
    case Medium => "Medium"
    case Low => "Low"
    case Unrated => "None"
  }

  /** The order High > Medium > Low > "None", which the heatmap also uses as
      its cell code (3, 2, 1, 0). */
  function Strength(e: Efficacy): nat
  {
    match e
    case High => 3
    case Medium => 2
    case Low => 1
    case Unrated => 0
  }

  datatype Recommendation = Recommendation(
    name: string,
    drugClass: string,
    efficacy: Efficacy,
    mechanism: Option<string>,  // the drug class's mechanism (app.py only)
    rationale: string)

  /** The efficacies of a recommendation list, in order. */
  function Efficacies(recs: seq<Recommendation>): (es: seq<Efficacy>)
    ensures |es| == |recs|
    ensures forall k :: 0 <= k < |recs| ==> es[k] == recs[k].efficacy
  {
    seq(|recs|, k requires 0 <= k < |recs| => recs[k].efficacy)
  }

  /** One analysed mutation: `{'mutation': ..., 'analysis': {...}}`. */
  datatype Record = Record(
    mutation: Mutation,
    analysis: Classification,
    recommendations: seq<Recommendation>,
    detailedMechanism: Option<string>)  // logic.py only

  // ---------------------------------------------------------------------
  // Reductions over a list of records, shared by the app's summary and the
  // PDF report.
  // ---------------------------------------------------------------------

  /** Every record's recommendations, record by record, in order. */
  function AllRecommendations(rs: seq<Record>): seq<Recommendation>
  {
    if |rs| == 0 then [] else AllRecommendations(rs[..|rs| - 1]) + rs[|rs| - 1].recommendations
  }

  /** The number of recommendations over all records. */
  function RecommendationCount(rs: seq<Record>): nat
  {
    if |rs| == 0 then 0 else RecommendationCount(rs[..|rs| - 1]) + |rs[|rs| - 1].recommendations|
  }

  lemma {:induction false} AllRecommendationsLength(rs: seq<Record>)
    ensures |AllRecommendations(rs)| == RecommendationCount(rs)
  {
    if |rs| > 0 {
      AllRecommendationsLength(rs[..|rs| - 1]);
    }
  }

  /** The recommendations of the first `i` records come first, in order. */
  lemma {:induction false} AllRecommendationsPrefix(rs: seq<Record>, i: nat)
    requires i <= |rs|
    ensures AllRecommendations(rs[..i]) <= AllRecommendations(rs)
  {
    if i < |rs| {
      assert rs[..|rs| - 1][..i] == rs[..i];
      AllRecommendationsPrefix(rs[..|rs| - 1], i);
    } else {
      assert rs[..i] == rs;
    }
  }

  /** Recommendation `j` of record `i` sits right after the recommendations
      of the records before `i`: ordered by record, then by recommendation. */
  lemma AllRecommendationsAt(rs: seq<Record>, i: nat, j: nat)
    requires i < |rs| && j < |rs[i].recommendations|
    ensures RecommendationCount(rs[..i]) + j < |AllRecommendations(rs)|
    ensures AllRecommendations(rs)[RecommendationCount(rs[..i]) + j] == rs[i].recommendations[j]
  {
    AllRecommendationsLength(rs[..i]);
    AllRecommendationsPrefix(rs, i + 1);
    assert rs[..i + 1][..i] == rs[..i];
  }

  /** The number of records whose resistance score is strictly above 0.7. */
  function HighResistanceCount(rs: seq<Record>): nat
  {
    if |rs| == 0 then 0
    else HighResistanceCount(rs[..|rs| - 1]) + (if rs[|rs| - 1].analysis.score > 70 then 1 else 0)
  }

  /** Counting over two lists of records adds up. */
  lemma {:induction false} HighResistanceCountAppend(a: seq<Record>, b: seq<Record>)
    ensures HighResistanceCount(a + b) == HighResistanceCount(a) + HighResistanceCount(b)
  {
    if |b| > 0 {
      assert (a + b)[..|a + b| - 1] == a + b[..|b| - 1];
      HighResistanceCountAppend(a, b[..|b| - 1]);
    } else {
      assert a + b == a;
    }
  }

  /** The count is at most the number of records, it is zero exactly when no
      score is above 0.7, and it is the number of records exactly when every
      score is. */
  lemma {:induction false} HighResistanceCountRange(rs: seq<Record>)
    ensures HighResistanceCount(rs) <= |rs|
    ensures HighResistanceCount(rs) == 0 <==> forall i :: 0 <= i < |rs| ==> rs[i].analysis.score <= 70
    ensures HighResistanceCount(rs) == |rs| <==> forall i :: 0 <= i < |rs| ==> rs[i].analysis.score > 70
  {
    if |rs| > 0 {
      var init := rs[..|rs| - 1];
      HighResistanceCountRange(init);
      assert forall i :: 0 <= i < |init| ==> init[i] == rs[i];
    }
  }
}
