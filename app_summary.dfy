/** The app's results page: the four summary metrics, the risk colour of each
    mutation card, the treatment summary that tallies every recommendation
    per drug, and the app's own pathway diagram. */
module AppSummary {
  import opened Wrappers
  import opened Records
  import opened Pathways
  import AppEngine
  import AppEngineFacts
  import AppSession
  import DrugTally

  // ---------------------------------------------------------------------
  // Metrics and risk levels
  // ---------------------------------------------------------------------

  /** The sum of the resistance scores, in hundredths. */
  function ScoreSum(rs: seq<Record>): int
  {
    if |rs| == 0 then 0 else ScoreSum(rs[..|rs| - 1]) + rs[|rs| - 1].analysis.score
  }

  /** Scores within `[lo, hi]` sum to within `[lo * n, hi * n]`. */
  lemma {:induction false} ScoreSumBounds(rs: seq<Record>, lo: int, hi: int)
    requires forall i :: 0 <= i < |rs| ==> lo <= rs[i].analysis.score <= hi
    ensures lo * |rs| <= ScoreSum(rs) <= hi * |rs|
  {
    if |rs| > 0 {
      ScoreSumBounds(rs[..|rs| - 1], lo, hi);
    }
  }

  datatype Risk = HighRisk | MediumRisk | LowRisk

  /** "Overall Risk": High when the mean score is above 0.6, Medium when it
      is above 0.3, Low otherwise. The mean `sum / n` is compared as
      `sum > threshold * n`, exactly; the app's float mean can fall the other
      way at a mean of exactly 0.3 or 0.6. The page is only shown with at
      least one result. */
  function OverallRisk(rs: seq<Record>): Risk
    requires |rs| > 0
  {
    var n := |rs|;
    if ScoreSum(rs) > 60 * n then HighRisk
    else if ScoreSum(rs) > 30 * n then MediumRisk
    else LowRisk
  }

  /** The overall level agrees with the individual scores when they all
      fall in the same band. */
  lemma OverallRiskOfUniformScores(rs: seq<Record>)
    requires |rs| > 0
    ensures (forall i :: 0 <= i < |rs| ==> rs[i].analysis.score > 60) ==> OverallRisk(rs) == HighRisk
    ensures (forall i :: 0 <= i < |rs| ==> 30 < rs[i].analysis.score <= 60) ==> OverallRisk(rs) == MediumRisk
    ensures (forall i :: 0 <= i < |rs| ==> rs[i].analysis.score <= 30) ==> OverallRisk(rs) == LowRisk
  {
    if forall i :: 0 <= i < |rs| ==> rs[i].analysis.score > 60 {
      ScoreSumBounds(rs, 61, MaxScore(rs));
    }
    if forall i :: 0 <= i < |rs| ==> 30 < rs[i].analysis.score <= 60 {
      ScoreSumBounds(rs, 31, 60);
    }
    if forall i :: 0 <= i < |rs| ==> rs[i].analysis.score <= 30 {
      ScoreSumBounds(rs, MinScore(rs), 30);
    }
  }

  /** The largest score of a non-empty list. */
  function MaxScore(rs: seq<Record>): (m: int)
    requires |rs| > 0
    ensures forall i :: 0 <= i < |rs| ==> rs[i].analysis.score <= m
  {
    if |rs| == 1 then rs[0].analysis.score
    else
      var m := MaxScore(rs[..|rs| - 1]);
      assert forall i :: 0 <= i < |rs| - 1 ==> rs[..|rs| - 1][i] == rs[i];
      if rs[|rs| - 1].analysis.score > m then rs[|rs| - 1].analysis.score else m
  }

  /** The smallest score of a non-empty list. */
  function MinScore(rs: seq<Record>): (m: int)
    requires |rs| > 0
    ensures forall i :: 0 <= i < |rs| ==> m <= rs[i].analysis.score
  {
    if |rs| == 1 then rs[0].analysis.score
    else
      var m := MinScore(rs[..|rs| - 1]);
      assert forall i :: 0 <= i < |rs| - 1 ==> rs[..|rs| - 1][i] == rs[i];
      if rs[|rs| - 1].analysis.score < m then rs[|rs| - 1].analysis.score else m
  }

  /** The colour of one mutation card: red above 0.7, amber above 0.4,
      green otherwise (the resistance chart's bars use the same bands). */
  function CardRisk(score: int): Risk
  {
    if score > 70 then HighRisk else if score > 40 then MediumRisk else LowRisk
  }

  /** The number of cards of one colour. */
  function CardCount(rs: seq<Record>, level: Risk): nat
  {
    if |rs| == 0 then 0
    else CardCount(rs[..|rs| - 1], level) + (if CardRisk(rs[|rs| - 1].analysis.score) == level then 1 else 0)
  }

  /** The red cards are exactly the "High Resistance Cases" metric, and the
      three colours together account for every result. */
  lemma {:induction false} CardCounts(rs: seq<Record>)
    ensures CardCount(rs, HighRisk) == HighResistanceCount(rs)
    ensures CardCount(rs, HighRisk) + CardCount(rs, MediumRisk) + CardCount(rs, LowRisk) == |rs|
  {
    if |rs| > 0 {
      CardCounts(rs[..|rs| - 1]);
    }
  }

  // ---------------------------------------------------------------------
  // Treatment recommendations summary
  // ---------------------------------------------------------------------

  /** The loop that extends `all_drugs` with each result's recommendations. */
  method CollectRecommendations(rs: seq<Record>) returns (all: seq<Recommendation>)
    ensures all == AllRecommendations(rs)
    ensures |all| == RecommendationCount(rs)
  {
    all := [];
    var k := 0;
    while k < |rs|
      invariant 0 <= k <= |rs|
      invariant all == AllRecommendations(rs[..k])
    {
      all := all + rs[k].recommendations;
      assert rs[..k + 1][..k] == rs[..k];
      k := k + 1;
    }
    assert rs[..k] == rs;
    AllRecommendationsLength(rs);
  }

  /** The recommendations of results the engine produced are all rated, so
      the tally never meets "None". */
  lemma {:induction false} SessionRecommendationsRated(ms: seq<Mutation>)
    ensures DrugTally.AllRated(DrugTally.Entries(AllRecommendations(AppSession.AnalysesOf(ms))))
  {
    var rs := AppSession.AnalysesOf(ms);
    forall i | 0 <= i < |rs| ensures RecommendationsRated(rs[i].recommendations) {
      AppEngineFacts.RecommendationsUniform(ms[i].detail, rs[i].analysis);
    }
    AllRatedFlatten(rs);
  }

  predicate RecommendationsRated(recs: seq<Recommendation>)
  {
    forall k :: 0 <= k < |recs| ==> recs[k].efficacy != Unrated
  }

  lemma {:induction false} AllRatedFlatten(rs: seq<Record>)
    requires forall i :: 0 <= i < |rs| ==> RecommendationsRated(rs[i].recommendations)
    ensures RecommendationsRated(AllRecommendations(rs))
  {
    if |rs| > 0 {
      AllRatedFlatten(rs[..|rs| - 1]);
    }
  }

  /** The "Acquired Resistance Case" (L858R then T790M): mean score 0.55,
      hence Medium overall risk; one high-resistance case (T790M, 0.8); and
      no drug rated High for either mutation. */
  lemma AcquiredResistanceSummary()
    ensures var rs := AppSession.AnalysesOf(AppSession.ExampleCases["\U{1F7E1} Acquired Resistance Case"]);
      && |rs| == 2
      && rs[0].analysis.score == 30 && rs[1].analysis.score == 80
      && ScoreSum(rs) == 110
      && OverallRisk(rs) == MediumRisk
      && HighResistanceCount(rs) == 1
      && forall i, j :: 0 <= i < 2 && 0 <= j < |rs[i].recommendations| ==> rs[i].recommendations[j].efficacy != High
  {
    AcquiredResistanceEntries();
    var a := Mutation("Point Mutation", "L858R", "Exon 21");
    var b := Mutation("Point Mutation", "T790M", "Exon 20");
    AnalysesOfPair(a, b);
    AcquiredResistanceRecords(AppEngine.Analysis(a), AppEngine.Analysis(b));
    NoHighInPair(AppEngine.Analysis(a), AppEngine.Analysis(b));
  }

  lemma AcquiredResistanceEntries()
    ensures AppSession.ExampleCases["\U{1F7E1} Acquired Resistance Case"]
            == [Mutation("Point Mutation", "L858R", "Exon 21"), Mutation("Point Mutation", "T790M", "Exon 20")]
  {
  }

  lemma AcquiredResistanceRecords(r0: Record, r1: Record)
    requires r0 == AppEngine.Analysis(Mutation("Point Mutation", "L858R", "Exon 21"))
    requires r1 == AppEngine.Analysis(Mutation("Point Mutation", "T790M", "Exon 20"))
    ensures r0.analysis.score == 30 && r1.analysis.score == 80
    ensures ScoreSum([r0, r1]) == 110 && OverallRisk([r0, r1]) == MediumRisk
    ensures HighResistanceCount([r0, r1]) == 1
    ensures forall j :: 0 <= j < |r0.recommendations| ==> r0.recommendations[j].efficacy != High
    ensures forall j :: 0 <= j < |r1.recommendations| ==> r1.recommendations[j].efficacy != High
  {
    AppEngineFacts.KnownScores("Point Mutation");
    PairSummary(r0, r1);
    NoHighFor("L858R", "Point Mutation");
    NoHighFor("T790M", "Point Mutation");
  }

  lemma AnalysesOfPair(a: Mutation, b: Mutation)
    ensures AppSession.AnalysesOf([a, b]) == [AppEngine.Analysis(a), AppEngine.Analysis(b)]
  {
    var ms := [a, b];
    var rs := AppSession.AnalysesOf(ms);
    assert ms[0] == a && ms[1] == b;
    PairOf(rs, AppEngine.Analysis(a), AppEngine.Analysis(b));
  }

  lemma NoHighInPair(r0: Record, r1: Record)
    requires forall j :: 0 <= j < |r0.recommendations| ==> r0.recommendations[j].efficacy != High
    requires forall j :: 0 <= j < |r1.recommendations| ==> r1.recommendations[j].efficacy != High
    ensures var rs := [r0, r1];
      forall i, j :: 0 <= i < 2 && 0 <= j < |rs[i].recommendations| ==> rs[i].recommendations[j].efficacy != High
  {
  }

  lemma PairOf<T>(s: seq<T>, x: T, y: T)
    requires |s| == 2 && s[0] == x && s[1] == y
    ensures s == [x, y]
  {
  }

  lemma PairSummary(r0: Record, r1: Record)
    requires r0.analysis.score == 30 && r1.analysis.score == 80
    ensures ScoreSum([r0, r1]) == 110 && OverallRisk([r0, r1]) == MediumRisk
    ensures HighResistanceCount([r0, r1]) == 1
  {
    assert [r0, r1][..1] == [r0];
    assert [r0][..0] == [];
    assert ScoreSum([r0]) == 30;
    assert HighResistanceCount([r0]) == 0;
  }

  /** No drug is rated High for L858R or T790M, whatever their type. */
  lemma NoHighFor(detail: string, mtype: string)
    requires detail in {"L858R", "T790M"}
    ensures var recs := AppEngine.Recommendations(detail, AppEngine.Classify(mtype, detail));
      forall j :: 0 <= j < |recs| ==> recs[j].efficacy != High
  {
    var recs := AppEngine.Recommendations(detail, AppEngine.Classify(mtype, detail));
    var es := Efficacies(recs);
    if detail == "L858R" {
      AppEngineFacts.L858ROutcome(mtype);
    } else {
      AppEngineFacts.T790MOutcome(mtype);
    }
    assert High !in es;
    assert forall j :: 0 <= j < |recs| ==> recs[j].efficacy == es[j];
  }

  // ---------------------------------------------------------------------
  // The app's pathway diagram
  // ---------------------------------------------------------------------

  /** The nodes of `create_pathway_visualization`, in declaration order. */
  const AppNodes: seq<Node> := [
    Node("EGFR", 40), Node("RAS", 30), Node("RAF", 25), Node("MEK", 25), Node("ERK", 25),
    Node("PI3K", 30), Node("AKT", 25), Node("mTOR", 25), Node("JAK", 25), Node("STAT", 25),
    Node("Proliferation", 35), Node("Survival", 35)]

  /** The diagram's nodes: highlighted by the results' pathways, and 15
      larger when highlighted. */
  method PathwayMarks(rs: seq<Record>) returns (marks: seq<Mark>)
    ensures |marks| == |AppNodes|
    ensures forall i :: 0 <= i < |AppNodes| ==>
      && marks[i].name == NodeNames[i]
      && (marks[i].highlighted <==> Highlighted(NodeNames[i], AffectedSet(rs)))
      && marks[i].size == AppNodes[i].size + (if marks[i].highlighted then 15 else 0)
  {
    var affected := AffectedPathways(rs);
    assert affected == AffectedSet(rs) by {
      forall p ensures p in affected <==> p in AffectedSet(rs) {
        AffectedSetMembers(rs, p);
      }
    }
    marks := MarkNodes(AppNodes, affected, 15);
  }
}
