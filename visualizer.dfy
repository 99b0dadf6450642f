/** `PathwayVisualizer`: the data behind its three figures. The pathway
    diagram highlights the nodes that the results' affected pathways touch
    and draws them 10 larger; the mutation landscape plots each result's
    score against its position; the efficacy heatmap has one row per result
    and one column per distinct recommended drug, each cell holding the
    code of that drug's efficacy for that result. */
module Visualizer {
  import opened Wrappers
  import opened Records
  import opened Pathways

  // ---------------------------------------------------------------------
  // Pathway diagram
  // ---------------------------------------------------------------------

  /** `_define_pathway_nodes`: the twelve nodes and their base sizes. */
  const VisualizerNodes: seq<Node> := [
    Node("EGFR", 30), Node("RAS", 25), Node("RAF", 20), Node("MEK", 20), Node("ERK", 20),
    Node("PI3K", 25), Node("AKT", 20), Node("mTOR", 20), Node("JAK", 20), Node("STAT", 20),
    Node("Proliferation", 25), Node("Survival", 25)]

  /** `create_pathway_diagram`: the union of the affected pathways, then one
      mark per node, highlighted by the substring rule and 10 larger when
      highlighted. */
  method PathwayDiagram(rs: seq<Record>) returns (marks: seq<Mark>)
    ensures |marks| == |VisualizerNodes|
    ensures forall i :: 0 <= i < |VisualizerNodes| ==>
      && marks[i].name == NodeNames[i]
      && (marks[i].highlighted <==> Highlighted(NodeNames[i], AffectedSet(rs)))
      && marks[i].size == VisualizerNodes[i].size + (if marks[i].highlighted then 10 else 0)
  {
    var affected := AffectedPathways(rs);
    assert affected == AffectedSet(rs) by {
      forall p ensures p in affected <==> p in AffectedSet(rs) {
        AffectedSetMembers(rs, p);
      }
    }
    marks := MarkNodes(VisualizerNodes, affected, 10);
  }

  // ---------------------------------------------------------------------
  // Mutation landscape
  // ---------------------------------------------------------------------

  /** `create_mutation_landscape`: the loop that fills the label, score and
      type lists, and the x values `range(len(mutations))`. */
  method Landscape(rs: seq<Record>) returns (xs: seq<int>, ys: seq<int>, labels: seq<string>, types: seq<string>)
    ensures |xs| == |rs| && |ys| == |rs| && |labels| == |rs| && |types| == |rs|
    ensures forall i :: 0 <= i < |rs| ==>
      && xs[i] == i
      && ys[i] == rs[i].analysis.score
      && labels[i] == rs[i].mutation.detail
      && types[i] == rs[i].mutation.mtype
  {
    labels, ys, types := [], [], [];
    var k := 0;
    while k < |rs|
      invariant 0 <= k <= |rs|
      invariant |labels| == k && |ys| == k && |types| == k
      invariant forall i :: 0 <= i < k ==>
        && ys[i] == rs[i].analysis.score
        && labels[i] == rs[i].mutation.detail
        && types[i] == rs[i].mutation.mtype
    {
      labels := labels + [rs[k].mutation.detail];
      ys := ys + [rs[k].analysis.score];
      types := types + [rs[k].mutation.mtype];
      k := k + 1;
    }
    xs := [];
    var x := 0;
    while x < |labels|
      invariant 0 <= x <= |labels|
      invariant |xs| == x
      invariant forall i :: 0 <= i < x ==> xs[i] == i
    {
      xs := xs + [x];
      x := x + 1;
    }
  }

  // ---------------------------------------------------------------------
  // Efficacy heatmap
  // ---------------------------------------------------------------------

  /** The names of one result's recommendations, as a set. */
  function RecommendedNames(recs: seq<Recommendation>): set<string>
  {
    set j | 0 <= j < |recs| :: recs[j].name
  }

  /** `all_drugs`: every recommended name over all results. */
  function DrugNameSet(rs: seq<Record>): set<string>
  {
    if |rs| == 0 then {}
    else DrugNameSet(rs[..|rs| - 1]) + RecommendedNames(rs[|rs| - 1].recommendations)
  }

  /** A drug is a column exactly when some result recommends it. */
  lemma {:induction false} DrugNameSetMembers(rs: seq<Record>, d: string)
    ensures d in DrugNameSet(rs) <==>
      exists i, j :: 0 <= i < |rs| && 0 <= j < |rs[i].recommendations| && rs[i].recommendations[j].name == d
  {
    if |rs| > 0 {
      var init := rs[..|rs| - 1];
      DrugNameSetMembers(init, d);
      assert forall i :: 0 <= i < |init| ==> init[i] == rs[i];
    }
  }

  /** The first loop of `create_drug_efficacy_heatmap`: the row labels and
      the set of drug names, grown one recommendation at a time. */
  method CollectDrugNames(rs: seq<Record>) returns (all: set<string>, mutations: seq<string>)
    ensures all == DrugNameSet(rs)
    ensures |mutations| == |rs| && forall i :: 0 <= i < |rs| ==> mutations[i] == rs[i].mutation.detail
  {
    all, mutations := {}, [];
    var k := 0;
    while k < |rs|
      invariant 0 <= k <= |rs|
      invariant all == DrugNameSet(rs[..k])
      invariant |mutations| == k && forall i :: 0 <= i < k ==> mutations[i] == rs[i].mutation.detail
    {
      mutations := mutations + [rs[k].mutation.detail];
      var recs := rs[k].recommendations;
      var j := 0;
      while j < |recs|
        invariant 0 <= j <= |recs|
        invariant all == DrugNameSet(rs[..k]) + RecommendedNames(recs[..j])
      {
        all := all + {recs[j].name};
        assert recs[..j + 1] == recs[..j] + [recs[j]];
        j := j + 1;
      }
      assert recs[..j] == recs;
      assert rs[..k + 1][..k] == rs[..k];
      k := k + 1;
    }
    assert rs[..k] == rs;
  }

  /** `drug_list = list(all_drugs)`: the set's elements, each once, in an
      order the model leaves open. */
  method ListOf(s: set<string>) returns (xs: seq<string>)
    ensures forall d :: d in xs <==> d in s
    ensures forall i, j :: 0 <= i < j < |xs| ==> xs[i] != xs[j]
    ensures |xs| == |s|
  {
    xs := [];
    var rest := s;
    while rest != {}
      invariant forall d :: d in s <==> d in rest || d in xs
      invariant forall d :: d in rest ==> d !in xs
      invariant forall i, j :: 0 <= i < j < |xs| ==> xs[i] != xs[j]
      invariant |xs| + |rest| == |s|
      decreases |rest|
    {
      var d :| d in rest;
      xs := xs + [d];
      rest := rest - {d};
    }
  }

  /** `{rec['name']: rec['efficacy'] for rec in ...}`: a later entry with
      the same name replaces an earlier one. */
  function NameMap(recs: seq<Recommendation>): map<string, Efficacy>
  {
    if |recs| == 0 then map[]
    else NameMap(recs[..|recs| - 1])[recs[|recs| - 1].name := recs[|recs| - 1].efficacy]
  }

  /** The dictionary holds exactly the recommended names, each with the
      efficacy of its last recommendation. */
  lemma {:induction false} NameMapLaterWins(recs: seq<Recommendation>, d: string)
    ensures d in NameMap(recs) <==> exists k :: 0 <= k < |recs| && recs[k].name == d
    ensures d in NameMap(recs) ==> exists k :: (0 <= k < |recs| && recs[k].name == d
      && NameMap(recs)[d] == recs[k].efficacy
      && forall l :: k < l < |recs| ==> recs[l].name != d)
  {
    if |recs| > 0 {
      var init := recs[..|recs| - 1];
      NameMapLaterWins(init, d);
      assert forall k :: 0 <= k < |init| ==> init[k] == recs[k];
      if recs[|recs| - 1].name != d && d in NameMap(recs) {
        var k :| 0 <= k < |init| && init[k].name == d
          && NameMap(init)[d] == init[k].efficacy
          && forall l :: k < l < |init| ==> init[l].name != d;
        assert recs[k].name == d && NameMap(recs)[d] == recs[k].efficacy;
      }
    }
  }

  /** One cell: the efficacy code (High 3, Medium 2, Low 1, anything else
      0) of the drug in the result's dictionary, and 0 when it is absent. */
  function Cell(m: map<string, Efficacy>, drug: string): nat
  {
    if drug in m then Strength(m[drug]) else 0
  }

  /** A cell is 0 for a drug the result does not recommend; otherwise it is
      the code of the drug's last recommendation for that result. It is
      never above 3, and it is positive exactly when the drug is recommended
      with a rated efficacy. */
  lemma CellValue(recs: seq<Recommendation>, d: string)
    ensures (forall k :: 0 <= k < |recs| ==> recs[k].name != d) ==> Cell(NameMap(recs), d) == 0
    ensures forall k :: (0 <= k < |recs| && recs[k].name == d && (forall l :: k < l < |recs| ==> recs[l].name != d)
      ==> Cell(NameMap(recs), d) == Strength(recs[k].efficacy))
    ensures Cell(NameMap(recs), d) <= 3
    ensures Cell(NameMap(recs), d) > 0 <==> d in NameMap(recs) && NameMap(recs)[d] != Unrated
  {
    NameMapLaterWins(recs, d);
    if d in NameMap(recs) {
      var k :| 0 <= k < |recs| && recs[k].name == d
        && NameMap(recs)[d] == recs[k].efficacy
        && forall l :: k < l < |recs| ==> recs[l].name != d;
      forall k' | 0 <= k' < |recs| && recs[k'].name == d && (forall l :: k' < l < |recs| ==> recs[l].name != d)
        ensures k' == k
      {
      }
    }
  }

  /** The inner loop over `drug_list`: one cell per column. */
  method HeatmapRow(m: map<string, Efficacy>, drugList: seq<string>) returns (row: seq<nat>)
    ensures |row| == |drugList|
    ensures forall j :: 0 <= j < |drugList| ==> row[j] == Cell(m, drugList[j])
  {
    row := [];
    var j := 0;
    while j < |drugList|
      invariant 0 <= j <= |drugList|
      invariant |row| == j
      invariant forall i :: 0 <= i < j ==> row[i] == Cell(m, drugList[i])
    {
      var drug := drugList[j];
      if drug in m {
        var efficacy := m[drug];
        if efficacy == High {
          row := row + [3];
        } else if efficacy == Medium {
          row := row + [2];
        } else if efficacy == Low {
          row := row + [1];
        } else {
          row := row + [0];
        }
      } else {
        row := row + [0];
      }
      j := j + 1;
    }
  }

  /** `create_drug_efficacy_heatmap`: the columns are the distinct
      recommended drugs, the rows the results in order, labelled by their
      details, and each cell the code of that result's efficacy for that
      drug. */
  method Heatmap(rs: seq<Record>) returns (drugList: seq<string>, mutations: seq<string>, matrix: seq<seq<nat>>)
    ensures forall d :: d in drugList <==> d in DrugNameSet(rs)
    ensures forall i, j :: 0 <= i < j < |drugList| ==> drugList[i] != drugList[j]
    ensures |mutations| == |rs| && forall i :: 0 <= i < |rs| ==> mutations[i] == rs[i].mutation.detail
    ensures |matrix| == |rs|
    ensures forall i :: 0 <= i < |rs| ==> |matrix[i]| == |drugList|
    ensures forall i, j :: 0 <= i < |rs| && 0 <= j < |drugList| ==>
      matrix[i][j] == Cell(NameMap(rs[i].recommendations), drugList[j])
  {
    var all;
    all, mutations := CollectDrugNames(rs);
    drugList := ListOf(all);
    matrix := [];
    var k := 0;
    while k < |rs|
      invariant 0 <= k <= |rs|
      invariant |matrix| == k
      invariant forall i :: 0 <= i < k ==> |matrix[i]| == |drugList|
      invariant forall i, j :: 0 <= i < k && 0 <= j < |drugList| ==>
        matrix[i][j] == Cell(NameMap(rs[i].recommendations), drugList[j])
    {
      var mutationDrugs := NameMap(rs[k].recommendations);
      var row := HeatmapRow(mutationDrugs, drugList);
      matrix := matrix + [row];
      k := k + 1;
    }
  }

  /** Every column's drug is recommended for some result: no column of the
      matrix is entirely made of absent drugs. */
  lemma ColumnsRecommended(rs: seq<Record>, drugList: seq<string>, j: nat)
    requires forall d :: d in drugList <==> d in DrugNameSet(rs)
    requires j < |drugList|
    ensures exists i :: 0 <= i < |rs| && drugList[j] in NameMap(rs[i].recommendations)
  {
    var d := drugList[j];
    DrugNameSetMembers(rs, d);
    var i, k :| 0 <= i < |rs| && 0 <= k < |rs[i].recommendations| && rs[i].recommendations[k].name == d;
    NameMapLaterWins(rs[i].recommendations, d);
  }
}
