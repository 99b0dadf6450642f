/** The pathway diagram's data, shared by the app's own diagram and the
    visualizer's: the set of affected pathways over all results, and the
    rule that highlights a signalling node when an affected pathway name and
    the node name occur one inside the other. The two diagrams differ only
    in their node sizes and in how much a highlighted node grows. */
module Pathways {
  import opened Text
  import opened Records

  /** A node of the signalling diagram: its name and its marker size. */
  datatype Node = Node(name: string, size: int)

  /** A drawn node: whether it is highlighted and the size it is drawn at. */
  datatype Mark = Mark(name: string, highlighted: bool, size: int)

  /** The twelve node names both diagrams draw, in declaration order. */
  const NodeNames: seq<string> := [
    "EGFR", "RAS", "RAF", "MEK", "ERK", "PI3K", "AKT", "mTOR", "JAK", "STAT",
    "Proliferation", "Survival"]

  /** The elements of a list, as `set.update` adds them. */
  function ListSet(xs: seq<string>): (s: set<string>)
    ensures forall p :: p in s <==> p in xs
  {
    set i | 0 <= i < |xs| :: xs[i]
  }

  /** The union of the results' `affected_pathways` lists. */
  function AffectedSet(rs: seq<Record>): set<string>
  {
    if |rs| == 0 then {}
    else AffectedSet(rs[..|rs| - 1]) + ListSet(rs[|rs| - 1].analysis.affectedPathways)
  }

  /** A pathway is in the union exactly when some result lists it. */
  lemma {:induction false} AffectedSetMembers(rs: seq<Record>, p: string)
    ensures p in AffectedSet(rs) <==> exists i :: 0 <= i < |rs| && p in rs[i].analysis.affectedPathways
  {
    if |rs| > 0 {
      var init := rs[..|rs| - 1];
      AffectedSetMembers(init, p);
      assert forall i :: 0 <= i < |init| ==> init[i] == rs[i];
    }
  }

  /** The loop that grows `affected_pathways` with `set.update`, one result
      at a time. */
  method AffectedPathways(rs: seq<Record>) returns (affected: set<string>)
    ensures forall p :: p in affected <==> exists i :: 0 <= i < |rs| && p in rs[i].analysis.affectedPathways
  {
    affected := {};
    var k := 0;
    while k < |rs|
      invariant 0 <= k <= |rs|
      invariant affected == AffectedSet(rs[..k])
    {
      affected := affected + ListSet(rs[k].analysis.affectedPathways);
      assert rs[..k + 1][..k] == rs[..k];
      k := k + 1;
    }
    assert rs[..k] == rs;
    forall p ensures p in affected <==> exists i :: 0 <= i < |rs| && p in rs[i].analysis.affectedPathways {
      AffectedSetMembers(rs, p);
    }
  }

  /** `any(pathway in node_name or node_name in pathway for pathway in affected)`. */
  predicate Highlighted(node: string, affected: set<string>)
  {
    exists p :: p in affected && (Contains(p, node) || Contains(node, p))
  }

  /** The node loop of the diagram: each node keeps its name and is drawn
      `boost` larger exactly when it is highlighted. */
  method MarkNodes(nodes: seq<Node>, affected: set<string>, boost: int) returns (marks: seq<Mark>)
    ensures |marks| == |nodes|
    ensures forall i :: 0 <= i < |nodes| ==>
      && marks[i].name == nodes[i].name
      && (marks[i].highlighted <==> Highlighted(nodes[i].name, affected))
      && marks[i].size == (if marks[i].highlighted then nodes[i].size + boost else nodes[i].size)
  {
    marks := [];
    var k := 0;
    while k < |nodes|
      invariant 0 <= k <= |nodes|
      invariant |marks| == k
      invariant forall i :: 0 <= i < k ==>
        && marks[i].name == nodes[i].name
        && (marks[i].highlighted <==> Highlighted(nodes[i].name, affected))
        && marks[i].size == (if marks[i].highlighted then nodes[i].size + boost else nodes[i].size)
    {
      var node := nodes[k];
      var isAffected := Highlighted(node.name, affected);
      var size := if isAffected then node.size + boost else node.size;
      marks := marks + [Mark(node.name, isAffected, size)];
      k := k + 1;
    }
  }

  /** More affected pathways never switch a highlight off. */
  lemma HighlightMonotone(node: string, affected: set<string>, more: set<string>)
    requires affected <= more
    ensures Highlighted(node, affected) ==> Highlighted(node, more)
  {
  }

  /** A pathway name equal to the node name always highlights it. */
  lemma {:induction false} HighlightSelf(node: string, affected: set<string>)
    requires node in affected
    ensures Highlighted(node, affected)
  {
    ContainsAt(node, node, 0);
  }

  /** With the pathways of L858R, T790M, Del19 and "Exon 20 ins" affected,
      exactly ERK, PI3K and AKT are highlighted; MEK is not, although its
      letters all occur in "MAPK/ERK". */
  lemma StandardPathwaysHighlight()
    ensures forall k :: 0 <= k < |NodeNames| ==>
      (Highlighted(NodeNames[k], {"MAPK/ERK", "PI3K/AKT"}) <==> NodeNames[k] in {"ERK", "PI3K", "AKT"})
  {
    forall k | 0 <= k < |NodeNames|
      ensures Highlighted(NodeNames[k], {"MAPK/ERK", "PI3K/AKT"}) <==> NodeNames[k] in {"ERK", "PI3K", "AKT"}
    {
      StandardPathwaysHighlightNode(NodeNames[k]);
    }
  }

  /** Highlighting against two pathways, spelled out. */
  lemma HighlightedByPair(node: string, a: string, b: string)
    ensures Highlighted(node, {a, b})
            <==> Contains(a, node) || Contains(node, a) || Contains(b, node) || Contains(node, b)
  {
    if Contains(a, node) || Contains(node, a) {
      assert a in {a, b};
    } else if Contains(b, node) || Contains(node, b) {
      assert b in {a, b};
    }
  }

  lemma StandardPathwaysHighlightNode(node: string)
    requires node in NodeNames
    ensures Highlighted(node, {"MAPK/ERK", "PI3K/AKT"}) <==> node in {"ERK", "PI3K", "AKT"}
  {
    var m, p := "MAPK/ERK", "PI3K/AKT";
    HighlightedByPair(node, m, p);
    if node in {"ERK", "PI3K", "AKT"} {
      if node == "ERK" {
        ContainsAt(node, m, 5);
      } else if node == "PI3K" {
        ContainsAt(node, p, 0);
      } else {
        ContainsAt(node, p, 5);
      }
    } else {
      ShorterNodesMissStandardPathways(node);
    }
  }

  lemma ShorterNodesMissStandardPathways(node: string)
    requires node in NodeNames && node !in {"ERK", "PI3K", "AKT"}
    ensures !Contains("MAPK/ERK", node) && !Contains(node, "MAPK/ERK")
    ensures !Contains("PI3K/AKT", node) && !Contains(node, "PI3K/AKT")
  {
    var m, p := "MAPK/ERK", "PI3K/AKT";
    if node == "Proliferation" {
      NotContainsChar(m, node, 0); NotContainsChar(p, node, 1);
    } else if node == "Survival" {
      NotContainsChar(node, m, 0); NotContainsChar(node, p, 0);
      NotContainsChar(m, node, 0); NotContainsChar(p, node, 0);
    } else {
      assert |node| < |m| && |node| < |p|;
      NotContainsLonger(m, node);
      NotContainsLonger(p, node);
      if node == "MEK" {
        NotContainsChar(node, "MAPK", 1); NotContainsChar(node, "ERK", 0);
        NotContainsSplit(node, "MAPK", '/', "ERK");
        assert "MAPK" + ['/'] + "ERK" == m;
        NotContainsChar(node, p, 0);
      } else {
        ShortNodesMissStandardPathways(node);
      }
    }
  }

  lemma ShortNodesMissStandardPathways(node: string)
    requires node in {"EGFR", "RAS", "RAF", "mTOR", "JAK", "STAT"}
    ensures !Contains(node, "MAPK/ERK") && !Contains(node, "PI3K/AKT")
  {
    var m, p := "MAPK/ERK", "PI3K/AKT";
    if node == "EGFR" {
      NotContainsChar(node, m, 1); NotContainsChar(node, p, 0);
    } else if node == "RAS" {
      NotContainsChar(node, m, 2); NotContainsChar(node, p, 0);
    } else if node == "RAF" {
      NotContainsChar(node, m, 2); NotContainsChar(node, p, 2);
    } else {
      NotContainsChar(node, m, 0); NotContainsChar(node, p, 0);
    }
  }

  /** The pathway "Unknown" of an unclassified mutation highlights nothing. */
  lemma {:induction false} UnknownHighlightsNothing()
    ensures forall k :: 0 <= k < |NodeNames| ==> !Highlighted(NodeNames[k], {"Unknown"})
  {
    var u := "Unknown";
    NotContainsChar("EGFR", u, 0);
    NotContainsChar("RAS", u, 0);
    NotContainsChar("RAF", u, 0);
    NotContainsChar("MEK", u, 0);
    NotContainsChar("ERK", u, 0);
    NotContainsChar("PI3K", u, 0);
    NotContainsChar("AKT", u, 0);
    NotContainsChar("mTOR", u, 0);
    NotContainsChar("JAK", u, 0);
    NotContainsChar("STAT", u, 0);
    NotContainsChar(u, "Proliferation", 0);
    NotContainsChar(u, "Survival", 0);
  }
}
