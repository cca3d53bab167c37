/**
 * The value-level logic of interactive_visualization.py: the column
 * relabelling of the scatter matrix, the name and colour of a dose-response
 * curve, the arithmetic of the combined risk gauge, and the node and edge
 * lists of the metal-disease network. Plotting itself is not modelled.
 */
module InteractiveVisualization {
  import opened Common
  import opened Strings

  // ------------------------------------------------------------ colour tables

  /** `METAL_COLORS`, keyed by element symbol. */
  const MetalColors: map<string, string> :=
    map["Pb" := "#4477AA", "As" := "#EE6677", "Cd" := "#228833", "Hg" := "#CCBB44", "Mn" := "#66CCEE"]

  /** The fallback of every `METAL_COLORS.get(..., '#4477AA')`. */
  const DefaultMetalColor: string := "#4477AA"

  /** `METAL_COLORS.get(key, '#4477AA')`. */
  function MetalColor(key: string): (c: string)
    ensures key in MetalColors ==> c == MetalColors[key]
    ensures key !in MetalColors ==> c == DefaultMetalColor
  {
    if key in MetalColors then MetalColors[key] else DefaultMetalColor
  }

  // ------------------------------------------------ scatter-matrix relabelling

  /** `metal_labels` of the scatter matrix. */
  const MetalLabels: map<string, string> :=
    map["LBXBPB" := "Lead (Pb)", "LBXIAS" := "Arsenic (As)", "LBXBCD" := "Cadmium (Cd)", "LBXBMN" := "Manganese (Mn)"]

  /** `[metal_labels.get(c, c) for c in plot_df.columns]`. */
  function Relabel(cols: seq<string>): (r: seq<string>)
    ensures |r| == |cols|
  {
    seq(|cols|, k requires 0 <= k < |cols| => if cols[k] in MetalLabels then MetalLabels[cols[k]] else cols[k])
  }

  /** A known code becomes its label; every other column name is kept as it is. */
  lemma RelabelColumns(cols: seq<string>, k: nat)
    requires k < |cols|
    ensures cols[k] in MetalLabels ==> Relabel(cols)[k] == MetalLabels[cols[k]]
    ensures cols[k] !in MetalLabels ==> Relabel(cols)[k] == cols[k]
  {
  }

  /** The default metal columns all receive their labels. */
  lemma RelabelDefaultMetals()
    ensures Relabel(["LBXBPB", "LBXIAS", "LBXBCD", "LBXBMN"])
         == ["Lead (Pb)", "Arsenic (As)", "Cadmium (Cd)", "Manganese (Mn)"]
  {
    var cols := ["LBXBPB", "LBXIAS", "LBXBCD", "LBXBMN"];
    var r := Relabel(cols);
    assert r[0] == "Lead (Pb)" && r[1] == "Arsenic (As)";
    assert r[2] == "Cadmium (Cd)" && r[3] == "Manganese (Mn)";
  }

  /** No label is itself a code, so relabelling a second time changes nothing. */
  lemma RelabelIdempotent(cols: seq<string>)
    ensures Relabel(Relabel(cols)) == Relabel(cols)
  {
    var r := Relabel(cols);
    forall k | 0 <= k < |r| ensures r[k] !in MetalLabels {
      if cols[k] in MetalLabels {
        assert r[k] in MetalLabels.Values;
        assert forall v :: v in MetalLabels.Values ==> v !in MetalLabels;
      }
    }
  }

  // ------------------------------------------------------ dose-response curve

  /** `metal_col.replace('LBX', '').replace('BPB', 'Lead')`. */
  function MetalName(col: string): string {
    Replace(Replace(col, "LBX", ""), "BPB", "Lead")
  }

  /** `METAL_COLORS.get(metal_name[:2], '#4477AA')`, the curve colour when none is given. */
  function CurveColor(col: string): (c: string)
    ensures Take(MetalName(col), 2) in MetalColors ==> c == MetalColors[Take(MetalName(col), 2)]
    ensures Take(MetalName(col), 2) !in MetalColors ==> c == DefaultMetalColor
  {
    MetalColor(Take(MetalName(col), 2))
  }

  /** The lead column is named "Lead". */
  lemma MetalNameLead()
    ensures MetalName("LBXBPB") == "Lead"
  {
    assert "LBXBPB"[..3] == "LBX" && "LBXBPB"[3..] == "BPB";
    assert Replace("LBXBPB", "LBX", "") == "BPB" by {
      assert Replace("BPB", "LBX", "") == "BPB" by {
        assert "BPB"[..3] != "LBX" && "BPB"[1..] == "PB";
      }
    }
    assert "BPB"[..3] == "BPB" && "BPB"[3..] == "";
  }

  /**
   * The two-character prefix of a derived name is never an element symbol
   * for the NHANES metal columns, so every such curve takes the default colour.
   */
  lemma CurveColorDefault()
    ensures CurveColor("LBXBPB") == DefaultMetalColor
    ensures CurveColor("LBXIAS") == DefaultMetalColor
    ensures CurveColor("LBXBCD") == DefaultMetalColor
    ensures CurveColor("LBXBMN") == DefaultMetalColor
  {
    MetalNameLead();
    assert Take("Lead", 2) == "Le";
    CurveColorOther("LBXIAS", "IAS");
    CurveColorOther("LBXBCD", "BCD");
    CurveColorOther("LBXBMN", "BMN");
  }

  lemma CurveColorOther(col: string, rest: string)
    requires |rest| == 3 && rest != "BPB" && rest[0] != 'L' && rest[1] != 'L' && col == "LBX" + rest
    requires rest[..2] !in MetalColors
    ensures CurveColor(col) == DefaultMetalColor
  {
    MetalNameOther(col, rest);
  }

  /** An `LBX` code whose three-letter rest is not "BPB" keeps that rest as its name. */
  lemma MetalNameOther(col: string, rest: string)
    requires |rest| == 3 && rest != "BPB" && rest[0] != 'L' && rest[1] != 'L' && col == "LBX" + rest
    ensures MetalName(col) == rest
  {
    assert col[..3] == "LBX" && col[3..] == rest;
    assert rest[..3] == rest && rest[1..][..2] == rest[1..];
    assert Replace(rest[1..], "LBX", "") == rest[1..];
    assert Replace(rest, "LBX", "") == [rest[0]] + rest[1..];
    assert [rest[0]] + rest[1..] == rest;
    assert Replace(col, "LBX", "") == rest;
    assert Replace(rest[1..], "BPB", "Lead") == rest[1..];
  }

  // --------------------------------------------------------- risk gauge

  /** `min(lead_level / 10, 1) * 50`: the lead half of the gauge, saturating at 10 µg/dL. */
  function LeadRisk(lead: real): (r: real)
    ensures lead <= 10.0 ==> r == lead * 5.0
    ensures lead >= 10.0 ==> r == 50.0
  {
    MinReal(lead / 10.0, 1.0) * 50.0
  }

  /** `ckm_score / 4 * 50`: the CKM half, 50 at a score of 4. */
  function CkmRisk(score: real): (r: real)
    ensures r == score * 12.5
  {
    score / 4.0 * 50.0
  }

  function CombinedRisk(lead: real, score: real): real {
    LeadRisk(lead) + CkmRisk(score)
  }

  /** For a non-negative lead level and a score in 0..4 the gauge reads within its 0..100 axis. */
  lemma CombinedRiskRange(lead: real, score: real)
    requires lead >= 0.0 && 0.0 <= score <= 4.0
    ensures 0.0 <= CombinedRisk(lead, score) <= 100.0
    ensures 0.0 <= LeadRisk(lead) <= 50.0 && 0.0 <= CkmRisk(score) <= 50.0
  {
  }

  /** A higher lead level never lowers the lead half. */
  lemma LeadRiskMonotone(a: real, b: real)
    requires a <= b
    ensures LeadRisk(a) <= LeadRisk(b)
  {
  }

  // ------------------------------------------------- metal-disease network

  /** One `disease: correlation` item of an inner dict. */
  datatype Association = Association(disease: string, corr: real)

  /** One `metal: {disease: correlation}` item of the input dict. */
  datatype MetalAssociations = MetalAssociations(metal: string, diseases: seq<Association>)

  datatype NodeKind = MetalKind | DiseaseKind

  datatype VisNode = VisNode(id: string, caption: string, kind: NodeKind, color: string)

  datatype VisEdge = VisEdge(from: string, to: string, weight: real, correlation: real)

  /** One `(metal, disease, corr)` entry of the nested dict. */
  datatype Entry = Entry(metal: string, disease: string, corr: real)

  const DiseaseColor: string := "#AA3377"

  function MetalNode(metal: string): VisNode {
    VisNode(metal, metal, MetalKind, MetalColor(metal))
  }

  function DiseaseNode(disease: string): VisNode {
    VisNode(disease, disease, DiseaseKind, DiseaseColor)
  }

  /** `{'from': metal, 'to': disease, 'weight': abs(corr), 'correlation': corr}`. */
  function EdgeOf(e: Entry): (r: VisEdge)
    ensures r.from == e.metal && r.to == e.disease && r.correlation == e.corr
    ensures r.weight >= 0.0 && (r.weight == e.corr || r.weight == -e.corr)
  {
    VisEdge(e.metal, e.disease, if e.corr < 0.0 then -e.corr else e.corr, e.corr)
  }

  function MetalIds(assoc: seq<MetalAssociations>): (r: seq<string>)
    ensures |r| == |assoc|
  {
    seq(|assoc|, k requires 0 <= k < |assoc| => assoc[k].metal)
  }

  function EntriesOf(a: MetalAssociations): (r: seq<Entry>)
    ensures |r| == |a.diseases|
  {
    seq(|a.diseases|, k requires 0 <= k < |a.diseases| => Entry(a.metal, a.diseases[k].disease, a.diseases[k].corr))
  }

  /** All entries, metal by metal and disease by disease in dict order. */
  function Entries(assoc: seq<MetalAssociations>): seq<Entry> {
    if assoc == [] then [] else Entries(assoc[..|assoc| - 1]) + EntriesOf(assoc[|assoc| - 1])
  }

  function Diseases(es: seq<Entry>): (r: seq<string>)
    ensures |r| == |es|
  {
    seq(|es|, k requires 0 <= k < |es| => es[k].disease)
  }

  function EdgesOf(es: seq<Entry>): (r: seq<VisEdge>)
    ensures |r| == |es|
  {
    seq(|es|, k requires 0 <= k < |es| => EdgeOf(es[k]))
  }

  function Ids(nodes: seq<VisNode>): (r: seq<string>)
    ensures |r| == |nodes|
  {
    seq(|nodes|, k requires 0 <= k < |nodes| => nodes[k].id)
  }

  /** The ids after appending, in order, each of `xs` that is not already an id. */
  function AppendNew(ids: seq<string>, xs: seq<string>): seq<string> {
    if xs == [] then ids
    else
      var r := AppendNew(ids, xs[..|xs| - 1]);
      if xs[|xs| - 1] in r then r else r + [xs[|xs| - 1]]
  }

  /** The existing ids are kept in front. */
  lemma {:induction false} AppendNewPrefix(ids: seq<string>, xs: seq<string>)
    ensures |AppendNew(ids, xs)| >= |ids| && AppendNew(ids, xs)[..|ids|] == ids
  {
    if xs != [] {
      AppendNewPrefix(ids, xs[..|xs| - 1]);
      var r := AppendNew(ids, xs[..|xs| - 1]);
      assert (r + [xs[|xs| - 1]])[..|ids|] == r[..|ids|];
    }
  }

  /** Every appended id comes from `xs` and is new at the point it is added. */
  lemma {:induction false} AppendNewFresh(ids: seq<string>, xs: seq<string>)
    ensures forall k :: |ids| <= k < |AppendNew(ids, xs)| ==>
      AppendNew(ids, xs)[k] in xs && AppendNew(ids, xs)[k] !in AppendNew(ids, xs)[..k]
  {
    if xs != [] {
      var init := xs[..|xs| - 1];
      var x := xs[|xs| - 1];
      AppendNewFresh(ids, init);
      var r := AppendNew(ids, init);
      assert xs == init + [x];
      if x !in r {
        var r' := r + [x];
        forall k | |ids| <= k < |r'| ensures r'[k] in xs && r'[k] !in r'[..k] {
          if k < |r| {
            assert r'[k] == r[k] && r'[..k] == r[..k];
            assert r[k] in init;
          }
        }
      } else {
        forall k | |ids| <= k < |r| ensures r[k] in xs {
          assert r[k] in init;
        }
      }
    }
  }

  lemma FreshAt(ids: seq<string>, xs: seq<string>, k: nat)
    requires |ids| <= k < |AppendNew(ids, xs)|
    ensures AppendNew(ids, xs)[k] in xs
    ensures forall m :: 0 <= m < k ==> AppendNew(ids, xs)[m] != AppendNew(ids, xs)[k]
  {
    AppendNewFresh(ids, xs);
    var r := AppendNew(ids, xs);
    forall m | 0 <= m < k ensures r[m] != r[k] {
      assert r[m] in r[..k];
    }
  }

  /** Every element of `xs` ends up an id. */
  lemma {:induction false} AppendNewCovers(ids: seq<string>, xs: seq<string>)
    ensures forall x :: x in xs ==> x in AppendNew(ids, xs)
  {
    if xs != [] {
      var init := xs[..|xs| - 1];
      AppendNewCovers(ids, init);
      assert xs == init + [xs[|xs| - 1]];
      var r := AppendNew(ids, init);
      assert forall y :: y in r ==> y in AppendNew(ids, xs);
    }
  }

  /** The network's ids have no repetition once the metal ids have none. */
  lemma NetworkIdsDistinct(assoc: seq<MetalAssociations>)
    requires Distinct(MetalIds(assoc))
    ensures Distinct(AppendNew(MetalIds(assoc), Diseases(Entries(assoc))))
  {
    var ids := MetalIds(assoc);
    var r := AppendNew(ids, Diseases(Entries(assoc)));
    AppendNewPrefix(ids, Diseases(Entries(assoc)));
    AppendNewFresh(ids, Diseases(Entries(assoc)));
    forall i, j | 0 <= i < j < |r| ensures r[i] != r[j] {
      if j < |ids| {
        assert r[i] == ids[i] && r[j] == ids[j];
      } else {
        assert r[i] in r[..j];
      }
    }
  }

  /**
   * The nodes and edges of `create_metal_disease_network`: one node per metal
   * key in dict order, then one disease node for each disease whose name is
   * not already an id (metal ids included) in first-seen order, and one edge
   * per entry.
   */
  predicate Network(assoc: seq<MetalAssociations>, nodes: seq<VisNode>, edges: seq<VisEdge>) {
    && Ids(nodes) == AppendNew(MetalIds(assoc), Diseases(Entries(assoc)))
    && |nodes| >= |assoc|
    && (forall k :: 0 <= k < |assoc| ==> nodes[k] == MetalNode(assoc[k].metal))
    && (forall k :: |assoc| <= k < |nodes| ==> nodes[k] == DiseaseNode(nodes[k].id))
    && edges == EdgesOf(Entries(assoc))
  }

  /** The shape of the node list while the loops run. */
  predicate NodeShape(assoc: seq<MetalAssociations>, nodes: seq<VisNode>) {
    && |nodes| >= |assoc|
    && (forall k :: 0 <= k < |assoc| ==> nodes[k] == MetalNode(assoc[k].metal))
    && (forall k :: |assoc| <= k < |nodes| ==> nodes[k] == DiseaseNode(nodes[k].id))
  }

  lemma EntriesStep(assoc: seq<MetalAssociations>, i: nat)
    requires i < |assoc|
    ensures Entries(assoc[..i + 1]) == Entries(assoc[..i]) + EntriesOf(assoc[i])
  {
    assert assoc[..i + 1][..i] == assoc[..i];
  }

  lemma EntrySnoc(done: seq<Entry>, e: Entry, ids: seq<string>)
    ensures Diseases(done + [e]) == Diseases(done) + [e.disease]
    ensures EdgesOf(done + [e]) == EdgesOf(done) + [EdgeOf(e)]
    ensures AppendNew(ids, Diseases(done + [e]))
         == (var r := AppendNew(ids, Diseases(done)); if e.disease in r then r else r + [e.disease])
  {
    var xs := Diseases(done + [e]);
    assert xs == Diseases(done) + [e.disease];
    assert xs[..|xs| - 1] == Diseases(done);
  }

  lemma IdsSnoc(nodes: seq<VisNode>, n: VisNode)
    ensures Ids(nodes + [n]) == Ids(nodes) + [n.id]
  {
  }

  /** The body of the inner loop: the disease node if its id is new, and the edge. */
  method AddEntry(nodes: seq<VisNode>, edges: seq<VisEdge>, e: Entry, ghost assoc: seq<MetalAssociations>, ghost done: seq<Entry>)
    returns (nodes': seq<VisNode>, edges': seq<VisEdge>)
    requires NodeShape(assoc, nodes)
    requires Ids(nodes) == AppendNew(MetalIds(assoc), Diseases(done)) && edges == EdgesOf(done)
    ensures NodeShape(assoc, nodes')
    ensures Ids(nodes') == AppendNew(MetalIds(assoc), Diseases(done + [e])) && edges' == EdgesOf(done + [e])
  {
    EntrySnoc(done, e, MetalIds(assoc));
    var ids := seq(|nodes|, k requires 0 <= k < |nodes| => nodes[k].id);
    assert ids == Ids(nodes);
    if e.disease !in ids {
      nodes' := nodes + [DiseaseNode(e.disease)];
      IdsSnoc(nodes, DiseaseNode(e.disease));
    } else {
      nodes' := nodes;
    }
    edges' := edges + [EdgeOf(e)];
  }

  /** The inner loop over one metal's diseases. */
  method AddRow(nodes: seq<VisNode>, edges: seq<VisEdge>, a: MetalAssociations, ghost assoc: seq<MetalAssociations>, ghost done: seq<Entry>)
    returns (nodes': seq<VisNode>, edges': seq<VisEdge>)
    requires NodeShape(assoc, nodes)
    requires Ids(nodes) == AppendNew(MetalIds(assoc), Diseases(done)) && edges == EdgesOf(done)
    ensures NodeShape(assoc, nodes')
    ensures Ids(nodes') == AppendNew(MetalIds(assoc), Diseases(done + EntriesOf(a)))
    ensures edges' == EdgesOf(done + EntriesOf(a))
  {
    nodes', edges' := nodes, edges;
    var ds := a.diseases;
    ghost var row := EntriesOf(a);
    ghost var cur := done;
    for j := 0 to |ds|
      invariant NodeShape(assoc, nodes')
      invariant cur == done + row[..j]
      invariant Ids(nodes') == AppendNew(MetalIds(assoc), Diseases(cur)) && edges' == EdgesOf(cur)
    {
      var e := Entry(a.metal, ds[j].disease, ds[j].corr);
      assert row[..j + 1] == row[..j] + [e];
      nodes', edges' := AddEntry(nodes', edges', e, assoc, cur);
      cur := cur + [e];
    }
    assert row[..|ds|] == row;
  }

  /** The first loop of the network: one metal node per row, in row order. */
  method MetalNodesFor(assoc: seq<MetalAssociations>) returns (nodes: seq<VisNode>)
    ensures NodeShape(assoc, nodes) && Ids(nodes) == MetalIds(assoc)
  {
    nodes := [];
    for i := 0 to |assoc|
      invariant |nodes| == i
      invariant forall k :: 0 <= k < i ==> nodes[k] == MetalNode(assoc[k].metal)
    {
      nodes := nodes + [MetalNode(assoc[i].metal)];
    }
  }

  method MetalDiseaseNetwork(assoc: seq<MetalAssociations>) returns (nodes: seq<VisNode>, edges: seq<VisEdge>)
    ensures Network(assoc, nodes, edges)
  {
    nodes := MetalNodesFor(assoc);
    edges := [];
    ghost var done: seq<Entry> := [];
    var i := 0;
    while i < |assoc|
      invariant i <= |assoc| && done == Entries(assoc[..i])
      invariant NodeShape(assoc, nodes)
      invariant Ids(nodes) == AppendNew(MetalIds(assoc), Diseases(done))
      invariant edges == EdgesOf(done)
    {
      nodes, edges := AddRow(nodes, edges, assoc[i], assoc, done);
      EntriesStep(assoc, i);
      done := done + EntriesOf(assoc[i]);
      i := i + 1;
    }
    assert i == |assoc| && assoc[..i] == assoc;
    assert done == Entries(assoc);
  }

  /** Every edge is the entry at the same position, so there is exactly one edge per entry. */
  lemma NetworkEdges(assoc: seq<MetalAssociations>, nodes: seq<VisNode>, edges: seq<VisEdge>, k: nat)
    requires Network(assoc, nodes, edges) && k < |Entries(assoc)|
    ensures |edges| == |Entries(assoc)|
    ensures edges[k].from == Entries(assoc)[k].metal && edges[k].to == Entries(assoc)[k].disease
    ensures edges[k].weight >= 0.0 && edges[k].correlation == Entries(assoc)[k].corr
  {
  }

  /** Every disease of the input is a node id. */
  lemma NetworkCovers(assoc: seq<MetalAssociations>, nodes: seq<VisNode>, edges: seq<VisEdge>, e: Entry)
    requires Network(assoc, nodes, edges) && e in Entries(assoc)
    ensures e.disease in Ids(nodes)
  {
    var xs := Diseases(Entries(assoc));
    AppendNewCovers(MetalIds(assoc), xs);
    var k :| 0 <= k < |Entries(assoc)| && Entries(assoc)[k] == e;
    assert xs[k] == e.disease;
  }

  /** Each node after the metals is a disease node, for a disease of the input. */
  lemma NetworkDiseaseNode(assoc: seq<MetalAssociations>, nodes: seq<VisNode>, edges: seq<VisEdge>, k: nat)
    requires Network(assoc, nodes, edges) && |assoc| <= k < |nodes|
    ensures nodes[k].kind == DiseaseKind && nodes[k].color == DiseaseColor
    ensures nodes[k].id in Diseases(Entries(assoc))
  {
    FreshAt(MetalIds(assoc), Diseases(Entries(assoc)), k);
  }

  /** A node after the metals repeats no earlier id, metal ids included. */
  lemma NetworkNoRepeat(assoc: seq<MetalAssociations>, nodes: seq<VisNode>, edges: seq<VisEdge>, k: nat, m: nat)
    requires Network(assoc, nodes, edges) && |assoc| <= k < |nodes| && m < k
    ensures nodes[m].id != nodes[k].id
  {
    FreshAt(MetalIds(assoc), Diseases(Entries(assoc)), k);
    assert Ids(nodes)[m] == nodes[m].id && Ids(nodes)[k] == nodes[k].id;
  }
}
