/**
 * lead_network_toxicology.py: the fallback list of known lead target genes,
 * the de-duplicated gene list of `main`, the threshold-and-sort pathway
 * enrichment, and the node and edge lists of `generate_network_html`. The
 * CTD and STRING responses are inputs; the pathway table of
 * `manual_kegg_enrichment` is configuration and is passed in.
 */
module LeadNetworkToxicology {
  import opened Common
  import opened Strings
  import opened StableSort

  // -------------------------------------------------------------- target genes

  /** One CTD annotation `{"gene": g}`. */
  datatype Annotation = Annotation(gene: string)

  // The literal `lead_genes` list of `get_known_lead_genes`, group by group.
  const OxidativeStressGenes: seq<string> := [
    "GSTA1", "GSTA2", "GSTA3", "GSTA4", "GSTA5", "SOD1", "SOD2", "SOD3",
    "CAT", "GPX1", "GPX2", "GPX3", "GPX4", "NQO1", "NQO2", "HMOX1", "HMOX2"]
  const InflammationGenes: seq<string> := [
    "IL1B", "IL6", "IL8", "TNF", "NFKB1", "NFKB2", "COX2", "PTGS2", "PTGS1"]
  const NeurotoxicityGenes: seq<string> := [
    "APP", "MAPT", "SNCA", "BDNF", "NGF", "GAD1", "GAD2", "SLC32A1", "SLC6A13"]
  const NephrotoxicityGenes: seq<string> := [
    "Kim-1", "HAVCR1", "LCN2", "NGAL", "NPHS1", "NPHS2", "PODXL"]
  const CardiovascularGenes: seq<string> := [
    "ACE", "AGT", "AGTR1", "AGTR2", "NOS3", "NOS2", "NOS1"]
  const HaematologicalGenes: seq<string> := [
    "ALAS2", "ALAD", "FECH", "HBB", "HBD", "GATA1", "GATA2", "KLF1"]
  const SignallingGenes: seq<string> := [
    "MAPK1", "MAPK3", "MAPK8", "MAPK14", "PIK3CA", "AKT1", "AKT2",
    "TP53", "BCL2", "BAX", "CASP3", "CASP9"]
  const MetalTransportGenes: seq<string> := [
    "MT1A", "MT2A", "MT1E", "MT1F", "MT1G", "MT1H", "SLC11A2", "SLC39A8", "SLC30A1", "SLC30A4"]
  const DnaRepairGenes: seq<string> := [
    "XRCC1", "XRCC3", "OGG1", "MUTYH", "GSTA1", "GSTM1", "GSTT1", "GSTP1"]
  const OtherGenes: seq<string> := [
    "HSP70", "HSP90AA1", "HSPA1A", "HSPA1B", "BACH1", "NRF2", "KEAP1", "TIMP1", "MMP2", "MMP9"]

  /** The groups before the DNA-repair group. */
  const EarlierGroups: seq<string> :=
    OxidativeStressGenes + InflammationGenes + NeurotoxicityGenes + NephrotoxicityGenes
    + CardiovascularGenes + HaematologicalGenes + SignallingGenes + MetalTransportGenes

  const KnownLeadGenes: seq<string> := EarlierGroups + DnaRepairGenes + OtherGenes

  /** `[{"gene": g} for g in genes]` */
  function Wrap(genes: seq<string>): (anns: seq<Annotation>)
    ensures |anns| == |genes|
    ensures forall k :: 0 <= k < |anns| ==> anns[k].gene == genes[k]
  {
    seq(|genes|, k requires 0 <= k < |genes| => Annotation(genes[k]))
  }

  /** `[ann["gene"] for ann in annotations]` */
  function Unwrap(anns: seq<Annotation>): (genes: seq<string>)
    ensures |genes| == |anns|
    ensures forall k :: 0 <= k < |genes| ==> genes[k] == anns[k].gene
  {
    seq(|anns|, k requires 0 <= k < |anns| => anns[k].gene)
  }

  /** Unwrapping the wrapped list gives back the list, order and repetitions included. */
  lemma UnwrapWrap(genes: seq<string>)
    ensures Unwrap(Wrap(genes)) == genes
  {
  }

  /** `get_known_lead_genes()["annotations"]` */
  function GetKnownLeadGenes(): (anns: seq<Annotation>)
    ensures Unwrap(anns) == KnownLeadGenes
  {
    UnwrapWrap(KnownLeadGenes);
    Wrap(KnownLeadGenes)
  }

  /** The fallback list names GSTA1 twice (oxidative stress and DNA repair), so it has fewer distinct genes than entries. */
  lemma KnownListRepeatsGSTA1()
    ensures "GSTA1" in OxidativeStressGenes && "GSTA1" in DnaRepairGenes
    ensures |ToSet(KnownLeadGenes)| < |KnownLeadGenes|
  {
    assert OxidativeStressGenes[0] == "GSTA1" && DnaRepairGenes[4] == "GSTA1";
    assert "GSTA1" in EarlierGroups;
    SharedEntryShrinks(EarlierGroups, DnaRepairGenes, "GSTA1");
    ToSetConcat(EarlierGroups + DnaRepairGenes, OtherGenes);
    ToSetCard(OtherGenes);
  }

  /**
   * `genes = [ann["gene"] for ann in ctd_data.get("annotations", [])]`
   * followed by `list(set(genes))`: the same genes, each once, in set
   * order. A response without "annotations" gives no genes.
   */
  method TargetGenes(annotations: Option<seq<Annotation>>) returns (genes: seq<string>)
    ensures ToSet(genes) == ToSet(Unwrap(annotations.GetOr([])))
    ensures Distinct(genes)
  {
    var listed := Unwrap(annotations.GetOr([]));
    genes := SetToSeq(ToSet(listed));
  }

  /** On the fallback list the de-duplication drops the repeated entry. */
  lemma FallbackTargetsShrink(genes: seq<string>)
    requires ToSet(genes) == ToSet(Unwrap(GetKnownLeadGenes())) && Distinct(genes)
    ensures |genes| < |KnownLeadGenes|
  {
    DistinctCard(genes);
    KnownListRepeatsGSTA1();
  }

  // --------------------------------------------------------- pathway enrichment

  /** One entry of `lead_pathways`. */
  datatype PathwayInfo = PathwayInfo(pathway: string, genes: seq<string>, pvalue: real, description: string)

  /** One record of `enriched`; it has no "genes" key. */
  datatype Enriched = Enriched(pathway: string, description: string, overlap: nat, total: nat, pvalue: real)

  function PValue(e: Enriched): real { e.pvalue }

  /** `len(set(genes) & set(info["genes"]))` */
  function OverlapSize(genes: seq<string>, info: PathwayInfo): (n: nat)
    ensures n <= |info.genes|
  {
    SubsetCard(ToSet(genes) * ToSet(info.genes), ToSet(info.genes));
    ToSetCard(info.genes);
    |ToSet(genes) * ToSet(info.genes)|
  }

  function EntryFor(genes: seq<string>, info: PathwayInfo): Enriched {
    Enriched(info.pathway, info.description, OverlapSize(genes, info), |info.genes|, info.pvalue)
  }

  /** The `enriched` list before sorting: the pathways with at least three of the genes, in table order. */
  function Candidates(genes: seq<string>, table: seq<PathwayInfo>): (r: seq<Enriched>)
    ensures |r| <= |table|
    ensures forall k :: 0 <= k < |r| ==> 3 <= r[k].overlap <= r[k].total
  {
    if table == [] then []
    else
      var info := table[|table| - 1];
      Candidates(genes, table[..|table| - 1]) + (if OverlapSize(genes, info) >= 3 then [EntryFor(genes, info)] else [])
  }

  /** Every pathway of the table that shares at least three genes is reported. */
  lemma {:induction false} CandidatesComplete(genes: seq<string>, table: seq<PathwayInfo>, k: nat)
    requires k < |table| && OverlapSize(genes, table[k]) >= 3
    ensures EntryFor(genes, table[k]) in Candidates(genes, table)
  {
    var init := table[..|table| - 1];
    if k < |table| - 1 {
      CandidatesComplete(genes, init, k);
      assert init[k] == table[k];
    }
  }

  /** Every reported pathway is an entry of the table that shares at least three genes. */
  lemma {:induction false} CandidatesSound(genes: seq<string>, table: seq<PathwayInfo>, e: Enriched)
    requires e in Candidates(genes, table)
    ensures exists k :: 0 <= k < |table| && OverlapSize(genes, table[k]) >= 3 && e == EntryFor(genes, table[k])
  {
    var init := table[..|table| - 1];
    var last := table[|table| - 1];
    if e in Candidates(genes, init) {
      CandidatesSound(genes, init, e);
      var k :| 0 <= k < |init| && OverlapSize(genes, init[k]) >= 3 && e == EntryFor(genes, init[k]);
      assert init[k] == table[k];
    } else {
      assert OverlapSize(genes, last) >= 3 && e == EntryFor(genes, last);
    }
  }

  /** `manual_kegg_enrichment`: the threshold loop, then `sorted(..., key=pvalue)`. */
  method ManualKeggEnrichment(genes: seq<string>, table: seq<PathwayInfo>) returns (r: seq<Enriched>)
    ensures r == SortByKey(Candidates(genes, table), PValue)
  {
    var enriched: seq<Enriched> := [];
    var k := 0;
    while k < |table|
      invariant 0 <= k <= |table| && enriched == Candidates(genes, table[..k])
    {
      assert table[..k + 1][..k] == table[..k];
      var overlap := |ToSet(genes) * ToSet(table[k].genes)|;
      if overlap >= 3 {
        enriched := enriched + [Enriched(table[k].pathway, table[k].description, overlap, |table[k].genes|, table[k].pvalue)];
      }
      k := k + 1;
    }
    assert table[..k] == table;
    r := SortByKey(enriched, PValue);
  }

  /** `kegg_enrichment` never reaches KEGG and falls back to the manual analysis. */
  method KeggEnrichment(genes: seq<string>, table: seq<PathwayInfo>) returns (r: seq<Enriched>)
    ensures r == SortByKey(Candidates(genes, table), PValue)
  {
    r := ManualKeggEnrichment(genes, table);
  }

  /**
   * The enrichment result: ordered by p-value, a permutation of the
   * qualifying pathways, ties kept in table order, and every pathway with
   * at least three shared genes present with `3 <= overlap <= total`.
   */
  lemma EnrichmentResult(genes: seq<string>, table: seq<PathwayInfo>, p: real)
    ensures var r := SortByKey(Candidates(genes, table), PValue);
      SortedBy(r, PValue)
      && multiset(r) == multiset(Candidates(genes, table))
      && WithKey(r, PValue, p) == WithKey(Candidates(genes, table), PValue, p)
      && (forall k :: 0 <= k < |r| ==> 3 <= r[k].overlap <= r[k].total)
      && (forall k :: 0 <= k < |table| && OverlapSize(genes, table[k]) >= 3 ==> EntryFor(genes, table[k]) in r)
  {
    var c := Candidates(genes, table);
    var r := SortByKey(c, PValue);
    SortByKeyCorrect(c, PValue);
    SortByKeyStable(c, PValue, p);
    forall k | 0 <= k < |r| ensures 3 <= r[k].overlap <= r[k].total {
      assert r[k] in multiset(c);
    }
    forall k | 0 <= k < |table| && OverlapSize(genes, table[k]) >= 3 ensures EntryFor(genes, table[k]) in r {
      CandidatesComplete(genes, table, k);
      assert EntryFor(genes, table[k]) in multiset(r);
    }
  }

  // ----------------------------------------------------------------- network

  /** A pathway record as `generate_network_html` reads it: its name and, if the dict has one, its "genes". */
  datatype PathwayRecord = PathwayRecord(pathway: string, genes: Option<seq<string>>)

  /** An enrichment record seen by the network builder: it carries no "genes" key. */
  function AsRecord(e: Enriched): PathwayRecord { PathwayRecord(e.pathway, None) }

  const DefaultColor: string := "#4a90d9"

  /** The colour of a pathway kind, by the first keyword its name contains. */
  function KindColor(name: string): string {
    if Contains(name, "Oxidative") then "#e74c3c"
    else if Contains(name, "Neuro") then "#9b59b6"
    else if Contains(name, "Nephro") then "#e67e22"
    else if Contains(name, "Inflammatory") then "#f39c12"
    else DefaultColor
  }

  /** `gene in pathway.get("genes", [])` */
  predicate Lists(p: PathwayRecord, gene: string) { gene in p.genes.GetOr([]) }

  /** The colour loop: the first pathway listing the gene decides, and the loop stops there. */
  function NodeColor(gene: string, pathways: seq<PathwayRecord>): string {
    if pathways == [] then DefaultColor
    else if Lists(pathways[0], gene) then KindColor(pathways[0].pathway)
    else NodeColor(gene, pathways[1..])
  }

  /** With no pathway listing the gene, the node keeps the default colour. */
  lemma {:induction false} NodeColorDefault(gene: string, pathways: seq<PathwayRecord>)
    requires forall k :: 0 <= k < |pathways| ==> !Lists(pathways[k], gene)
    ensures NodeColor(gene, pathways) == DefaultColor
  {
    if pathways != [] {
      assert !Lists(pathways[0], gene);
      NodeColorDefault(gene, pathways[1..]);
    }
  }

  /** The first pathway listing the gene picks the colour; later ones do not matter. */
  lemma {:induction false} NodeColorFirst(gene: string, pathways: seq<PathwayRecord>, k: nat)
    requires k < |pathways| && Lists(pathways[k], gene)
    requires forall k' :: 0 <= k' < k ==> !Lists(pathways[k'], gene)
    ensures NodeColor(gene, pathways) == KindColor(pathways[k].pathway)
  {
    if k > 0 {
      assert !Lists(pathways[0], gene);
      NodeColorFirst(gene, pathways[1..], k - 1);
    }
  }

  /** Enrichment results carry no "genes" key, so every node gets the default colour. */
  lemma EnrichedNodesDefault(gene: string, enriched: seq<Enriched>)
    ensures NodeColor(gene, seq(|enriched|, k requires 0 <= k < |enriched| => AsRecord(enriched[k]))) == DefaultColor
  {
    var records := seq(|enriched|, k requires 0 <= k < |enriched| => AsRecord(enriched[k]));
    NodeColorDefault(gene, records);
  }

  method ColorLoop(gene: string, pathways: seq<PathwayRecord>) returns (color: string)
    ensures color == NodeColor(gene, pathways)
  {
    color := DefaultColor;
    var k := 0;
    while k < |pathways|
      invariant 0 <= k <= |pathways|
      invariant NodeColor(gene, pathways) == NodeColor(gene, pathways[k..])
    {
      assert pathways[k..][1..] == pathways[k + 1..];
      if gene in pathways[k].genes.GetOr([]) {
        color := KindColor(pathways[k].pathway);
        break;
      }
      k := k + 1;
    }
  }

  datatype NetNode = NetNode(id: string, caption: string, color: string, size: int)

  /** `20 + min(30, len([g for g in genes if g == gene]) * 10)` */
  function NodeSize(gene: string, genes: seq<string>): int {
    20 + Min(30, Count(genes, gene) * 10)
  }

  /** A gene of the list has size 30 for one occurrence, growing by 10 per repeat up to 50. */
  lemma NodeSizeRange(gene: string, genes: seq<string>)
    requires gene in genes
    ensures 30 <= NodeSize(gene, genes) <= 50
    ensures Count(genes, gene) == 1 ==> NodeSize(gene, genes) == 30
  {
    CountPositive(genes, gene);
  }

  function NodeFor(gene: string, genes: seq<string>, pathways: seq<PathwayRecord>): NetNode {
    NetNode(gene, gene, NodeColor(gene, pathways), NodeSize(gene, genes))
  }

  /** The node loop over `genes[:100]`. */
  method NetworkNodes(genes: seq<string>, pathways: seq<PathwayRecord>) returns (nodes: seq<NetNode>)
    ensures |nodes| == Min(100, |genes|)
    ensures forall k :: 0 <= k < |nodes| ==> nodes[k] == NodeFor(genes[k], genes, pathways)
    ensures forall k :: 0 <= k < |nodes| ==> 30 <= nodes[k].size <= 50
  {
    var shown := Take(genes, 100);
    nodes := [];
    var k := 0;
    while k < |shown|
      invariant 0 <= k <= |shown| && |nodes| == k
      invariant forall a :: 0 <= a < k ==> nodes[a] == NodeFor(genes[a], genes, pathways) && 30 <= nodes[a].size <= 50
    {
      var gene := shown[k];
      var color := ColorLoop(gene, pathways);
      NodeSizeRange(gene, genes);
      nodes := nodes + [NetNode(gene, gene, color, 20 + Min(30, Count(genes, gene) * 10))];
      k := k + 1;
    }
  }

  /** A STRING interaction: a TSV line, or a JSON record with optional names and score. */
  datatype Interaction =
    | TsvLine(text: string)
    | Record(nameA: Option<string>, nameB: Option<string>, score: Option<real>)

  datatype NetEdge = NetEdge(from: string, to: string, width: real)

  /** The edge for one interaction: only a record carrying "preferredName_A" gives one. */
  function EdgeOf(inter: Interaction): (e: Option<NetEdge>)
    ensures e.Some? <==> inter.Record? && inter.nameA.Some?
    ensures e.Some? ==> e.value.from == inter.nameA.value && e.value.to == inter.nameB.GetOr("")
    ensures e.Some? ==> e.value.width <= 5.0 && e.value.width == MinReal(5.0, inter.score.GetOr(0.0) / 200.0)
  {
    match inter
    case TsvLine(_) => None
    case Record(a, b, s) =>
      if a.Some? then Some(NetEdge(a.value, b.GetOr(""), MinReal(5.0, s.GetOr(0.0) / 200.0))) else None
  }

  function Edges(inters: seq<Interaction>): (edges: seq<NetEdge>)
    ensures |edges| <= |inters|
    ensures forall k :: 0 <= k < |edges| ==> edges[k].width <= 5.0
  {
    if inters == [] then []
    else
      var last := inters[|inters| - 1];
      Edges(inters[..|inters| - 1]) + (match EdgeOf(last) case Some(e) => [e] case None => [])
  }

  /** TSV lines, which is what `main` passes, yield no edges at all. */
  lemma {:induction false} TsvLinesNoEdges(inters: seq<Interaction>)
    requires forall k :: 0 <= k < |inters| ==> inters[k].TsvLine?
    ensures Edges(inters) == []
  {
    if inters != [] {
      TsvLinesNoEdges(inters[..|inters| - 1]);
    }
  }

  /** The edge loop over `interactions[:200]`. */
  method NetworkEdges(interactions: seq<Interaction>) returns (edges: seq<NetEdge>)
    ensures edges == Edges(Take(interactions, 200))
    ensures |edges| <= 200
  {
    var first := Take(interactions, 200);
    edges := [];
    var k := 0;
    while k < |first|
      invariant 0 <= k <= |first| && edges == Edges(first[..k])
    {
      assert first[..k + 1][..k] == first[..k];
      var inter := first[k];
      if inter.Record? && inter.nameA.Some? {
        edges := edges + [NetEdge(inter.nameA.value, inter.nameB.GetOr(""), MinReal(5.0, inter.score.GetOr(0.0) / 200.0))];
      }
      k := k + 1;
    }
    assert first[..k] == first;
  }
}
