/**
 * The target bookkeeping of lead_bp_targets.py: the blood-pressure gene
 * table, the binding-site lookup with its default record, the one-row-per-gene
 * target table joined with one binding record per gene, and the top-two
 * selection of PDB structures per priority gene. The PDB search itself is an
 * HTTP call and enters as a function parameter.
 */
module LeadBpTargets {
  import opened Common

  // ------------------------------------------------------------ gene table

  /** One item of `BLOOD_PRESSURE_TARGETS`: the group name and its `genes`, `description` and `pathway`. */
  datatype PathwayGroup = PathwayGroup(name: string, genes: seq<string>, description: string, role: string)

  const BloodPressureTargets: seq<PathwayGroup> := [
    PathwayGroup("RAAS", ["REN", "AGT", "ACE", "ACE2", "AGTR1", "AGTR2", "AGTRAP", "MAS1", "LRP1", "NPPA", "NPPB"],
      "肾素-血管紧张素-醛固酮系统", "血压调节核心通路"),
    PathwayGroup("Oxidative_Stress", ["NOS3", "NOS2", "NOS1", "SOD1", "SOD2", "CAT", "GPX1", "NQO1", "HMOX1", "CYBA", "NCF1"],
      "氧化应激与血管功能", "NO生物利用度下降"),
    PathwayGroup("Inflammation", ["IL1B", "IL6", "TNF", "NFKB1", "NFKB2", "PTGS2", "COX2", "ICAM1", "VCAM1", "SELE"],
      "血管炎症反应", "内皮功能障碍"),
    PathwayGroup("Calcium", ["CALM1", "CALM2", "CALM3", "CALML4", "CALML5", "CALD1", "MYL6", "MYH11", "ACTA2", "CNN1"],
      "钙信号与血管收缩", "血管平滑肌收缩"),
    PathwayGroup("Endothelial", ["EDN1", "EDNRA", "EDNRB", "ECE1", "ECE2", "VEGFA", "KDR", "FLT1", "PECAM1", "CDH5"],
      "内皮功能调节", "血管舒缩"),
    PathwayGroup("Sympathetic", ["ADRA1A", "ADRA1B", "ADRA1D", "ADRA2A", "ADRA2B", "ADRB1", "ADRB2", "DBH", "PNMT", "TH"],
      "交感神经系统", "血管收缩")
  ]

  // ------------------------------------------------------- binding lookup

  /**
   * The part of a binding record the analysis reads: `type`,
   * `metal_binding`, `inhibitors`, `pdb_available` and `note`. A key the
   * record does not have is `None`.
   */
  datatype BindingInfo = BindingInfo(
    kind: string, metalBinding: Option<string>, inhibitors: Option<string>,
    pdbAvailable: Option<bool>, note: string)

  /** `known_bindings` of `predict_binding_sites`. */
  const KnownBindings: map<string, BindingInfo> := map[
    "ACE" := BindingInfo("Metalloproteinase", Some("Zn2+ (HEMICINE)"), Some("Captopril, Lisinopril (结合Zn2+位点)"),
      Some(true), "ACE抑制剂通过竞争性结合Zn2+位点发挥作用"),
    "NOS3" := BindingInfo("Oxidoreductase", Some("Zn2+, Fe2+ (heme)"), Some("L-NAME, L-NMMA"),
      Some(true), "铅可能取代Zn2+或Fe2+，干扰NO合成"),
    "REN" := BindingInfo("Aspartic protease", None, Some("Aliskiren"), Some(true), "直接肾素抑制剂"),
    "AGT" := BindingInfo("Serpin family", None, None, Some(true), "是肾素和ACE的底物"),
    "AGTR1" := BindingInfo("GPCR (7TM)", None, None, Some(true), "AT1受体拮抗剂(沙坦类)是常用降压药"),
    "IL1B" := BindingInfo("Cytokine", None, Some("Anakinra (IL-1受体拮抗剂)"), Some(true), "IL-1β阻断剂用于炎症治疗"),
    "TNF" := BindingInfo("Cytokine", None, Some("Etanercept, Infliximab (TNF-α抑制剂)"), Some(true), "单克隆抗体用于自身免疫疾病"),
    "NFKB1" := BindingInfo("Transcription factor", None, Some("BAY 11-7082, IKK inhibitor"), Some(true), "NF-κB是炎症信号核心转录因子"),
    "SOD1" := BindingInfo("Oxidoreductase", Some("Cu+, Zn2+"), None, Some(true), "铅可能取代Zn2+，导致SOD失活"),
    "CAT" := BindingInfo("Oxidoreductase", Some("Heme (Fe)"), None, Some(true), "铅可能干扰血红素合成")
  ]

  /** The record returned for a gene without an entry. */
  const UnknownBinding: BindingInfo := BindingInfo("Unknown", None, None, None, "需要进一步研究")

  /** `known_bindings.get(gene_name, {"type": "Unknown", "pdb_available": None, ...})`. */
  function PredictBindingSites(gene: string): (r: BindingInfo)
    ensures gene in KnownBindings ==> r == KnownBindings[gene]
    ensures gene !in KnownBindings ==> r == UnknownBinding
  {
    if gene in KnownBindings then KnownBindings[gene] else UnknownBinding
  }

  /** `priority_targets` of `analyze_key_targets`. */
  const PriorityTargets: seq<string> := ["ACE", "NOS3", "REN", "AGT", "AGTR1", "SOD1", "CAT", "IL1B", "TNF", "NFKB1"]

  /**
   * The lookup has an entry exactly for the ten priority targets; those
   * report an available structure, and every other gene gets the
   * "Unknown" record with no availability.
   */
  lemma BindingLookup(gene: string)
    ensures gene in KnownBindings <==> gene in PriorityTargets
    ensures gene in PriorityTargets ==>
      (PredictBindingSites(gene).pdbAvailable == Some(true) && PredictBindingSites(gene).kind != "Unknown")
    ensures gene !in PriorityTargets ==>
      (PredictBindingSites(gene).kind == "Unknown" && PredictBindingSites(gene).pdbAvailable == None)
  {
  }

  // ------------------------------------------------------------ target rows

  /** One dict of `all_targets`. */
  datatype TargetRow = TargetRow(gene: string, pathway: string, pathwayDescription: string, role: string)

  function GroupRows(g: PathwayGroup): (r: seq<TargetRow>)
    ensures |r| == |g.genes|
  {
    seq(|g.genes|, k requires 0 <= k < |g.genes| => TargetRow(g.genes[k], g.name, g.description, g.role))
  }

  /** The rows of the double loop, group by group and gene by gene. */
  function AllTargets(table: seq<PathwayGroup>): seq<TargetRow> {
    if table == [] then [] else AllTargets(table[..|table| - 1]) + GroupRows(table[|table| - 1])
  }

  function Genes(rows: seq<TargetRow>): (r: seq<string>)
    ensures |r| == |rows|
  {
    seq(|rows|, k requires 0 <= k < |rows| => rows[k].gene)
  }

  /** `drop_duplicates(subset=['Gene'])`: the first row of each gene, in row order. */
  function DropDuplicates(rows: seq<TargetRow>): seq<TargetRow> {
    if rows == [] then []
    else
      var init := rows[..|rows| - 1];
      DropDuplicates(init) + (if rows[|rows| - 1].gene in Genes(init) then [] else [rows[|rows| - 1]])
  }

  /** Row `i` is the first row of its gene. */
  predicate FirstOfGene(rows: seq<TargetRow>, i: int) {
    0 <= i < |rows| && forall j :: 0 <= j < i ==> rows[j].gene != rows[i].gene
  }

  lemma GenesInit(rows: seq<TargetRow>)
    requires rows != []
    ensures Genes(rows) == Genes(rows[..|rows| - 1]) + [rows[|rows| - 1].gene]
  {
  }

  /** The kept genes are those of the input, each once. */
  lemma {:induction false} DropDuplicatesGenes(rows: seq<TargetRow>)
    ensures Distinct(Genes(DropDuplicates(rows)))
    ensures ToSet(Genes(DropDuplicates(rows))) == ToSet(Genes(rows))
  {
    if rows != [] {
      var init := rows[..|rows| - 1];
      var last := rows[|rows| - 1];
      DropDuplicatesGenes(init);
      GenesInit(rows);
      var d := DropDuplicates(init);
      assert ToSet(Genes(rows)) == ToSet(Genes(init)) + {last.gene};
      if last.gene !in Genes(init) {
        assert DropDuplicates(rows) == d + [last];
        GenesInit(d + [last]);
        assert (d + [last])[..|d|] == d;
        assert last.gene !in ToSet(Genes(d));
        assert ToSet(Genes(d + [last])) == ToSet(Genes(d)) + {last.gene};
      } else {
        assert DropDuplicates(rows) == d;
        assert last.gene in ToSet(Genes(init));
      }
    }
  }

  /** `x` is the first row of its gene in `rows`. */
  predicate IsFirstRow(rows: seq<TargetRow>, x: TargetRow) {
    exists i :: 0 <= i < |rows| && FirstOfGene(rows, i) && rows[i] == x
  }

  /** A first row of its gene in a prefix is one in the whole list. */
  lemma FirstOfGeneInit(rows: seq<TargetRow>, i: int)
    requires rows != [] && FirstOfGene(rows[..|rows| - 1], i)
    ensures FirstOfGene(rows, i)
  {
    assert forall j :: 0 <= j <= i ==> rows[j] == rows[..|rows| - 1][j];
  }

  /** Every kept row is the first row of its gene in the input. */
  lemma {:induction false} DropDuplicatesSound(rows: seq<TargetRow>)
    ensures forall k :: 0 <= k < |DropDuplicates(rows)| ==> IsFirstRow(rows, DropDuplicates(rows)[k])
  {
    if rows != [] {
      var init := rows[..|rows| - 1];
      var last := rows[|rows| - 1];
      var n := |rows| - 1;
      DropDuplicatesSound(init);
      var d := DropDuplicates(init);
      var r := DropDuplicates(rows);
      assert r == d + (if last.gene in Genes(init) then [] else [last]);
      forall k | 0 <= k < |r| ensures IsFirstRow(rows, r[k]) {
        if k < |d| {
          assert IsFirstRow(init, d[k]);
          var i :| FirstOfGene(init, i) && init[i] == d[k];
          FirstOfGeneInit(rows, i);
          assert rows[i] == r[k];
        } else {
          assert forall j :: 0 <= j < n ==> Genes(init)[j] == rows[j].gene;
          assert FirstOfGene(rows, n) && rows[n] == r[k];
        }
      }
    } else {
      assert DropDuplicates(rows) == [];
    }
  }

  /** Every first row of a gene is kept. */
  lemma {:induction false} DropDuplicatesComplete(rows: seq<TargetRow>, i: int)
    requires FirstOfGene(rows, i)
    ensures rows[i] in DropDuplicates(rows)
  {
    var init := rows[..|rows| - 1];
    var last := rows[|rows| - 1];
    var n := |rows| - 1;
    var d := DropDuplicates(init);
    assert DropDuplicates(rows) == d + (if last.gene in Genes(init) then [] else [last]);
    if i < n {
      assert FirstOfGene(init, i) by {
        assert forall j :: 0 <= j <= i ==> rows[j] == init[j];
      }
      DropDuplicatesComplete(init, i);
      assert init[i] == rows[i];
    } else {
      assert forall j :: 0 <= j < |init| ==> Genes(init)[j] == rows[j].gene;
    }
  }

  /** One `dict` of `binding_info`: the lookup result with `Gene` set. */
  datatype BindingRecord = BindingRecord(gene: string, info: BindingInfo)

  /** One row of `df_full`. */
  datatype FullRow = FullRow(target: TargetRow, binding: BindingInfo)

  /** The `right` rows whose gene equals that of `l`, joined to `l`. */
  function Matches(l: TargetRow, right: seq<BindingRecord>): seq<FullRow> {
    if right == [] then []
    else
      Matches(l, right[..|right| - 1])
        + (if right[|right| - 1].gene == l.gene then [FullRow(l, right[|right| - 1].info)] else [])
  }

  /** `left.merge(right, on="Gene")`: the inner join, in the order of the left rows. */
  function Merge(left: seq<TargetRow>, right: seq<BindingRecord>): seq<FullRow> {
    if left == [] then [] else Merge(left[..|left| - 1], right) + Matches(left[|left| - 1], right)
  }

  /** Only the record at `k` has the gene of `l`, so it is the only match. */
  lemma {:induction false} MatchesSingle(l: TargetRow, right: seq<BindingRecord>, k: nat)
    requires k < |right| && right[k].gene == l.gene
    requires forall m :: 0 <= m < |right| && m != k ==> right[m].gene != l.gene
    ensures Matches(l, right) == [FullRow(l, right[k].info)]
  {
    var init := right[..|right| - 1];
    if k < |right| - 1 {
      MatchesSingle(l, init, k);
    } else {
      MatchesNone(l, init);
    }
  }

  lemma {:induction false} MatchesNone(l: TargetRow, right: seq<BindingRecord>)
    requires forall m :: 0 <= m < |right| ==> right[m].gene != l.gene
    ensures Matches(l, right) == []
  {
    if right != [] {
      MatchesNone(l, right[..|right| - 1]);
    }
  }

  /** The binding records line up with the targets gene by gene. */
  predicate Aligned(left: seq<TargetRow>, right: seq<BindingRecord>) {
    |left| == |right| && forall k :: 0 <= k < |left| ==> right[k].gene == left[k].gene
  }

  /** With distinct genes and one aligned record per target, the join keeps each target once with its record. */
  lemma {:induction false} MergeOneToOne(left: seq<TargetRow>, right: seq<BindingRecord>, n: nat)
    requires Aligned(left, right) && Distinct(Genes(left)) && n <= |left|
    ensures |Merge(left[..n], right)| == n
    ensures forall k :: 0 <= k < n ==> Merge(left[..n], right)[k] == FullRow(left[k], right[k].info)
  {
    if n > 0 {
      MergeOneToOne(left, right, n - 1);
      assert left[..n][..n - 1] == left[..n - 1];
      OnlyAligned(left, right, n - 1);
      MatchesSingle(left[n - 1], right, n - 1);
      var prev, cur := Merge(left[..n - 1], right), Merge(left[..n], right);
      assert cur == prev + [FullRow(left[n - 1], right[n - 1].info)];
      forall k | 0 <= k < n ensures cur[k] == FullRow(left[k], right[k].info) {
        if k < n - 1 {
          assert cur[k] == prev[k];
        }
      }
    } else {
      assert left[..n] == [];
    }
  }

  /** With distinct genes, the aligned record at `i` is the only one carrying the gene of target `i`. */
  lemma OnlyAligned(left: seq<TargetRow>, right: seq<BindingRecord>, i: nat)
    requires Aligned(left, right) && Distinct(Genes(left)) && i < |left|
    ensures forall m :: 0 <= m < |right| && m != i ==> right[m].gene != left[i].gene
  {
    forall m | 0 <= m < |right| && m != i ensures right[m].gene != left[i].gene {
      assert Genes(left)[m] != Genes(left)[i];
    }
  }

  /** The targets of all groups, de-duplicated by gene. */
  function KeyTargets(table: seq<PathwayGroup>): seq<TargetRow> {
    DropDuplicates(AllTargets(table))
  }

  /** The inner loop of the target collection: one row per gene of the group. */
  method CollectGroup(rows: seq<TargetRow>, g: PathwayGroup) returns (rows': seq<TargetRow>)
    ensures rows' == rows + GroupRows(g)
  {
    rows' := rows;
    for j := 0 to |g.genes|
      invariant rows' == rows + GroupRows(g)[..j]
    {
      rows' := rows' + [TargetRow(g.genes[j], g.name, g.description, g.role)];
      assert GroupRows(g)[..j + 1] == GroupRows(g)[..j] + [GroupRows(g)[j]];
    }
    assert GroupRows(g)[..|g.genes|] == GroupRows(g);
  }

  /** `analyze_key_targets` without the printing: one joined row per de-duplicated target. */
  method AnalyzeKeyTargets(table: seq<PathwayGroup>) returns (full: seq<FullRow>)
    ensures |full| == |KeyTargets(table)|
    ensures forall k :: 0 <= k < |full| ==>
      full[k].target == KeyTargets(table)[k] && full[k].binding == PredictBindingSites(KeyTargets(table)[k].gene)
  {
    var all: seq<TargetRow> := [];
    for i := 0 to |table|
      invariant all == AllTargets(table[..i])
    {
      all := CollectGroup(all, table[i]);
      assert table[..i + 1][..i] == table[..i];
    }
    assert table[..|table|] == table;
    var targets := DropDuplicates(all);
    var bindings: seq<BindingRecord> := [];
    for k := 0 to |targets|
      invariant |bindings| == k
      invariant forall m :: 0 <= m < k ==> bindings[m] == BindingRecord(targets[m].gene, PredictBindingSites(targets[m].gene))
    {
      var info := PredictBindingSites(targets[k].gene);
      bindings := bindings + [BindingRecord(targets[k].gene, info)];
    }
    DropDuplicatesGenes(all);
    MergeOneToOne(targets, bindings, |targets|);
    assert targets[..|targets|] == targets;
    full := Merge(targets, bindings);
  }

  /** The joined rows name each gene of the table once, and each with the first group that lists it. */
  lemma KeyTargetsProps(table: seq<PathwayGroup>)
    ensures Distinct(Genes(KeyTargets(table)))
    ensures ToSet(Genes(KeyTargets(table))) == ToSet(Genes(AllTargets(table)))
    ensures forall k :: 0 <= k < |KeyTargets(table)| ==> IsFirstRow(AllTargets(table), KeyTargets(table)[k])
    ensures forall i :: FirstOfGene(AllTargets(table), i) ==> AllTargets(table)[i] in KeyTargets(table)
  {
    assert KeyTargets(table) == DropDuplicates(AllTargets(table));
    DropDuplicatesGenes(AllTargets(table));
    DropDuplicatesSound(AllTargets(table));
    forall i | FirstOfGene(AllTargets(table), i) ensures AllTargets(table)[i] in KeyTargets(table) {
      DropDuplicatesComplete(AllTargets(table), i);
    }
  }

  /** Before de-duplication there is one row per (group, gene) entry, in table order. */
  lemma {:induction false} AllTargetsRows(table: seq<PathwayGroup>, i: nat, j: nat)
    requires i < |table| && j < |table[i].genes|
    ensures |AllTargets(table[..i])| + j < |AllTargets(table)|
    ensures AllTargets(table)[|AllTargets(table[..i])| + j]
         == TargetRow(table[i].genes[j], table[i].name, table[i].description, table[i].role)
  {
    var n := |table| - 1;
    var init := table[..n];
    if i < n {
      assert init[..i] == table[..i] && init[i] == table[i];
      AllTargetsRows(init, i, j);
    } else {
      assert table[..i] == init;
    }
  }

  // --------------------------------------------------------- PDB structures

  /** One entry of `result_set.results`; a missing key is `None`. */
  datatype Structure = Structure(rcsbId: Option<string>, title: Option<string>)

  /**
   * A JSON response of the PDB search: `resultSet` is `None` when the
   * response has no "result_set" key, and holds the "results" list (empty
   * when that key is missing) otherwise.
   */
  datatype PdbResponse = PdbResponse(resultSet: Option<seq<Structure>>)

  /** One dict of `pdb_results`. */
  datatype PdbRow = PdbRow(gene: string, pdbId: Option<string>, title: string)

  const PriorityPdbGenes: seq<string> := ["ACE", "NOS3", "REN", "AGT", "AGTR1", "IL1B", "SOD1", "CAT"]

  /** The rows `search_pdb_structures` records for one gene and its search result. */
  function StructureRows(gene: string, result: Option<PdbResponse>): seq<PdbRow> {
    if result.None? || result.value.resultSet.None? then []
    else
      var top := Take(result.value.resultSet.value, 2);
      seq(|top|, k requires 0 <= k < |top| => PdbRow(gene, top[k].rcsbId, Take(top[k].title.GetOr(""), 100)))
  }

  /** The rows for each gene in turn. */
  function PdbRows(genes: seq<string>, fetch: string -> Option<PdbResponse>): seq<PdbRow> {
    if genes == [] then []
    else PdbRows(genes[..|genes| - 1], fetch) + StructureRows(genes[|genes| - 1], fetch(genes[|genes| - 1]))
  }

  /** At most two rows per gene, each naming that gene with a title of at most 100 characters, and none without a "result_set". */
  lemma StructureRowsProps(gene: string, result: Option<PdbResponse>)
    ensures |StructureRows(gene, result)| <= 2
    ensures forall k :: 0 <= k < |StructureRows(gene, result)| ==>
      StructureRows(gene, result)[k].gene == gene && |StructureRows(gene, result)[k].title| <= 100
    ensures (result.None? || result.value.resultSet.None?) ==> StructureRows(gene, result) == []
    ensures result.Some? && result.value.resultSet.Some? ==>
      |StructureRows(gene, result)| == Min(2, |result.value.resultSet.value|)
  {
  }

  /** The collected rows name only searched genes, at most two each. */
  lemma {:induction false} PdbRowsProps(genes: seq<string>, fetch: string -> Option<PdbResponse>)
    ensures |PdbRows(genes, fetch)| <= 2 * |genes|
    ensures forall k :: 0 <= k < |PdbRows(genes, fetch)| ==>
      PdbRows(genes, fetch)[k].gene in genes && |PdbRows(genes, fetch)[k].title| <= 100
  {
    if genes != [] {
      var init := genes[..|genes| - 1];
      var g := genes[|genes| - 1];
      PdbRowsProps(init, fetch);
      StructureRowsProps(g, fetch(g));
      var a := PdbRows(init, fetch);
      var b := StructureRows(g, fetch(g));
      var ab: seq<PdbRow> := a + b;
      forall k | 0 <= k < |ab| ensures ab[k].gene in genes && |ab[k].title| <= 100 {
        if k < |a| {
          assert ab[k] == a[k] && a[k].gene in init;
        } else {
          assert ab[k] == b[k - |a|];
        }
      }
    }
  }

  lemma PdbRowsStep(genes: seq<string>, i: nat, fetch: string -> Option<PdbResponse>)
    requires i < |genes|
    ensures PdbRows(genes[..i + 1], fetch) == PdbRows(genes[..i], fetch) + StructureRows(genes[i], fetch(genes[i]))
  {
    assert genes[..i + 1][..i] == genes[..i];
  }

  /** The inner loop over `structures[:2]` for one gene. */
  method GeneRows(gene: string, result: Option<PdbResponse>) returns (rs: seq<PdbRow>)
    ensures rs == StructureRows(gene, result)
  {
    rs := [];
    if result.Some? && result.value.resultSet.Some? {
      var structures := result.value.resultSet.value;
      var top := Take(structures, 2);
      ghost var want := StructureRows(gene, result);
      for k := 0 to |top|
        invariant rs == want[..k]
      {
        rs := rs + [PdbRow(gene, top[k].rcsbId, Take(top[k].title.GetOr(""), 100))];
        assert want[..k + 1] == want[..k] + [want[k]];
      }
      assert want[..|top|] == want;
    }
  }

  /** `search_pdb_structures` with the HTTP search passed in as `fetch`. */
  method SearchPdbStructures(fetch: string -> Option<PdbResponse>) returns (rows: seq<PdbRow>)
    ensures rows == PdbRows(PriorityPdbGenes, fetch)
  {
    var genes := PriorityPdbGenes;
    rows := [];
    for i := 0 to |genes|
      invariant rows == PdbRows(genes[..i], fetch)
    {
      var gene := genes[i];
      var rs := GeneRows(gene, fetch(gene));
      PdbRowsStep(genes, i, fetch);
      rows := rows + rs;
    }
    assert genes[..|genes|] == genes;
  }
}
