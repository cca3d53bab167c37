/**
 * pfas_analysis.py: target counts, the Jaccard similarity matrix, the
 * pathway and disease overlaps, the cross-compound gene tally, the overlap
 * with heavy-metal targets, and the report tables built from them. The
 * gene tables themselves are configuration and are passed in.
 */
module PfasAnalysis {
  import opened Common
  import opened Strings
  import opened StableSort
  import opened GeneSets

  /** `results[pfas] = {'target_count': len(genes), 'targets': genes}` */
  datatype TargetSummary = TargetSummary(compound: string, targetCount: nat, targets: seq<string>)

  function AnalyzePfasTargets(compounds: seq<GeneList>): (r: seq<TargetSummary>)
    ensures |r| == |compounds|
    ensures forall i :: 0 <= i < |r| ==>
      r[i].compound == compounds[i].name && r[i].targets == compounds[i].genes
      && r[i].targetCount == |compounds[i].genes|
  {
    seq(|compounds|, i requires 0 <= i < |compounds| =>
      TargetSummary(compounds[i].name, |compounds[i].genes|, compounds[i].genes))
  }

  /** The target count counts list entries, so it bounds the number of distinct targets. */
  lemma TargetCountBound(compounds: seq<GeneList>, i: nat)
    requires i < |compounds|
    ensures |GeneSet(compounds[i])| <= AnalyzePfasTargets(compounds)[i].targetCount
  {
    ToSetCard(compounds[i].genes);
  }

  /** `calculate_similarity`: the n-by-n Jaccard matrix, filled row by row. */
  method CalculateSimilarity(compounds: seq<GeneList>) returns (m: array2<real>)
    ensures m.Length0 == |compounds| && m.Length1 == |compounds|
    ensures forall i, j :: 0 <= i < |compounds| && 0 <= j < |compounds| ==>
      m[i, j] == Jaccard(GeneSet(compounds[i]), GeneSet(compounds[j]))
    ensures forall i, j :: 0 <= i < |compounds| && 0 <= j < |compounds| ==>
      m[i, j] == m[j, i] && 0.0 <= m[i, j] <= 1.0
    ensures forall i :: 0 <= i < |compounds| && compounds[i].genes != [] ==> m[i, i] == 1.0
  {
    var n := |compounds|;
    m := new real[n, n];
    var i := 0;
    while i < n
      invariant 0 <= i <= n
      invariant forall a, b :: 0 <= a < i && 0 <= b < n ==>
        m[a, b] == Jaccard(GeneSet(compounds[a]), GeneSet(compounds[b]))
    {
      FillRow(m, compounds, i);
      i := i + 1;
    }
    forall a, b | 0 <= a < n && 0 <= b < n
      ensures m[a, b] == m[b, a] && 0.0 <= m[a, b] <= 1.0
    {
      JaccardSymmetric(GeneSet(compounds[a]), GeneSet(compounds[b]));
      JaccardRange(GeneSet(compounds[a]), GeneSet(compounds[b]));
    }
    forall a | 0 <= a < n && compounds[a].genes != []
      ensures m[a, a] == 1.0
    {
      assert compounds[a].genes[0] in GeneSet(compounds[a]);
      JaccardDiagonal(GeneSet(compounds[a]));
    }
  }

  /** The inner loop: row `i` of the matrix, leaving the other rows as they were. */
  method FillRow(m: array2<real>, compounds: seq<GeneList>, i: nat)
    requires m.Length0 == |compounds| && m.Length1 == |compounds| && i < |compounds|
    modifies m
    ensures forall a, b :: 0 <= a < m.Length0 && a != i && 0 <= b < m.Length1 ==> m[a, b] == old(m[a, b])
    ensures forall b :: 0 <= b < m.Length1 ==> m[i, b] == Jaccard(GeneSet(compounds[i]), GeneSet(compounds[b]))
  {
    var j := 0;
    while j < m.Length1
      invariant 0 <= j <= m.Length1
      invariant forall a, b :: 0 <= a < m.Length0 && a != i && 0 <= b < m.Length1 ==> m[a, b] == old(m[a, b])
      invariant forall b :: 0 <= b < j ==> m[i, b] == Jaccard(GeneSet(compounds[i]), GeneSet(compounds[b]))
    {
      m[i, j] := Jaccard(GeneSet(compounds[i]), GeneSet(compounds[j]));
      j := j + 1;
    }
  }

  /** A pathway or disease that shares genes with a compound: the shared set and the size of its list. */
  datatype Hit = Hit(name: string, overlap: set<string>, listSize: nat) {
    function OverlapCount(): nat { |overlap| }
    /** `len(overlap) / len(pathway_genes)` */
    function Enrichment(): real { if listSize == 0 then 0.0 else (|overlap| as real) / (listSize as real) }
  }

  /** The record for one item, present only when the overlap is non-empty. */
  function HitFor(geneSet: set<string>, item: GeneList): (h: Option<Hit>)
    ensures h.Some? <==> geneSet * GeneSet(item) != {}
    ensures h.Some? ==> h.value.name == item.name && h.value.overlap == geneSet * GeneSet(item)
    ensures h.Some? ==> h.value.listSize == |item.genes|
    ensures h.Some? ==> 1 <= h.value.OverlapCount() <= h.value.listSize
    ensures h.Some? ==> 0.0 < h.value.Enrichment() <= 1.0
  {
    var overlap := geneSet * GeneSet(item);
    if overlap == {} then None
    else
      SubsetCard(overlap, GeneSet(item));
      ToSetCard(item.genes);
      var x :| x in overlap;
      SubsetCard({x}, overlap);
      DivAtMostOne(|overlap|, |item.genes|);
      Some(Hit(item.name, overlap, |item.genes|))
  }

  /** The inner loop of `analyze_pathway_enrichment` and `analyze_disease_association`, in table order. */
  function Overlaps(geneSet: set<string>, items: seq<GeneList>): (hits: seq<Hit>)
    ensures |hits| <= |items|
    ensures forall k :: 0 <= k < |hits| ==> 1 <= hits[k].OverlapCount() <= hits[k].listSize
    ensures forall k :: 0 <= k < |hits| ==> 0.0 < hits[k].Enrichment() <= 1.0
    ensures forall k :: 0 <= k < |hits| ==> hits[k].overlap <= geneSet
    ensures (forall k :: 0 <= k < |items| ==> geneSet * GeneSet(items[k]) == {}) ==> hits == []
  {
    if items == [] then []
    else
      var rest := Overlaps(geneSet, items[1..]);
      match HitFor(geneSet, items[0])
      case Some(h) => [h] + rest
      case None => rest
  }

  /** An item is reported exactly when it shares at least one gene with the compound, and then with that overlap. */
  lemma {:induction false} OverlapsComplete(geneSet: set<string>, items: seq<GeneList>, k: nat)
    requires k < |items|
    ensures geneSet * GeneSet(items[k]) != {} ==>
      exists h :: h in Overlaps(geneSet, items) && h == Hit(items[k].name, geneSet * GeneSet(items[k]), |items[k].genes|)
  {
    if geneSet * GeneSet(items[k]) != {} {
      var rest := Overlaps(geneSet, items[1..]);
      assert forall x :: x in rest ==> x in Overlaps(geneSet, items);
      if k > 0 {
        OverlapsComplete(geneSet, items[1..], k - 1);
        assert items[1..][k - 1] == items[k];
      } else {
        assert HitFor(geneSet, items[0]).value in Overlaps(geneSet, items);
      }
    }
  }

  /** Every reported hit comes from an item of the table with a non-empty overlap. */
  lemma {:induction false} OverlapsSound(geneSet: set<string>, items: seq<GeneList>, h: Hit)
    requires h in Overlaps(geneSet, items)
    ensures exists k :: 0 <= k < |items| && items[k].name == h.name && h.overlap == geneSet * GeneSet(items[k]) != {}
  {
    var rest := Overlaps(geneSet, items[1..]);
    if h in rest {
      OverlapsSound(geneSet, items[1..], h);
      var k :| 0 <= k < |items[1..]| && items[1..][k].name == h.name && h.overlap == geneSet * GeneSet(items[1..][k]) != {};
      assert items[k + 1] == items[1..][k];
    } else {
      assert h == HitFor(geneSet, items[0]).value;
    }
  }

  /** `analyze_pathway_enrichment`: for every compound, the pathways it touches. */
  function AnalyzePathwayEnrichment(compounds: seq<GeneList>, pathways: seq<GeneList>): (r: seq<seq<Hit>>)
    ensures |r| == |compounds|
    ensures forall i :: 0 <= i < |r| ==> r[i] == Overlaps(GeneSet(compounds[i]), pathways)
  {
    seq(|compounds|, i requires 0 <= i < |compounds| => Overlaps(GeneSet(compounds[i]), pathways))
  }

  /** `analyze_disease_association`: the same overlap against the disease gene lists (no enrichment field). */
  function AnalyzeDiseaseAssociation(compounds: seq<GeneList>, diseases: seq<GeneList>): (r: seq<seq<Hit>>)
    ensures |r| == |compounds|
    ensures forall i :: 0 <= i < |r| ==> r[i] == Overlaps(GeneSet(compounds[i]), diseases)
    ensures forall i, k :: 0 <= i < |r| && 0 <= k < |r[i]| ==> 1 <= r[i][k].OverlapCount() <= r[i][k].listSize
  {
    seq(|compounds|, i requires 0 <= i < |compounds| => Overlaps(GeneSet(compounds[i]), diseases))
  }

  // ---------------------------------------------------------------- shared genes

  /** The (compound, gene) pairs in the order the nested loop of `analyze_shared_genes` visits them. */
  function Visits(compounds: seq<GeneList>): seq<(string, string)> {
    if compounds == [] then []
    else Visits(compounds[..|compounds| - 1]) + EntryVisits(compounds[|compounds| - 1])
  }

  function EntryVisits(e: GeneList): (vs: seq<(string, string)>)
    ensures |vs| == |e.genes|
    ensures forall k :: 0 <= k < |vs| ==> vs[k] == (e.name, e.genes[k])
  {
    seq(|e.genes|, k requires 0 <= k < |e.genes| => (e.name, e.genes[k]))
  }

  /** The compounds appended to `all_genes[g]`: one entry per occurrence of `g`, in visit order. */
  function Listing(vs: seq<(string, string)>, g: string): seq<string> {
    if vs == [] then []
    else Listing(vs[..|vs| - 1], g) + (if vs[|vs| - 1].1 == g then [vs[|vs| - 1].0] else [])
  }

  function VisitedGenes(vs: seq<(string, string)>): seq<string> {
    seq(|vs|, k requires 0 <= k < |vs| => vs[k].1)
  }

  /** `all_genes` as a map: every visited gene to its listing. */
  function ListingMap(vs: seq<(string, string)>): map<string, seq<string>> {
    map g | g in ToSet(VisitedGenes(vs)) :: Listing(vs, g)
  }

  /** `sum(len(all_genes[g]) for g in keys)` */
  function SumLengths(keys: seq<string>, m: map<string, seq<string>>): nat {
    if keys == [] then 0
    else SumLengths(keys[..|keys| - 1], m) + (if keys[|keys| - 1] in m then |m[keys[|keys| - 1]]| else 0)
  }

  lemma ListingStep(vs: seq<(string, string)>, p: (string, string), g: string)
    ensures Listing(vs + [p], g) == Listing(vs, g) + (if p.1 == g then [p.0] else [])
  {
    assert (vs + [p])[..|vs|] == vs;
  }

  lemma VisitedGenesStep(vs: seq<(string, string)>, p: (string, string))
    ensures VisitedGenes(vs + [p]) == VisitedGenes(vs) + [p.1]
    ensures ToSet(VisitedGenes(vs + [p])) == ToSet(VisitedGenes(vs)) + {p.1}
  {
    assert VisitedGenes(vs + [p]) == VisitedGenes(vs) + [p.1];
  }

  lemma ListingMapStep(vs: seq<(string, string)>, p: (string, string))
    ensures p.1 in ListingMap(vs) ==> ListingMap(vs + [p]) == ListingMap(vs)[p.1 := ListingMap(vs)[p.1] + [p.0]]
    ensures p.1 !in ListingMap(vs) ==> ListingMap(vs + [p]) == ListingMap(vs)[p.1 := [p.0]]
  {
    VisitedGenesStep(vs, p);
    var m0 := ListingMap(vs);
    var m1 := ListingMap(vs + [p]);
    var expected := if p.1 in m0 then m0[p.1 := m0[p.1] + [p.0]] else m0[p.1 := [p.0]];
    if p.1 !in m0 {
      ListingAbsent(vs, p.1);
    }
    assert m1.Keys == expected.Keys;
    forall g | g in m1 ensures m1[g] == expected[g] {
      ListingStep(vs, p, g);
    }
    assert m1 == expected;
  }

  /** A gene never visited has an empty listing. */
  lemma {:induction false} ListingAbsent(vs: seq<(string, string)>, g: string)
    requires g !in ToSet(VisitedGenes(vs))
    ensures Listing(vs, g) == []
  {
    if vs != [] {
      var init := vs[..|vs| - 1];
      assert vs == init + [vs[|vs| - 1]];
      VisitedGenesStep(init, vs[|vs| - 1]);
      ListingAbsent(init, g);
    }
  }

  lemma {:induction false} SumLengthsOther(keys: seq<string>, m: map<string, seq<string>>, g: string, v: seq<string>)
    requires g !in keys
    ensures SumLengths(keys, m[g := v]) == SumLengths(keys, m)
  {
    if keys != [] {
      SumLengthsOther(keys[..|keys| - 1], m, g, v);
    }
  }

  lemma {:induction false} SumLengthsGrow(keys: seq<string>, m: map<string, seq<string>>, g: string, x: string)
    requires Distinct(keys) && g in keys && g in m
    ensures SumLengths(keys, m[g := m[g] + [x]]) == SumLengths(keys, m) + 1
  {
    var init := keys[..|keys| - 1];
    var last := keys[|keys| - 1];
    if last == g {
      assert g !in init;
      SumLengthsOther(init, m, g, m[g] + [x]);
    } else {
      assert keys == init + [last];
      assert g in init;
      SumLengthsGrow(init, m, g, x);
    }
  }

  lemma EntryVisitsStep(e: GeneList, j: nat)
    requires j < |e.genes|
    ensures EntryVisits(e)[..j + 1] == EntryVisits(e)[..j] + [(e.name, e.genes[j])]
  {
  }

  lemma VisitsStep(compounds: seq<GeneList>, i: nat)
    requires i < |compounds|
    ensures Visits(compounds[..i + 1]) == Visits(compounds[..i]) + EntryVisits(compounds[i])[..|compounds[i].genes|]
  {
    assert compounds[..i + 1][..i] == compounds[..i];
    assert EntryVisits(compounds[i])[..|compounds[i].genes|] == EntryVisits(compounds[i]);
  }

  /** `sum(genes.count(g) for genes in table)`: occurrences of `g` over all lists. */
  function TotalCount(compounds: seq<GeneList>, g: string): nat {
    if compounds == [] then 0
    else TotalCount(compounds[..|compounds| - 1], g) + Count(compounds[|compounds| - 1].genes, g)
  }

  /** `sum(len(genes) for genes in table)` */
  function TotalLength(compounds: seq<GeneList>): nat {
    if compounds == [] then 0
    else TotalLength(compounds[..|compounds| - 1]) + |compounds[|compounds| - 1].genes|
  }

  lemma {:induction false} ListingAppend(a: seq<(string, string)>, b: seq<(string, string)>, g: string)
    ensures Listing(a + b, g) == Listing(a, g) + Listing(b, g)
  {
    if b == [] {
      assert a + b == a;
    } else {
      var init := b[..|b| - 1];
      assert (a + b)[..|a + b| - 1] == a + init;
      ListingAppend(a, init, g);
    }
  }

  lemma {:induction false} ListingEntry(e: GeneList, g: string)
    ensures |Listing(EntryVisits(e), g)| == Count(e.genes, g)
    decreases |e.genes|
  {
    if e.genes != [] {
      var init := GeneList(e.name, e.genes[..|e.genes| - 1]);
      ListingEntry(init, g);
      assert EntryVisits(e)[..|e.genes| - 1] == EntryVisits(init);
    }
  }

  /** A gene's listing has one entry per occurrence of the gene in the table. */
  lemma {:induction false} ListingCounts(compounds: seq<GeneList>, g: string)
    ensures |Listing(Visits(compounds), g)| == TotalCount(compounds, g)
  {
    if compounds != [] {
      var init := compounds[..|compounds| - 1];
      ListingCounts(init, g);
      ListingAppend(Visits(init), EntryVisits(compounds[|compounds| - 1]), g);
      ListingEntry(compounds[|compounds| - 1], g);
    }
  }

  lemma {:induction false} VisitsLength(compounds: seq<GeneList>)
    ensures |Visits(compounds)| == TotalLength(compounds)
  {
    if compounds != [] {
      VisitsLength(compounds[..|compounds| - 1]);
    }
  }

  /** A gene is a key of `all_genes` exactly when some visit saw it, that is when its listing is non-empty. */
  lemma {:induction false} VisitedIffListed(vs: seq<(string, string)>, g: string)
    ensures g in ToSet(VisitedGenes(vs)) <==> Listing(vs, g) != []
  {
    if vs != [] {
      var init := vs[..|vs| - 1];
      assert vs == init + [vs[|vs| - 1]];
      VisitedGenesStep(init, vs[|vs| - 1]);
      VisitedIffListed(init, g);
    }
  }

  /** The state the loop of `analyze_shared_genes` keeps, after visiting `done`. */
  ghost predicate Tallied(done: seq<(string, string)>, allGenes: map<string, seq<string>>, order: seq<string>) {
    allGenes == ListingMap(done)
    && order == Dedup(VisitedGenes(done))
    && SumLengths(order, allGenes) == |done|
  }

  /** One `all_genes[gene].append(pfas)`, creating the key first when it is new. */
  method Tally(allGenes: map<string, seq<string>>, order: seq<string>, p: (string, string), ghost done: seq<(string, string)>)
    returns (allGenes': map<string, seq<string>>, order': seq<string>)
    requires Tallied(done, allGenes, order)
    ensures Tallied(done + [p], allGenes', order')
  {
    var (compound, gene) := p;
    if gene !in allGenes {
      TallyNew(done, allGenes, order, p);
      allGenes' := allGenes[gene := [compound]];
      order' := order + [gene];
    } else {
      TallyOld(done, allGenes, order, p);
      allGenes' := allGenes[gene := allGenes[gene] + [compound]];
      order' := order;
    }
  }

  /** A gene seen for the first time becomes the last key, with one compound. */
  lemma TallyNew(done: seq<(string, string)>, allGenes: map<string, seq<string>>, order: seq<string>, p: (string, string))
    requires Tallied(done, allGenes, order) && p.1 !in allGenes
    ensures Tallied(done + [p], allGenes[p.1 := [p.0]], order + [p.1])
  {
    ListingMapStep(done, p);
    VisitedGenesStep(done, p);
    DedupProps(VisitedGenes(done));
    assert VisitedGenes(done + [p])[..|done|] == VisitedGenes(done);
    assert p.1 !in ToSet(order);
    assert Dedup(VisitedGenes(done + [p])) == order + [p.1];
    SumLengthsOther(order, allGenes, p.1, [p.0]);
    assert (order + [p.1])[..|order|] == order;
  }

  /** A gene seen before keeps its place and gains one compound. */
  lemma TallyOld(done: seq<(string, string)>, allGenes: map<string, seq<string>>, order: seq<string>, p: (string, string))
    requires Tallied(done, allGenes, order) && p.1 in allGenes
    ensures Tallied(done + [p], allGenes[p.1 := allGenes[p.1] + [p.0]], order)
  {
    ListingMapStep(done, p);
    VisitedGenesStep(done, p);
    DedupProps(VisitedGenes(done));
    assert VisitedGenes(done + [p])[..|done|] == VisitedGenes(done);
    assert p.1 in ToSet(order);
    assert Dedup(VisitedGenes(done + [p])) == order;
    SumLengthsGrow(order, allGenes, p.1, p.0);
  }

  /**
   * `analyze_shared_genes`, first part: `all_genes[gene]` collects the
   * compounds listing `gene`, once per occurrence; `order` is the dict's
   * key order (first occurrence).
   */
  method AnalyzeSharedGenes(compounds: seq<GeneList>) returns (allGenes: map<string, seq<string>>, order: seq<string>)
    ensures allGenes == ListingMap(Visits(compounds))
    ensures order == Dedup(VisitedGenes(Visits(compounds)))
    ensures SumLengths(order, allGenes) == |Visits(compounds)| == TotalLength(compounds)
    ensures forall g :: g in allGenes <==> TotalCount(compounds, g) > 0
    ensures forall g :: g in allGenes ==> |allGenes[g]| == TotalCount(compounds, g)
    ensures Distinct(order) && ToSet(order) == allGenes.Keys
  {
    allGenes := map[];
    order := [];
    ghost var done: seq<(string, string)> := [];
    var i := 0;
    while i < |compounds|
      invariant 0 <= i <= |compounds|
      invariant done == Visits(compounds[..i])
      invariant Tallied(done, allGenes, order)
    {
      var e := compounds[i];
      var j := 0;
      while j < |e.genes|
        invariant 0 <= j <= |e.genes|
        invariant done == Visits(compounds[..i]) + EntryVisits(e)[..j]
        invariant Tallied(done, allGenes, order)
      {
        var p := (e.name, e.genes[j]);
        allGenes, order := Tally(allGenes, order, p, done);
        EntryVisitsStep(e, j);
        done := done + [p];
        j := j + 1;
      }
      VisitsStep(compounds, i);
      i := i + 1;
    }
    assert compounds[..|compounds|] == compounds;
    VisitsLength(compounds);
    DedupProps(VisitedGenes(done));
    forall g ensures (g in allGenes <==> TotalCount(compounds, g) > 0) && (g in allGenes ==> |allGenes[g]| == TotalCount(compounds, g)) {
      VisitedIffListed(done, g);
      ListingCounts(compounds, g);
    }
  }

  /** What `analyze_shared_genes` returns. */
  datatype SharedGenes = SharedGenes(shared: map<string, seq<string>>, core: seq<string>, geneCount: map<string, nat>)

  /** The three comprehensions over `all_genes`; `compoundCount` is `len(PFAS_TARGET_GENES)`. */
  function Summarize(allGenes: map<string, seq<string>>, order: seq<string>, compoundCount: nat): (r: SharedGenes)
    ensures r.geneCount.Keys == allGenes.Keys
    ensures forall g :: g in r.shared <==> g in allGenes && |allGenes[g]| >= 2
    ensures forall k :: 0 <= k < |r.core| ==> r.core[k] in allGenes && |allGenes[r.core[k]]| == compoundCount
    ensures forall g :: g in order && g in allGenes && |allGenes[g]| == compoundCount ==> g in r.core
    ensures Subsequence(r.core, order)
    ensures Distinct(order) ==> Distinct(r.core)
  {
    FilterOrdered(order, allGenes, compoundCount);
    SharedGenes(
      map g | g in allGenes && |allGenes[g]| >= 2 :: allGenes[g],
      Filter(order, allGenes, compoundCount),
      map g | g in allGenes :: |allGenes[g]|)
  }

  function Filter(order: seq<string>, allGenes: map<string, seq<string>>, n: nat): (core: seq<string>)
    ensures forall k :: 0 <= k < |core| ==> core[k] in allGenes && |allGenes[core[k]]| == n
    ensures forall g :: g in order && g in allGenes && |allGenes[g]| == n ==> g in core
  {
    if order == [] then []
    else
      var rest := Filter(order[1..], allGenes, n);
      var g := order[0];
      if g in allGenes && |allGenes[g]| == n then [g] + rest else rest
  }

  /** The core list keeps the first-seen order of the genes and repeats none. */
  lemma {:induction false} FilterOrdered(order: seq<string>, allGenes: map<string, seq<string>>, n: nat)
    ensures forall k :: 0 <= k < |Filter(order, allGenes, n)| ==> Filter(order, allGenes, n)[k] in order
    ensures Subsequence(Filter(order, allGenes, n), order)
    ensures Distinct(order) ==> Distinct(Filter(order, allGenes, n))
  {
    if order != [] {
      var rest := Filter(order[1..], allGenes, n);
      FilterOrdered(order[1..], allGenes, n);
      var g := order[0];
      if g in allGenes && |allGenes[g]| == n {
        var core := [g] + rest;
        assert core[1..] == rest;
        if Distinct(order) {
          assert Distinct(order[1..]);
          assert g !in order[1..];
          forall i, j | 0 <= i < j < |core| ensures core[i] != core[j] {
            if i == 0 { assert core[j] == rest[j - 1] && rest[j - 1] in order[1..]; }
            else { assert core[i] == rest[i - 1] && core[j] == rest[j - 1]; }
          }
        }
      } else {
        assert Distinct(order) ==> Distinct(order[1..]);
      }
    }
  }

  /** The whole of `analyze_shared_genes`: counts are occurrences, shared means two or more, core means one per compound. */
  method AnalyzeSharedGenesSummary(compounds: seq<GeneList>) returns (r: SharedGenes)
    ensures forall g :: g in r.geneCount <==> TotalCount(compounds, g) > 0
    ensures forall g :: g in r.geneCount ==> r.geneCount[g] == TotalCount(compounds, g)
    ensures forall g :: g in r.shared <==> TotalCount(compounds, g) >= 2
    ensures forall k :: 0 <= k < |r.core| ==> TotalCount(compounds, r.core[k]) == |compounds|
    ensures |compounds| > 0 ==> forall g :: TotalCount(compounds, g) == |compounds| ==> g in r.core
    ensures Distinct(r.core)
  {
    var allGenes, order := AnalyzeSharedGenes(compounds);
    r := Summarize(allGenes, order, |compounds|);
  }

  // ------------------------------------------------------- heavy-metal overlap

  datatype MetalOverlap = MetalOverlap(compound: string, overlapCount: nat, genes: set<string>)

  /** `analyze_pfas_heavy_metal_overlap`: each compound's targets that some heavy metal also targets. */
  function AnalyzeHeavyMetalOverlap(compounds: seq<GeneList>, metals: seq<GeneList>): (r: seq<MetalOverlap>)
    ensures |r| == |compounds|
    ensures forall i :: 0 <= i < |r| ==> r[i].compound == compounds[i].name && r[i].overlapCount == |r[i].genes|
    ensures forall i, g :: 0 <= i < |r| ==>
      (g in r[i].genes <==> g in compounds[i].genes && exists k :: 0 <= k < |metals| && g in metals[k].genes)
    ensures forall i :: 0 <= i < |r| ==> r[i].overlapCount <= |GeneSet(compounds[i])|
  {
    var all := UnionOf(metals);
    seq(|compounds|, i requires 0 <= i < |compounds| => OverlapWith(compounds[i], all))
  }

  function OverlapWith(compound: GeneList, all: set<string>): (r: MetalOverlap)
    ensures r.genes == GeneSet(compound) * all && r.overlapCount == |r.genes| <= |GeneSet(compound)|
  {
    var overlap := GeneSet(compound) * all;
    SubsetCard(overlap, GeneSet(compound));
    MetalOverlap(compound.name, |overlap|, overlap)
  }

  // ------------------------------------------------------ markdown table writer

  /** A pandas DataFrame of reals: row labels, column labels and one row of cells per label. */
  datatype Frame = Frame(index: seq<string>, columns: seq<string>, cells: seq<seq<real>>)

  predicate Rectangular(df: Frame) {
    |df.cells| == |df.index| && forall i :: 0 <= i < |df.cells| ==> |df.cells[i]| == |df.columns|
  }

  function HeaderCells(cols: seq<string>): string {
    if cols == [] then "" else HeaderCells(cols[..|cols| - 1]) + " " + cols[|cols| - 1] + " |"
  }

  function SeparatorCells(n: nat): string {
    if n == 0 then "" else SeparatorCells(n - 1) + " --- |"
  }

  /** `fmt` stands for the `:.2f` rendering of a float. */
  function ValueCells(vals: seq<real>, fmt: real -> string): string {
    if vals == [] then "" else ValueCells(vals[..|vals| - 1], fmt) + " " + fmt(vals[|vals| - 1]) + " |"
  }

  function HeaderLine(cols: seq<string>): string { "|" + HeaderCells(cols) + "\n" }

  function SeparatorLine(n: nat): string { "|" + SeparatorCells(n) + "\n" }

  function RowLine(idx: string, vals: seq<real>, fmt: real -> string): string {
    "| " + idx + " |" + ValueCells(vals, fmt) + "\n"
  }

  function RowLines(index: seq<string>, cells: seq<seq<real>>, fmt: real -> string): string
    requires |cells| == |index|
  {
    if index == [] then ""
    else RowLines(index[..|index| - 1], cells[..|cells| - 1], fmt) + RowLine(index[|index| - 1], cells[|cells| - 1], fmt)
  }

  /** The Markdown text `format_table_simple` returns. */
  function Table(df: Frame, fmt: real -> string): string
    requires Rectangular(df)
  {
    HeaderLine(df.columns) + SeparatorLine(|df.columns|) + RowLines(df.index, df.cells, fmt)
  }

  /** `format_table_simple`: the three `+=` loops. */
  method FormatTableSimple(df: Frame, fmt: real -> string) returns (result: string)
    requires Rectangular(df)
    ensures result == Table(df, fmt)
  {
    var cols := df.columns;
    var header := WriteHeader(cols);
    var sep := WriteSeparator(|cols|);
    var rows := "";
    var r := 0;
    while r < |df.index|
      invariant 0 <= r <= |df.index|
      invariant rows == RowLines(df.index[..r], df.cells[..r], fmt)
    {
      var line := WriteRow(df.index[r], df.cells[r], fmt);
      assert df.index[..r + 1][..r] == df.index[..r];
      assert df.cells[..r + 1][..r] == df.cells[..r];
      rows := rows + (line + "\n");
      r := r + 1;
    }
    assert r == |df.index|;
    assert df.index[..|df.index|] == df.index;
    assert df.cells[..|df.cells|] == df.cells;
    result := (header + "\n") + (sep + "\n") + rows;
  }

  method WriteHeader(cols: seq<string>) returns (s: string)
    ensures s == "|" + HeaderCells(cols)
  {
    s := "|";
    var c := 0;
    while c < |cols|
      invariant 0 <= c <= |cols|
      invariant s == "|" + HeaderCells(cols[..c])
    {
      assert cols[..c + 1][..c] == cols[..c];
      s := s + " " + cols[c] + " |";
      c := c + 1;
    }
    assert cols[..|cols|] == cols;
  }

  method WriteSeparator(n: nat) returns (s: string)
    ensures s == "|" + SeparatorCells(n)
  {
    s := "|";
    var c := 0;
    while c < n
      invariant 0 <= c <= n
      invariant s == "|" + SeparatorCells(c)
    {
      s := s + " --- |";
      c := c + 1;
    }
  }

  method WriteRow(idx: string, vals: seq<real>, fmt: real -> string) returns (line: string)
    ensures line + "\n" == RowLine(idx, vals, fmt)
  {
    line := "| " + idx + " |";
    var c := 0;
    while c < |vals|
      invariant 0 <= c <= |vals|
      invariant line == "| " + idx + " |" + ValueCells(vals[..c], fmt)
    {
      assert vals[..c + 1][..c] == vals[..c];
      line := line + " " + fmt(vals[c]) + " |";
      c := c + 1;
    }
    assert vals[..|vals|] == vals;
  }

  /** A text with no newline and no bar inside: a safe table cell. */
  predicate Plain(s: string) { '\n' !in s && '|' !in s }

  lemma {:induction false} HeaderCellsCounts(cols: seq<string>)
    requires forall k :: 0 <= k < |cols| ==> Plain(cols[k])
    ensures Count(HeaderCells(cols), '|') == |cols|
    ensures Count(HeaderCells(cols), '\n') == 0
  {
    if cols != [] {
      var init := cols[..|cols| - 1];
      var last := cols[|cols| - 1];
      HeaderCellsCounts(init);
      PlainCounts(last);
      CountAppend(HeaderCells(init) + " " + last, " |", '|');
      CountAppend(HeaderCells(init) + " ", last, '|');
      CountAppend(HeaderCells(init), " ", '|');
      CountAppend(HeaderCells(init) + " " + last, " |", '\n');
      CountAppend(HeaderCells(init) + " ", last, '\n');
      CountAppend(HeaderCells(init), " ", '\n');
    }
  }

  lemma {:induction false} SeparatorCellsCounts(n: nat)
    ensures Count(SeparatorCells(n), '|') == n
    ensures Count(SeparatorCells(n), '\n') == 0
  {
    if n > 0 {
      SeparatorCellsCounts(n - 1);
      assert " --- |" == " --- " + "|";
      PlainCounts(" --- ");
      CountAppend(" --- ", "|", '|');
      CountAppend(" --- ", "|", '\n');
      CountAppend(SeparatorCells(n - 1), " --- |", '|');
      CountAppend(SeparatorCells(n - 1), " --- |", '\n');
    }
  }

  lemma {:induction false} ValueCellsCounts(vals: seq<real>, fmt: real -> string)
    requires forall v :: Plain(fmt(v))
    ensures Count(ValueCells(vals, fmt), '|') == |vals|
    ensures Count(ValueCells(vals, fmt), '\n') == 0
  {
    if vals != [] {
      var init := vals[..|vals| - 1];
      var cell := fmt(vals[|vals| - 1]);
      ValueCellsCounts(init, fmt);
      PlainCounts(cell);
      CountAppend(ValueCells(init, fmt) + " " + cell, " |", '|');
      CountAppend(ValueCells(init, fmt) + " ", cell, '|');
      CountAppend(ValueCells(init, fmt), " ", '|');
      CountAppend(ValueCells(init, fmt) + " " + cell, " |", '\n');
      CountAppend(ValueCells(init, fmt) + " ", cell, '\n');
      CountAppend(ValueCells(init, fmt), " ", '\n');
    }
  }

  lemma PlainCounts(s: string)
    requires Plain(s)
    ensures Count(s, '|') == 0 && Count(s, '\n') == 0
  {
    CountPositive(s, '|');
    CountPositive(s, '\n');
  }

  /**
   * Line and cell structure of the table: the header has one cell per
   * column (|columns| + 1 bars), every data row has an index cell plus one
   * cell per column (|columns| + 2 bars), and each line ends in a newline.
   */
  lemma LineShapes(df: Frame, fmt: real -> string, r: nat)
    requires Rectangular(df) && r < |df.index|
    requires forall k :: 0 <= k < |df.columns| ==> Plain(df.columns[k])
    requires Plain(df.index[r]) && forall v :: Plain(fmt(v))
    ensures Count(HeaderLine(df.columns), '|') == |df.columns| + 1
    ensures Count(SeparatorLine(|df.columns|), '|') == |df.columns| + 1
    ensures Count(RowLine(df.index[r], df.cells[r], fmt), '|') == |df.columns| + 2
    ensures Count(HeaderLine(df.columns), '\n') == 1 && Count(RowLine(df.index[r], df.cells[r], fmt), '\n') == 1
  {
    HeaderShape(df.columns);
    SeparatorShape(|df.columns|);
    RowShape(df.index[r], df.cells[r], fmt);
  }

  lemma HeaderShape(cols: seq<string>)
    requires forall k :: 0 <= k < |cols| ==> Plain(cols[k])
    ensures Count(HeaderLine(cols), '|') == |cols| + 1 && Count(HeaderLine(cols), '\n') == 1
  {
    HeaderCellsCounts(cols);
    var h := HeaderCells(cols);
    CountAppend("|" + h, "\n", '|');
    CountAppend("|", h, '|');
    CountAppend("|" + h, "\n", '\n');
    CountAppend("|", h, '\n');
  }

  lemma SeparatorShape(n: nat)
    ensures Count(SeparatorLine(n), '|') == n + 1 && Count(SeparatorLine(n), '\n') == 1
  {
    SeparatorCellsCounts(n);
    var sc := SeparatorCells(n);
    CountAppend("|" + sc, "\n", '|');
    CountAppend("|", sc, '|');
    CountAppend("|" + sc, "\n", '\n');
    CountAppend("|", sc, '\n');
  }

  lemma RowShape(idx: string, vals: seq<real>, fmt: real -> string)
    requires Plain(idx) && forall v :: Plain(fmt(v))
    ensures Count(RowLine(idx, vals, fmt), '|') == |vals| + 2 && Count(RowLine(idx, vals, fmt), '\n') == 1
  {
    ValueCellsCounts(vals, fmt);
    PlainCounts(idx);
    var v := ValueCells(vals, fmt);
    CountAppend("| " + idx + " |" + v, "\n", '|');
    CountAppend("| " + idx + " |", v, '|');
    CountAppend("| " + idx, " |", '|');
    CountAppend("| ", idx, '|');
    CountAppend("| " + idx + " |" + v, "\n", '\n');
    CountAppend("| " + idx + " |", v, '\n');
    CountAppend("| " + idx, " |", '\n');
    CountAppend("| ", idx, '\n');
  }

  /** The table has 2 + rows lines. */
  lemma {:induction false} TableLineCount(df: Frame, fmt: real -> string)
    requires Rectangular(df)
    requires forall k :: 0 <= k < |df.columns| ==> Plain(df.columns[k])
    requires (forall k :: 0 <= k < |df.index| ==> Plain(df.index[k])) && forall v :: Plain(fmt(v))
    ensures Count(Table(df, fmt), '\n') == 2 + |df.index|
  {
    HeaderShape(df.columns);
    SeparatorShape(|df.columns|);
    RowLinesCount(df.index, df.cells, fmt);
    CountAppend(HeaderLine(df.columns) + SeparatorLine(|df.columns|), RowLines(df.index, df.cells, fmt), '\n');
    CountAppend(HeaderLine(df.columns), SeparatorLine(|df.columns|), '\n');
  }

  lemma {:induction false} RowLinesCount(index: seq<string>, cells: seq<seq<real>>, fmt: real -> string)
    requires |cells| == |index|
    requires (forall k :: 0 <= k < |index| ==> Plain(index[k])) && forall v :: Plain(fmt(v))
    ensures Count(RowLines(index, cells, fmt), '\n') == |index|
  {
    if index != [] {
      var n := |index| - 1;
      RowLinesCount(index[..n], cells[..n], fmt);
      RowShape(index[n], cells[n], fmt);
      CountAppend(RowLines(index[..n], cells[..n], fmt), RowLine(index[n], cells[n], fmt), '\n');
    }
  }

  // ------------------------------------------------------ report: shared table

  /** The genes shown in a row: `list(overlap)[:5]`, in whatever order the set yields. */
  predicate ShownGenes(p: SharedPair, shown: seq<string>) {
    |shown| == Min(5, |p.overlap|) && Distinct(shown) && ToSet(shown) <= p.overlap
  }

  function Ellipsis(overlapSize: nat): string { if overlapSize > 5 then "..." else "" }

  function SharedLine(compounds: seq<GeneList>, p: SharedPair, shown: seq<string>): string
    requires p.i < |compounds| && p.j < |compounds|
  {
    "| " + compounds[p.i].name + " | " + compounds[p.j].name + " | " + NatToString(|p.overlap|)
      + " | " + Join(", ", shown) + Ellipsis(|p.overlap|) + " |\n"
  }

  function SharedLines(compounds: seq<GeneList>, ps: seq<SharedPair>, shown: seq<seq<string>>): string
    requires InTable(compounds, ps) && |shown| == |ps|
  {
    if ps == [] then ""
    else SharedLines(compounds, ps[..|ps| - 1], shown[..|shown| - 1]) + SharedLine(compounds, ps[|ps| - 1], shown[|shown| - 1])
  }

  const SharedHeader: string :=
    "| PFAS1 | PFAS2 | Shared Genes | Genes (top5) |\n" + "|------|------|-------------|-------------|\n"

  lemma SharedLinesStep(compounds: seq<GeneList>, ps: seq<SharedPair>, shown: seq<seq<string>>, p: SharedPair, s: seq<string>)
    requires InTable(compounds, ps) && |shown| == |ps| && p.i < |compounds| && p.j < |compounds|
    ensures InTable(compounds, ps + [p])
    ensures SharedLines(compounds, ps + [p], shown + [s]) == SharedLines(compounds, ps, shown) + SharedLine(compounds, p, s)
  {
    assert (ps + [p])[..|ps|] == ps;
    assert (shown + [s])[..|shown|] == shown;
  }

  /** `list(overlap)[:5]` of an enumeration of the overlap is a valid choice of shown genes. */
  lemma TakeShown(p: SharedPair, overlapList: seq<string>)
    requires ToSet(overlapList) == p.overlap && Distinct(overlapList) && |overlapList| == |p.overlap|
    ensures ShownGenes(p, Take(overlapList, 5))
  {
    var top := Take(overlapList, 5);
    forall a, b | 0 <= a < b < |top| ensures top[a] != top[b] {
      assert top[a] == overlapList[a] && top[b] == overlapList[b];
    }
    forall x | x in ToSet(top) ensures x in p.overlap {
      var a :| 0 <= a < |top| && top[a] == x;
      assert overlapList[a] in ToSet(overlapList);
    }
  }

  /** Each row's shown genes are a valid choice for that row. */
  predicate AllShown(ps: seq<SharedPair>, shown: seq<seq<string>>)
    requires |shown| == |ps|
  {
    ps == [] || (AllShown(ps[..|ps| - 1], shown[..|shown| - 1]) && ShownGenes(ps[|ps| - 1], shown[|shown| - 1]))
  }

  lemma {:induction false} AllShownAt(ps: seq<SharedPair>, shown: seq<seq<string>>)
    requires |shown| == |ps| && AllShown(ps, shown)
    ensures forall k :: 0 <= k < |shown| ==> ShownGenes(ps[k], shown[k])
  {
    if ps != [] {
      var n := |ps| - 1;
      AllShownAt(ps[..n], shown[..n]);
      assert forall k :: 0 <= k < n ==> ps[..n][k] == ps[k] && shown[..n][k] == shown[k];
    }
  }

  /** The state of the shared-table loops after the rows `ps`: the lines written so far and the genes each shows. */
  predicate Written(compounds: seq<GeneList>, ps: seq<SharedPair>, lines: string, shown: seq<seq<string>>) {
    InTable(compounds, ps) && |shown| == |ps| && AllShown(ps, shown)
    && lines == SharedLines(compounds, ps, shown)
  }

  /** Writing one more row keeps the table and the shown genes in step with the rows. */
  lemma WrittenStep(compounds: seq<GeneList>, ps: seq<SharedPair>, lines: string, shown: seq<seq<string>>, p: SharedPair, top: seq<string>)
    requires Written(compounds, ps, lines, shown)
    requires p.i < |compounds| && p.j < |compounds| && ShownGenes(p, top)
    ensures Written(compounds, ps + [p], lines + SharedLine(compounds, p, top), shown + [top])
  {
    SharedLinesStep(compounds, ps, shown, p, top);
    assert (ps + [p])[..|ps|] == ps && (shown + [top])[..|shown|] == shown;
  }

  /** The body of the inner loop for one pair: the line when the pair shares genes. */
  method SharedRow(compounds: seq<GeneList>, i: nat, j: nat) returns (rows: seq<SharedPair>, line: string, top: seq<string>)
    requires i < j < |compounds|
    ensures rows == PairRow(compounds, i, j)
    ensures rows != [] ==> ShownGenes(rows[0], top) && line == SharedLine(compounds, rows[0], top)
  {
    var overlap := GeneSet(compounds[i]) * GeneSet(compounds[j]);
    rows, line, top := [], "", [];
    if overlap != {} {
      var overlapList := SetToSeq(overlap);
      top := Take(overlapList, 5);
      var genesStr := Join(", ", top) + (if |overlapList| > 5 then "..." else "");
      rows := [SharedPair(i, j, overlap)];
      TakeShown(rows[0], overlapList);
      line := "| " + compounds[i].name + " | " + compounds[j].name + " | " + NatToString(|overlap|)
        + " | " + genesStr + " |\n";
    }
  }

  /** One pass of the inner loop: the pair's line, when it has one, is appended. */
  method SharedStep(compounds: seq<GeneList>, i: nat, j: nat, lines0: string, shown0: seq<seq<string>>, ghost ps: seq<SharedPair>)
    returns (lines: string, shown: seq<seq<string>>)
    requires i < j < |compounds| && Written(compounds, ps, lines0, shown0)
    ensures Written(compounds, ps + PairRow(compounds, i, j), lines, shown)
  {
    lines, shown := lines0, shown0;
    var rows, line, top := SharedRow(compounds, i, j);
    if rows != [] {
      WrittenStep(compounds, ps, lines, shown, rows[0], top);
      assert ps + rows == ps + [rows[0]];
      lines := lines + line;
      shown := shown + [top];
    } else {
      assert ps + rows == ps;
    }
  }

  /** The state of the inner loop once the pairs `(i, i+1) .. (i, j-1)` are written after `before`. */
  predicate WrittenTo(compounds: seq<GeneList>, before: seq<SharedPair>, i: nat, j: nat, lines: string, shown: seq<seq<string>>)
    requires i < j <= |compounds|
  {
    Written(compounds, before + InnerPairs(compounds, i, j), lines, shown)
  }

  /** One pass of the inner loop, stated against the records of the passes before it. */
  method SharedRowsStep(compounds: seq<GeneList>, i: nat, j: nat, lines0: string, shown0: seq<seq<string>>, ghost before: seq<SharedPair>)
    returns (lines: string, shown: seq<seq<string>>)
    requires i < j < |compounds| && WrittenTo(compounds, before, i, j, lines0, shown0)
    ensures WrittenTo(compounds, before, i, j + 1, lines, shown)
  {
    ghost var done := InnerPairs(compounds, i, j);
    lines, shown := SharedStep(compounds, i, j, lines0, shown0, before + done);
    InnerPairsStep(compounds, i, j);
    assert before + done + PairRow(compounds, i, j) == before + InnerPairs(compounds, i, j + 1);
  }

  /** The inner loop `for pfas2 in pfas_list[i+1:]`. */
  method SharedRowsFor(compounds: seq<GeneList>, i: nat, lines0: string, shown0: seq<seq<string>>, ghost before: seq<SharedPair>)
    returns (lines: string, shown: seq<seq<string>>)
    requires i < |compounds| && Written(compounds, before, lines0, shown0)
    ensures Written(compounds, before + InnerPairs(compounds, i, |compounds|), lines, shown)
  {
    lines, shown := lines0, shown0;
    var j := i + 1;
    assert before + InnerPairs(compounds, i, j) == before;
    while j < |compounds|
      invariant i + 1 <= j <= |compounds|
      invariant WrittenTo(compounds, before, i, j, lines, shown)
    {
      lines, shown := SharedRowsStep(compounds, i, j, lines, shown, before);
      j := j + 1;
    }
    assert j == |compounds|;
  }

  /**
   * The shared-gene table of `generate_report`: one line per pair `i < j`
   * that shares a gene, with the count, at most five of the shared genes,
   * and "..." exactly when more than five are shared.
   */
  method SharedTable(compounds: seq<GeneList>) returns (table: string, shown: seq<seq<string>>)
    ensures InTable(compounds, SharedPairs(compounds)) && |shown| == |SharedPairs(compounds)|
    ensures forall k :: 0 <= k < |shown| ==> ShownGenes(SharedPairs(compounds)[k], shown[k])
    ensures table == SharedHeader + SharedLines(compounds, SharedPairs(compounds), shown)
  {
    var lines := "";
    shown := [];
    var i := 0;
    while i < |compounds|
      invariant 0 <= i <= |compounds|
      invariant Written(compounds, OuterPairs(compounds, i), lines, shown)
    {
      lines, shown := SharedRowsFor(compounds, i, lines, shown, OuterPairs(compounds, i));
      i := i + 1;
    }
    assert i == |compounds|;
    AllShownAt(SharedPairs(compounds), shown);
    table := SharedHeader + lines;
  }

  // --------------------------------------------------- report: top-5 summaries

  /** `key=lambda x: x[1]['overlap_count'], reverse=True` as an ascending key. */
  function NegCount(h: Hit): real { -(|h.overlap| as real) }

  /** `sorted(..., reverse=True)[:5]` */
  function TopHits(hits: seq<Hit>): (top: seq<Hit>)
    ensures |top| == Min(5, |hits|)
    ensures forall a, b :: 0 <= a < b < |top| ==> top[a].OverlapCount() >= top[b].OverlapCount()
    ensures multiset(top) <= multiset(hits)
  {
    var sorted := SortByKey(hits, NegCount);
    SortByKeyCorrect(hits, NegCount);
    var top := Take(sorted, 5);
    assert sorted == top + sorted[|top|..];
    assert multiset(sorted) == multiset(top) + multiset(sorted[|top|..]);
    top
  }

  /** Nothing left out of the top five has a larger overlap than what is shown; ties keep table order. */
  lemma TopHitsDominate(hits: seq<Hit>, a: nat, b: nat, k: real)
    requires a < |TopHits(hits)| <= b < |hits|
    ensures TopHits(hits)[a].OverlapCount() >= SortByKey(hits, NegCount)[b].OverlapCount()
    ensures WithKey(SortByKey(hits, NegCount), NegCount, k) == WithKey(hits, NegCount, k)
  {
    SortByKeyCorrect(hits, NegCount);
    SortByKeyStable(hits, NegCount, k);
  }

  /** The "个基因" ("genes") that ends each summary line, then the newline. */
  const GenesSuffix: string := "\U{4E2A}\U{57FA}\U{56E0}\n"

  function HitLines(top: seq<Hit>): string {
    if top == [] then ""
    else HitLines(top[..|top| - 1]) + "- " + top[|top| - 1].name + ": " + NatToString(top[|top| - 1].OverlapCount()) + GenesSuffix
  }

  method WriteHitLines(top: seq<Hit>) returns (s: string)
    ensures s == HitLines(top)
  {
    s := "";
    var k := 0;
    while k < |top|
      invariant 0 <= k <= |top|
      invariant s == HitLines(top[..k])
    {
      assert top[..k + 1][..k] == top[..k];
      s := s + "- " + top[k].name + ": " + NatToString(top[k].OverlapCount()) + GenesSuffix;
      k := k + 1;
    }
    assert top[..|top|] == top;
  }

  /** The block one compound contributes, or nothing when it has no result entry. */
  function SummaryBlock(compound: string, results: map<string, seq<Hit>>): string {
    if compound in results then "\n**" + compound + "**:\n" + HitLines(TopHits(results[compound])) else ""
  }

  function SummaryBlocks(compounds: seq<GeneList>, results: map<string, seq<Hit>>): string {
    if compounds == [] then ""
    else SummaryBlocks(compounds[..|compounds| - 1], results) + SummaryBlock(compounds[|compounds| - 1].name, results)
  }

  method WriteBlock(compound: string, results: map<string, seq<Hit>>) returns (block: string)
    ensures block == SummaryBlock(compound, results)
  {
    block := "";
    if compound in results {
      var lines := WriteHitLines(TopHits(results[compound]));
      block := "\n**" + compound + "**:\n" + lines;
    }
  }

  lemma SummaryBlocksStep(compounds: seq<GeneList>, i: nat, results: map<string, seq<Hit>>)
    requires i < |compounds|
    ensures SummaryBlocks(compounds[..i + 1], results) == SummaryBlocks(compounds[..i], results) + SummaryBlock(compounds[i].name, results)
  {
    assert compounds[..i + 1][..i] == compounds[..i];
  }

  /**
   * The pathway summary (and, with the disease title, the disease summary)
   * of `generate_report`: per compound in table order, its five largest
   * overlaps.
   */
  method Summary(title: string, compounds: seq<GeneList>, results: map<string, seq<Hit>>) returns (text: string)
    ensures text == title + SummaryBlocks(compounds, results)
  {
    var blocks := "";
    var i := 0;
    assert compounds[..0] == [];
    while i < |compounds|
      invariant 0 <= i <= |compounds|
      invariant blocks == SummaryBlocks(compounds[..i], results)
    {
      var block := WriteBlock(compounds[i].name, results);
      SummaryBlocksStep(compounds, i, results);
      blocks := blocks + block;
      i := i + 1;
    }
    assert compounds[..|compounds|] == compounds;
    text := title + blocks;
  }
}
