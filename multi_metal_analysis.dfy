/**
 * multi_metal_analysis.py: the target-gene tables of five heavy metals,
 * their Jaccard similarity matrix, the genes shared by each pair and by all
 * of them, the comparative summary table and the node/edge lists of the
 * disease-association network. The tables (METALS, METAL_GENES,
 * METAL_PATHWAYS, METAL_DISEASES) are configuration and are passed in;
 * `METALS` and `METAL_GENES` are ordered dicts and become sequences, the
 * pathway and disease tables are only looked up and become maps from a
 * metal to the names (first tuple fields) of its entries.
 */
module MultiMetalAnalysis {
  import opened Common
  import opened GeneSets

  // --------------------------------------------------------- metal gene table

  /** `METAL_GENES.get(metal, [])`: the list of the (first) entry for `metal`, or the empty list. */
  function GetMetalGenes(table: seq<GeneList>, metal: string): (genes: seq<string>)
    ensures (forall k :: 0 <= k < |table| ==> table[k].name != metal) ==> genes == []
    ensures forall k :: 0 <= k < |table| && table[k].name == metal && (forall k' :: 0 <= k' < k ==> table[k'].name != metal) ==>
      genes == table[k].genes
  {
    GenesFrom(table, metal, 0)
  }

  /** The lookup from position `i` on. */
  function GenesFrom(table: seq<GeneList>, metal: string, i: nat): (genes: seq<string>)
    ensures (forall k :: i <= k < |table| ==> table[k].name != metal) ==> genes == []
    ensures forall k :: i <= k < |table| && table[k].name == metal && (forall k' :: i <= k' < k ==> table[k'].name != metal) ==>
      genes == table[k].genes
    decreases |table| - i
  {
    if i >= |table| then []
    else if table[i].name == metal then table[i].genes
    else GenesFrom(table, metal, i + 1)
  }

  /** `get_all_genes`: every gene of every metal, once each, in the order the set yields. */
  method GetAllGenes(table: seq<GeneList>) returns (genes: seq<string>)
    ensures Distinct(genes)
    ensures forall g :: g in genes <==> exists k :: 0 <= k < |table| && g in table[k].genes
  {
    var all: set<string> := {};
    var k := 0;
    while k < |table|
      invariant 0 <= k <= |table|
      invariant all == UnionOf(table[..k])
    {
      UnionOfStep(table, k);
      all := all + GeneSet(table[k]);
      k := k + 1;
    }
    assert table[..k] == table;
    genes := SetToSeq(all);
    forall g ensures g in genes <==> exists k :: 0 <= k < |table| && g in table[k].genes {
      assert g in genes <==> g in ToSet(genes);
    }
  }

  // ---------------------------------------------------------- similarity matrix

  /** The entry of `calculate_metal_similarity`: Jaccard when both lists are non-empty, else the matrix's initial 0. */
  function MetalSimilarity(a: set<string>, b: set<string>): real {
    if |a| > 0 && |b| > 0 then Jaccard(a, b) else 0.0
  }

  /** The non-empty guard changes nothing: Jaccard with an empty set is already 0. */
  lemma MetalSimilarityIsJaccard(a: set<string>, b: set<string>)
    ensures MetalSimilarity(a, b) == Jaccard(a, b)
    ensures a == {} || b == {} ==> MetalSimilarity(a, b) == 0.0
  {
    if a == {} || b == {} {
      assert a * b == {};
    }
  }

  method CalculateMetalSimilarity(table: seq<GeneList>) returns (m: array2<real>)
    ensures m.Length0 == |table| && m.Length1 == |table|
    ensures forall i, j :: 0 <= i < |table| && 0 <= j < |table| ==>
      m[i, j] == MetalSimilarity(GeneSet(table[i]), GeneSet(table[j]))
    ensures forall i, j :: 0 <= i < |table| && 0 <= j < |table| ==>
      m[i, j] == m[j, i] && 0.0 <= m[i, j] <= 1.0
    ensures forall i, j :: 0 <= i < |table| && 0 <= j < |table| && (table[i].genes == [] || table[j].genes == []) ==>
      m[i, j] == 0.0
    ensures forall i :: 0 <= i < |table| && table[i].genes != [] ==> m[i, i] == 1.0
  {
    var n := |table|;
    m := new real[n, n]((_, _) => 0.0);
    var i := 0;
    while i < n
      invariant 0 <= i <= n
      invariant forall a, b :: 0 <= a < n && 0 <= b < n ==>
        m[a, b] == if a < i then MetalSimilarity(GeneSet(table[a]), GeneSet(table[b])) else 0.0
    {
      var j := 0;
      while j < n
        invariant 0 <= j <= n
        invariant forall a, b :: 0 <= a < n && 0 <= b < n ==>
          m[a, b] == if a < i || (a == i && b < j) then MetalSimilarity(GeneSet(table[a]), GeneSet(table[b])) else 0.0
      {
        var genes1 := GeneSet(table[i]);
        var genes2 := GeneSet(table[j]);
        if |genes1| > 0 && |genes2| > 0 {
          m[i, j] := Jaccard(genes1, genes2);
        }
        j := j + 1;
      }
      i := i + 1;
    }
    forall a, b | 0 <= a < n && 0 <= b < n
      ensures m[a, b] == m[b, a] && 0.0 <= m[a, b] <= 1.0
      ensures table[a].genes == [] || table[b].genes == [] ==> m[a, b] == 0.0
    {
      MetalSimilarityIsJaccard(GeneSet(table[a]), GeneSet(table[b]));
      MetalSimilarityIsJaccard(GeneSet(table[b]), GeneSet(table[a]));
      JaccardSymmetric(GeneSet(table[a]), GeneSet(table[b]));
      JaccardRange(GeneSet(table[a]), GeneSet(table[b]));
    }
    forall a | 0 <= a < n && table[a].genes != []
      ensures m[a, a] == 1.0
    {
      assert table[a].genes[0] in GeneSet(table[a]);
      MetalSimilarityIsJaccard(GeneSet(table[a]), GeneSet(table[a]));
      JaccardDiagonal(GeneSet(table[a]));
    }
  }

  // --------------------------------------------------------------- shared genes

  /** The key `f"{m1}-{m2}"`. */
  function PairKey(m1: string, m2: string): string { m1 + "-" + m2 }

  const AllMetalsKey: string := "All-Metals"

  /** The key of the record for a pair of table positions. */
  function KeyOf(table: seq<GeneList>, p: SharedPair): string
    requires p.i < |table| && p.j < |table|
  {
    PairKey(table[p.i].name, table[p.j].name)
  }

  /** The dict after the pairwise loop has stored the records `ps` in order (a later key overwrites an earlier one). */
  function PairSets(table: seq<GeneList>, ps: seq<SharedPair>): map<string, set<string>>
    requires InTable(table, ps)
  {
    if ps == [] then map[]
    else
      var p := ps[|ps| - 1];
      PairSets(table, ps[..|ps| - 1])[KeyOf(table, p) := p.overlap]
  }

  /** `set.intersection(*all_sets)`: the genes on every list. */
  function CommonGenes(table: seq<GeneList>): (c: set<string>)
    requires |table| > 0
    ensures forall g :: g in c <==> forall k :: 0 <= k < |table| ==> g in table[k].genes
  {
    if |table| == 1 then GeneSet(table[0])
    else
      var init := table[..|table| - 1];
      var c := CommonGenes(init);
      assert forall k :: 0 <= k < |init| ==> init[k] == table[k];
      c * GeneSet(table[|table| - 1])
  }

  /** The genes (as sets) that `find_shared_genes` stores under each key. */
  function SharedSpec(table: seq<GeneList>): map<string, set<string>>
    requires |table| > 0
  {
    SharedPairsSound(table);
    var m := PairSets(table, SharedPairs(table));
    var common := CommonGenes(table);
    if common != {} then m[AllMetalsKey := common] else m
  }

  /** A dict of `list(set)` values that enumerates each set of `spec` under the same key. */
  predicate Lists(shared: map<string, seq<string>>, spec: map<string, set<string>>) {
    shared.Keys == spec.Keys
    && forall key :: key in shared ==> Distinct(shared[key]) && ToSet(shared[key]) == spec[key]
  }

  /** The dict holds exactly the records `ps`. */
  predicate Recorded(table: seq<GeneList>, ps: seq<SharedPair>, shared: map<string, seq<string>>) {
    InTable(table, ps) && Lists(shared, PairSets(table, ps))
  }

  lemma ListsUpdate(shared: map<string, seq<string>>, spec: map<string, set<string>>, key: string, xs: seq<string>, s: set<string>)
    requires Lists(shared, spec) && Distinct(xs) && ToSet(xs) == s
    ensures Lists(shared[key := xs], spec[key := s])
  {
  }

  lemma PairSetsStep(table: seq<GeneList>, ps: seq<SharedPair>, p: SharedPair)
    requires InTable(table, ps) && p.i < |table| && p.j < |table|
    ensures InTable(table, ps + [p])
    ensures PairSets(table, ps + [p]) == PairSets(table, ps)[KeyOf(table, p) := p.overlap]
  {
    assert (ps + [p])[..|ps|] == ps;
  }

  /** One pass of the inner loop: the pair `(i, j)` is recorded when `i < j` and the lists share genes. */
  method SharedStep(table: seq<GeneList>, i: nat, j: nat, shared0: map<string, seq<string>>, ghost ps: seq<SharedPair>)
    returns (shared: map<string, seq<string>>)
    requires i < |table| && j < |table| && Recorded(table, ps, shared0)
    ensures Recorded(table, ps + (if i < j then PairRow(table, i, j) else []), shared)
  {
    shared := shared0;
    if i < j {
      var genes1 := GeneSet(table[i]);
      var genes2 := GeneSet(table[j]);
      var sharedGenes := genes1 * genes2;
      if sharedGenes != {} {
        var list := SetToSeq(sharedGenes);
        var p := SharedPair(i, j, sharedGenes);
        PairSetsStep(table, ps, p);
        ListsUpdate(shared, PairSets(table, ps), KeyOf(table, p), list, sharedGenes);
        shared := shared[PairKey(table[i].name, table[j].name) := list];
      } else {
        assert ps + PairRow(table, i, j) == ps;
      }
    } else {
      assert ps + [] == ps;
    }
  }

  /** One pass of the inner loop, stated against the records of the passes before it. */
  method SharedRowStep(table: seq<GeneList>, i: nat, j: nat, shared0: map<string, seq<string>>,
                       ghost before: seq<SharedPair>, ghost done: seq<SharedPair>)
    returns (shared: map<string, seq<string>>, ghost done': seq<SharedPair>)
    requires i < |table| && j < |table| && done == InnerPairs(table, i, j) && Recorded(table, before + done, shared0)
    ensures done' == InnerPairs(table, i, j + 1) && Recorded(table, before + done', shared)
  {
    ghost var row: seq<SharedPair> := if i < j then PairRow(table, i, j) else [];
    shared := SharedStep(table, i, j, shared0, before + done);
    InnerPairsStep(table, i, j);
    assert before + done + row == before + (done + row);
    done' := done + row;
  }

  /** The inner loop `for j, m2 in enumerate(metals)` for one `i`. */
  method SharedRowFor(table: seq<GeneList>, i: nat, shared0: map<string, seq<string>>, ghost before: seq<SharedPair>)
    returns (shared: map<string, seq<string>>)
    requires i < |table| && Recorded(table, before, shared0)
    ensures Recorded(table, before + InnerPairs(table, i, |table|), shared)
  {
    shared := shared0;
    ghost var done: seq<SharedPair> := [];
    assert before + done == before;
    var j := 0;
    while j < |table|
      invariant 0 <= j <= |table|
      invariant done == InnerPairs(table, i, j)
      invariant Recorded(table, before + done, shared)
    {
      shared, done := SharedRowStep(table, i, j, shared, before, done);
      j := j + 1;
    }
    assert j == |table|;
    assert done == InnerPairs(table, i, |table|);
  }

  /** The outer loop `for i, m1 in enumerate(metals)`: every pair of lists sharing genes is recorded. */
  method SharedPairsLoop(table: seq<GeneList>) returns (shared: map<string, seq<string>>)
    ensures Recorded(table, SharedPairs(table), shared)
  {
    shared := map[];
    var i := 0;
    while i < |table|
      invariant 0 <= i <= |table|
      invariant Recorded(table, OuterPairs(table, i), shared)
    {
      shared := SharedRowFor(table, i, shared, OuterPairs(table, i));
      i := i + 1;
    }
    assert i == |table|;
  }

  /**
   * `find_shared_genes`. With no metals at all, `set.intersection(*[])`
   * raises, so the table must be non-empty.
   */
  method FindSharedGenes(table: seq<GeneList>) returns (shared: map<string, seq<string>>)
    requires |table| > 0
    ensures Lists(shared, SharedSpec(table))
  {
    shared := SharedPairsLoop(table);
    SharedPairsSound(table);
    ghost var m := PairSets(table, SharedPairs(table));
    var common := CommonGenes(table);
    if common != {} {
      var list := SetToSeq(common);
      ListsUpdate(shared, m, AllMetalsKey, list, common);
      shared := shared[AllMetalsKey := list];
    }
  }

  /** Metal names that make the keys unambiguous: distinct, without '-', and none spelled "All". */
  predicate PlainNames(table: seq<GeneList>) {
    (forall a, b :: 0 <= a < b < |table| ==> table[a].name != table[b].name)
    && (forall k :: 0 <= k < |table| ==> '-' !in table[k].name && table[k].name != "All")
  }

  /** A key `m1-m2` with no '-' in either name determines both names. */
  lemma PairKeySplit(a: string, b: string, c: string, d: string)
    requires '-' !in a && '-' !in c && PairKey(a, b) == PairKey(c, d)
    ensures a == c && b == d
  {
    var k := PairKey(a, b);
    assert k[|a|] == '-' && k[|c|] == '-';
    assert forall n :: 0 <= n < |a| ==> k[n] == a[n] != '-';
    assert forall n :: 0 <= n < |c| ==> k[n] == c[n] != '-';
    if |a| < |c| {
      assert false;
    } else if |c| < |a| {
      assert false;
    } else {
      assert a == k[..|a|] == c;
      assert b == k[|a| + 1..] == d;
    }
  }

  lemma AllMetalsNotPairKey(a: string, b: string)
    requires '-' !in a && a != "All"
    ensures PairKey(a, b) != AllMetalsKey
  {
    if PairKey(a, b) == AllMetalsKey {
      PairKeySplit(a, b, "All", "Metals");
    }
  }

  /** Every key of the dict comes from some record. */
  lemma {:induction false} PairSetsKeys(table: seq<GeneList>, ps: seq<SharedPair>, key: string)
    requires InTable(table, ps) && key in PairSets(table, ps)
    ensures exists k :: 0 <= k < |ps| && KeyOf(table, ps[k]) == key && PairSets(table, ps)[key] == ps[k].overlap
  {
    var p := ps[|ps| - 1];
    var init := ps[..|ps| - 1];
    if KeyOf(table, p) != key {
      PairSetsKeys(table, init, key);
      var k :| 0 <= k < |init| && KeyOf(table, init[k]) == key && PairSets(table, init)[key] == init[k].overlap;
      assert ps[k] == init[k];
    }
  }

  /** With pairwise different keys, each record is found under its key. */
  lemma {:induction false} PairSetsLookup(table: seq<GeneList>, ps: seq<SharedPair>, k: nat)
    requires InTable(table, ps) && k < |ps|
    requires forall a, b :: 0 <= a < b < |ps| ==> KeyOf(table, ps[a]) != KeyOf(table, ps[b])
    ensures KeyOf(table, ps[k]) in PairSets(table, ps) && PairSets(table, ps)[KeyOf(table, ps[k])] == ps[k].overlap
  {
    var init := ps[..|ps| - 1];
    if k < |ps| - 1 {
      assert InTable(table, init);
      assert forall a, b :: 0 <= a < b < |init| ==> KeyOf(table, init[a]) != KeyOf(table, init[b]) by {
        forall a, b | 0 <= a < b < |init| ensures KeyOf(table, init[a]) != KeyOf(table, init[b]) {
          assert init[a] == ps[a] && init[b] == ps[b];
        }
      }
      PairSetsLookup(table, init, k);
      assert init[k] == ps[k];
    }
  }

  /** Different positions of plainly named metals give different keys. */
  lemma KeysDiffer(table: seq<GeneList>, p: SharedPair, q: SharedPair)
    requires PlainNames(table) && p.i < |table| && p.j < |table| && q.i < |table| && q.j < |table|
    requires KeyOf(table, p) == KeyOf(table, q)
    ensures p.i == q.i && p.j == q.j
  {
    PairKeySplit(table[p.i].name, table[p.j].name, table[q.i].name, table[q.j].name);
  }

  lemma SharedPairsKeysDistinct(table: seq<GeneList>)
    requires PlainNames(table)
    ensures InTable(table, SharedPairs(table))
    ensures forall a, b :: 0 <= a < b < |SharedPairs(table)| ==>
      KeyOf(table, SharedPairs(table)[a]) != KeyOf(table, SharedPairs(table)[b])
  {
    SharedPairsSound(table);
    var ps := SharedPairs(table);
    forall a, b | 0 <= a < b < |ps| ensures KeyOf(table, ps[a]) != KeyOf(table, ps[b]) {
      assert LexLess(ps[a], ps[b]);
      if KeyOf(table, ps[a]) == KeyOf(table, ps[b]) {
        KeysDiffer(table, ps[a], ps[b]);
      }
    }
  }

  /**
   * For plainly named metals the key `m1-m2` (positions `i < j`) is present
   * exactly when the two lists share a gene, with the shared genes as value.
   */
  lemma SharedPairEntry(table: seq<GeneList>, i: nat, j: nat)
    requires PlainNames(table) && i < j < |table|
    ensures PairKey(table[i].name, table[j].name) in SharedSpec(table)
      <==> GeneSet(table[i]) * GeneSet(table[j]) != {}
    ensures InTable(table, SharedPairs(table))
    ensures PairKey(table[i].name, table[j].name) in SharedSpec(table)
      ==> SharedSpec(table)[PairKey(table[i].name, table[j].name)] == GeneSet(table[i]) * GeneSet(table[j])
  {
    AllMetalsNotPairKey(table[i].name, table[j].name);
    if GeneSet(table[i]) * GeneSet(table[j]) != {} {
      SharedPairPresent(table, i, j);
    } else {
      SharedPairAbsent(table, i, j);
    }
  }

  /** A pair that shares genes is recorded under its key with the shared genes. */
  lemma SharedPairPresent(table: seq<GeneList>, i: nat, j: nat)
    requires PlainNames(table) && i < j < |table| && GeneSet(table[i]) * GeneSet(table[j]) != {}
    ensures InTable(table, SharedPairs(table))
    ensures PairKey(table[i].name, table[j].name) in PairSets(table, SharedPairs(table))
    ensures PairSets(table, SharedPairs(table))[PairKey(table[i].name, table[j].name)]
      == GeneSet(table[i]) * GeneSet(table[j])
  {
    var ps := SharedPairs(table);
    SharedPairsSound(table);
    SharedPairsKeysDistinct(table);
    SharedPairsComplete(table, i, j);
    var k :| 0 <= k < |ps| && ps[k].i == i && ps[k].j == j;
    assert GoodRow(table, ps[k]);
    PairSetsLookup(table, ps, k);
  }

  /** A pair that shares no gene has no key. */
  lemma SharedPairAbsent(table: seq<GeneList>, i: nat, j: nat)
    requires PlainNames(table) && i < j < |table| && GeneSet(table[i]) * GeneSet(table[j]) == {}
    ensures InTable(table, SharedPairs(table))
    ensures PairKey(table[i].name, table[j].name) !in PairSets(table, SharedPairs(table))
  {
    var key := PairKey(table[i].name, table[j].name);
    var ps := SharedPairs(table);
    SharedPairsSound(table);
    SharedPairsKeysDistinct(table);
    if key in PairSets(table, ps) {
      PairSetsKeys(table, ps, key);
      var k :| 0 <= k < |ps| && KeyOf(table, ps[k]) == key && PairSets(table, ps)[key] == ps[k].overlap;
      assert GoodRow(table, ps[k]);
      KeysDiffer(table, ps[k], SharedPair(i, j, {}));
      assert false;
    }
  }

  /** For plainly named metals "All-Metals" is present exactly when some gene is on every list, with those genes as value. */
  lemma SharedAllMetals(table: seq<GeneList>)
    requires PlainNames(table) && |table| > 0
    ensures AllMetalsKey in SharedSpec(table) <==> CommonGenes(table) != {}
    ensures AllMetalsKey in SharedSpec(table) ==> SharedSpec(table)[AllMetalsKey] == CommonGenes(table)
  {
    SharedPairsSound(table);
    var ps := SharedPairs(table);
    if CommonGenes(table) == {} && AllMetalsKey in PairSets(table, ps) {
      PairSetsKeys(table, ps, AllMetalsKey);
      var k :| 0 <= k < |ps| && KeyOf(table, ps[k]) == AllMetalsKey && PairSets(table, ps)[AllMetalsKey] == ps[k].overlap;
      assert GoodRow(table, ps[k]);
      AllMetalsNotPairKey(table[ps[k].i].name, table[ps[k].j].name);
      assert false;
    }
  }

  /** Whatever the names, each key is "All-Metals" or the key of a pair `i < j` that shares genes. */
  lemma SharedKeys(table: seq<GeneList>, key: string)
    requires |table| > 0 && key in SharedSpec(table)
    ensures key == AllMetalsKey || exists i, j :: (0 <= i < j < |table| && key == PairKey(table[i].name, table[j].name)
      && GeneSet(table[i]) * GeneSet(table[j]) != {})
  {
    SharedPairsSound(table);
    var ps := SharedPairs(table);
    if key != AllMetalsKey {
      PairSetsKeys(table, ps, key);
      var k :| 0 <= k < |ps| && KeyOf(table, ps[k]) == key && PairSets(table, ps)[key] == ps[k].overlap;
      assert GoodRow(table, ps[k]);
    }
  }

  // --------------------------------------------------------- comparative table

  /** One entry of METALS: the key, the chemical symbol, the Chinese name and the plot colour. */
  datatype Metal = Metal(key: string, symbol: string, cname: string, color: string)

  /** `METALS[metal]`, or nothing where the subscript would raise `KeyError`. */
  function FindMetal(metals: seq<Metal>, key: string): (r: Option<Metal>)
    ensures r.Some? <==> exists k :: 0 <= k < |metals| && metals[k].key == key
    ensures r.Some? ==> r.value.key == key && r.value in metals
  {
    if metals == [] then None
    else if metals[0].key == key then Some(metals[0])
    else
      var r := FindMetal(metals[1..], key);
      assert forall k :: 1 <= k < |metals| ==> metals[1..][k - 1] == metals[k];
      r
  }

  datatype ComparativeRow = ComparativeRow(
    metal: string, symbol: string, cname: string, geneCount: nat, uniqueGenes: nat,
    topPathway: string, topDisease: string, color: string)

  /** `entries[0][0] if entries else 'N/A'` */
  function TopName(entries: seq<string>): (n: string)
    ensures entries == [] ==> n == "N/A"
    ensures entries != [] ==> n == entries[0]
  {
    if entries == [] then "N/A" else entries[0]
  }

  /** The row of `build_comparative_table` for one metal. */
  function RowFor(m: Metal, item: GeneList, pathways: map<string, seq<string>>, diseases: map<string, seq<string>>): (row: ComparativeRow)
    ensures row.metal == item.name && row.symbol == m.symbol && row.cname == m.cname && row.color == m.color
    ensures row.geneCount == |item.genes| && row.uniqueGenes == |GeneSet(item)|
    ensures row.uniqueGenes <= row.geneCount
    ensures row.topPathway == TopName(if item.name in pathways then pathways[item.name] else [])
    ensures row.topDisease == TopName(if item.name in diseases then diseases[item.name] else [])
  {
    ToSetCard(item.genes);
    ComparativeRow(item.name, m.symbol, m.cname, |item.genes|, |GeneSet(item)|,
      TopName(if item.name in pathways then pathways[item.name] else []),
      TopName(if item.name in diseases then diseases[item.name] else []), m.color)
  }

  /**
   * `build_comparative_table`: one row per METAL_GENES entry, in order; a
   * metal missing from METALS makes the whole call fail.
   */
  method BuildComparativeTable(metals: seq<Metal>, table: seq<GeneList>, pathways: map<string, seq<string>>, diseases: map<string, seq<string>>)
    returns (rows: Option<seq<ComparativeRow>>)
    ensures rows.Some? <==> forall k :: 0 <= k < |table| ==> FindMetal(metals, table[k].name).Some?
    ensures rows.Some? ==> (|rows.value| == |table|
      && forall k :: 0 <= k < |table| ==> rows.value[k] == RowFor(FindMetal(metals, table[k].name).value, table[k], pathways, diseases))
  {
    var acc: seq<ComparativeRow> := [];
    var k := 0;
    while k < |table|
      invariant 0 <= k <= |table| && |acc| == k
      invariant forall a :: 0 <= a < k ==> (FindMetal(metals, table[a].name).Some?
        && acc[a] == RowFor(FindMetal(metals, table[a].name).value, table[a], pathways, diseases))
    {
      var info := FindMetal(metals, table[k].name);
      if info.None? {
        return None;
      }
      acc := acc + [RowFor(info.value, table[k], pathways, diseases)];
      k := k + 1;
    }
    rows := Some(acc);
  }

  /** The Lead list of METAL_GENES, which names ALAD twice. */
  const LeadGenes: seq<string> := [
    "GSTA1", "GSTA2", "SOD1", "SOD2", "CAT", "GPX1", "GPX4", "NQO1", "HMOX1",
    "IL1B", "IL6", "TNF", "NFKB1", "PTGS2",
    "APP", "MAPT", "BDNF", "MAPK1", "MAPK3", "CASP3",
    "HAVCR1", "LCN2", "NGAL", "Kim-1",
    "ACE", "AGT", "NOS3", "AGTR1",
    "ALAS2", "ALAD", "FECH", "ALAD",
    "MAPK8", "MAPK14", "AKT1", "TP53", "BCL2", "BAX",
    "MT1A", "MT2A", "SLC11A2", "SLC39A8",
    "HSP70", "NRF2", "KEAP1", "GCLC"]

  /** The Arsenic list of METAL_GENES, which names GSTA1 and GSTM1 twice. */
  const ArsenicGenes: seq<string> := [
    "GSTA1", "GSTM1", "GPX1", "GPX2", "SOD1", "SOD2", "CAT", "NQO1", "HMOX1", "HMOX2",
    "IL1B", "IL6", "TNF", "NFKB1", "NFKB2", "PTGS2",
    "KRT1", "KRT5", "KRT14",
    "TP53", "CDKN1A", "MDM2", "BCL2", "BAX", "CASP3",
    "MAPK1", "MAPK3", "PIK3CA", "AKT1", "AKT2",
    "XRCC1", "OGG1", "MUTYH",
    "AS3MT", "GSTA1", "GSTM1", "GSTT1",
    "MT1A", "MT2A", "HSP70", "NRF2"]

  /** The Lead row reports fewer unique genes than list entries. */
  lemma LeadUniqueBelowCount(m: Metal, pathways: map<string, seq<string>>, diseases: map<string, seq<string>>)
    ensures RowFor(m, GeneList("Lead", LeadGenes), pathways, diseases).uniqueGenes
          < RowFor(m, GeneList("Lead", LeadGenes), pathways, diseases).geneCount
  {
    assert LeadGenes[29] == "ALAD" && LeadGenes[31] == "ALAD";
    DuplicateShrinks(LeadGenes, 29, 31);
  }

  /** So does the Arsenic row. */
  lemma ArsenicUniqueBelowCount(m: Metal, pathways: map<string, seq<string>>, diseases: map<string, seq<string>>)
    ensures RowFor(m, GeneList("Arsenic", ArsenicGenes), pathways, diseases).uniqueGenes
          < RowFor(m, GeneList("Arsenic", ArsenicGenes), pathways, diseases).geneCount
  {
    assert ArsenicGenes[0] == "GSTA1" && ArsenicGenes[34] == "GSTA1";
    DuplicateShrinks(ArsenicGenes, 0, 34);
  }

  // ------------------------------------------------- disease-association network

  datatype NodeKind = MetalNode | GeneNode | PathwayNode | DiseaseNode

  datatype Node = Node(id: nat, caption: string, color: string, size: nat, kind: NodeKind)

  datatype Edge = Edge(from: nat, to: nat, color: string, width: nat)

  /** Each node's id is its position: `node_id` starts at 0 and grows with every append. */
  predicate Numbered(nodes: seq<Node>) {
    forall k :: 0 <= k < |nodes| ==> nodes[k].id == k
  }

  /** `f'{info["symbol"]}\n({info["name"]})'` */
  function MetalLabel(m: Metal): string { m.symbol + "\n(" + m.cname + ")" }

  /** The nodes of one kind appended from position `start`, one per label. */
  function NodesFrom(start: nat, labels: seq<string>, color: string, size: nat, kind: NodeKind): (ns: seq<Node>)
    ensures |ns| == |labels|
    ensures forall k :: 0 <= k < |ns| ==> ns[k] == Node(start + k, labels[k], color, size, kind)
  {
    seq(|labels|, k requires 0 <= k < |labels| => Node(start + k, labels[k], color, size, kind))
  }

  function MetalNodes(metals: seq<Metal>): (ns: seq<Node>)
    ensures |ns| == |metals|
    ensures forall k :: 0 <= k < |ns| ==> ns[k] == Node(k, MetalLabel(metals[k]), metals[k].color, 40, MetalNode)
  {
    seq(|metals|, k requires 0 <= k < |metals| => Node(k, MetalLabel(metals[k]), metals[k].color, 40, MetalNode))
  }

  /** The names of all entries of a pathway or disease table: the `set.add` loops. */
  function EntryNames(entries: map<string, seq<string>>): (s: set<string>)
    ensures forall x :: x in s <==> exists metal :: metal in entries && x in entries[metal]
  {
    set metal, x | metal in entries && x in entries[metal] :: x
  }

  /** One labelled loop `for x in labels: nodes.append({...'id': node_id...}); node_id += 1`. */
  method AppendNodes(nodes0: seq<Node>, labels: seq<string>, color: string, size: nat, kind: NodeKind) returns (nodes: seq<Node>)
    ensures nodes == nodes0 + NodesFrom(|nodes0|, labels, color, size, kind)
  {
    nodes := nodes0;
    var nodeId := |nodes0|;
    var k := 0;
    while k < |labels|
      invariant 0 <= k <= |labels| && nodeId == |nodes|
      invariant nodes == nodes0 + NodesFrom(|nodes0|, labels[..k], color, size, kind)
    {
      nodes := nodes + [Node(nodeId, labels[k], color, size, kind)];
      nodeId := nodeId + 1;
      k := k + 1;
    }
    assert labels[..k] == labels;
  }

  /** `list(names)[:10]` for a set of names: at most ten of them, each once, in unspecified order. */
  method FirstTen(names: set<string>) returns (xs: seq<string>)
    ensures |xs| == Min(10, |names|) && Distinct(xs) && ToSet(xs) <= names
  {
    var all := SetToSeq(names);
    xs := Take(all, 10);
    forall a, b | 0 <= a < b < |xs| ensures xs[a] != xs[b] {
      assert xs[a] == all[a] && xs[b] == all[b];
    }
    forall x | x in ToSet(xs) ensures x in names {
      var a :| 0 <= a < |xs| && xs[a] == x;
      assert all[a] in ToSet(all);
    }
  }

  /** `shared_genes.get('All-Metals', [])` */
  function CoreGenes(shared: map<string, seq<string>>): seq<string> {
    if AllMetalsKey in shared then shared[AllMetalsKey] else []
  }

  /**
   * The pathway nodes fill positions `start..c` and the disease nodes
   * `c..|nodes|`: as many of each as `list(names)[:10]` yields, each name
   * once, with the kind's colour and size.
   */
  predicate Layout(nodes: seq<Node>, start: nat, c: nat, pathways: set<string>, diseases: set<string>) {
    start <= c <= |nodes|
    && c - start == Min(10, |pathways|)
    && |nodes| - c == Min(10, |diseases|)
    && (forall k :: start <= k < c ==>
          nodes[k].kind == PathwayNode && nodes[k].caption in pathways && nodes[k].color == "#3498db" && nodes[k].size == 20)
    && (forall k :: c <= k < |nodes| ==>
          nodes[k].kind == DiseaseNode && nodes[k].caption in diseases && nodes[k].color == "#9b59b6" && nodes[k].size == 22)
    && (forall a, b :: start <= a < b < c ==> nodes[a].caption != nodes[b].caption)
    && (forall a, b :: c <= a < b < |nodes| ==> nodes[a].caption != nodes[b].caption)
  }

  predicate NetworkLayout(nodes: seq<Node>, metals: seq<Metal>, shared: map<string, seq<string>>,
                          pathways: map<string, seq<string>>, diseases: map<string, seq<string>>, c: nat) {
    Layout(nodes, |metals| + |CoreGenes(shared)|, c, EntryNames(pathways), EntryNames(diseases))
  }

  /** `while ... for j, node in enumerate(nodes): if node['label'] == gene` over the first `n` nodes. */
  function Matches(from: nat, gene: string, nodes: seq<Node>, n: nat): seq<Edge>
    requires n <= |nodes|
  {
    if n == 0 then []
    else Matches(from, gene, nodes, n - 1) + (if nodes[n - 1].caption == gene then [Edge(from, n - 1, "#ccc", 1)] else [])
  }

  /** The edges from metal node `from` for each of `genes` in order. */
  function GeneEdges(from: nat, genes: seq<string>, nodes: seq<Node>): seq<Edge> {
    if genes == [] then []
    else GeneEdges(from, genes[..|genes| - 1], nodes) + Matches(from, genes[|genes| - 1], nodes, |nodes|)
  }

  /** The metal-to-gene edges of the first `i` METAL_GENES entries, each limited to its first five genes. */
  function MetalEdges(table: seq<GeneList>, nodes: seq<Node>, i: nat): seq<Edge>
    requires i <= |table|
  {
    if i == 0 then [] else MetalEdges(table, nodes, i - 1) + GeneEdges(i - 1, Take(table[i - 1].genes, 5), nodes)
  }

  predicate GoodEdge(table: seq<GeneList>, nodes: seq<Node>, e: Edge) {
    e.from < |table| && e.to < |nodes| && nodes[e.to].caption in Take(table[e.from].genes, 5)
    && e.color == "#ccc" && e.width == 1
  }

  lemma {:induction false} MatchesSound(from: nat, gene: string, nodes: seq<Node>, n: nat, e: Edge)
    requires n <= |nodes| && e in Matches(from, gene, nodes, n)
    ensures e.from == from && e.to < n && nodes[e.to].caption == gene && e.color == "#ccc" && e.width == 1
  {
    assert n > 0;
    if e in Matches(from, gene, nodes, n - 1) {
      MatchesSound(from, gene, nodes, n - 1, e);
    }
  }

  lemma {:induction false} GeneEdgesSound(from: nat, genes: seq<string>, nodes: seq<Node>, e: Edge)
    requires e in GeneEdges(from, genes, nodes)
    ensures e.from == from && e.to < |nodes| && nodes[e.to].caption in genes && e.color == "#ccc" && e.width == 1
  {
    assert genes != [];
    var init := genes[..|genes| - 1];
    if e in GeneEdges(from, init, nodes) {
      GeneEdgesSound(from, init, nodes, e);
      assert nodes[e.to].caption in init;
    } else {
      MatchesSound(from, genes[|genes| - 1], nodes, |nodes|, e);
    }
  }

  /** Every edge joins a metal to a node labelled with one of that metal's first five genes. */
  lemma {:induction false} MetalEdgesSound(table: seq<GeneList>, nodes: seq<Node>, i: nat, e: Edge)
    requires i <= |table| && e in MetalEdges(table, nodes, i)
    ensures e.from < i && GoodEdge(table, nodes, e)
  {
    assert i > 0;
    if e in MetalEdges(table, nodes, i - 1) {
      MetalEdgesSound(table, nodes, i - 1, e);
    } else {
      GeneEdgesSound(i - 1, Take(table[i - 1].genes, 5), nodes, e);
    }
  }

  lemma {:induction false} MatchesComplete(from: nat, gene: string, nodes: seq<Node>, n: nat, j: nat)
    requires j < n <= |nodes| && nodes[j].caption == gene
    ensures Edge(from, j, "#ccc", 1) in Matches(from, gene, nodes, n)
  {
    if j < n - 1 {
      MatchesComplete(from, gene, nodes, n - 1, j);
    }
  }

  lemma {:induction false} GeneEdgesComplete(from: nat, genes: seq<string>, nodes: seq<Node>, j: nat)
    requires j < |nodes| && nodes[j].caption in genes
    ensures Edge(from, j, "#ccc", 1) in GeneEdges(from, genes, nodes)
  {
    var last := genes[|genes| - 1];
    if nodes[j].caption == last {
      MatchesComplete(from, last, nodes, |nodes|, j);
    } else {
      var init := genes[..|genes| - 1];
      assert genes == init + [last];
      GeneEdgesComplete(from, init, nodes, j);
    }
  }

  /** An edge drawn for entry `from` stays in the edge list of every later prefix of the table. */
  lemma {:induction false} MetalEdgesHas(table: seq<GeneList>, nodes: seq<Node>, i: nat, from: nat, e: Edge)
    requires from < i <= |table| && e in GeneEdges(from, Take(table[from].genes, 5), nodes)
    ensures e in MetalEdges(table, nodes, i)
  {
    if from < i - 1 {
      MetalEdgesHas(table, nodes, i - 1, from, e);
    }
  }

  /** Each node labelled with one of a metal's first five genes is joined to that metal. */
  lemma MetalEdgesComplete(table: seq<GeneList>, nodes: seq<Node>, i: nat, from: nat, j: nat)
    requires from < i <= |table| && j < |nodes| && nodes[j].caption in Take(table[from].genes, 5)
    ensures Edge(from, j, "#ccc", 1) in MetalEdges(table, nodes, i)
  {
    GeneEdgesComplete(from, Take(table[from].genes, 5), nodes, j);
    MetalEdgesHas(table, nodes, i, from, Edge(from, j, "#ccc", 1));
  }

  method MatchLoop(from: nat, gene: string, nodes: seq<Node>) returns (edges: seq<Edge>)
    ensures edges == Matches(from, gene, nodes, |nodes|)
  {
    edges := [];
    var j := 0;
    while j < |nodes|
      invariant 0 <= j <= |nodes| && edges == Matches(from, gene, nodes, j)
    {
      if nodes[j].caption == gene {
        edges := edges + [Edge(from, j, "#ccc", 1)];
      }
      j := j + 1;
    }
  }

  method GeneLoop(from: nat, genes: seq<string>, nodes: seq<Node>) returns (edges: seq<Edge>)
    ensures edges == GeneEdges(from, genes, nodes)
  {
    edges := [];
    var k := 0;
    while k < |genes|
      invariant 0 <= k <= |genes| && edges == GeneEdges(from, genes[..k], nodes)
    {
      assert genes[..k + 1][..k] == genes[..k];
      var es := MatchLoop(from, genes[k], nodes);
      edges := edges + es;
      k := k + 1;
    }
    assert genes[..k] == genes;
  }

  /** The pathway and disease nodes appended after `prefix` make up the layout. */
  lemma LayoutOf(prefix: seq<Node>, pws: seq<string>, dss: seq<string>, pathways: set<string>, diseases: set<string>, nodes: seq<Node>)
    requires |pws| == Min(10, |pathways|) && Distinct(pws) && ToSet(pws) <= pathways
    requires |dss| == Min(10, |diseases|) && Distinct(dss) && ToSet(dss) <= diseases
    requires nodes == prefix + NodesFrom(|prefix|, pws, "#3498db", 20, PathwayNode)
                     + NodesFrom(|prefix| + |pws|, dss, "#9b59b6", 22, DiseaseNode)
    ensures Layout(nodes, |prefix|, |prefix| + |pws|, pathways, diseases)
  {
    var p := NodesFrom(|prefix|, pws, "#3498db", 20, PathwayNode);
    var d := NodesFrom(|prefix| + |pws|, dss, "#9b59b6", 22, DiseaseNode);
    var c := |prefix| + |pws|;
    forall k | |prefix| <= k < c ensures nodes[k] == p[k - |prefix|] && nodes[k].caption in pathways {
      assert pws[k - |prefix|] in ToSet(pws);
    }
    forall k | c <= k < |nodes| ensures nodes[k] == d[k - c] && nodes[k].caption in diseases {
      assert dss[k - c] in ToSet(dss);
    }
  }

  /** The metal nodes, then the core-gene nodes, numbered by position. */
  lemma PrefixShape(metals: seq<Metal>, core: seq<string>, prefix: seq<Node>)
    requires prefix == MetalNodes(metals) + NodesFrom(|metals|, core, "#e74c3c", 25, GeneNode)
    ensures Numbered(prefix) && |prefix| == |metals| + |core|
    ensures prefix[..|metals|] == MetalNodes(metals)
    ensures prefix[|metals|..] == NodesFrom(|metals|, core, "#e74c3c", 25, GeneNode)
  {
    var m := MetalNodes(metals);
    var g := NodesFrom(|metals|, core, "#e74c3c", 25, GeneNode);
    forall k | 0 <= k < |prefix| ensures prefix[k].id == k {
      if k < |m| {
        assert prefix[k] == m[k];
      } else {
        assert prefix[k] == g[k - |m|];
      }
    }
    assert prefix[..|metals|] == m;
    assert prefix[|metals|..] == g;
  }

  /** The pathway and disease loops: up to ten of each after `prefix`, numbered on from it. */
  method LayoutNodes(prefix: seq<Node>, pathways: set<string>, diseases: set<string>) returns (nodes: seq<Node>)
    ensures |prefix| <= |nodes| && nodes[..|prefix|] == prefix
    ensures forall k :: |prefix| <= k < |nodes| ==> nodes[k].id == k
    ensures Layout(nodes, |prefix|, |prefix| + Min(10, |pathways|), pathways, diseases)
  {
    var pws := FirstTen(pathways);
    nodes := AppendNodes(prefix, pws, "#3498db", 20, PathwayNode);
    var dss := FirstTen(diseases);
    ghost var p := NodesFrom(|prefix|, pws, "#3498db", 20, PathwayNode);
    assert |nodes| == |prefix| + |pws|;
    nodes := AppendNodes(nodes, dss, "#9b59b6", 22, DiseaseNode);
    ghost var d := NodesFrom(|prefix| + |pws|, dss, "#9b59b6", 22, DiseaseNode);
    assert nodes == prefix + p + d;
    LayoutOf(prefix, pws, dss, pathways, diseases, nodes);
    forall k | |prefix| <= k < |nodes| ensures nodes[k].id == k {
      if k < |prefix| + |pws| {
        assert nodes[k] == p[k - |prefix|];
      } else {
        assert nodes[k] == d[k - |prefix| - |pws|];
      }
    }
    assert nodes[..|prefix|] == prefix;
  }

  /** The node list: metals, core genes, then the pathway and disease layout; ids are positions. */
  method NetworkNodes(metals: seq<Metal>, pathways: map<string, seq<string>>,
                      diseases: map<string, seq<string>>, shared: map<string, seq<string>>)
    returns (nodes: seq<Node>)
    ensures Numbered(nodes) && |metals| + |CoreGenes(shared)| <= |nodes|
    ensures nodes[..|metals|] == MetalNodes(metals)
    ensures nodes[|metals|..|metals| + |CoreGenes(shared)|] == NodesFrom(|metals|, CoreGenes(shared), "#e74c3c", 25, GeneNode)
    ensures exists c :: NetworkLayout(nodes, metals, shared, pathways, diseases, c)
  {
    var core := CoreGenes(shared);
    var prefix := MetalNodes(metals);
    prefix := AppendNodes(prefix, core, "#e74c3c", 25, GeneNode);
    PrefixShape(metals, core, prefix);
    nodes := LayoutNodes(prefix, EntryNames(pathways), EntryNames(diseases));
    assert nodes[..|metals|] == prefix[..|metals|];
    assert nodes[|metals|..|metals| + |core|] == prefix[|metals|..];
    assert forall k :: 0 <= k < |prefix| ==> nodes[k] == prefix[k];
    assert NetworkLayout(nodes, metals, shared, pathways, diseases, |prefix| + Min(10, |EntryNames(pathways)|));
  }

  /** The edge loops: for each METAL_GENES entry `i`, each of its first five genes, each node with that label. */
  method NetworkEdges(table: seq<GeneList>, nodes: seq<Node>) returns (edges: seq<Edge>)
    ensures edges == MetalEdges(table, nodes, |table|)
  {
    edges := [];
    var i := 0;
    while i < |table|
      invariant 0 <= i <= |table| && edges == MetalEdges(table, nodes, i)
    {
      var es := GeneLoop(i, Take(table[i].genes, 5), nodes);
      edges := edges + es;
      i := i + 1;
    }
  }

  /**
   * The node and edge lists of `generate_disease_association_network`: the
   * metals, then the genes shared by all metals, then at most ten pathway
   * and ten disease names in set order; then for each METAL_GENES entry `i`
   * and each of its first five genes, one edge from node `i` to every node
   * with that label.
   */
  method NetworkGraph(metals: seq<Metal>, table: seq<GeneList>, pathways: map<string, seq<string>>,
                      diseases: map<string, seq<string>>, shared: map<string, seq<string>>)
    returns (nodes: seq<Node>, edges: seq<Edge>)
    ensures Numbered(nodes) && |metals| + |CoreGenes(shared)| <= |nodes|
    ensures nodes[..|metals|] == MetalNodes(metals)
    ensures nodes[|metals|..|metals| + |CoreGenes(shared)|] == NodesFrom(|metals|, CoreGenes(shared), "#e74c3c", 25, GeneNode)
    ensures exists c :: NetworkLayout(nodes, metals, shared, pathways, diseases, c)
    ensures edges == MetalEdges(table, nodes, |table|)
  {
    nodes := NetworkNodes(metals, pathways, diseases, shared);
    edges := NetworkEdges(table, nodes);
  }
}
