/** Jaccard similarity of two gene sets, shared by the PFAS and the multi-metal analyses. */
module GeneSets {
  import opened Common

  /** One item of an ordered dict from a name (compound, metal, pathway, disease) to its gene list. */
  datatype GeneList = GeneList(name: string, genes: seq<string>)

  /** `set(genes)` of an item. */
  function GeneSet(e: GeneList): set<string> { ToSet(e.genes) }

  /** `|a & b| / |a | b|`, and 0 when the union is empty. */
  function Jaccard(a: set<string>, b: set<string>): real {
    if |a + b| > 0 then (|a * b| as real) / (|a + b| as real) else 0.0
  }

  lemma JaccardSymmetric(a: set<string>, b: set<string>)
    ensures Jaccard(a, b) == Jaccard(b, a)
  {
    assert a * b == b * a && a + b == b + a;
  }

  /** The similarity is a fraction: the intersection never outgrows the union. */
  lemma JaccardRange(a: set<string>, b: set<string>)
    ensures 0.0 <= Jaccard(a, b) <= 1.0
  {
    if |a + b| > 0 {
      SubsetCard(a * b, a + b);
      DivAtMostOne(|a * b|, |a + b|);
    }
  }

  /** A non-empty set is identical to itself; an empty one has similarity 0 with anything empty. */
  lemma JaccardDiagonal(a: set<string>)
    ensures a != {} ==> Jaccard(a, a) == 1.0
    ensures a == {} ==> Jaccard(a, a) == 0.0
  {
    assert a * a == a && a + a == a;
    if a != {} {
      var x :| x in a;
      SubsetCard({x}, a);
    }
  }

  /** Disjoint gene sets have similarity 0. */
  lemma JaccardDisjoint(a: set<string>, b: set<string>)
    requires a * b == {}
    ensures Jaccard(a, b) == 0.0
  {
  }

  // ---------------------------------------------- pairs of lists sharing genes

  /**
   * The double loop `for i ... for j ... if i < j` over an ordered table of
   * gene lists (compounds in pfas_analysis.py, metals in
   * multi_metal_analysis.py): a pair of positions `i < j` and the genes the
   * two lists share.
   */
  datatype SharedPair = SharedPair(i: nat, j: nat, overlap: set<string>)

  predicate LexLess(p: SharedPair, q: SharedPair) { p.i < q.i || (p.i == q.i && p.j < q.j) }

  /** The record for the pair `(i, j)`, present only when the two lists share a gene. */
  function PairRow(lists: seq<GeneList>, i: nat, j: nat): seq<SharedPair>
    requires i < j < |lists|
  {
    var overlap := GeneSet(lists[i]) * GeneSet(lists[j]);
    if overlap != {} then [SharedPair(i, j, overlap)] else []
  }

  /** The records of the inner loop for `i`, stopped before index `j`. */
  function InnerPairs(lists: seq<GeneList>, i: nat, j: nat): seq<SharedPair>
    requires i < |lists| && j <= |lists|
    decreases j
  {
    if j <= i + 1 then [] else InnerPairs(lists, i, j - 1) + PairRow(lists, i, j - 1)
  }

  /** The rows of the outer loop over the first `i` lists. */
  function OuterPairs(lists: seq<GeneList>, i: nat): seq<SharedPair>
    requires i <= |lists|
  {
    if i == 0 then [] else OuterPairs(lists, i - 1) + InnerPairs(lists, i - 1, |lists|)
  }

  /** Every unordered pair with a shared gene, once, in loop order. */
  function SharedPairs(lists: seq<GeneList>): seq<SharedPair> {
    OuterPairs(lists, |lists|)
  }

  /** Every pair refers to positions of the table. */
  predicate InTable(lists: seq<GeneList>, ps: seq<SharedPair>) {
    forall k :: 0 <= k < |ps| ==> ps[k].i < |lists| && ps[k].j < |lists|
  }

  /** A row is a pair of table positions with a non-empty overlap. */
  predicate GoodRow(lists: seq<GeneList>, p: SharedPair) {
    p.i < p.j < |lists| && p.overlap == GeneSet(lists[p.i]) * GeneSet(lists[p.j]) != {}
  }

  lemma {:induction false} InnerPairsSound(lists: seq<GeneList>, i: nat, j: nat)
    requires i < |lists| && j <= |lists|
    ensures forall k :: 0 <= k < |InnerPairs(lists, i, j)| ==>
      (InnerPairs(lists, i, j)[k].i == i && InnerPairs(lists, i, j)[k].j < j && GoodRow(lists, InnerPairs(lists, i, j)[k]))
    ensures forall a, b :: 0 <= a < b < |InnerPairs(lists, i, j)| ==>
      InnerPairs(lists, i, j)[a].j < InnerPairs(lists, i, j)[b].j
    decreases j
  {
    if j > i + 1 {
      InnerPairsSound(lists, i, j - 1);
    }
  }

  lemma {:induction false} OuterPairsSound(lists: seq<GeneList>, i: nat)
    requires i <= |lists|
    ensures forall k :: 0 <= k < |OuterPairs(lists, i)| ==>
      (OuterPairs(lists, i)[k].i < i && GoodRow(lists, OuterPairs(lists, i)[k]))
    ensures forall a, b :: 0 <= a < b < |OuterPairs(lists, i)| ==>
      LexLess(OuterPairs(lists, i)[a], OuterPairs(lists, i)[b])
  {
    if i > 0 {
      OuterPairsSound(lists, i - 1);
      InnerPairsSound(lists, i - 1, |lists|);
      var prev := OuterPairs(lists, i - 1);
      var inner := InnerPairs(lists, i - 1, |lists|);
      var ps := prev + inner;
      forall a, b | 0 <= a < b < |ps| ensures LexLess(ps[a], ps[b]) {
        if b < |prev| {
          assert ps[a] == prev[a] && ps[b] == prev[b];
        } else if a < |prev| {
          assert ps[a] == prev[a] && ps[b] == inner[b - |prev|];
        } else {
          assert ps[a] == inner[a - |prev|] && ps[b] == inner[b - |prev|];
        }
      }
    }
  }

  /** The rows list every pair of lists that share a gene, each pair once, in `i`-then-`j` order. */
  lemma SharedPairsSound(lists: seq<GeneList>)
    ensures forall k :: 0 <= k < |SharedPairs(lists)| ==> GoodRow(lists, SharedPairs(lists)[k])
    ensures forall a, b :: 0 <= a < b < |SharedPairs(lists)| ==> LexLess(SharedPairs(lists)[a], SharedPairs(lists)[b])
  {
    OuterPairsSound(lists, |lists|);
  }

  lemma {:induction false} InnerPairsComplete(lists: seq<GeneList>, i: nat, j: nat, j0: nat)
    requires i < j0 < j <= |lists|
    requires GeneSet(lists[i]) * GeneSet(lists[j0]) != {}
    ensures exists k :: 0 <= k < |InnerPairs(lists, i, j)| && InnerPairs(lists, i, j)[k].j == j0
    decreases j
  {
    var ps := InnerPairs(lists, i, j);
    if j0 == j - 1 {
      assert ps[|ps| - 1].j == j0;
    } else {
      InnerPairsComplete(lists, i, j - 1, j0);
      var k :| 0 <= k < |InnerPairs(lists, i, j - 1)| && InnerPairs(lists, i, j - 1)[k].j == j0;
      assert ps[k] == InnerPairs(lists, i, j - 1)[k];
    }
  }

  lemma {:induction false} OuterPairsComplete(lists: seq<GeneList>, i: nat, i0: nat, j0: nat)
    requires i0 < i <= |lists| && i0 < j0 < |lists|
    requires GeneSet(lists[i0]) * GeneSet(lists[j0]) != {}
    ensures exists k :: 0 <= k < |OuterPairs(lists, i)| && OuterPairs(lists, i)[k].i == i0 && OuterPairs(lists, i)[k].j == j0
  {
    var prev := OuterPairs(lists, i - 1);
    var inner := InnerPairs(lists, i - 1, |lists|);
    var ps := OuterPairs(lists, i);
    assert ps == prev + inner;
    if i0 == i - 1 {
      InnerPairsComplete(lists, i0, |lists|, j0);
      InnerPairsSound(lists, i0, |lists|);
      var k :| 0 <= k < |inner| && inner[k].j == j0;
      assert ps[|prev| + k] == inner[k];
    } else {
      OuterPairsComplete(lists, i - 1, i0, j0);
      var k :| 0 <= k < |prev| && prev[k].i == i0 && prev[k].j == j0;
      assert ps[k] == prev[k];
    }
  }

  /** Each pair of lists that shares a gene has a row. */
  lemma SharedPairsComplete(lists: seq<GeneList>, i: nat, j: nat)
    requires i < j < |lists| && GeneSet(lists[i]) * GeneSet(lists[j]) != {}
    ensures exists k :: 0 <= k < |SharedPairs(lists)| && SharedPairs(lists)[k].i == i && SharedPairs(lists)[k].j == j
  {
    OuterPairsComplete(lists, |lists|, i, j);
    var k :| 0 <= k < |OuterPairs(lists, |lists|)| && OuterPairs(lists, |lists|)[k].i == i && OuterPairs(lists, |lists|)[k].j == j;
    assert SharedPairs(lists)[k].i == i && SharedPairs(lists)[k].j == j;
  }

  /** Every gene of any of the lists: the `set.update` loop over a table. */
  function UnionOf(lists: seq<GeneList>): (u: set<string>)
    ensures forall g :: g in u <==> exists k :: 0 <= k < |lists| && g in lists[k].genes
  {
    if lists == [] then {}
    else
      var init := lists[..|lists| - 1];
      var u := UnionOf(init);
      assert forall k :: 0 <= k < |init| ==> init[k] == lists[k];
      u + GeneSet(lists[|lists| - 1])
  }

  lemma UnionOfStep(lists: seq<GeneList>, k: nat)
    requires k < |lists|
    ensures UnionOf(lists[..k + 1]) == UnionOf(lists[..k]) + GeneSet(lists[k])
  {
    assert lists[..k + 1][..k] == lists[..k];
  }

  /** One more step of the inner loop adds the pair `(i, j)` when `i < j`, and nothing before. */
  lemma InnerPairsStep(lists: seq<GeneList>, i: nat, j: nat)
    requires i < |lists| && j < |lists|
    ensures InnerPairs(lists, i, j + 1) == InnerPairs(lists, i, j) + (if i < j then PairRow(lists, i, j) else [])
  {
  }
}
