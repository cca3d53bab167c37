/**
 * lead_ckm_aop.py: CKM staging as a first-match ladder over the recoded
 * diagnoses and the metabolic-syndrome count, and the share of high blood
 * lead within each stage.
 */
module LeadCkmAop {
  import opened Common
  import opened CkmCommon

  /** The derived columns `get_ckm_stage` reads from one row. */
  datatype StageInputs = StageInputs(htn: real, dm: real, chd: real, ckd: real, stroke: real, mets: int)

  /** The columns HTN, DM, CHD, CKD, Stroke (recoded) and MetS of one participant. */
  function Columns(s: Subject, a: Answers): (x: StageInputs)
    ensures 0 <= x.mets <= 5
    ensures CodedAnswer(a.chd) ==> (x.chd == 1.0 <==> a.chd == Some(1.0))
  {
    StageInputs(Recode(a.htn), Recode(a.dm), Recode(a.chd), Recode(a.ckd), Recode(a.stroke), MetS5(s))
  }

  predicate ClinicalDisease(x: StageInputs) { x.chd == 1.0 || x.ckd == 1.0 || x.stroke == 1.0 }

  /** Stage 4 clinical disease, 3 hypertension with diabetes, 2 metabolic disease, 1 risk factors, 0 none. */
  function CkmStage(x: StageInputs): (stage: int)
    ensures 0 <= stage <= 4
    ensures ClinicalDisease(x) ==> stage == 4
    ensures stage == 4 ==> ClinicalDisease(x)
  {
    if ClinicalDisease(x) then 4
    else if x.htn == 1.0 && x.dm == 1.0 then 3
    else if x.dm == 1.0 || x.mets >= 3 then 2
    else if x.mets >= 1 then 1
    else 0
  }

  lemma StageThree(x: StageInputs)
    ensures CkmStage(x) == 3 <==> !ClinicalDisease(x) && x.htn == 1.0 && x.dm == 1.0
  {
  }

  lemma StageTwo(x: StageInputs)
    ensures CkmStage(x) == 2 <==>
      !ClinicalDisease(x) && !(x.htn == 1.0 && x.dm == 1.0) && (x.dm == 1.0 || x.mets >= 3)
  {
  }

  /** Stage 0 is exactly "no risk factor, no diabetes, no clinical disease". */
  lemma StageZero(x: StageInputs)
    requires x.mets >= 0
    ensures CkmStage(x) == 0 <==> x.mets == 0 && x.dm != 1.0 && !ClinicalDisease(x)
  {
  }

  /** More metabolic risk factors never lower the stage. */
  lemma StageMonotoneInMetS(x: StageInputs, m: int)
    requires x.mets <= m
    ensures CkmStage(x) <= CkmStage(x.(mets := m))
  {
  }

  /** One participant of `df_clean`: the computed stage and the measured blood lead. */
  datatype LeadRow = LeadRow(stage: int, lead: real)

  /** `len(df_clean[df_clean['CKM_Stage'] == k])` */
  function GroupSize(rows: seq<LeadRow>, k: int): nat {
    if rows == [] then 0
    else GroupSize(rows[..|rows| - 1], k) + (if rows[|rows| - 1].stage == k then 1 else 0)
  }

  /** `(stage_data['Blood_Lead'] > 5).sum()`: strictly above 5 µg/dL. */
  function HighCount(rows: seq<LeadRow>, k: int): nat {
    if rows == [] then 0
    else
      var last := rows[|rows| - 1];
      HighCount(rows[..|rows| - 1], k) + (if last.stage == k && last.lead > 5.0 then 1 else 0)
  }

  lemma {:induction false} HighCountBound(rows: seq<LeadRow>, k: int)
    ensures HighCount(rows, k) <= GroupSize(rows, k)
  {
    if rows != [] {
      HighCountBound(rows[..|rows| - 1], k);
    }
  }

  /** A reading of exactly 5 µg/dL does not count as high. */
  lemma BoundaryNotHigh(rows: seq<LeadRow>, k: int)
    ensures HighCount(rows + [LeadRow(k, 5.0)], k) == HighCount(rows, k)
    ensures GroupSize(rows + [LeadRow(k, 5.0)], k) == GroupSize(rows, k) + 1
  {
    assert (rows + [LeadRow(k, 5.0)])[..|rows|] == rows;
  }

  /** The printed percentage for stage `k`, skipped (None) for an empty stage. */
  function HighLeadShare(rows: seq<LeadRow>, k: int): (pct: Option<real>)
    ensures pct.Some? <==> GroupSize(rows, k) > 0
    ensures pct.Some? ==> 0.0 <= pct.value <= 100.0
    ensures pct.Some? ==> pct.value * (GroupSize(rows, k) as real) == (HighCount(rows, k) as real) * 100.0
  {
    var g := GroupSize(rows, k);
    if g == 0 then None
    else
      HighCountBound(rows, k);
      DivAtMostOne(HighCount(rows, k), g);
      var frac := (HighCount(rows, k) as real) / (g as real);
      Some(frac * 100.0)
  }

  /** `for stage in range(5)`: the shares of the five stages, in stage order. */
  function StageShares(rows: seq<LeadRow>): (shares: seq<Option<real>>)
    ensures |shares| == 5
    ensures forall k :: 0 <= k < 5 ==> shares[k] == HighLeadShare(rows, k)
  {
    seq(5, k => HighLeadShare(rows, k))
  }

  /** The correlation line for one column pair, printed only with more than 100 paired rows and "" when not significant. */
  function AopCorrelation(t: PairTest): (row: Option<CorrRow>)
    ensures row.Some? <==> t.n > 100
    ensures row.Some? && t.p >= 0.05 ==> row.value.sig == ""
  {
    GuardedRow(t, "")
  }
}
