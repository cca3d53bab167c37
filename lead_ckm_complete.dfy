/**
 * lead_ckm_complete.py: the points-and-cap CKM stage, the Spearman
 * results table and the mediation analysis through the TyG index.
 */
module LeadCkmComplete {
  import opened Common
  import opened CkmCommon

  /** The columns the points-based `get_ckm_stage` reads. */
  datatype StageInputs = StageInputs(mets: int, diabetes: real, heart: real, kidney: real)

  function Columns(s: Subject, a: Answers): (x: StageInputs)
    ensures 0 <= x.mets <= 5
  {
    StageInputs(MetS5(s), Recode(a.dm), Recode(a.chd), Recode(a.ckd))
  }

  /** 2 points for metabolic disease, else 1 for any risk factor; 2 more for heart or kidney disease. */
  function MetabolicPoints(x: StageInputs): (p: int)
    ensures p == 2 <==> x.mets >= 3 || x.diabetes == 1.0
    ensures p == 1 <==> !(x.mets >= 3 || x.diabetes == 1.0) && x.mets >= 1
    ensures 0 <= p <= 2
  {
    if x.mets >= 3 || x.diabetes == 1.0 then 2 else if x.mets >= 1 then 1 else 0
  }

  function OrganPoints(x: StageInputs): (p: int)
    ensures p == 2 <==> x.heart == 1.0 || x.kidney == 1.0
    ensures p == 0 || p == 2
  {
    if x.heart == 1.0 || x.kidney == 1.0 then 2 else 0
  }

  /** `min(score, 4)` */
  function CkmStage(x: StageInputs): (stage: int)
    ensures 0 <= stage <= 4
    ensures stage == MetabolicPoints(x) + OrganPoints(x)
  {
    Min(MetabolicPoints(x) + OrganPoints(x), 4)
  }

  /** Heart or kidney disease alone already reaches stage 2. */
  lemma OrganDiseaseAtLeastTwo(x: StageInputs)
    requires x.heart == 1.0 || x.kidney == 1.0
    ensures CkmStage(x) >= 2
  {
  }

  /** Stage 3 needs one or two risk factors, no diabetes, and heart or kidney disease. */
  lemma StageThree(x: StageInputs)
    ensures CkmStage(x) == 3 <==>
      1 <= x.mets <= 2 && x.diabetes != 1.0 && (x.heart == 1.0 || x.kidney == 1.0)
  {
  }

  /** Stage 1 never comes with organ disease: odd stages below 3 are metabolic only. */
  lemma StageOne(x: StageInputs)
    ensures CkmStage(x) == 1 <==>
      1 <= x.mets <= 2 && x.diabetes != 1.0 && x.heart != 1.0 && x.kidney != 1.0
  {
  }

  /** More risk factors never lower the stage. */
  lemma StageMonotoneInMetS(x: StageInputs, m: int)
    requires x.mets <= m
    ensures CkmStage(x) <= CkmStage(x.(mets := m))
  {
  }

  /** The `results` list of Spearman correlations, "NS" when not significant. */
  function Correlations(tests: seq<PairTest>): (rows: seq<CorrRow>)
    ensures |rows| <= |tests|
    ensures forall i :: 0 <= i < |rows| ==> rows[i].sig in {"***", "**", "*", "NS"}
    ensures forall i :: 0 <= i < |rows| ==> ReportOfGuarded(tests, "NS", rows[i])
    ensures forall j :: 0 <= j < |tests| && tests[j].n > 100 ==> Report(tests[j], "NS") in rows
  {
    GuardedResultsSound(tests, "NS");
    GuardedResultsComplete(tests, "NS");
    GuardedResults(tests, "NS")
  }

  /** The TyG mediation: path a (lead to TyG), the 3-column fit of CKM risk, path c. */
  function Mediation(slopeA: real, betaB: seq<real>, slopeC: real): (m: CkmCommon.Mediation)
    requires |betaB| == 3
    ensures m.indirect == slopeA * betaB[2] && m.direct == betaB[1]
    ensures m.ratio.Some? <==> slopeC != 0.0
  {
    Decompose(slopeA, betaB, slopeC)
  }
}
