/**
 * lead_ckm_final.py: the CKM score, the unguarded correlation lines and
 * the mediation through systolic blood pressure.
 */
module LeadCkmFinal {
  import opened Common
  import opened CkmCommon

  /** `CKM_Score = HTN + DM + CHD + CKD + MetS`; stroke is read but not scored here. */
  function CkmScore(s: Subject, a: Answers): (score: real)
    ensures CodedAnswers(a) ==> 0.0 <= score <= 9.0
    ensures a.htn.None? && a.dm.None? && a.chd.None? && a.ckd.None? ==> score == MetS5(s) as real
  {
    if CodedAnswers(a) then RiskScoreRange(s, a); RiskScore(s, a) else RiskScore(s, a)
  }

  /** Every pair is printed, whatever its sample size, with "" when not significant. */
  function Correlations(tests: seq<PairTest>): (rows: seq<CorrRow>)
    ensures |rows| == |tests|
    ensures forall i :: 0 <= i < |rows| ==> rows[i] == Report(tests[i], "")
    ensures forall i :: 0 <= i < |rows| ==> rows[i].name == tests[i].name && rows[i].sig == SigLabel(tests[i].p, "")
  {
    seq(|tests|, i requires 0 <= i < |tests| => Report(tests[i], ""))
  }

  /** Paths a and b through SBP and the total effect c; the percentage is printed only when `c != 0`. */
  function Mediation(a: real, beta: seq<real>, c: real): (m: CkmCommon.Mediation)
    requires |beta| == 3
    ensures m.indirect == a * beta[2] && m.direct == beta[1]
    ensures m.ratio.Some? <==> c != 0.0
    ensures m.ratio.Some? ==> m.ratio.value * c == a * beta[2] * 100.0
  {
    Decompose(a, beta, c)
  }
}
