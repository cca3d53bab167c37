/** lead_ckm_analysis.py: the three-flag metabolic score and its CKM risk score. */
module LeadCkmAnalysis {
  import opened Common
  import opened CkmCommon

  /** Waist and blood pressure are not part of this script's score. */
  function MetS3(s: Subject): (m: int)
    ensures 0 <= m <= 3
    ensures m == MetS5(s) - HighWaist(s) - HighBP(s)
    ensures m == 3 <==> Ge(s.tg, 150.0) && Ge(s.hba1c, 5.7) && LowHDL(s) == 1
    ensures m == 0 <==> !Ge(s.tg, 150.0) && !Ge(s.hba1c, 5.7) && LowHDL(s) == 0
  {
    HighTG(s) + LowHDL(s) + HighHbA1c(s)
  }

  function RiskScore7(s: Subject, a: Answers): real {
    Recode(a.htn) + Recode(a.dm) + Recode(a.chd) + Recode(a.ckd) + MetS3(s) as real
  }

  /** The "(0-7)" of the comment holds on coded answers, and the top is reached. */
  lemma RiskScore7Range(s: Subject, a: Answers)
    requires CodedAnswers(a)
    ensures 0.0 <= RiskScore7(s, a) <= 7.0
    ensures RiskScore7(s, a) == 7.0 <==> a.htn == Some(1.0) && a.dm == Some(1.0) && a.chd == Some(1.0) && a.ckd == Some(1.0) && MetS3(s) == 3
  {
    RecodeBinary(a.htn);
    RecodeBinary(a.dm);
    RecodeBinary(a.chd);
    RecodeBinary(a.ckd);
  }

  /** The analysis score never exceeds the five-flag score of the other scripts. */
  lemma RiskScore7AtMostRiskScore(s: Subject, a: Answers)
    ensures RiskScore7(s, a) <= RiskScore(s, a)
    ensures RiskScore(s, a) - RiskScore7(s, a) == (HighWaist(s) + HighBP(s)) as real
  {
  }

  /** Rows with more than 100 pairs only, labelled "NS" when not significant. */
  function Correlations(tests: seq<PairTest>): (rows: seq<CorrRow>)
    ensures |rows| <= |tests|
    ensures forall i :: 0 <= i < |rows| ==> rows[i].sig in {"***", "**", "*", "NS"}
    ensures forall i :: 0 <= i < |rows| ==> ReportOfGuarded(tests, "NS", rows[i])
    ensures forall j :: 0 <= j < |tests| && tests[j].n > 100 ==> Report(tests[j], "NS") in rows
  {
    GuardedResultsSound(tests, "NS");
    GuardedResultsComplete(tests, "NS");
    GuardedResults(tests, "NS")
  }
}
