/**
 * Per-participant rules shared by the four cardio-kidney-metabolic (CKM)
 * scripts: the metabolic-syndrome flags, the questionnaire recode, the
 * composite risk score, the p-value significance label, the reported
 * correlation rows and the mediation decomposition.
 *
 * A measurement that is missing after the NHANES merges is a pandas NaN;
 * every comparison with NaN is False, so a missing value never raises a
 * flag, and `np.where(Gender == 2, ...)` takes the male branch when the
 * gender is missing.
 */
module CkmCommon {
  import opened Common

  /** The measured columns of one participant (RIAGENDR, BMXWAIST, LBXTLG, LBDHDD, BPXOSY1, BPXODI1, LBXGH). */
  datatype Subject = Subject(
    gender: Option<real>, waist: Option<real>, tg: Option<real>, hdl: Option<real>,
    sbp: Option<real>, dbp: Option<real>, hba1c: Option<real>)

  /**
   * The doctor-told questionnaire answers (MCQ and BPQ items): 1 = yes,
   * 2 = no, 7 = refused, 9 = don't know, or missing.
   */
  datatype Answers = Answers(
    htn: Option<real>, dm: Option<real>, chd: Option<real>, ckd: Option<real>, stroke: Option<real>)

  /** `bool.astype(float)` / `astype(int)`. */
  function Flag(b: bool): (f: int)
    ensures f == 0 || f == 1
    ensures f == 1 <==> b
  {
    if b then 1 else 0
  }

  /** `x > t` on a column that may hold NaN. */
  predicate Gt(x: Option<real>, t: real) { x.Some? && x.value > t }
  predicate Ge(x: Option<real>, t: real) { x.Some? && x.value >= t }
  predicate Lt(x: Option<real>, t: real) { x.Some? && x.value < t }

  /** `Gender == 2` */
  predicate IsFemale(s: Subject) { s.gender == Some(2.0) }

  function HighWaist(s: Subject): (f: int)
    ensures f == 0 || f == 1
    ensures f == 1 <==> s.waist.Some? && s.waist.value > (if s.gender == Some(2.0) then 80.0 else 90.0)
  {
    Flag(if IsFemale(s) then Gt(s.waist, 80.0) else Gt(s.waist, 90.0))
  }

  function HighTG(s: Subject): (f: int)
    ensures f == 0 || f == 1
    ensures f == 1 <==> s.tg.Some? && s.tg.value >= 150.0
  {
    Flag(Ge(s.tg, 150.0))
  }

  function LowHDL(s: Subject): (f: int)
    ensures f == 0 || f == 1
    ensures f == 1 <==> s.hdl.Some? && s.hdl.value < (if s.gender == Some(2.0) then 50.0 else 40.0)
  {
    Flag(if IsFemale(s) then Lt(s.hdl, 50.0) else Lt(s.hdl, 40.0))
  }

  /** Either blood-pressure reading at or over 130/85 sets the flag; a missing reading only counts out itself. */
  function HighBP(s: Subject): (f: int)
    ensures f == 0 || f == 1
    ensures f == 1 <==> (s.sbp.Some? && s.sbp.value >= 130.0) || (s.dbp.Some? && s.dbp.value >= 85.0)
  {
    Flag(Ge(s.sbp, 130.0) || Ge(s.dbp, 85.0))
  }

  /** Also called `High_Glucose` (HbA1c 5.7% or more stands in for fasting glucose). */
  function HighHbA1c(s: Subject): (f: int)
    ensures f == 0 || f == 1
    ensures f == 1 <==> s.hba1c.Some? && s.hba1c.value >= 5.7
  {
    Flag(Ge(s.hba1c, 5.7))
  }

  /** The five-criterion metabolic-syndrome count (`MetS`, `MetS_Score`). */
  function MetS5(s: Subject): (m: int)
    ensures 0 <= m <= 5
    ensures m == 0 <==> HighWaist(s) == 0 && HighTG(s) == 0 && LowHDL(s) == 0 && HighBP(s) == 0 && HighHbA1c(s) == 0
    ensures m == 5 <==> HighWaist(s) == 1 && HighTG(s) == 1 && LowHDL(s) == 1 && HighBP(s) == 1 && HighHbA1c(s) == 1
  {
    HighWaist(s) + HighTG(s) + LowHDL(s) + HighBP(s) + HighHbA1c(s)
  }

  /** Only the female thresholds apply to a participant coded 2; everyone else, missing gender included, gets the male ones. */
  lemma SexSpecificThresholds(s: Subject, w: real, h: real)
    requires s.waist == Some(w) && s.hdl == Some(h)
    ensures IsFemale(s) ==> (HighWaist(s) == 1 <==> w > 80.0) && (LowHDL(s) == 1 <==> h < 50.0)
    ensures !IsFemale(s) ==> (HighWaist(s) == 1 <==> w > 90.0) && (LowHDL(s) == 1 <==> h < 40.0)
  {
  }

  /** A participant with no measurements at all has no metabolic risk flag. */
  lemma MissingMeansNoFlag(s: Subject)
    requires s.waist.None? && s.tg.None? && s.hdl.None? && s.sbp.None? && s.dbp.None? && s.hba1c.None?
    ensures MetS5(s) == 0
  {
  }

  /** `col.fillna(0).replace({2: 0, 7: 0, 9: 0})` */
  function Recode(a: Option<real>): (r: real)
    ensures a == Some(1.0) ==> r == 1.0
    ensures a.None? || a == Some(2.0) || a == Some(7.0) || a == Some(9.0) ==> r == 0.0
    ensures a.Some? && a.value != 2.0 && a.value != 7.0 && a.value != 9.0 ==> r == a.value
  {
    var v := a.GetOr(0.0);
    if v == 2.0 || v == 7.0 || v == 9.0 then 0.0 else v
  }

  /** The answer is one of NHANES's codes 1, 2, 7, 9, or missing. */
  predicate CodedAnswer(a: Option<real>) {
    a.None? || a.value == 1.0 || a.value == 2.0 || a.value == 7.0 || a.value == 9.0
  }

  /** On coded answers the recode is a 0/1 indicator of "yes". */
  lemma RecodeBinary(a: Option<real>)
    requires CodedAnswer(a)
    ensures Recode(a) == 0.0 || Recode(a) == 1.0
    ensures Recode(a) == 1.0 <==> a == Some(1.0)
  {
  }

  predicate CodedAnswers(a: Answers) {
    CodedAnswer(a.htn) && CodedAnswer(a.dm) && CodedAnswer(a.chd) && CodedAnswer(a.ckd)
  }

  /**
   * `CKM_Risk_Score` of lead_ckm_complete.py and `CKM_Score` of
   * lead_ckm_final.py: the four recoded diagnoses plus the five-flag MetS.
   */
  function RiskScore(s: Subject, a: Answers): real {
    Recode(a.htn) + Recode(a.dm) + Recode(a.chd) + Recode(a.ckd) + MetS5(s) as real
  }

  /** On coded answers the score lies in 0..9 (the comment's "0-10" over-states the top). */
  lemma RiskScoreRange(s: Subject, a: Answers)
    requires CodedAnswers(a)
    ensures 0.0 <= RiskScore(s, a) <= 9.0
    ensures RiskScore(s, a) == 9.0 <==> a.htn == Some(1.0) && a.dm == Some(1.0) && a.chd == Some(1.0) && a.ckd == Some(1.0) && MetS5(s) == 5
  {
    RecodeBinary(a.htn);
    RecodeBinary(a.dm);
    RecodeBinary(a.chd);
    RecodeBinary(a.ckd);
  }

  /** The Spearman p-value label: strict thresholds 0.001, 0.01, 0.05, and `ns` otherwise. */
  function SigLabel(p: real, ns: string): (l: string)
    ensures p < 0.001 ==> l == "***"
    ensures 0.001 <= p < 0.01 ==> l == "**"
    ensures 0.01 <= p < 0.05 ==> l == "*"
    ensures p >= 0.05 ==> l == ns
  {
    if p < 0.001 then "***" else if p < 0.01 then "**" else if p < 0.05 then "*" else ns
  }

  /** A smaller p-value never earns fewer stars. */
  lemma SigLabelMonotone(p: real, q: real)
    requires p <= q
    ensures |SigLabel(p, "")| >= |SigLabel(q, "")|
  {
  }

  /** One association of blood lead with a CKM column: paired rows left after `dropna`, Spearman r and p. */
  datatype PairTest = PairTest(name: string, n: nat, r: real, p: real)

  /** One reported correlation (`round(r, 3)` is not modelled; see the README). */
  datatype CorrRow = CorrRow(name: string, r: real, p: real, sig: string)

  function Report(t: PairTest, ns: string): CorrRow {
    CorrRow(t.name, t.r, t.p, SigLabel(t.p, ns))
  }

  /** The `if len(data) > 100:` guard around each association. */
  function GuardedRow(t: PairTest, ns: string): (row: Option<CorrRow>)
    ensures row.Some? <==> t.n > 100
    ensures row.Some? ==> row.value.name == t.name && row.value.sig == SigLabel(t.p, ns)
  {
    if t.n > 100 then Some(Report(t, ns)) else None
  }

  /** The `results` list: one row per association with more than 100 paired rows, in the order of `pairs`. */
  function GuardedResults(tests: seq<PairTest>, ns: string): (rows: seq<CorrRow>)
    ensures |rows| <= |tests|
    ensures forall i :: 0 <= i < |rows| ==> rows[i].sig == SigLabel(rows[i].p, ns)
    ensures (forall i :: 0 <= i < |tests| ==> tests[i].n > 100) ==> |rows| == |tests|
    ensures (forall i :: 0 <= i < |tests| ==> tests[i].n <= 100) ==> rows == []
  {
    if tests == [] then []
    else
      var rest := GuardedResults(tests[1..], ns);
      if tests[0].n > 100 then [Report(tests[0], ns)] + rest else rest
  }

  /** `row` is the report of some association of `tests` with more than 100 paired rows. */
  predicate ReportOfGuarded(tests: seq<PairTest>, ns: string, row: CorrRow) {
    exists j :: 0 <= j < |tests| && tests[j].n > 100 && row == Report(tests[j], ns)
  }

  /** Every reported row is the report of an association with more than 100 paired rows. */
  lemma {:induction false} GuardedResultsSound(tests: seq<PairTest>, ns: string)
    ensures forall i :: 0 <= i < |GuardedResults(tests, ns)| ==> ReportOfGuarded(tests, ns, GuardedResults(tests, ns)[i])
  {
    if tests != [] {
      GuardedResultsSound(tests[1..], ns);
      var rest := GuardedResults(tests[1..], ns);
      var rows := GuardedResults(tests, ns);
      forall i | 0 <= i < |rest| ensures ReportOfGuarded(tests, ns, rest[i]) {
        assert ReportOfGuarded(tests[1..], ns, rest[i]);
        var j :| 0 <= j < |tests[1..]| && tests[1..][j].n > 100 && rest[i] == Report(tests[1..][j], ns);
        assert tests[j + 1] == tests[1..][j];
      }
      if tests[0].n > 100 {
        assert rows == [Report(tests[0], ns)] + rest;
        forall i | 0 <= i < |rows| ensures ReportOfGuarded(tests, ns, rows[i]) {
          if i == 0 {
            assert rows[0] == Report(tests[0], ns);
          } else {
            assert rows[i] == rest[i - 1];
          }
        }
      } else {
        assert rows == rest;
      }
    }
  }

  /** Every association with more than 100 paired rows is reported. */
  lemma {:induction false} GuardedResultsComplete(tests: seq<PairTest>, ns: string)
    ensures forall j :: 0 <= j < |tests| && tests[j].n > 100 ==> Report(tests[j], ns) in GuardedResults(tests, ns)
  {
    if tests != [] {
      GuardedResultsComplete(tests[1..], ns);
      forall j | 1 <= j < |tests| && tests[j].n > 100 ensures Report(tests[j], ns) in GuardedResults(tests, ns) {
        assert tests[1..][j - 1] == tests[j];
      }
    }
  }

  /** The list keeps the order of `pairs`: the results of two runs of pairs, one after the other. */
  lemma {:induction false} GuardedResultsAppend(a: seq<PairTest>, b: seq<PairTest>, ns: string)
    ensures GuardedResults(a + b, ns) == GuardedResults(a, ns) + GuardedResults(b, ns)
  {
    if a == [] {
      assert a + b == b;
    } else {
      var ab := a + b;
      assert ab[0] == a[0] && ab[1..] == a[1..] + b;
      GuardedResultsAppend(a[1..], b, ns);
      assert GuardedResults(ab[1..], ns) == GuardedResults(a[1..], ns) + GuardedResults(b, ns);
    }
  }

  /** A single association contributes exactly its guarded row. */
  lemma GuardedResultsSingle(t: PairTest, ns: string)
    ensures GuardedResults([t], ns) == if t.n > 100 then [Report(t, ns)] else []
  {
  }

  /** The decomposition of a total effect `c` into `a·b` through the mediator and the direct `c'`. */
  datatype Mediation = Mediation(indirect: real, direct: real, ratio: Option<real>)

  /**
   * `beta` is the least-squares fit of Y on [1, X, M]: `beta[1]` is the
   * direct effect of X and `beta[2]` the effect `b` of the mediator. The
   * mediated percentage `indirect / c * 100` only exists when `c != 0`.
   */
  function Decompose(a: real, beta: seq<real>, c: real): (m: Mediation)
    requires |beta| == 3
    ensures m.indirect == a * beta[2]
    ensures m.direct == beta[1]
    ensures m.ratio.Some? <==> c != 0.0
    ensures m.ratio.Some? ==> m.ratio.value * c == m.indirect * 100.0
  {
    var indirect := a * beta[2];
    Mediation(indirect, beta[1], if c != 0.0 then Some(indirect / c * 100.0) else None)
  }

  /**
   * When the total effect splits exactly into its two paths (as it does for
   * least squares on the same rows), the mediated share and the direct
   * share add up to 100%.
   */
  lemma SharesAddUp(a: real, beta: seq<real>, c: real)
    requires |beta| == 3 && c != 0.0
    requires c == a * beta[2] + beta[1]
    ensures Decompose(a, beta, c).ratio.value + beta[1] / c * 100.0 == 100.0
  {
    var m := Decompose(a, beta, c);
    calc {
      m.ratio.value + beta[1] / c * 100.0;
      (a * beta[2]) / c * 100.0 + beta[1] / c * 100.0;
      (a * beta[2] + beta[1]) / c * 100.0;
      c / c * 100.0;
    }
  }
}
