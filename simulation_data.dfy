/** test_and_visualize.py `generate_simulation_data`: the indicator columns and the SEQN numbering. */
module SimulationData {
  import opened CkmCommon

  /** `n = 500` simulated participants. */
  const Participants: nat := 500

  /** `MetS = High_TG + Low_HDL + High_BP + High_HbA1c` (no waist flag). */
  function MetS4(s: Subject): (m: int)
    ensures 0 <= m <= 4
    ensures m == 4 <==> HighTG(s) == 1 && LowHDL(s) == 1 && HighBP(s) == 1 && HighHbA1c(s) == 1
    ensures m == MetS5(s) - HighWaist(s)
  {
    HighTG(s) + LowHDL(s) + HighBP(s) + HighHbA1c(s)
  }

  /** `range(1, n + 1)` */
  function Seqn(n: nat): (ids: seq<int>)
    ensures |ids| == n
    ensures forall i :: 0 <= i < n ==> ids[i] == i + 1
    ensures forall i, j :: 0 <= i < j < n ==> ids[i] < ids[j]
  {
    seq(n, i => i + 1)
  }

  /** The simulated identifiers are 1..500, increasing, none repeated. */
  lemma SimulatedIds()
    ensures |Seqn(Participants)| == 500
    ensures Seqn(Participants)[0] == 1 && Seqn(Participants)[499] == 500
    ensures Common.Distinct(Seqn(Participants))
  {
  }
}
