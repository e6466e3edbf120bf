/** What a single risk factor does to a score, and in which order they are applied. */
module RiskLaws {
  import opened Ordering
  import opened RiskFactors
  import RiskMerge

  /** A detected toxic factor takes as many whole points off the score as there are whole percent
      in its magnitude, down to 0: it takes everything exactly if the magnitude is at least the score. */
  lemma ToxicTakesPoints(st: RiskState, r: RiskFactor)
    requires 1 <= st.riskScore <= 100 && r.IsToxic() && r.Value() >= 0.0
    ensures var left := Apply(st, r, true).riskScore;
      && (left == 0 <==> r.Value() >= st.riskScore as real / 100.0)
      && (left != 0 ==> (st.riskScore - left) as real <= 100.0 * r.Value() < (st.riskScore - left + 1) as real)
  {
    WholeOf(100.0 * r.Value(), st.riskScore);
  }

  lemma WholeOf(x: real, n: int)
    requires x >= 0.0
    ensures Truncate(x) as real <= x < (Truncate(x) + 1) as real
    ensures n <= Truncate(x) <==> n as real <= x
  {
  }

  /** One that is not detected does nothing. */
  lemma UndetectedToxicDoesNothing(st: RiskState, r: RiskFactor)
    requires r.IsToxic()
    ensures Apply(st, r, false) == st
  {
  }

  /** The magnitude is a whole number of percent. */
  predicate HasPercent(r: RiskFactor, percent: nat) {
    r.IsToxic() && r.Value() == percent as real / 100.0
  }

  lemma PercentIsTaken(st: RiskState, r: RiskFactor, percent: nat)
    requires 0 <= st.riskScore <= 100 && HasPercent(r, percent)
    ensures Apply(st, r, true).riskScore == if percent < st.riskScore then st.riskScore - percent else 0
  {
    assert r.Value() * 100.0 == percent as real;
  }

  /** Detected toxic factors of whole percents add up. */
  lemma ToxicFactorsAddUp(
      st: RiskState, a: RiskFactor, b: RiskFactor, both: RiskFactor, percentA: nat, percentB: nat)
    requires 0 <= st.riskScore <= 100 && HasPercent(a, percentA) && HasPercent(b, percentB)
    requires HasPercent(both, percentA + percentB)
    ensures Apply(Apply(st, a, true), b, true).riskScore == Apply(st, both, true).riskScore
  {
    PercentIsTaken(st, a, percentA);
    PercentIsTaken(Apply(st, a, true), b, percentB);
    PercentIsTaken(st, both, percentA + percentB);
  }

  /** The score moves: a relative factor that lowers risk is detected, or one that raises risk is not. */
  predicate Moves(r: RiskFactor, isDetected: bool) {
    !r.IsToxic() && (isDetected <==> r.Value() < 0.0)
  }

  /** A relative factor of at most 1 takes its share off the distance that is left to 100, rounded
      so that less than one point too much is left; otherwise it leaves the score alone. */
  lemma RelativeTakesShare(st: RiskState, r: RiskFactor, isDetected: bool)
    requires 0 <= st.riskScore <= 100 && Bounded(r) && !r.IsToxic()
    ensures var share := if r.Value() < 0.0 then -r.Value() else r.Value();
      var before, after := 100 - st.riskScore, 100 - Apply(st, r, isDetected).riskScore;
      if Moves(r, isDetected) then
        before as real * (1.0 - share) <= after as real < before as real * (1.0 - share) + 1.0
      else after == before
  {
    if Moves(r, isDetected) {
      var share := if r.Value() < 0.0 then -r.Value() else r.Value();
      RescaledLeaves(st.riskScore, 1.0 - share);
      assert 1.0 - share == if r.Value() < 0.0 then 1.0 + r.Value() else 1.0 - r.Value();
    }
  }

  lemma RescaledLeaves(s: int, f: real)
    requires 0 <= s <= 100 && 0.0 <= f <= 1.0
    ensures var left := (100 - s) as real * f;
      left <= (100 - Rescale(s, f)) as real < left + 1.0
  {
    var part := Scaled((100 - s) as real, f);
    WholeOf(100.0 - part, 0);
  }

  /** Within each phase of a sorted run, factors come by magnitude, the lowest first, and those of
      the same magnitude by MRN. */
  lemma RunIsByMagnitude(run: seq<ScoredRiskInfo>, i: nat, j: nat)
    requires Sorted(CompareScored, run) && i < j < |run|
    ensures var a, b := run[i].factor, run[j].factor;
      && (a.IsToxic() ==> b.IsToxic())
      && (a.IsToxic() == b.IsToxic() ==>
          a.Value() < b.Value() || (a.Value() == b.Value() && CompareStrings(a.mrn, b.mrn) <= 0))
  {
    assert CompareScored(run[i], run[j]) <= 0;
  }

  /** With a single list of one factor, that is applied to the value of the score. */
  lemma OneFactorIsApplied(st: RiskState, value: nat, r: ScoredRiskInfo)
    requires value != 100
    ensures Adjusted(st, value, [[r]]) == Apply(RiskState(value, st.notes), r.factor, r.isDetected)
  {
    assert [[r]][1..] == [] && [r] + [] == [r] && [r][..0] == [] && [r][1..] == [];
    assert RiskMerge.Concat([[r]]) == [r] + RiskMerge.Concat([[r]][1..]) == [r];
    assert Sort(CompareScored, [r]) == Insert(CompareScored, r, Sort(CompareScored, [r][1..])) == [r];
    assert ApplyAll(RiskState(value, st.notes), [r]) == Apply(RiskState(value, st.notes), r.factor, r.isDetected);
  }

  /** Without any factors the score is its value. */
  lemma NoFactorsLeaveValue(st: RiskState, value: nat, lists: seq<seq<ScoredRiskInfo>>)
    requires lists != [] && RiskMerge.Concat(lists) == []
    ensures Adjusted(st, value, lists) == RiskState(value, st.notes)
  {
  }
}
