/** Risk adjustment of a score: sorted lists of risk factors are merged and applied one by one. */
module RiskFactors {
  import opened Ordering
  import opened Wrappers
  import opened PolicyTypes
  import RiskMerge

  datatype RiskMagnitude = RiskMagnitude(value: real, isToxic: bool)

  datatype RiskFactor = RiskFactor(mrn: string, magnitude: Option<RiskMagnitude>) {
    function Value(): real { if magnitude.Some? then magnitude.value.value else 0.0 }
    predicate IsToxic() { magnitude.Some? && magnitude.value.isToxic }
  }

  datatype ScoredRiskInfo = ScoredRiskInfo(factor: RiskFactor, isDetected: bool)

  /** The note a factor leaves on the score. */
  datatype ScoredRiskFactor = ScoredRiskFactor(mrn: string, risk: real, isToxic: bool, isDetected: bool)

  /** Relative factors first, then toxic ones; within each by magnitude, then by MRN. */
  function CompareRisks(ri: RiskFactor, rj: RiskFactor): int {
    if ri.IsToxic() != rj.IsToxic() then (if rj.IsToxic() then -1 else 1)
    else if ri.Value() != rj.Value() then (if ri.Value() < rj.Value() then -1 else 1)
    else CompareStrings(ri.mrn, rj.mrn)
  }

  function CompareScored(ri: ScoredRiskInfo, rj: ScoredRiskInfo): int {
    CompareRisks(ri.factor, rj.factor)
  }

  predicate SameKey(a: RiskFactor, b: RiskFactor) {
    a.mrn == b.mrn && a.Value() == b.Value() && a.IsToxic() == b.IsToxic()
  }

  /** The order is consistent, and two factors tie exactly when toxicity, magnitude and MRN agree. */
  lemma RisksAreOrdered()
    ensures Preorder(CompareScored)
    ensures forall a, b :: CompareScored(a, b) == 0 <==> SameKey(a.factor, b.factor)
  {
    forall a, b, c ensures Laws(CompareScored, a, b, c) {
      var x, y, z := a.factor.mrn, b.factor.mrn, c.factor.mrn;
      StringTiesAreEqual(x, x);
      StringTiesAreEqual(x, y);
      StringsFlip(x, y);
      if CompareStrings(x, y) <= 0 && CompareStrings(y, z) <= 0 {
        StringsTransitive(x, y, z);
      }
    }
    forall a, b ensures CompareScored(a, b) == 0 <==> SameKey(a.factor, b.factor) {
      StringTiesAreEqual(a.factor.mrn, b.factor.mrn);
    }
  }

  /** Conversion of a float to an integer: rounds toward zero. */
  function Truncate(x: real): int {
    if x >= 0.0 then x.Floor else -(-x).Floor
  }

  function Scaled(distance: real, factor: real): (part: real)
    ensures distance >= 0.0 && 0.0 <= factor <= 1.0 ==> 0.0 <= part <= distance
  {
    assert distance >= 0.0 && factor <= 1.0 ==> distance * (1.0 - factor) >= 0.0;
    distance * factor
  }

  /** The risk score after its distance to 100 has been scaled by a factor. */
  function Rescale(riskScore: int, factor: real): int {
    Truncate(100.0 - Scaled(HundredMinus(riskScore) as real, factor))
  }

  /** The risk score and the notes after some factors have been applied. */
  datatype RiskState = RiskState(riskScore: int, notes: Option<seq<ScoredRiskFactor>>) {
    function Note(note: ScoredRiskFactor): RiskState {
      this.(notes := Some((if notes.Some? then notes.value else []) + [note]))
    }
  }

  /** Applies one factor. */
  function Apply(st: RiskState, r: RiskFactor, isDetected: bool): RiskState {
    var v := r.Value();
    if r.IsToxic() then
      if isDetected then
        var nu := st.riskScore - Truncate(v * 100.0);
        st.(riskScore := if nu < 0 then 0 else if nu > 100 then 100 else nu)
          .Note(ScoredRiskFactor(r.mrn, v, true, true))
      else st
    else if v < 0.0 then
      if isDetected then
        st.(riskScore := Rescale(st.riskScore, 1.0 + v))
          .Note(ScoredRiskFactor(r.mrn, v, false, true))
      else st
    else if isDetected then
      st.Note(ScoredRiskFactor(r.mrn, v, false, true))
    else
      st.(riskScore := Rescale(st.riskScore, 1.0 - v))
        .Note(ScoredRiskFactor(r.mrn, -v, false, false))
  }

  function ApplyAll(st: RiskState, risks: seq<ScoredRiskInfo>): RiskState {
    if risks == [] then st
    else
      var last := risks[|risks| - 1];
      Apply(ApplyAll(st, risks[..|risks| - 1]), last.factor, last.isDetected)
  }

  class Score {
    var value: nat
    var riskScore: int
    var riskFactors: Option<seq<ScoredRiskFactor>>

    constructor (value: nat)
      ensures this.value == value && riskScore == 0 && riskFactors == None
    {
      this.value, riskScore, riskFactors := value, 0, None;
    }

    function State(): RiskState
      reads this
    {
      RiskState(riskScore, riskFactors)
    }

    /** Applies one risk factor in place. */
    method AdjustBy(r: RiskFactor, isDetected: bool)
      modifies `riskScore, `riskFactors
      ensures State() == Apply(old(State()), r, isDetected)
    {
      if r.IsToxic() {
        if isDetected {
          var nu := riskScore - Truncate(r.Value() * 100.0);
          if nu < 0 {
            riskScore := 0;
          } else if nu > 100 {
            riskScore := 100;
          } else {
            riskScore := nu;
          }
          if riskFactors.None? {
            riskFactors := Some([]);
          }
          riskFactors := Some(riskFactors.value + [ScoredRiskFactor(r.mrn, r.Value(), true, isDetected)]);
          return;
        }
        return;
      }
      if r.Value() < 0.0 {
        if isDetected {
          riskScore := Rescale(riskScore, 1.0 + r.Value());
          if riskFactors.None? {
            riskFactors := Some([]);
          }
          riskFactors := Some(riskFactors.value + [ScoredRiskFactor(r.mrn, r.Value(), false, isDetected)]);
          return;
        }
        return;
      }
      if isDetected {
        if riskFactors.None? {
          riskFactors := Some([]);
        }
        riskFactors := Some(riskFactors.value + [ScoredRiskFactor(r.mrn, r.Value(), false, isDetected)]);
        return;
      }
      riskScore := Rescale(riskScore, 1.0 - r.Value());
      if riskFactors.None? {
        riskFactors := Some([]);
      }
      riskFactors := Some(riskFactors.value + [ScoredRiskFactor(r.mrn, -r.Value(), false, isDetected)]);
    }
  }

  /** A score adjusted by several lists of factors: nothing happens without lists, a perfect
      score is left at 100, and otherwise all factors are applied as one stably sorted list. */
  function Adjusted(st: RiskState, value: nat, lists: seq<seq<ScoredRiskInfo>>): RiskState {
    if lists == [] then st
    else if value == 100 then st.(riskScore := 100)
    else ApplyAll(st.(riskScore := value), Sort(CompareScored, RiskMerge.Concat(lists)))
  }

  /** Adjusts a score by several sorted lists of factors, merged on the fly. */
  method AdjustRiskScore(score: Score?, sortedRisks: seq<seq<ScoredRiskInfo>>)
    requires forall i :: 0 <= i < |sortedRisks| ==> Sorted(CompareScored, sortedRisks[i])
    modifies if score == null then {} else {score}
    ensures score != null ==> score.value == old(score.value)
    ensures score != null ==> score.State() == Adjusted(old(score.State()), score.value, sortedRisks)
    ensures score != null && sortedRisks == [] ==> score.State() == old(score.State())
    ensures score != null && sortedRisks != [] && score.value == 100 ==>
      score.riskScore == 100 && score.riskFactors == old(score.riskFactors)
  {
    if score == null {
      return;
    }
    if |sortedRisks| == 0 {
      return;
    }
    score.riskScore := score.value;
    if score.value == 100 {
      return;
    }
    RisksAreOrdered();
    var merged := RiskMerge.MergeSorted(CompareScored, sortedRisks);
    label start:
    for i := 0 to |merged|
      invariant score.value == old(score.value)
      invariant score.State() == ApplyAll(old@start(score.State()), merged[..i])
    {
      score.AdjustBy(merged[i].factor, merged[i].isDetected);
      assert merged[..i + 1][..i] == merged[..i];
    }
    assert merged[..|merged|] == merged;
  }

  // ----- range over whole runs -----

  predicate Bounded(r: RiskFactor) {
    r.IsToxic() || -1.0 <= r.Value() <= 1.0
  }

  lemma TruncateBetween(x: real, lo: nat, hi: nat)
    requires lo as real <= x <= hi as real
    ensures lo <= Truncate(x) <= hi
  {
  }

  lemma ShrinkDistance(s: int, f: real)
    requires 0 <= s <= 100 && 0.0 <= f <= 1.0
    ensures s <= Rescale(s, f) <= 100
  {
    TruncateBetween(100.0 - Scaled(HundredMinus(s) as real, f), s, 100);
  }

  /** A relative factor of at most 1 never lowers the score and never lifts it past 100. */
  lemma RelativeStepRange(st: RiskState, r: RiskFactor, isDetected: bool)
    requires 0 <= st.riskScore <= 100 && Bounded(r) && !r.IsToxic()
    ensures st.riskScore <= Apply(st, r, isDetected).riskScore <= 100
  {
    var v := r.Value();
    if v < 0.0 && isDetected {
      ShrinkDistance(st.riskScore, 1.0 + v);
    } else if v >= 0.0 && !isDetected {
      ShrinkDistance(st.riskScore, 1.0 - v);
    }
  }

  /** One step keeps the score in 0..100, and only a toxic factor can lower it. */
  lemma StepKeepsRange(st: RiskState, r: RiskFactor, isDetected: bool)
    requires 0 <= st.riskScore <= 100 && Bounded(r)
    ensures 0 <= Apply(st, r, isDetected).riskScore <= 100
    ensures !r.IsToxic() ==> st.riskScore <= Apply(st, r, isDetected).riskScore
  {
    if !r.IsToxic() {
      RelativeStepRange(st, r, isDetected);
    } else if isDetected {
      var nu := st.riskScore - Truncate(r.Value() * 100.0);
      assert Apply(st, r, isDetected).riskScore == if nu < 0 then 0 else if nu > 100 then 100 else nu;
    }
  }

  /** Exactly how far a relative magnitude may go: the step overshoots 100 as soon as the part
      of the magnitude beyond 1, scaled by the headroom, reaches one point. */
  lemma StepRangeIsExact(st: RiskState, r: RiskFactor, isDetected: bool)
    requires 0 <= st.riskScore <= 100 && !r.IsToxic()
    requires isDetected <==> r.Value() < 0.0
    ensures var v := if r.Value() < 0.0 then -r.Value() else r.Value();
      0 <= Apply(st, r, isDetected).riskScore <= 100 <==> Scaled((100 - st.riskScore) as real, v - 1.0) < 1.0
  {
    var v := if r.Value() < 0.0 then -r.Value() else r.Value();
    RescaleRange(st.riskScore, v);
  }

  lemma ScaledSign(h: real, f: real)
    requires h >= 0.0
    ensures Scaled(h, -f) == -Scaled(h, f)
    ensures f >= 0.0 ==> Scaled(h, f) >= 0.0
    ensures f <= 0.0 ==> Scaled(h, f) <= 0.0
  {
  }

  lemma RescaleRange(s: int, v: real)
    requires 0 <= s <= 100 && v >= 0.0
    ensures 0 <= Rescale(s, 1.0 - v) <= 100 <==> Scaled((100 - s) as real, v - 1.0) < 1.0
  {
    var h := (100 - s) as real;
    ScaledSign(h, v - 1.0);
    assert -(v - 1.0) == 1.0 - v;
    if v <= 1.0 {
      ShrinkDistance(s, 1.0 - v);
    }
  }

  /** A magnitude of 2 doubles the headroom away past 100. */
  lemma LargeMagnitudeLeavesRange()
    ensures Apply(RiskState(40, None), RiskFactor("m", Some(RiskMagnitude(2.0, false))), false).riskScore == 160
  {
  }

  lemma {:induction false} RunKeepsRange(st: RiskState, risks: seq<ScoredRiskInfo>)
    requires 0 <= st.riskScore <= 100 && forall r :: r in risks ==> Bounded(r.factor)
    ensures 0 <= ApplyAll(st, risks).riskScore <= 100
    ensures (forall r :: r in risks ==> !r.factor.IsToxic()) ==> st.riskScore <= ApplyAll(st, risks).riskScore
  {
    if risks != [] {
      var last := risks[|risks| - 1];
      RunKeepsRange(st, risks[..|risks| - 1]);
      StepKeepsRange(ApplyAll(st, risks[..|risks| - 1]), last.factor, last.isDetected);
    }
  }

  /** In a sorted run there is a point up to which all factors are relative and after which all
      are toxic. Every prefix of the run stays in 0..100, and up to that point it has not
      fallen below where it began. */
  lemma SortedRunHasTwoPhases(st: RiskState, risks: seq<ScoredRiskInfo>) returns (k: nat)
    requires 0 <= st.riskScore <= 100 && Sorted(CompareScored, risks)
    requires forall r :: r in risks ==> Bounded(r.factor)
    ensures k <= |risks|
    ensures forall i :: 0 <= i < |risks| ==> (risks[i].factor.IsToxic() <==> k <= i)
    ensures forall n :: 0 <= n <= |risks| ==> 0 <= ApplyAll(st, risks[..n]).riskScore <= 100
    ensures forall n :: 0 <= n <= k ==> st.riskScore <= ApplyAll(st, risks[..n]).riskScore
  {
    k := 0;
    while k < |risks| && !risks[k].factor.IsToxic()
      invariant k <= |risks|
      invariant forall i :: 0 <= i < k ==> !risks[i].factor.IsToxic()
    {
      k := k + 1;
    }
    forall i | k <= i < |risks| ensures risks[i].factor.IsToxic() {
      assert i == k || CompareScored(risks[k], risks[i]) <= 0;
    }
    forall n | 0 <= n <= |risks|
      ensures 0 <= ApplyAll(st, risks[..n]).riskScore <= 100
      ensures n <= k ==> st.riskScore <= ApplyAll(st, risks[..n]).riskScore
    {
      RunKeepsRange(st, risks[..n]);
    }
  }

  /** The whole merged run, from a score value of at most 100: it never leaves 0..100, and when
      the first toxic factor arrives the score is at least the score's value. */
  lemma MergedRunInRange(value: nat, notes: Option<seq<ScoredRiskFactor>>, lists: seq<seq<ScoredRiskInfo>>)
    returns (k: nat)
    requires value <= 100
    requires forall r :: r in RiskMerge.Concat(lists) ==> Bounded(r.factor)
    ensures var run := Sort(CompareScored, RiskMerge.Concat(lists));
      && k <= |run|
      && (forall i :: 0 <= i < |run| ==> (run[i].factor.IsToxic() <==> k <= i))
      && (forall n :: 0 <= n <= |run| ==> 0 <= ApplyAll(RiskState(value, notes), run[..n]).riskScore <= 100)
      && (forall n :: 0 <= n <= k ==> value <= ApplyAll(RiskState(value, notes), run[..n]).riskScore)
  {
    RisksAreOrdered();
    var all := RiskMerge.Concat(lists);
    SortIsSorted(CompareScored, all);
    SortPermutes(CompareScored, all);
    forall r | r in Sort(CompareScored, all) ensures Bounded(r.factor) {
      assert r in multiset(all);
    }
    k := SortedRunHasTwoPhases(RiskState(value, notes), Sort(CompareScored, all));
  }

  // ----- the notes of a run -----

  /** The note of a factor, if it leaves one: an undetected toxic or risk-lowering factor does
      not; an undetected risk-raising factor is noted with its sign reversed. */
  function NoteOf(r: ScoredRiskInfo): seq<ScoredRiskFactor> {
    var toxic, v := r.factor.IsToxic(), r.factor.Value();
    if r.isDetected then [ScoredRiskFactor(r.factor.mrn, v, toxic, true)]
    else if toxic || v < 0.0 then []
    else [ScoredRiskFactor(r.factor.mrn, -v, false, false)]
  }

  function NotesOf(risks: seq<ScoredRiskInfo>): seq<ScoredRiskFactor> {
    if risks == [] then [] else NotesOf(risks[..|risks| - 1]) + NoteOf(risks[|risks| - 1])
  }

  lemma StepAppendsNote(st: RiskState, r: ScoredRiskInfo)
    requires st.notes.Some?
    ensures Apply(st, r.factor, r.isDetected).notes == Some(st.notes.value + NoteOf(r))
  {
    if NoteOf(r) == [] {
      assert st.notes.value + NoteOf(r) == st.notes.value;
    }
  }

  /** The notes after a run are the notes before it followed by one per noted factor, in order. */
  lemma {:induction false} RunAppendsNotes(st: RiskState, risks: seq<ScoredRiskInfo>)
    requires st.notes.Some?
    ensures ApplyAll(st, risks).notes == Some(st.notes.value + NotesOf(risks))
  {
    if risks == [] {
      assert st.notes.value + NotesOf(risks) == st.notes.value;
    } else {
      var front, last := risks[..|risks| - 1], risks[|risks| - 1];
      RunAppendsNotes(st, front);
      StepAppendsNote(ApplyAll(st, front), last);
      assert st.notes.value + NotesOf(front) + NoteOf(last) == st.notes.value + NotesOf(risks);
    }
  }
}
