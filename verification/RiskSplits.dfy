/** When the way risk factors are split into lists influences the score they adjust. */
module RiskSplits {
  import opened Ordering
  import opened Wrappers
  import opened RiskFactors

  /** The state after all factors of some lists have been merged and applied. */
  function Merged(st: RiskState, lists: seq<seq<ScoredRiskInfo>>): RiskState {
    ApplyAll(st, Sort(CompareScored, RiskMerge.Concat(lists)))
  }

  /** Entries of one risk-raising factor that disagree about whether it was detected. */
  predicate Contested(a: ScoredRiskInfo, b: ScoredRiskInfo) {
    SameKey(a.factor, b.factor) && !a.factor.IsToxic() && a.factor.Value() >= 0.0 && a.isDetected != b.isDetected
  }

  ghost predicate Uncontested(risks: seq<ScoredRiskInfo>) {
    forall a, b :: a in risks && b in risks ==> !Contested(a, b)
  }

  /** The lists hold the same factors, and each of them is sorted as the merge demands. */
  ghost predicate IsSplit(lists: seq<seq<ScoredRiskInfo>>, risks: seq<ScoredRiskInfo>) {
    && multiset(RiskMerge.Concat(lists)) == multiset(risks)
    && forall i :: 0 <= i < |lists| ==> Sorted(CompareScored, lists[i])
  }

  ghost predicate SameResult(a: seq<seq<ScoredRiskInfo>>, b: seq<seq<ScoredRiskInfo>>) {
    forall st :: Merged(st, a) == Merged(st, b)
  }

  /** Splitting the factors differently never matters exactly if no two entries contest the same
      risk-raising factor. Toxic and risk-lowering factors may tie in any way. */
  lemma SplitMattersIff(a: seq<seq<ScoredRiskInfo>>)
    ensures (forall b :: IsSplit(b, RiskMerge.Concat(a)) ==> SameResult(a, b)) <==> Uncontested(RiskMerge.Concat(a))
  {
    var all := RiskMerge.Concat(a);
    if Uncontested(all) {
      forall b | IsSplit(b, all) ensures SameResult(a, b) {
        forall st ensures Merged(st, a) == Merged(st, b) {
          SplitDoesNotMatter(st, a, b);
        }
      }
    } else {
      var x, y :| x in all && y in all && Contested(x, y);
      var b, b' := ContestedSplits(all, x, y);
    }
  }

  // ----- entries that change nothing can be left out -----

  /** What an entry amounts to: nothing, or a factor reduced to its key. If only the score counts,
      factors that do no more than leave a note amount to nothing either. */
  function Effect(scoreOnly: bool, r: ScoredRiskInfo): seq<ScoredRiskInfo> {
    var toxic, v := r.factor.IsToxic(), r.factor.Value();
    var lowers := toxic || v < 0.0;
    if (!r.isDetected && lowers) || (scoreOnly && r.isDetected && !lowers) then []
    else [ScoredRiskInfo(RiskFactor(r.factor.mrn, Some(RiskMagnitude(v, toxic))), r.isDetected)]
  }

  function Effects(scoreOnly: bool, risks: seq<ScoredRiskInfo>): seq<ScoredRiskInfo> {
    if risks == [] then [] else Effects(scoreOnly, risks[..|risks| - 1]) + Effect(scoreOnly, risks[|risks| - 1])
  }

  lemma {:induction false} EffectsOfConcat(scoreOnly: bool, a: seq<ScoredRiskInfo>, b: seq<ScoredRiskInfo>)
    ensures Effects(scoreOnly, a + b) == Effects(scoreOnly, a) + Effects(scoreOnly, b)
  {
    if b == [] {
      assert a + b == a;
    } else {
      assert (a + b)[..|a + b| - 1] == a + b[..|b| - 1];
      EffectsOfConcat(scoreOnly, a, b[..|b| - 1]);
    }
  }

  lemma EffectsOfOne(scoreOnly: bool, r: ScoredRiskInfo)
    ensures Effects(scoreOnly, [r]) == Effect(scoreOnly, r)
  {
    assert [r][..0] == [];
  }

  lemma ApplyEffect(scoreOnly: bool, st: RiskState, r: ScoredRiskInfo)
    ensures var effect, next := Effect(scoreOnly, r), Apply(st, r.factor, r.isDetected);
      if effect == [] then next == st || (scoreOnly && next.riskScore == st.riskScore)
      else Apply(st, effect[0].factor, effect[0].isDetected) == next
  {
  }

  lemma ScoreNeedsOnlyScore(st: RiskState, st': RiskState, r: ScoredRiskInfo)
    requires st.riskScore == st'.riskScore
    ensures Apply(st, r.factor, r.isDetected).riskScore == Apply(st', r.factor, r.isDetected).riskScore
  {
  }

  lemma ApplyOneMore(st: RiskState, risks: seq<ScoredRiskInfo>, r: ScoredRiskInfo)
    ensures ApplyAll(st, risks + [r]) == Apply(ApplyAll(st, risks), r.factor, r.isDetected)
  {
    assert (risks + [r])[..|risks|] == risks;
  }

  lemma {:induction false} EffectsSuffice(scoreOnly: bool, st: RiskState, risks: seq<ScoredRiskInfo>)
    ensures ApplyAll(st, Effects(scoreOnly, risks)).riskScore == ApplyAll(st, risks).riskScore
    ensures !scoreOnly ==> ApplyAll(st, Effects(scoreOnly, risks)) == ApplyAll(st, risks)
  {
    if risks != [] {
      var front, last := risks[..|risks| - 1], risks[|risks| - 1];
      EffectsSuffice(scoreOnly, st, front);
      ApplyEffect(scoreOnly, ApplyAll(st, front), last);
      if Effect(scoreOnly, last) == [] {
        assert Effects(scoreOnly, risks) == Effects(scoreOnly, front);
      } else {
        var e := Effect(scoreOnly, last)[0];
        ApplyOneMore(st, Effects(scoreOnly, front), e);
        assert Effects(scoreOnly, risks) == Effects(scoreOnly, front) + [e];
        ScoreNeedsOnlyScore(ApplyAll(st, Effects(scoreOnly, front)), ApplyAll(st, front), e);
      }
    }
  }

  lemma {:induction false} EffectsPermute(scoreOnly: bool, a: seq<ScoredRiskInfo>, b: seq<ScoredRiskInfo>)
    requires multiset(a) == multiset(b)
    ensures multiset(Effects(scoreOnly, a)) == multiset(Effects(scoreOnly, b))
  {
    if a == [] {
      assert |multiset(b)| == 0;
    } else {
      var front, last := a[..|a| - 1], a[|a| - 1];
      assert a == front + [last];
      assert last in multiset(b);
      var i :| 0 <= i < |b| && b[i] == last;
      assert b == b[..i] + [last] + b[i + 1..];
      assert multiset(front) == multiset(a) - multiset{last};
      assert multiset(b[..i] + b[i + 1..]) == multiset(b) - multiset{last};
      EffectsPermute(scoreOnly, front, b[..i] + b[i + 1..]);
      EffectsOfConcat(scoreOnly, b[..i], b[i + 1..]);
      EffectsOfConcat(scoreOnly, b[..i] + [last], b[i + 1..]);
      EffectsOfConcat(scoreOnly, b[..i], [last]);
      EffectsOfOne(scoreOnly, last);
    }
  }

  /** Where an effect comes from. */
  lemma {:induction false} EffectOrigin(scoreOnly: bool, risks: seq<ScoredRiskInfo>, e: ScoredRiskInfo)
    returns (r: ScoredRiskInfo)
    requires e in Effects(scoreOnly, risks)
    ensures r in risks && Effect(scoreOnly, r) == [e] && SameKey(r.factor, e.factor) && r.isDetected == e.isDetected
  {
    r := risks[|risks| - 1];
    if e !in Effect(scoreOnly, r) {
      r := EffectOrigin(scoreOnly, risks[..|risks| - 1], e);
    }
  }

  lemma SameKeyCompares(a: ScoredRiskInfo, b: ScoredRiskInfo, a': ScoredRiskInfo, b': ScoredRiskInfo)
    requires SameKey(a.factor, a'.factor) && SameKey(b.factor, b'.factor)
    ensures CompareScored(a, b) == CompareScored(a', b')
  {
  }

  lemma {:induction false} EffectsAreSorted(scoreOnly: bool, risks: seq<ScoredRiskInfo>)
    requires Sorted(CompareScored, risks)
    ensures Sorted(CompareScored, Effects(scoreOnly, risks))
  {
    if risks != [] {
      var front, last := risks[..|risks| - 1], risks[|risks| - 1];
      EffectsAreSorted(scoreOnly, front);
      var before, all := Effects(scoreOnly, front), Effects(scoreOnly, risks);
      forall i, j | 0 <= i < j < |all| ensures CompareScored(all[i], all[j]) <= 0 {
        if j == |before| {
          var r := EffectOrigin(scoreOnly, front, before[i]);
          SameKeyCompares(r, last, all[i], all[j]);
        }
      }
    }
  }

  /** Entries that tie but differ are contested, and only one of them influences the score. */
  lemma EffectsDiffer(scoreOnly: bool, risks: seq<ScoredRiskInfo>)
    requires scoreOnly || Uncontested(risks)
    ensures Distinguishes(CompareScored, Effects(scoreOnly, risks))
  {
    RisksAreOrdered();
    var effects := Effects(scoreOnly, risks);
    forall x, y | x in effects && y in effects && CompareScored(x, y) == 0 ensures x == y {
      var r := EffectOrigin(scoreOnly, risks, x);
      var s := EffectOrigin(scoreOnly, risks, y);
      assert scoreOnly || !Contested(r, s);
    }
  }

  /** The effects of two arrangements of the same factors are the same. */
  lemma SameEffects(scoreOnly: bool, a: seq<ScoredRiskInfo>, b: seq<ScoredRiskInfo>)
    requires multiset(a) == multiset(b) && (scoreOnly || Uncontested(a))
    ensures Effects(scoreOnly, Sort(CompareScored, a)) == Effects(scoreOnly, Sort(CompareScored, b))
  {
    RisksAreOrdered();
    var s, t := Sort(CompareScored, a), Sort(CompareScored, b);
    SortIsSorted(CompareScored, a);
    SortIsSorted(CompareScored, b);
    SortPermutes(CompareScored, a);
    SortPermutes(CompareScored, b);
    EffectsAreSorted(scoreOnly, s);
    EffectsAreSorted(scoreOnly, t);
    EffectsPermute(scoreOnly, s, t);
    if !scoreOnly {
      SortedUncontested(a, s);
    }
    EffectsDiffer(scoreOnly, s);
    SortedIsUnique(CompareScored, Effects(scoreOnly, s), Effects(scoreOnly, t));
  }

  /** The score never depends on how the factors are split into lists, contested or not. */
  lemma ScoreIgnoresSplit(st: RiskState, a: seq<seq<ScoredRiskInfo>>, b: seq<seq<ScoredRiskInfo>>)
    requires multiset(RiskMerge.Concat(a)) == multiset(RiskMerge.Concat(b))
    ensures Merged(st, a).riskScore == Merged(st, b).riskScore
  {
    SameEffects(true, RiskMerge.Concat(a), RiskMerge.Concat(b));
    EffectsSuffice(true, st, Sort(CompareScored, RiskMerge.Concat(a)));
    EffectsSuffice(true, st, Sort(CompareScored, RiskMerge.Concat(b)));
  }

  /** If nothing is contested, the notes do not either, nor their order. */
  lemma SplitDoesNotMatter(st: RiskState, a: seq<seq<ScoredRiskInfo>>, b: seq<seq<ScoredRiskInfo>>)
    requires multiset(RiskMerge.Concat(a)) == multiset(RiskMerge.Concat(b))
    requires Uncontested(RiskMerge.Concat(a))
    ensures Merged(st, a) == Merged(st, b)
  {
    SameEffects(false, RiskMerge.Concat(a), RiskMerge.Concat(b));
    EffectsSuffice(false, st, Sort(CompareScored, RiskMerge.Concat(a)));
    EffectsSuffice(false, st, Sort(CompareScored, RiskMerge.Concat(b)));
  }

  lemma SortedUncontested(a: seq<ScoredRiskInfo>, s: seq<ScoredRiskInfo>)
    requires Uncontested(a) && multiset(a) == multiset(s)
    ensures Uncontested(s)
  {
    forall x | x in s ensures x in a {
      assert x in multiset(s);
    }
  }

  // ----- contested entries leave their notes in the order of the lists -----

  ghost function Without(risks: seq<ScoredRiskInfo>, x: ScoredRiskInfo): (rest: seq<ScoredRiskInfo>)
    requires x in risks
    ensures multiset(risks) == multiset{x} + multiset(rest)
    ensures forall y :: y in risks && y != x ==> y in rest
  {
    var i :| 0 <= i < |risks| && risks[i] == x;
    assert risks == risks[..i] + [x] + risks[i + 1..];
    risks[..i] + risks[i + 1..]
  }

  /** Every factor in a list of its own. */
  function Singles(risks: seq<ScoredRiskInfo>): seq<seq<ScoredRiskInfo>> {
    if risks == [] then [] else [[risks[0]]] + Singles(risks[1..])
  }

  lemma {:induction false} SinglesJoin(risks: seq<ScoredRiskInfo>)
    ensures RiskMerge.Concat(Singles(risks)) == risks
    ensures forall i :: 0 <= i < |Singles(risks)| ==> |Singles(risks)[i]| == 1
  {
    if risks != [] {
      SinglesJoin(risks[1..]);
      RiskMerge.ConcatSplit([[risks[0]]], Singles(risks[1..]));
      assert [[risks[0]]][1..] == [];
    }
  }

  /** Two tied elements inserted one after the other end up next to each other. */
  lemma {:induction false} InsertTied(x: ScoredRiskInfo, y: ScoredRiskInfo, s: seq<ScoredRiskInfo>)
    returns (before: seq<ScoredRiskInfo>, after: seq<ScoredRiskInfo>)
    requires Preorder(CompareScored) && CompareScored(x, y) == 0
    ensures Insert(CompareScored, x, Insert(CompareScored, y, s)) == before + [x, y] + after
    ensures Insert(CompareScored, y, Insert(CompareScored, x, s)) == before + [y, x] + after
  {
    assert Laws(CompareScored, x, y, x) && Laws(CompareScored, y, x, y);
    if s == [] || CompareScored(x, s[0]) <= 0 {
      before, after := [], s;
      if s != [] {
        assert Laws(CompareScored, y, x, s[0]);
      }
    } else {
      assert Laws(CompareScored, x, y, s[0]);
      before, after := InsertTied(x, y, s[1..]);
      before := [s[0]] + before;
    }
  }

  lemma {:induction false} NotesOfConcat(a: seq<ScoredRiskInfo>, b: seq<ScoredRiskInfo>)
    ensures NotesOf(a + b) == NotesOf(a) + NotesOf(b)
  {
    if b == [] {
      assert a + b == a;
    } else {
      assert (a + b)[..|a + b| - 1] == a + b[..|b| - 1];
      NotesOfConcat(a, b[..|b| - 1]);
    }
  }

  lemma NotesOfTwo(x: ScoredRiskInfo, y: ScoredRiskInfo)
    ensures NotesOf([x, y]) == NoteOf(x) + NoteOf(y)
  {
    assert [x, y][..1] == [x] && [x][..0] == [];
    assert NotesOf([x]) == [] + NoteOf(x);
  }

  /** What a run says about the first of two contesting entries. */
  lemma NoteOfContested(before: seq<ScoredRiskInfo>, x: ScoredRiskInfo, y: ScoredRiskInfo, after: seq<ScoredRiskInfo>)
    requires Contested(x, y)
    ensures var notes := ApplyAll(RiskState(0, Some([])), before + [x, y] + after).notes;
      notes.Some? && |NotesOf(before)| < |notes.value| && notes.value[|NotesOf(before)|].isDetected == x.isDetected
  {
    RunAppendsNotes(RiskState(0, Some([])), before + [x, y] + after);
    NotesOfConcat(before + [x, y], after);
    NotesOfConcat(before, [x, y]);
    NotesOfTwo(x, y);
  }

  lemma SplitFirstTwo(x: ScoredRiskInfo, y: ScoredRiskInfo, rest: seq<ScoredRiskInfo>, all: seq<ScoredRiskInfo>)
    returns (b: seq<seq<ScoredRiskInfo>>)
    requires multiset(all) == multiset([x, y] + rest)
    ensures IsSplit(b, all)
    ensures Sort(CompareScored, RiskMerge.Concat(b)) ==
      Insert(CompareScored, x, Insert(CompareScored, y, Sort(CompareScored, rest)))
  {
    b := Singles([x, y] + rest);
    SinglesJoin([x, y] + rest);
    assert ([x, y] + rest)[1..] == [y] + rest && ([y] + rest)[1..] == rest;
  }

  lemma WithoutTwo(all: seq<ScoredRiskInfo>, x: ScoredRiskInfo, y: ScoredRiskInfo) returns (rest: seq<ScoredRiskInfo>)
    requires x in all && y in all && x != y
    ensures multiset(all) == multiset([x, y] + rest) && multiset(all) == multiset([y, x] + rest)
  {
    rest := Without(Without(all, x), y);
    assert multiset(all) == multiset{x} + (multiset{y} + multiset(rest));
    assert [x, y] + rest == [x] + ([y] + rest) && [y, x] + rest == [y] + ([x] + rest);
  }

  /** Two splits of the same factors that give different results. */
  lemma ContestedSplits(all: seq<ScoredRiskInfo>, x: ScoredRiskInfo, y: ScoredRiskInfo)
    returns (b: seq<seq<ScoredRiskInfo>>, b': seq<seq<ScoredRiskInfo>>)
    requires x in all && y in all && Contested(x, y)
    ensures IsSplit(b, all) && IsSplit(b', all)
    ensures Merged(RiskState(0, Some([])), b) != Merged(RiskState(0, Some([])), b')
  {
    var rest := WithoutTwo(all, x, y);
    b := SplitFirstTwo(x, y, rest, all);
    b' := SplitFirstTwo(y, x, rest, all);
    RisksAreOrdered();
    var before, after := InsertTied(x, y, Sort(CompareScored, rest));
    NoteOfContested(before, x, y, after);
    NoteOfContested(before, y, x, after);
  }

  lemma ApplyTwo(st: RiskState, a: ScoredRiskInfo, b: ScoredRiskInfo)
    ensures ApplyAll(st, [a, b]) == Apply(Apply(st, a.factor, a.isDetected), b.factor, b.isDetected)
  {
    assert [a][..0] == [];
    assert ApplyAll(st, [a]) == Apply(ApplyAll(st, []), a.factor, a.isDetected);
    assert [a, b][..1] == [a];
  }

  /** The least such input: one factor, detected in one list and not in the other. */
  lemma SplitMattersForTies()
    ensures var r := RiskFactor("m", Some(RiskMagnitude(0.5, false)));
      var yes, no := ScoredRiskInfo(r, true), ScoredRiskInfo(r, false);
      Merged(RiskState(40, None), [[yes], [no]]) != Merged(RiskState(40, None), [[no], [yes]])
  {
    var r := RiskFactor("m", Some(RiskMagnitude(0.5, false)));
    var yes, no := ScoredRiskInfo(r, true), ScoredRiskInfo(r, false);
    RisksAreOrdered();
    assert RiskMerge.Concat([[yes], [no]]) == [yes, no] by {
      RiskMerge.ConcatSplit([[yes]], [[no]]);
    }
    assert RiskMerge.Concat([[no], [yes]]) == [no, yes] by {
      RiskMerge.ConcatSplit([[no]], [[yes]]);
    }
    SortOfSorted(CompareScored, [yes, no]);
    SortOfSorted(CompareScored, [no, yes]);
    var st := RiskState(40, None);
    ApplyTwo(st, yes, no);
    ApplyTwo(st, no, yes);
    assert ApplyAll(st, [yes, no]).notes.value[0].isDetected && !ApplyAll(st, [no, yes]).notes.value[0].isDetected;
  }
}
