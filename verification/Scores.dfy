/** What the score calculators have in common: contributions, the sums a run of contributions
    adds up to, and what those sums depend on. */
module Scores {
  import opened Wrappers
  import opened PolicyTypes

  datatype ScoreType = Unknown | Scored | Failed | Skip | Unscored | NotInScope | Disabled

  datatype Score = Score(
    typ: ScoreType, value: nat, weight: nat, scoreCompletion: nat, dataCompletion: nat, dataTotal: nat)

  /** One call of `Add`: a score together with the impact on its edge. */
  datatype Contribution = Contribution(score: Score, impact: Option<Impact>)

  type Run = seq<Contribution>

  /** Whether a calculator looks at the contribution at all. */
  predicate Relevant(x: Contribution) {
    match x.score.typ
    case Skip => false
    case Disabled => false
    case NotInScope => false
    case Scored => !(x.impact.Some? && (x.impact.value.action == Ignore || x.impact.value.action == Deactivate))
    case _ => true
  }

  /** A result, or an error that the feature flag turns into a result. */
  predicate IsResult(failErrors: bool, x: Contribution) {
    Relevant(x) && (x.score.typ == Scored || (x.score.typ == Failed && failErrors))
  }

  /** A result whose value takes part in the average. */
  predicate Counted(failErrors: bool, x: Contribution) {
    IsResult(failErrors, x) && x.score.scoreCompletion != 0
  }

  datatype Band = Critical | High | Medium | Low

  /** The severity band, from how far the impact stays below 100; no impact counts as critical. */
  function BandOf(impact: Option<Impact>): Band {
    var category := if impact.Some? && impact.value.value.Some? then HundredMinus(impact.value.value.value) else 0;
    if category <= 10 then Critical else if category <= 30 then High else if category <= 60 then Medium else Low
  }

  /** What banded scoring puts into a band: results with a completion and a weight, no errors. */
  predicate InBand(band: Band, x: Contribution) {
    Counted(false, x) && x.score.weight != 0 && BandOf(x.impact) == band
  }

  /** What decayed scoring weighs: results with a completion and a weight, no errors. */
  predicate Decays(x: Contribution) {
    Counted(false, x) && x.score.weight != 0
  }

  /** How many percent of a result's weight its impact puts at stake; all of it without an impact. */
  function Percent(impact: Option<Impact>): int {
    if impact.Some? && impact.value.value.Some? then impact.value.value.value else 100
  }

  /** The quantities that calculators add up. DecayDebt collects negative impacts, which
      validated bundles do not contain. */
  datatype Measure =
    | DataCompletion | DataTotal | Weight | ScoreTotal | ScoreCompletion | Results | Errors
    | CountedNumber | CountedValue | CountedWeight | CountedProduct
    | BandWeight(band: Band) | BandFailing(band: Band)
    | DecayLoss | DecayLimit | DecayDebt

  function Amount(m: Measure, failErrors: bool, x: Contribution): nat {
    var s := x.score;
    match m
    case DataCompletion => if Relevant(x) then s.dataCompletion * s.dataTotal else 0
    case DataTotal => if Relevant(x) then s.dataTotal else 0
    case Weight => if IsResult(failErrors, x) then s.weight else 0
    case ScoreTotal => if Relevant(x) && s.typ != Unscored then 1 else 0
    case ScoreCompletion => if Relevant(x) && s.typ != Unscored then s.scoreCompletion else 0
    case Results => if IsResult(failErrors, x) then 1 else 0
    case Errors => if s.typ == Failed then 1 else 0
    case CountedNumber => if Counted(failErrors, x) then 1 else 0
    case CountedValue => if Counted(failErrors, x) then s.value else 0
    case CountedWeight => if Counted(failErrors, x) then s.weight else 0
    case CountedProduct => if Counted(failErrors, x) then s.value * s.weight else 0
    case BandWeight(band) => if InBand(band, x) then s.weight else 0
    case BandFailing(band) => if InBand(band, x) && s.value < 100 then s.weight else 0
    case DecayLoss => if Decays(x) then HundredMinus(s.value) * s.weight else 0
    case DecayLimit => if Decays(x) && Percent(x.impact) >= 0 then Percent(x.impact) * s.weight else 0
    case DecayDebt => if Decays(x) && Percent(x.impact) < 0 then -Percent(x.impact) * s.weight else 0
  }

  function Sum(m: Measure, failErrors: bool, run: Run): nat {
    if run == [] then 0
    else Sum(m, failErrors, run[..|run| - 1]) + Amount(m, failErrors, run[|run| - 1])
  }

  /** The run without everything the calculators disregard. */
  function OnlyRelevant(run: Run): Run {
    if run == [] then []
    else OnlyRelevant(run[..|run| - 1]) + (if Relevant(run[|run| - 1]) then [run[|run| - 1]] else [])
  }

  lemma SumStep(m: Measure, failErrors: bool, run: Run, x: Contribution)
    ensures Sum(m, failErrors, run + [x]) == Sum(m, failErrors, run) + Amount(m, failErrors, x)
  {
    assert (run + [x])[..|run|] == run;
  }

  lemma {:induction false} SumSplit(m: Measure, failErrors: bool, a: Run, b: Run)
    ensures Sum(m, failErrors, a + b) == Sum(m, failErrors, a) + Sum(m, failErrors, b)
  {
    if b == [] {
      assert a + b == a;
    } else {
      var front, last := b[..|b| - 1], b[|b| - 1];
      SumSplit(m, failErrors, a, front);
      assert (a + b)[..|a + b| - 1] == a + front;
    }
  }

  lemma SplitAround(m: Measure, failErrors: bool, run: Run, i: nat)
    requires i < |run|
    ensures Sum(m, failErrors, run) == Sum(m, failErrors, run[..i] + run[i + 1..]) + Amount(m, failErrors, run[i])
  {
    var front, back := run[..i], run[i + 1..];
    assert run == (front + [run[i]]) + back;
    SumSplit(m, failErrors, front + [run[i]], back);
    SumStep(m, failErrors, front, run[i]);
    SumSplit(m, failErrors, front, back);
  }

  lemma RemoveLast(a: Run, b: Run) returns (i: nat)
    requires a != [] && multiset(a) == multiset(b)
    ensures i < |b| && b[i] == a[|a| - 1]
    ensures multiset(a[..|a| - 1]) == multiset(b[..i] + b[i + 1..])
  {
    var x := a[|a| - 1];
    assert a == a[..|a| - 1] + [x];
    assert multiset(a) == multiset(a[..|a| - 1]) + multiset{x};
    assert x in multiset(b);
    i :| 0 <= i < |b| && b[i] == x;
    assert b == b[..i] + [x] + b[i + 1..];
    assert multiset(b) == multiset(b[..i]) + multiset{x} + multiset(b[i + 1..]);
    assert multiset(b[..i] + b[i + 1..]) == multiset(b) - multiset{x};
    assert multiset(a[..|a| - 1]) == multiset(a) - multiset{x};
  }

  /** Sums do not depend on the order of the run. */
  lemma {:induction false} SumForgetsOrder(m: Measure, failErrors: bool, a: Run, b: Run)
    requires multiset(a) == multiset(b)
    ensures Sum(m, failErrors, a) == Sum(m, failErrors, b)
    decreases |a|
  {
    if a == [] {
      assert |multiset(b)| == 0;
    } else {
      var i := RemoveLast(a, b);
      SumForgetsOrder(m, failErrors, a[..|a| - 1], b[..i] + b[i + 1..]);
      SplitAround(m, failErrors, b, i);
    }
  }

  lemma OnlyRelevantLast(run: Run)
    requires run != []
    ensures OnlyRelevant(run) == if Relevant(run[|run| - 1]) then OnlyRelevant(run[..|run| - 1]) + [run[|run| - 1]]
      else OnlyRelevant(run[..|run| - 1])
  {
    assert OnlyRelevant(run[..|run| - 1]) + [] == OnlyRelevant(run[..|run| - 1]);
  }

  /** Disregarded contributions add nothing to any sum. */
  lemma {:induction false} SumDropsIrrelevant(m: Measure, failErrors: bool, run: Run)
    ensures Sum(m, failErrors, OnlyRelevant(run)) == Sum(m, failErrors, run)
  {
    if run != [] {
      var front, last := run[..|run| - 1], run[|run| - 1];
      SumDropsIrrelevant(m, failErrors, front);
      OnlyRelevantLast(run);
      SumStep(m, failErrors, OnlyRelevant(front), last);
    }
  }

  lemma {:induction false} OnlyRelevantKeeps(run: Run, x: Contribution)
    ensures x in OnlyRelevant(run) <==> x in run && Relevant(x)
  {
    if run != [] {
      OnlyRelevantKeeps(run[..|run| - 1], x);
      assert run == run[..|run| - 1] + [run[|run| - 1]];
    }
  }

  lemma {:induction false} SumIsPositive(m: Measure, failErrors: bool, run: Run)
    ensures Sum(m, failErrors, run) > 0 <==> exists x :: x in run && Amount(m, failErrors, x) > 0
  {
    if run != [] {
      var front, last := run[..|run| - 1], run[|run| - 1];
      SumIsPositive(m, failErrors, front);
      assert run == front + [last];
      if Amount(m, failErrors, last) > 0 {
        assert last in run;
      } else if exists x :: x in run && Amount(m, failErrors, x) > 0 {
        var x :| x in run && Amount(m, failErrors, x) > 0;
        assert x in front;
      }
    }
  }

  function Scale(percent: bool, n: nat): nat {
    if percent then 100 * n else n
  }

  /** A sum that is bounded by (a hundred times) another one, contribution by contribution. */
  lemma {:induction false} SumBounded(m: Measure, m': Measure, percent: bool, failErrors: bool, run: Run)
    requires forall x :: x in run ==> Amount(m, failErrors, x) <= Scale(percent, Amount(m', failErrors, x))
    ensures Sum(m, failErrors, run) <= Scale(percent, Sum(m', failErrors, run))
  {
    if run != [] {
      var front, last := run[..|run| - 1], run[|run| - 1];
      forall x | x in front ensures x in run {}
      SumBounded(m, m', percent, failErrors, front);
      assert last in run;
    }
  }

  // ----- the counters that all five calculators keep -----

  function Div(a: nat, b: nat): nat
    requires b != 0
  {
    a / b
  }

  datatype Tally = Tally(
    weight: nat, scoreTotal: nat, scoreCompletion: nat, dataTotal: nat, dataCompletion: nat,
    hasResults: bool, hasErrors: bool)
  {
    function AddData(s: Score): Tally {
      this.(dataCompletion := dataCompletion + s.dataCompletion * s.dataTotal, dataTotal := dataTotal + s.dataTotal)
    }

    function AddCompletion(s: Score): Tally {
      this.(scoreCompletion := scoreCompletion + s.scoreCompletion, scoreTotal := scoreTotal + 1)
    }

    function AddResult(s: Score): Tally {
      AddData(s).AddCompletion(s).(weight := weight + s.weight, hasResults := true)
    }

    /** What adding a score does to the shared counters. */
    function Add(failErrors: bool, s: Score, impact: Option<Impact>): Tally {
      match s.typ
      case Skip => this
      case Disabled => this
      case NotInScope => this
      case Unscored => AddData(s)
      case Scored =>
        if impact.Some? && (impact.value.action == Ignore || impact.value.action == Deactivate) then this
        else AddResult(s)
      case Failed =>
        (if failErrors then AddResult(s) else AddData(s).AddCompletion(s)).(hasErrors := true)
      case Unknown => AddData(s).AddCompletion(s)
    }

    /** The part of the outcome that does not depend on the scoring system. */
    function Outcome(value: nat): Score {
      var dc := if dataTotal != 0 then Div(dataCompletion, dataTotal) else 100;
      if hasResults && scoreTotal != 0 then
        Score(Scored, value, weight, Div(scoreCompletion, scoreTotal), dc, dataTotal)
      else Score(if hasErrors then Failed else Unscored, 0, 0, 100, dc, dataTotal)
    }
  }

  const EMPTY_TALLY := Tally(0, 0, 0, 0, 0, false, false)

  /** The shared counters after a run, as sums over it. */
  function TallyOf(failErrors: bool, run: Run): Tally {
    Tally(
      Sum(Weight, failErrors, run), Sum(ScoreTotal, failErrors, run), Sum(ScoreCompletion, failErrors, run),
      Sum(DataTotal, failErrors, run), Sum(DataCompletion, failErrors, run),
      Sum(Results, failErrors, run) > 0, Sum(Errors, failErrors, run) > 0)
  }

  lemma AddAmounts(t: Tally, failErrors: bool, x: Contribution)
    ensures t.Add(failErrors, x.score, x.impact) == Tally(
      t.weight + Amount(Weight, failErrors, x), t.scoreTotal + Amount(ScoreTotal, failErrors, x),
      t.scoreCompletion + Amount(ScoreCompletion, failErrors, x), t.dataTotal + Amount(DataTotal, failErrors, x),
      t.dataCompletion + Amount(DataCompletion, failErrors, x),
      t.hasResults || Amount(Results, failErrors, x) > 0, t.hasErrors || Amount(Errors, failErrors, x) > 0)
  {
  }

  lemma TallyStep(failErrors: bool, run: Run, x: Contribution)
    ensures TallyOf(failErrors, run).Add(failErrors, x.score, x.impact) == TallyOf(failErrors, run + [x])
  {
    AddAmounts(TallyOf(failErrors, run), failErrors, x);
    forall m: Measure
      ensures Sum(m, failErrors, run + [x]) == Sum(m, failErrors, run) + Amount(m, failErrors, x)
    {
      SumStep(m, failErrors, run, x);
    }
  }

  lemma TallyForgetsOrder(failErrors: bool, a: Run, b: Run)
    requires multiset(a) == multiset(b)
    ensures TallyOf(failErrors, a) == TallyOf(failErrors, b)
  {
    forall m: Measure ensures Sum(m, failErrors, a) == Sum(m, failErrors, b) {
      SumForgetsOrder(m, failErrors, a, b);
    }
  }

  lemma TallyDropsIrrelevant(failErrors: bool, run: Run)
    ensures TallyOf(failErrors, OnlyRelevant(run)) == TallyOf(failErrors, run)
  {
    forall m: Measure ensures Sum(m, failErrors, OnlyRelevant(run)) == Sum(m, failErrors, run) {
      SumDropsIrrelevant(m, failErrors, run);
    }
  }

  /** With no completion above 100, the overall completion is 100 exactly when every contributor
      that is not merely data is complete. */
  lemma CompleteIffAllComplete(failErrors: bool, run: Run, value: nat)
    requires forall x :: x in run ==> x.score.scoreCompletion <= 100
    requires Sum(Results, failErrors, run) > 0
    ensures TallyOf(failErrors, run).Outcome(value).scoreCompletion == 100 <==>
      forall x :: x in run && Relevant(x) && x.score.typ != Unscored ==> x.score.scoreCompletion == 100
  {
    SumBounded(Results, ScoreTotal, false, failErrors, run);
    CompletionDeficit(failErrors, run);
    DivideToHundred(Sum(ScoreCompletion, failErrors, run), Sum(ScoreTotal, failErrors, run));
  }

  lemma DivideToHundred(c: nat, n: nat)
    requires n > 0 && c <= 100 * n
    ensures c / n == 100 <==> c == 100 * n
  {
    assert c == n * (c / n) + c % n;
    if c / n == 100 {
      assert n * (c / n) == 100 * n;
    }
  }

  lemma {:induction false} CompletionDeficit(failErrors: bool, run: Run)
    requires forall x :: x in run ==> x.score.scoreCompletion <= 100
    ensures Sum(ScoreCompletion, failErrors, run) <= 100 * Sum(ScoreTotal, failErrors, run)
    ensures Sum(ScoreCompletion, failErrors, run) == 100 * Sum(ScoreTotal, failErrors, run) <==>
      forall x :: x in run && Relevant(x) && x.score.typ != Unscored ==> x.score.scoreCompletion == 100
  {
    if run != [] {
      var front, last := run[..|run| - 1], run[|run| - 1];
      assert run == front + [last];
      assert last in run;
      forall x | x in front ensures x in run {}
      CompletionDeficit(failErrors, front);
    }
  }

  /** While 100 times the total weight, the number of scores and of datapoints stay below 2^32,
      no 32-bit counter of any calculator wraps around. */
  lemma CountersFit(failErrors: bool, run: Run)
    requires forall x :: x in run ==>
      x.score.value <= 100 && x.score.scoreCompletion <= 100 && x.score.dataCompletion <= 100
    requires 100 * Sum(Weight, failErrors, run) < 0x1_0000_0000
    requires 100 * Sum(ScoreTotal, failErrors, run) < 0x1_0000_0000
    requires 100 * Sum(DataTotal, failErrors, run) < 0x1_0000_0000
    ensures forall m: Measure :: !m.DecayLoss? && !m.DecayLimit? && !m.DecayDebt? ==>
      Sum(m, failErrors, run) < 0x1_0000_0000
  {
    forall m: Measure | !m.DecayLoss? && !m.DecayLimit?
      && !m.DecayDebt? ensures Sum(m, failErrors, run) < 0x1_0000_0000 {
      var percent, m' := false, m;
      match m {
        case DataCompletion => percent, m' := true, DataTotal;
        case ScoreCompletion => percent, m' := true, ScoreTotal;
        case Results => m' := ScoreTotal;
        case Errors => m' := ScoreTotal;
        case CountedNumber => m' := ScoreTotal;
        case CountedValue => percent, m' := true, ScoreTotal;
        case CountedWeight => m' := Weight;
        case CountedProduct => percent, m' := true, Weight;
        case BandWeight(_) => m' := Weight;
        case BandFailing(_) => m' := Weight;
        case _ =>
      }
      forall x | x in run ensures Amount(m, failErrors, x) <= Scale(percent, Amount(m', failErrors, x)) {
        AmountBounded(m, failErrors, x);
      }
      SumBounded(m, m', percent, failErrors, run);
    }
  }

  lemma AmountBounded(m: Measure, failErrors: bool, x: Contribution)
    requires x.score.value <= 100 && x.score.scoreCompletion <= 100 && x.score.dataCompletion <= 100
    ensures m == DataCompletion ==> Amount(m, failErrors, x) <= 100 * Amount(DataTotal, failErrors, x)
    ensures m == CountedProduct ==> Amount(m, failErrors, x) <= 100 * Amount(Weight, failErrors, x)
  {
    var s := x.score;
    assert s.dataCompletion * s.dataTotal <= 100 * s.dataTotal;
    assert s.value * s.weight <= 100 * s.weight;
  }

  // ----- quotients -----

  lemma ProductIsPositive(a: real, b: real)
    requires a > 0.0 && b > 0.0
    ensures a * b > 0.0
  {
  }

  /** A quotient of a part by the whole. */
  lemma QuotientBounds(q: real, part: real, whole: real)
    requires 0.0 <= part <= whole && whole > 0.0 && q * whole == part
    ensures 0.0 <= q <= 1.0
    ensures part == 0.0 ==> q == 0.0
    ensures part < whole ==> q < 1.0
    ensures part == whole ==> q == 1.0
  {
    if q < 0.0 {
      ProductIsPositive(-q, whole);
    } else if q > 1.0 {
      ProductIsPositive(q - 1.0, whole);
    } else if 0.0 < q < 1.0 {
      ProductIsPositive(q, whole);
      ProductIsPositive(1.0 - q, whole);
    }
  }
}
