/** The average, weighted and worst calculators. Each keeps running counters; each is proved to
    return a figure defined by sums (or a minimum) over everything that was ever added. */
module ScoreCalculators {
  import opened Wrappers
  import opened PolicyTypes
  import opened Scores

  /** An integer quotient that is 0 when there is nothing to divide by. */
  function Quotient(total: nat, n: nat): nat {
    if n == 0 then 0 else Div(total, n)
  }

  function AverageScore(failErrors: bool, run: Run): Score {
    TallyOf(failErrors, run).Outcome(
      Quotient(Sum(CountedValue, failErrors, run), Sum(CountedNumber, failErrors, run)))
  }

  function WeightedScore(failErrors: bool, run: Run): Score {
    TallyOf(failErrors, run).Outcome(
      Quotient(Sum(CountedProduct, failErrors, run), Sum(CountedWeight, failErrors, run)))
  }

  /** A counted result with a weight; only these can be the worst. */
  predicate Weighty(failErrors: bool, x: Contribution) {
    Counted(failErrors, x) && x.score.weight != 0
  }

  function Lowest(failErrors: bool, run: Run): nat {
    if run == [] then 100
    else
      var lowest, last := Lowest(failErrors, run[..|run| - 1]), run[|run| - 1];
      if Weighty(failErrors, last) && last.score.value < lowest then last.score.value else lowest
  }

  function WorstScore(failErrors: bool, run: Run): Score {
    TallyOf(failErrors, run).Outcome(Lowest(failErrors, run))
  }

  lemma CountedStep(failErrors: bool, run: Run, x: Contribution)
    ensures TallyOf(failErrors, run + [x]) == TallyOf(failErrors, run).Add(failErrors, x.score, x.impact)
    ensures var counted := Counted(failErrors, x);
      && Sum(CountedNumber, failErrors, run + [x]) == Sum(CountedNumber, failErrors, run) + (if counted then 1 else 0)
      && Sum(CountedValue, failErrors, run + [x]) ==
        Sum(CountedValue, failErrors, run) + (if counted then x.score.value else 0)
      && Sum(CountedWeight, failErrors, run + [x]) ==
        Sum(CountedWeight, failErrors, run) + (if counted then x.score.weight else 0)
      && Sum(CountedProduct, failErrors, run + [x])
         == Sum(CountedProduct, failErrors, run) + (if counted then x.score.value * x.score.weight else 0)
    ensures Lowest(failErrors, run + [x]) ==
      if Weighty(failErrors, x) && x.score.value < Lowest(failErrors, run)
        then x.score.value else Lowest(failErrors, run)
  {
    TallyStep(failErrors, run, x);
    SumStep(CountedNumber, failErrors, run, x);
    SumStep(CountedValue, failErrors, run, x);
    SumStep(CountedWeight, failErrors, run, x);
    SumStep(CountedProduct, failErrors, run, x);
    assert (run + [x])[..|run|] == run;
  }

  class AverageScoreCalculator {
    const failErrors: bool
    var tally: Tally
    var value: nat
    var scoreCnt: nat
    ghost var run: Run

    ghost predicate Valid()
      reads this
    {
      && tally == TallyOf(failErrors, run)
      && value == Sum(CountedValue, failErrors, run)
      && scoreCnt == Sum(CountedNumber, failErrors, run)
    }

    constructor (failErrors: bool)
      ensures Valid() && run == [] && this.failErrors == failErrors
    {
      this.failErrors := failErrors;
      tally, value, scoreCnt, run := EMPTY_TALLY, 0, 0, [];
    }

    method Init()
      modifies this
      ensures Valid() && run == []
    {
      tally, value, scoreCnt, run := EMPTY_TALLY, 0, 0, [];
    }

    method Add(score: Score, impact: Option<Impact>)
      requires Valid()
      modifies this
      ensures Valid() && run == old(run) + [Contribution(score, impact)]
    {
      var x := Contribution(score, impact);
      CountedStep(failErrors, run, x);
      tally := tally.Add(failErrors, score, impact);
      if IsResult(failErrors, x) && score.scoreCompletion != 0 {
        scoreCnt := scoreCnt + 1;
        value := value + score.value;
      }
      run := run + [x];
    }

    method Calculate() returns (res: Score)
      requires Valid()
      ensures res == AverageScore(failErrors, run)
    {
      ResultsAreScores(failErrors, run);
      res := Score(Unscored, 0, 0, 100, 100, tally.dataTotal);
      if tally.dataTotal != 0 {
        res := res.(dataCompletion := Div(tally.dataCompletion, tally.dataTotal));
      }
      if tally.hasResults {
        res := res.(typ := Scored, scoreCompletion := Div(tally.scoreCompletion, tally.scoreTotal),
          weight := tally.weight);
        if scoreCnt != 0 {
          res := res.(value := Div(value, scoreCnt));
        }
      } else if tally.hasErrors {
        res := res.(typ := Failed);
      }
    }
  }

  class WeightedScoreCalculator {
    const failErrors: bool
    var tally: Tally
    var value: nat
    var scoreCnt: nat
    ghost var run: Run

    ghost predicate Valid()
      reads this
    {
      && tally == TallyOf(failErrors, run)
      && value == Sum(CountedProduct, failErrors, run)
      && scoreCnt == Sum(CountedWeight, failErrors, run)
    }

    constructor (failErrors: bool)
      ensures Valid() && run == [] && this.failErrors == failErrors
    {
      this.failErrors := failErrors;
      tally, value, scoreCnt, run := EMPTY_TALLY, 0, 0, [];
    }

    method Init()
      modifies this
      ensures Valid() && run == []
    {
      tally, value, scoreCnt, run := EMPTY_TALLY, 0, 0, [];
    }

    method Add(score: Score, impact: Option<Impact>)
      requires Valid()
      modifies this
      ensures Valid() && run == old(run) + [Contribution(score, impact)]
    {
      var x := Contribution(score, impact);
      CountedStep(failErrors, run, x);
      tally := tally.Add(failErrors, score, impact);
      if IsResult(failErrors, x) && score.scoreCompletion != 0 {
        scoreCnt := scoreCnt + score.weight;
        value := value + score.value * score.weight;
      }
      run := run + [x];
    }

    method Calculate() returns (res: Score)
      requires Valid()
      ensures res == WeightedScore(failErrors, run)
    {
      ResultsAreScores(failErrors, run);
      res := Score(Unscored, 0, 0, 100, 100, tally.dataTotal);
      if tally.dataTotal != 0 {
        res := res.(dataCompletion := Div(tally.dataCompletion, tally.dataTotal));
      }
      if tally.hasResults {
        res := res.(typ := Scored, scoreCompletion := Div(tally.scoreCompletion, tally.scoreTotal),
          weight := tally.weight);
        if scoreCnt != 0 {
          res := res.(value := Div(value, scoreCnt));
        }
      } else if tally.hasErrors {
        res := res.(typ := Failed);
      }
    }
  }

  class WorstScoreCalculator {
    const failErrors: bool
    var tally: Tally
    var value: nat
    ghost var run: Run

    ghost predicate Valid()
      reads this
    {
      tally == TallyOf(failErrors, run) && value == Lowest(failErrors, run)
    }

    constructor (failErrors: bool)
      ensures Valid() && run == [] && this.failErrors == failErrors
    {
      this.failErrors := failErrors;
      tally, value, run := EMPTY_TALLY, 100, [];
    }

    method Init()
      modifies this
      ensures Valid() && run == []
    {
      tally, value, run := EMPTY_TALLY, 100, [];
    }

    method Add(score: Score, impact: Option<Impact>)
      requires Valid()
      modifies this
      ensures Valid() && run == old(run) + [Contribution(score, impact)]
    {
      var x := Contribution(score, impact);
      CountedStep(failErrors, run, x);
      tally := tally.Add(failErrors, score, impact);
      if IsResult(failErrors, x) && score.scoreCompletion != 0 && score.weight != 0 && score.value < value {
        value := score.value;
      }
      run := run + [x];
    }

    method Calculate() returns (res: Score)
      requires Valid()
      ensures res == WorstScore(failErrors, run)
    {
      ResultsAreScores(failErrors, run);
      res := Score(Unscored, 0, 0, 100, 100, tally.dataTotal);
      if tally.dataTotal != 0 {
        res := res.(dataCompletion := Div(tally.dataCompletion, tally.dataTotal));
      }
      if tally.scoreTotal == 0 {
        return;
      }
      if tally.hasResults {
        res := Score(Scored, value, tally.weight, Div(tally.scoreCompletion, tally.scoreTotal), res.dataCompletion,
          res.dataTotal);
      } else if tally.hasErrors {
        res := res.(typ := Failed);
      }
    }
  }

  /** A run with results or errors has scores to complete, so no calculator divides by zero. */
  lemma ResultsAreScores(failErrors: bool, run: Run)
    ensures Sum(Results, failErrors, run) <= Sum(ScoreTotal, failErrors, run)
    ensures Sum(Errors, failErrors, run) <= Sum(ScoreTotal, failErrors, run)
  {
    SumBounded(Results, ScoreTotal, false, failErrors, run);
    SumBounded(Errors, ScoreTotal, false, failErrors, run);
  }

  // ----- what the outcomes depend on -----

  lemma {:induction false} LowestIsMinimum(failErrors: bool, run: Run)
    ensures Lowest(failErrors, run) <= 100
    ensures forall x :: x in run && Weighty(failErrors, x) ==> Lowest(failErrors, run) <= x.score.value
    ensures Lowest(failErrors, run) == 100 ||
      exists x :: x in run && Weighty(failErrors, x) && x.score.value == Lowest(failErrors, run)
  {
    if run != [] {
      var front, last := run[..|run| - 1], run[|run| - 1];
      LowestIsMinimum(failErrors, front);
      assert run == front + [last];
      if Lowest(failErrors, run) != Lowest(failErrors, front) {
        assert last in run;
      } else if Lowest(failErrors, front) != 100 {
        var x :| x in front && Weighty(failErrors, x) && x.score.value == Lowest(failErrors, front);
        assert x in run;
      }
    }
  }

  lemma SameLowest(failErrors: bool, a: Run, b: Run)
    requires forall x :: Weighty(failErrors, x) ==> (x in a <==> x in b)
    ensures Lowest(failErrors, a) == Lowest(failErrors, b)
  {
    LowestIsMinimum(failErrors, a);
    LowestIsMinimum(failErrors, b);
  }

  /** The outcome of a run does not depend on its order. */
  lemma OrderDoesNotMatter(failErrors: bool, a: Run, b: Run)
    requires multiset(a) == multiset(b)
    ensures AverageScore(failErrors, a) == AverageScore(failErrors, b)
    ensures WeightedScore(failErrors, a) == WeightedScore(failErrors, b)
    ensures WorstScore(failErrors, a) == WorstScore(failErrors, b)
  {
    TallyForgetsOrder(failErrors, a, b);
    forall m: Measure ensures Sum(m, failErrors, a) == Sum(m, failErrors, b) {
      SumForgetsOrder(m, failErrors, a, b);
    }
    forall x ensures x in a <==> x in b {
      assert x in multiset(a) <==> x in multiset(b);
    }
    SameLowest(failErrors, a, b);
  }

  /** Skipped, disabled, out-of-scope, ignored and deactivated results might as well not be there. */
  lemma IrrelevantDoesNotMatter(failErrors: bool, run: Run)
    ensures AverageScore(failErrors, OnlyRelevant(run)) == AverageScore(failErrors, run)
    ensures WeightedScore(failErrors, OnlyRelevant(run)) == WeightedScore(failErrors, run)
    ensures WorstScore(failErrors, OnlyRelevant(run)) == WorstScore(failErrors, run)
  {
    TallyDropsIrrelevant(failErrors, run);
    forall m: Measure ensures Sum(m, failErrors, OnlyRelevant(run)) == Sum(m, failErrors, run) {
      SumDropsIrrelevant(m, failErrors, run);
    }
    forall x | Weighty(failErrors, x) ensures x in OnlyRelevant(run) <==> x in run {
      OnlyRelevantKeeps(run, x);
    }
    SameLowest(failErrors, OnlyRelevant(run), run);
  }

  // ----- where the outcomes lie -----

  lemma {:induction false} SumBetween(m: Measure, m': Measure, lo: nat, hi: nat, failErrors: bool, run: Run)
    requires forall x :: x in run ==>
      lo * Amount(m', failErrors, x) <= Amount(m, failErrors, x) <= hi * Amount(m', failErrors, x)
    ensures lo * Sum(m', failErrors, run) <= Sum(m, failErrors, run) <= hi * Sum(m', failErrors, run)
  {
    if run != [] {
      var front, last := run[..|run| - 1], run[|run| - 1];
      forall x | x in front ensures x in run {}
      SumBetween(m, m', lo, hi, failErrors, front);
      assert last in run;
      Distribute(lo, Sum(m', failErrors, front), Amount(m', failErrors, last));
      Distribute(hi, Sum(m', failErrors, front), Amount(m', failErrors, last));
    }
  }

  lemma Distribute(k: nat, a: nat, b: nat)
    ensures k * (a + b) == k * a + k * b
  {
  }

  lemma QuotientBetween(total: nat, n: nat, lo: nat, hi: nat)
    requires n > 0 && lo * n <= total <= hi * n
    ensures lo <= Quotient(total, n) <= hi
  {
    var q := total / n;
    assert n * q <= total < n * (q + 1);
    if q < lo {
      Monotone(n, q + 1, lo);
    }
    if q > hi {
      Monotone(n, hi + 1, q);
    }
  }

  lemma Monotone(n: nat, a: int, b: int)
    requires a <= b
    ensures n * a <= n * b
  {
  }

  /** Every counted value lies between lo and hi. */
  ghost predicate CountedBetween(failErrors: bool, run: Run, lo: nat, hi: nat) {
    forall x :: x in run && Counted(failErrors, x) ==> lo <= x.score.value <= hi
  }

  /** The average lies between the smallest and the largest counted value. */
  lemma AverageBetween(failErrors: bool, run: Run, lo: nat, hi: nat)
    requires CountedBetween(failErrors, run, lo, hi) && exists x :: x in run && Counted(failErrors, x)
    ensures lo <= AverageScore(failErrors, run).value <= hi
  {
    forall x | x in run
      ensures lo * Amount(CountedNumber, failErrors, x) <= Amount(CountedValue, failErrors,
        x) <= hi * Amount(CountedNumber, failErrors, x)
    {
    }
    SumBetween(CountedValue, CountedNumber, lo, hi, failErrors, run);
    CountedIsResult(failErrors, run);
    QuotientBetween(Sum(CountedValue, failErrors, run), Sum(CountedNumber, failErrors, run), lo, hi);
  }

  /** So does the weighted average, as soon as some counted result has a weight. */
  lemma WeightedBetween(failErrors: bool, run: Run, lo: nat, hi: nat)
    requires CountedBetween(failErrors, run, lo, hi) && exists x :: x in run && Weighty(failErrors, x)
    ensures lo <= WeightedScore(failErrors, run).value <= hi
  {
    forall x | x in run
      ensures lo * Amount(CountedWeight, failErrors, x) <= Amount(CountedProduct, failErrors,
        x) <= hi * Amount(CountedWeight, failErrors, x)
    {
      if Counted(failErrors, x) {
        ProductBetween(x.score.value, x.score.weight, lo, hi);
      }
    }
    SumBetween(CountedProduct, CountedWeight, lo, hi, failErrors, run);
    var x :| x in run && Weighty(failErrors, x);
    assert Counted(failErrors, x);
    CountedIsResult(failErrors, run);
    assert Amount(CountedWeight, failErrors, x) > 0;
    SumIsPositive(CountedWeight, failErrors, run);
    QuotientBetween(Sum(CountedProduct, failErrors, run), Sum(CountedWeight, failErrors, run), lo, hi);
  }

  lemma ProductBetween(v: nat, w: nat, lo: nat, hi: nat)
    requires lo <= v <= hi
    ensures lo * w <= v * w <= hi * w
  {
  }

  lemma CountedIsResult(failErrors: bool, run: Run)
    requires exists x :: x in run && Counted(failErrors, x)
    ensures Sum(CountedNumber, failErrors, run) > 0 && Sum(Results, failErrors, run) > 0
    ensures Sum(ScoreTotal, failErrors, run) > 0
  {
    var x :| x in run && Counted(failErrors, x);
    assert Amount(CountedNumber, failErrors, x) > 0 && Amount(Results, failErrors, x) > 0;
    SumIsPositive(CountedNumber, failErrors, run);
    SumIsPositive(Results, failErrors, run);
    ResultsAreScores(failErrors, run);
  }

  /** When every counted result has a weight, the worst score is at most either average. */
  lemma WorstIsLowest(failErrors: bool, run: Run)
    requires forall x :: x in run && Counted(failErrors, x) ==> x.score.weight > 0
    requires exists x :: x in run && Counted(failErrors, x)
    ensures WorstScore(failErrors, run).value <= AverageScore(failErrors, run).value
    ensures WorstScore(failErrors, run).value <= WeightedScore(failErrors, run).value
  {
    LowestIsMinimum(failErrors, run);
    var lo := Lowest(failErrors, run);
    var hi := Highest(run);
    forall x | x in run && Counted(failErrors, x) ensures lo <= x.score.value <= hi {
      assert Weighty(failErrors, x);
      HighestIsUpperBound(run, x);
    }
    var x :| x in run && Counted(failErrors, x);
    assert Weighty(failErrors, x);
    CountedIsResult(failErrors, run);
    AverageBetween(failErrors, run, lo, hi);
    WeightedBetween(failErrors, run, lo, hi);
  }

  ghost function Highest(run: Run): nat {
    if run == [] then 0 else
      var h := Highest(run[..|run| - 1]);
      if run[|run| - 1].score.value > h then run[|run| - 1].score.value else h
  }

  lemma {:induction false} HighestIsUpperBound(run: Run, x: Contribution)
    requires x in run
    ensures x.score.value <= Highest(run)
  {
    if x != run[|run| - 1] {
      HighestIsUpperBound(run[..|run| - 1], x);
    }
  }

  /** With completions of at most 100 and at least one result, every calculator reports a complete
      score exactly when every contributor other than pure data is complete. */
  lemma CompletionIsExact(failErrors: bool, run: Run)
    requires forall x :: x in run ==> x.score.scoreCompletion <= 100
    requires exists x :: x in run && IsResult(failErrors, x)
    ensures var complete := forall x :: x in run && Relevant(x) && x.score.typ != Unscored ==>
      x.score.scoreCompletion == 100;
      && (AverageScore(failErrors, run).scoreCompletion == 100 <==> complete)
      && (WeightedScore(failErrors, run).scoreCompletion == 100 <==> complete)
      && (WorstScore(failErrors, run).scoreCompletion == 100 <==> complete)
  {
    var x :| x in run && IsResult(failErrors, x);
    assert Amount(Results, failErrors, x) > 0;
    SumIsPositive(Results, failErrors, run);
    CompleteIffAllComplete(failErrors, run, AverageScore(failErrors, run).value);
    CompleteIffAllComplete(failErrors, run, WeightedScore(failErrors, run).value);
    CompleteIffAllComplete(failErrors, run, WorstScore(failErrors, run).value);
  }
}
