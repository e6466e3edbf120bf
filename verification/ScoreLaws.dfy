/** What the scores of a run are, in terms of nothing but the fields of its contributions. */
module ScoreLaws {
  import opened PolicyTypes
  import opened Scores
  import opened ScoreCalculators

  /** The total of a quantity over a run. */
  function Total(run: Run, quantity: Contribution -> nat): nat {
    if run == [] then 0 else Total(run[..|run| - 1], quantity) + quantity(run[|run| - 1])
  }

  lemma {:induction false} TotalIs(m: Measure, failErrors: bool, run: Run, quantity: Contribution -> nat)
    requires forall x :: x in run ==> quantity(x) == Amount(m, failErrors, x)
    ensures Total(run, quantity) == Sum(m, failErrors, run)
  {
    if run != [] {
      assert run == run[..|run| - 1] + [run[|run| - 1]];
      TotalIs(m, failErrors, run[..|run| - 1], quantity);
    }
  }

  // ----- what takes part -----

  /** Not skipped, disabled or out of scope, and not a result that is to be ignored or is deactivated. */
  predicate TakesPart(x: Contribution) {
    && x.score.typ != Skip && x.score.typ != Disabled && x.score.typ != NotInScope
    && !(x.score.typ == Scored && x.impact.Some?
         && (x.impact.value.action == Ignore || x.impact.value.action == Deactivate))
  }

  /** A result, or an error that is to be counted as one. */
  predicate GivesResult(failErrors: bool, x: Contribution) {
    TakesPart(x) && (x.score.typ == Scored || (x.score.typ == Failed && failErrors))
  }

  /** A result that has been completed in part. */
  predicate GivesValue(failErrors: bool, x: Contribution) {
    GivesResult(failErrors, x) && x.score.scoreCompletion > 0
  }

  function DataNumber(): Contribution -> nat {
    x => if TakesPart(x) then x.score.dataTotal else 0
  }

  function DataCompleted(): Contribution -> nat {
    x => if TakesPart(x) then x.score.dataTotal * x.score.dataCompletion else 0
  }

  function Scorers(): Contribution -> nat {
    x => if TakesPart(x) && x.score.typ != Unscored then 1 else 0
  }

  function Completed(): Contribution -> nat {
    x => if TakesPart(x) && x.score.typ != Unscored then x.score.scoreCompletion else 0
  }

  function ResultWeight(failErrors: bool): Contribution -> nat {
    x => if GivesResult(failErrors, x) then x.score.weight else 0
  }

  // ----- what all scores have in common -----

  /** The whole part of a number of points. */
  function Whole(points: real): nat {
    if points >= 0.0 then points.Floor else 0
  }

  /** The whole part of a quotient, or something else if there is nothing to divide by. */
  predicate IsQuotient(n: nat, total: nat, parts: nat, fallback: nat) {
    if parts == 0 then n == fallback else parts * n <= total < parts * (n + 1)
  }

  ghost predicate HasResult(failErrors: bool, run: Run) {
    exists x :: x in run && GivesResult(failErrors, x)
  }

  ghost predicate HasError(run: Run) {
    exists x :: x in run && x.score.typ == Failed
  }

  /** A score is scored if there is a result, else an error if there is one. Its data completion is the mean
      over all datapoints, and its completion that over all that take part with more than data. */
  ghost predicate IsOutcome(failErrors: bool, run: Run, s: Score) {
    && s.typ == (if HasResult(failErrors, run) then Scored else if HasError(run) then Failed else Unscored)
    && s.dataTotal == Total(run, DataNumber())
    && IsQuotient(s.dataCompletion, Total(run, DataCompleted()), s.dataTotal, 100)
    && if s.typ == Scored then
         && s.weight == Total(run, ResultWeight(failErrors))
         && IsQuotient(s.scoreCompletion, Total(run, Completed()), Total(run, Scorers()), 100)
       else s.weight == 0 && s.value == 0 && s.scoreCompletion == 100
  }

  lemma DivIs(total: nat, n: nat)
    requires n > 0
    ensures n * Div(total, n) <= total < n * (Div(total, n) + 1)
  {
  }

  lemma QuotientIs(total: nat, n: nat)
    ensures IsQuotient(Quotient(total, n), total, n, 0)
  {
    if n > 0 {
      DivIs(total, n);
    }
  }

  lemma TypesAre(failErrors: bool, run: Run)
    ensures Sum(Results, failErrors, run) > 0 <==> HasResult(failErrors, run)
    ensures Sum(Errors, failErrors, run) > 0 <==> HasError(run)
  {
    SumIsPositive(Results, failErrors, run);
    SumIsPositive(Errors, failErrors, run);
    if x :| x in run && GivesResult(failErrors, x) {
      assert Amount(Results, failErrors, x) > 0;
    }
    if x :| x in run && Amount(Results, failErrors, x) > 0 {
      assert GivesResult(failErrors, x);
    }
    if x :| x in run && x.score.typ == Failed {
      assert Amount(Errors, failErrors, x) > 0;
    }
    if x :| x in run && Amount(Errors, failErrors, x) > 0 {
      assert x.score.typ == Failed;
    }
  }

  lemma TotalsAre(failErrors: bool, run: Run)
    ensures Total(run, DataNumber()) == Sum(DataTotal, failErrors, run)
    ensures Total(run, DataCompleted()) == Sum(DataCompletion, failErrors, run)
    ensures Total(run, Scorers()) == Sum(ScoreTotal, failErrors, run)
    ensures Total(run, Completed()) == Sum(ScoreCompletion, failErrors, run)
    ensures Total(run, ResultWeight(failErrors)) == Sum(Weight, failErrors, run)
  {
    TotalIs(DataTotal, failErrors, run, DataNumber());
    TotalIs(DataCompletion, failErrors, run, DataCompleted());
    TotalIs(ScoreTotal, failErrors, run, Scorers());
    TotalIs(ScoreCompletion, failErrors, run, Completed());
    TotalIs(Weight, failErrors, run, ResultWeight(failErrors));
  }

  lemma OutcomeIs(failErrors: bool, run: Run, value: nat)
    ensures var s := TallyOf(failErrors, run).Outcome(value);
      IsOutcome(failErrors, run, s) && (s.typ == Scored ==> s.value == value)
  {
    var t := TallyOf(failErrors, run);
    TypesAre(failErrors, run);
    TotalsAre(failErrors, run);
    ResultsAreScores(failErrors, run);
    if t.dataTotal > 0 {
      DivIs(t.dataCompletion, t.dataTotal);
    }
    if t.scoreTotal > 0 {
      DivIs(t.scoreCompletion, t.scoreTotal);
    }
  }

  // ----- average, weighted and worst -----

  function Values(failErrors: bool): Contribution -> nat {
    x => if GivesValue(failErrors, x) then x.score.value else 0
  }

  function Number(failErrors: bool): Contribution -> nat {
    x => if GivesValue(failErrors, x) then 1 else 0
  }

  function WeighedValues(failErrors: bool): Contribution -> nat {
    x => if GivesValue(failErrors, x) then x.score.weight * x.score.value else 0
  }

  function Weights(failErrors: bool): Contribution -> nat {
    x => if GivesValue(failErrors, x) then x.score.weight else 0
  }

  /** The average is the mean of the values, rounded down. */
  lemma AverageIsMean(failErrors: bool, run: Run)
    ensures var s := AverageScore(failErrors, run);
      && IsOutcome(failErrors, run, s)
      && (s.typ == Scored ==>
          IsQuotient(s.value, Total(run, Values(failErrors)), Total(run, Number(failErrors)), 0))
  {
    TotalIs(CountedValue, failErrors, run, Values(failErrors));
    TotalIs(CountedNumber, failErrors, run, Number(failErrors));
    QuotientIs(Sum(CountedValue, failErrors, run), Sum(CountedNumber, failErrors, run));
    OutcomeIs(failErrors, run, Quotient(Sum(CountedValue, failErrors, run), Sum(CountedNumber, failErrors, run)));
  }

  /** The weighted average is the mean of the values by their weights, rounded down. */
  lemma WeightedIsMean(failErrors: bool, run: Run)
    ensures var s := WeightedScore(failErrors, run);
      && IsOutcome(failErrors, run, s)
      && (s.typ == Scored ==>
          IsQuotient(s.value, Total(run, WeighedValues(failErrors)), Total(run, Weights(failErrors)), 0))
  {
    TotalIs(CountedProduct, failErrors, run, WeighedValues(failErrors));
    TotalIs(CountedWeight, failErrors, run, Weights(failErrors));
    QuotientIs(Sum(CountedProduct, failErrors, run), Sum(CountedWeight, failErrors, run));
    OutcomeIs(failErrors, run, Quotient(Sum(CountedProduct, failErrors, run), Sum(CountedWeight, failErrors, run)));
  }

  function WithWeight(x: Contribution, weight: nat): Contribution {
    x.(score := x.score.(weight := weight))
  }

  /** A result of weight a + b counts like the same result twice, with weights a and b. */
  lemma WeightIsRepetition(failErrors: bool, run: Run, x: Contribution, a: nat, b: nat)
    ensures WeightedScore(failErrors, run + [WithWeight(x, a + b)]).value ==
      WeightedScore(failErrors, run + [WithWeight(x, a)] + [WithWeight(x, b)]).value
  {
    TypesAfter(failErrors, run, WithWeight(x, a + b), WithWeight(x, a), WithWeight(x, b));
    MeansAfter(failErrors, run, x, a, b);
  }

  lemma MeansAfter(failErrors: bool, run: Run, x: Contribution, a: nat, b: nat)
    ensures var once, twice := run + [WithWeight(x, a + b)], run + [WithWeight(x, a)] + [WithWeight(x, b)];
      && Sum(CountedProduct, failErrors, once) == Sum(CountedProduct, failErrors, twice)
      && Sum(CountedWeight, failErrors, once) == Sum(CountedWeight, failErrors, twice)
  {
    AmountsAdd(failErrors, x, a, b);
    SumStep(CountedProduct, failErrors, run, WithWeight(x, a + b));
    SumStep(CountedProduct, failErrors, run, WithWeight(x, a));
    SumStep(CountedProduct, failErrors, run + [WithWeight(x, a)], WithWeight(x, b));
    SumStep(CountedWeight, failErrors, run, WithWeight(x, a + b));
    SumStep(CountedWeight, failErrors, run, WithWeight(x, a));
    SumStep(CountedWeight, failErrors, run + [WithWeight(x, a)], WithWeight(x, b));
  }

  lemma AmountsAdd(failErrors: bool, x: Contribution, a: nat, b: nat)
    ensures forall m :: m == CountedProduct || m == CountedWeight ==>
      Amount(m, failErrors, WithWeight(x, a + b)) ==
      Amount(m, failErrors, WithWeight(x, a)) + Amount(m, failErrors, WithWeight(x, b))
  {
    assert x.score.value * (a + b) == x.score.value * a + x.score.value * b;
  }

  lemma TypesAfter(failErrors: bool, run: Run, x: Contribution, a: Contribution, b: Contribution)
    requires GivesResult(failErrors, x) <==> GivesResult(failErrors, a)
    requires GivesResult(failErrors, x) <==> GivesResult(failErrors, b)
    ensures TallyOf(failErrors, run + [x]).hasResults == TallyOf(failErrors, run + [a] + [b]).hasResults
    ensures TallyOf(failErrors, run + [x]).hasResults ==> TallyOf(failErrors, run + [x]).scoreTotal != 0
    ensures TallyOf(failErrors, run + [a] + [b]).hasResults ==> TallyOf(failErrors, run + [a] + [b]).scoreTotal != 0
  {
    SumStep(Results, failErrors, run, x);
    SumStep(Results, failErrors, run, a);
    SumStep(Results, failErrors, run + [a], b);
    ResultsAreScores(failErrors, run + [x]);
    ResultsAreScores(failErrors, run + [a] + [b]);
  }

  /** The worst score is the lowest value of a result with a weight, and 100 without one. */
  lemma WorstIsMinimum(failErrors: bool, run: Run)
    ensures var s := WorstScore(failErrors, run);
      && IsOutcome(failErrors, run, s)
      && (s.typ == Scored ==>
          && s.value <= 100
          && (forall x :: x in run && GivesValue(failErrors, x) && x.score.weight > 0 ==> s.value <= x.score.value)
          && (s.value == 100 || exists x ::
              x in run && GivesValue(failErrors, x) && x.score.weight > 0 && x.score.value == s.value))
  {
    OutcomeIs(failErrors, run, Lowest(failErrors, run));
    LowestIsMinimum(failErrors, run);
    forall x ensures Weighty(failErrors, x) <==> GivesValue(failErrors, x) && x.score.weight > 0 {
    }
  }
}
