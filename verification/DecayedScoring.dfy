/** Decayed scoring, and the adapter that turns reported scores into contributions. The
    adapter's score floor is what keeps decayed scores within 0..100. */
module DecayedScoring {
  import opened Wrappers
  import opened PolicyTypes
  import opened Scores
  import opened ScoreCalculators

  /** A score as it is reported for an edge: it may be missing, and the edge may carry an impact. */
  datatype Reported = Reported(score: Score, found: bool, impact: Option<Impact>)

  /** What AddSpecdScore hands to the calculator. */
  function Specd(r: Reported): Contribution {
    if !r.found then Contribution(Score(Unknown, 0, 0, 0, 0, 0), None)
    else
      var floor := if r.impact.Some? && r.impact.value.value.Some? then HundredMinus(r.impact.value.value.value) else 0;
      var score := r.score.(value := if floor > r.score.value then floor else r.score.value);
      if r.impact.None? then Contribution(score, None)
      else if r.impact.value.scoring == IgnoreScore then
        Contribution(score.(typ := Skip, weight := 0), None)
      else if r.impact.value.weight > 0 then
        Contribution(score.(weight := r.impact.value.weight), r.impact)
      else if score.weight == 0 then Contribution(score.(weight := 1), r.impact)
      else Contribution(score, r.impact)
  }

  function SpecdRun(reports: seq<Reported>): (run: Run)
    ensures |run| == |reports| && forall i :: 0 <= i < |run| ==> run[i] == Specd(reports[i])
  {
    seq(|reports|, i requires 0 <= i < |reports| => Specd(reports[i]))
  }

  /** What the calculations need of the exponential function. */
  ghost predicate Exponential(exp: real -> real) {
    && exp(0.0) == 1.0
    && (forall x :: exp(x) > 0.0)
    && (forall x, y :: x < y ==> exp(x) < exp(y))
  }

  function Loss(run: Run): real {
    Sum(DecayLoss, false, run) as real / 100.0
  }

  function Limit(run: Run): real {
    (Sum(DecayLimit, false, run) - Sum(DecayDebt, false, run)) as real / 100.0
  }

  /** Conversion to an unsigned integer; negative values, which Go leaves open, become 0. */
  function ToUnsigned(x: real): nat {
    if x >= 0.0 then x.Floor else 0
  }

  const GRAVITY := 10.0

  /** The decayed value for a loss out of a limit, at a total weight; 0 when nothing is at stake. */
  function DecayedValue(exp: real -> real, weight: nat, x: real, xmax: real): nat
    requires xmax != 0.0 ==> exp(-(weight as real / GRAVITY)) != 1.0
  {
    if xmax == 0.0 then 0
    else
      var relGravity := weight as real / GRAVITY;
      var floor := exp(-relGravity);
      ToUnsigned((100.0 * (exp(-(x / xmax * relGravity)) - floor) / (1.0 - floor)).Floor as real)
  }

  /** A limit only accrues along with weight, so the quotient in the formula is defined. */
  lemma LimitNeedsWeight(exp: real -> real, failErrors: bool, run: Run)
    requires Exponential(exp) && Limit(run) != 0.0
    ensures Sum(Weight, failErrors, run) > 0
    ensures 0.0 < exp(-(Sum(Weight, failErrors, run) as real / GRAVITY)) < 1.0
  {
    SumIsPositive(DecayLimit, false, run);
    SumIsPositive(DecayDebt, false, run);
    var x: Contribution;
    if Sum(DecayLimit, false, run) > 0 {
      x :| x in run && Amount(DecayLimit, false, x) > 0;
    } else {
      x :| x in run && Amount(DecayDebt, false, x) > 0;
    }
    assert Decays(x);
    assert Amount(Weight, failErrors, x) > 0;
    SumIsPositive(Weight, failErrors, run);
    assert -(Sum(Weight, failErrors, run) as real / GRAVITY) < 0.0;
  }

  function DecayedScore(exp: real -> real, failErrors: bool, run: Run): Score
    requires Exponential(exp)
  {
    assert Limit(run) != 0.0 ==> exp(-(Sum(Weight, failErrors, run) as real / GRAVITY)) != 1.0 by {
      if Limit(run) != 0.0 {
        LimitNeedsWeight(exp, failErrors, run);
      }
    }
    TallyOf(failErrors, run).Outcome(DecayedValue(exp, Sum(Weight, failErrors, run), Loss(run), Limit(run)))
  }

  /** A percentage of a weight. */
  function AtStake(percent: int, weight: nat): real {
    (percent * weight) as real / 100.0
  }

  class DecayedScoreCalculator {
    const failErrors: bool
    var tally: Tally
    var x: real
    var xmax: real
    ghost var run: Run

    ghost predicate Valid()
      reads this
    {
      tally == TallyOf(failErrors, run) && x == Loss(run) && xmax == Limit(run)
    }

    constructor (failErrors: bool)
      ensures Valid() && run == [] && this.failErrors == failErrors
    {
      this.failErrors := failErrors;
      tally, x, xmax, run := EMPTY_TALLY, 0.0, 0.0, [];
    }

    method Init()
      modifies this
      ensures Valid() && run == []
    {
      tally, x, xmax, run := EMPTY_TALLY, 0.0, 0.0, [];
    }

    method Add(score: Score, impact: Option<Impact>)
      requires Valid()
      modifies this
      ensures Valid() && run == old(run) + [Contribution(score, impact)]
    {
      var c := Contribution(score, impact);
      TallyStep(failErrors, run, c);
      DecayStep(run, c);
      tally := tally.Add(failErrors, score, impact);
      if Relevant(c) && score.typ == Scored && score.scoreCompletion != 0 && score.weight != 0 {
        x := x + AtStake(HundredMinus(score.value), score.weight);
        xmax := xmax + AtStake(Percent(impact), score.weight);
      }
      run := run + [c];
    }

    method Calculate(exp: real -> real) returns (res: Score)
      requires Valid() && Exponential(exp)
      ensures res == DecayedScore(exp, failErrors, run)
    {
      ResultsAreScores(failErrors, run);
      res := Score(Unscored, 0, 0, 100, 100, tally.dataTotal);
      if tally.dataTotal != 0 {
        res := res.(dataCompletion := Div(tally.dataCompletion, tally.dataTotal));
      }
      if tally.scoreTotal == 0 {
        return;
      }
      if tally.hasResults {
        if xmax != 0.0 {
          LimitNeedsWeight(exp, failErrors, run);
        }
        var value := DecayedValue(exp, tally.weight, x, xmax);
        res := Score(Scored, value, tally.weight, Div(tally.scoreCompletion, tally.scoreTotal), res.dataCompletion,
          res.dataTotal);
      } else if tally.hasErrors {
        res := res.(typ := Failed);
      }
    }
  }

  lemma DecayStep(run: Run, c: Contribution)
    ensures Loss(run + [c]) == Loss(run) + (if Decays(c)
      then AtStake(HundredMinus(c.score.value), c.score.weight) else 0.0)
    ensures Limit(run + [c]) == Limit(run) + (if Decays(c) then AtStake(Percent(c.impact), c.score.weight) else 0.0)
  {
    SumStep(DecayLoss, false, run, c);
    SumStep(DecayLimit, false, run, c);
    SumStep(DecayDebt, false, run, c);
    StakeIsLimitLessDebt(c);
  }

  lemma StakeIsLimitLessDebt(c: Contribution)
    ensures Amount(DecayLimit, false, c) - Amount(DecayDebt, false, c) == if Decays(c)
      then Percent(c.impact) * c.score.weight else 0
    ensures Amount(DecayLoss, false, c) == if Decays(c) then HundredMinus(c.score.value) * c.score.weight else 0
  {
    var p, w := Percent(c.impact), c.score.weight;
    assert p * w == -(-p * w);
  }

  // ----- properties -----

  lemma DecayedIgnoresOrder(exp: real -> real, failErrors: bool, a: Run, b: Run)
    requires Exponential(exp) && multiset(a) == multiset(b)
    ensures DecayedScore(exp, failErrors, a) == DecayedScore(exp, failErrors, b)
  {
    TallyForgetsOrder(failErrors, a, b);
    SumForgetsOrder(Weight, failErrors, a, b);
    SumForgetsOrder(DecayLoss, false, a, b);
    SumForgetsOrder(DecayLimit, false, a, b);
    SumForgetsOrder(DecayDebt, false, a, b);
  }

  predicate InRange(r: Reported) {
    && r.score.value <= 100
    && (r.impact.Some? && r.impact.value.value.Some? ==> 0 <= r.impact.value.value.value <= 100)
  }

  /** The score floor: a reported score cannot lose more than its impact puts at stake. */
  lemma SpecdLossWithinLimit(r: Reported)
    requires InRange(r)
    ensures var c := Specd(r);
      && c.score.value <= 100
      && 0 <= Percent(c.impact)
      && HundredMinus(c.score.value) <= Percent(c.impact)
  {
  }

  lemma LossOfOneWithinLimit(r: Reported)
    requires InRange(r)
    ensures Amount(DecayLoss, false, Specd(r)) <= Scale(false, Amount(DecayLimit, false, Specd(r)))
    ensures Amount(DecayDebt, false, Specd(r)) == 0
  {
    var c := Specd(r);
    SpecdLossWithinLimit(r);
    ProductBetween(HundredMinus(c.score.value), c.score.weight, 0, Percent(c.impact));
  }

  /** Fed through the adapter, the loss never exceeds the limit. */
  lemma LossWithinLimit(reports: seq<Reported>)
    requires forall r :: r in reports ==> InRange(r)
    ensures 0.0 <= Loss(SpecdRun(reports)) <= Limit(SpecdRun(reports))
  {
    var run := SpecdRun(reports);
    forall c | c in run
      ensures Amount(DecayLoss, false, c) <= Scale(false, Amount(DecayLimit, false, c))
      ensures Amount(DecayDebt, false, c) == 0
    {
      var i :| 0 <= i < |run| && run[i] == c;
      assert reports[i] in reports;
      LossOfOneWithinLimit(reports[i]);
    }
    SumBounded(DecayLoss, DecayLimit, false, false, run);
    SumIsPositive(DecayDebt, false, run);
  }

  lemma ScaledQuotient(x: real, xmax: real, g: real)
    requires 0.0 <= x <= xmax && xmax > 0.0 && g > 0.0
    ensures -g <= -(x / xmax * g) <= 0.0
    ensures x == 0.0 ==> x / xmax * g == 0.0
    ensures x == xmax ==> x / xmax * g == g
  {
    var q := x / xmax;
    QuotientBounds(q, x, xmax);
    NonNegativeProduct(q, g);
    NonNegativeProduct(1.0 - q, g);
  }

  lemma NonNegativeProduct(a: real, b: real)
    requires a >= 0.0 && b >= 0.0
    ensures a * b >= 0.0
  {
  }

  lemma FloorWithin(e: real, floor: real)
    requires 0.0 < floor < 1.0 && floor <= e <= 1.0
    ensures 0 <= (100.0 * (e - floor) / (1.0 - floor)).Floor <= 100
    ensures e == 1.0 ==> (100.0 * (e - floor) / (1.0 - floor)).Floor == 100
    ensures e == floor ==> (100.0 * (e - floor) / (1.0 - floor)).Floor == 0
  {
    var d := 1.0 - floor;
    var q := 100.0 * (e - floor) / d;
    QuotientBounds(q / 100.0, e - floor, d);
  }

  /** Whatever is reported, with values and impacts between 0 and 100, the decayed value stays
      between 0 and 100: it is 100 when nothing is lost, and 0 when everything at stake is lost. */
  lemma DecayedInRange(exp: real -> real, failErrors: bool, reports: seq<Reported>)
    requires Exponential(exp) && forall r :: r in reports ==> InRange(r)
    ensures var run := SpecdRun(reports);
      && 0 <= DecayedScore(exp, failErrors, run).value <= 100
      && (Limit(run) > 0.0 && Loss(run) == 0.0 && Sum(Results, failErrors, run) > 0
          ==> DecayedScore(exp, failErrors, run).value == 100)
      && (Loss(run) == Limit(run) ==> DecayedScore(exp, failErrors, run).value == 0)
  {
    var run := SpecdRun(reports);
    LossWithinLimit(reports);
    ResultsAreScores(failErrors, run);
    if Limit(run) != 0.0 {
      LimitNeedsWeight(exp, failErrors, run);
      ValueInRange(exp, Sum(Weight, failErrors, run), Loss(run), Limit(run));
    }
  }

  lemma ValueInRange(exp: real -> real, weight: nat, x: real, xmax: real)
    requires Exponential(exp) && weight > 0 && 0.0 <= x <= xmax && xmax > 0.0
    requires 0.0 < exp(-(weight as real / GRAVITY)) < 1.0
    ensures 0 <= DecayedValue(exp, weight, x, xmax) <= 100
    ensures x == 0.0 ==> DecayedValue(exp, weight, x, xmax) == 100
    ensures x == xmax ==> DecayedValue(exp, weight, x, xmax) == 0
  {
    var g := weight as real / GRAVITY;
    ScaledQuotient(x, xmax, g);
    var xscaled := x / xmax * g;
    var e := exp(-xscaled);
    assert exp(-g) <= e <= 1.0 by {
      assert -xscaled == 0.0 || exp(-xscaled) < exp(0.0);
      assert -g == -xscaled || exp(-g) < exp(-xscaled);
    }
    FloorWithin(e, exp(-g));
  }

  /** Without the adapter there is no such bound: a score of 0 with an impact of 50 loses twice
      what is at stake. */
  lemma WithoutFloorLossExceedsLimit()
    ensures var c := Contribution(Score(Scored, 0, 1, 100, 100, 0),
      Some(Impact(Some(50), ScoringUnspecified, 0, Unspecified)));
      Loss([c]) == 1.0 && Limit([c]) == 0.5
  {
    var c := Contribution(Score(Scored, 0, 1, 100, 100, 0), Some(Impact(Some(50), ScoringUnspecified, 0, Unspecified)));
    DecayStep([], c);
    assert [] + [c] == [c];
  }
}
