/** What decayed scores are, in terms of nothing but the fields of the contributions, and what the adapter
    makes of a reported score. */
module DecayedLaws {
  import opened Wrappers
  import opened PolicyTypes
  import opened Scores
  import opened ScoreLaws
  import opened DecayedScoring

  predicate AddsAt(exp: real -> real, x: real, y: real) {
    exp(x + y) == exp(x) * exp(y)
  }

  /** The law of exponents. */
  ghost predicate AddsUp(exp: real -> real) {
    forall x, y :: AddsAt(exp, x, y)
  }

  predicate InBounds(x: Contribution) {
    x.score.value <= 100 && (x.impact.Some? && x.impact.value.value.Some? ==> 0 <= x.impact.value.value.value <= 100)
  }

  /** What a result loses, in hundredths of its weight. Errors do not count. */
  function Lost(): Contribution -> nat {
    x => if GivesValue(false, x) && x.score.value <= 100 then (100 - x.score.value) * x.score.weight else 0
  }

  /** What it could lose at most, as its impact says: all of its weight without one. */
  function Staked(): Contribution -> nat {
    x => if !GivesValue(false, x) then 0
      else if x.impact.None? || x.impact.value.value.None? then 100 * x.score.weight
      else if x.impact.value.value.value >= 0 then x.impact.value.value.value * x.score.weight
      else 0
  }

  /** The points for what is left of the stakes. The more weight, the faster the first losses take points. */
  function PointsLeft(exp: real -> real, weight: nat, lost: nat, staked: nat): nat
    requires Exponential(exp) && staked > 0 && weight > 0
  {
    MoreThanOne(exp, weight as real / 10.0);
    PointsAt(exp, (staked as real - lost as real) / staked as real, weight as real / 10.0)
  }

  function PointsAt(exp: real -> real, left: real, gravity: real): nat
    requires exp(gravity) != 1.0
  {
    Whole(100.0 * (exp(left * gravity) - 1.0) / (exp(gravity) - 1.0))
  }

  lemma MoreThanOne(exp: real -> real, x: real)
    requires Exponential(exp) && x > 0.0
    ensures exp(x) > 1.0
  {
    assert exp(0.0) < exp(x);
  }

  lemma IsRatio(a: real, b: real, q: real)
    requires b != 0.0 && q * b == a
    ensures a / b == q
  {
  }

  lemma SameRatio(a: real, b: real, c: real)
    requires b != 0.0 && c != 0.0 && c * b != 0.0
    ensures (c * a) / (c * b) == a / b
  {
    var q := a / b;
    assert q * (c * b) == c * (q * b);
    IsRatio(c * a, c * b, q);
  }

  lemma TimesHundred(a: real, b: real, c: real, d: real)
    requires b != 0.0 && d != 0.0 && a / b == c / d
    ensures 100.0 * a / b == 100.0 * c / d
  {
    var q := a / b;
    assert q * b == a && q * d == c;
    IsRatio(100.0 * a, b, 100.0 * q);
    IsRatio(100.0 * c, d, 100.0 * q);
  }

  /** Turning what is lost into what is left: both parts of the fraction are divided by exp(-g). */
  lemma FromLostToLeft(exp: real -> real, q: real, g: real)
    requires Exponential(exp) && AddsUp(exp) && g > 0.0
    ensures exp(g) > 1.0 && exp(-g) < 1.0
    ensures (exp(-(q * g)) - exp(-g)) / (1.0 - exp(-g)) == (exp((1.0 - q) * g) - 1.0) / (exp(g) - 1.0)
  {
    MoreThanOne(exp, g);
    var c, a, b := exp(-g), exp((1.0 - q) * g) - 1.0, exp(g) - 1.0;
    assert exp(-g) < exp(0.0);
    assert AddsAt(exp, (1.0 - q) * g, -g) && AddsAt(exp, g, -g);
    assert (1.0 - q) * g + -g == -(q * g);
    assert c * a == exp(-(q * g)) - exp(-g);
    assert c * b == 1.0 - exp(-g);
    SameRatio(a, b, c);
  }

  lemma LeftIs(lost: real, staked: real)
    requires staked > 0.0
    ensures (lost / 100.0) / (staked / 100.0) == lost / staked
    ensures (staked - lost) / staked == 1.0 - lost / staked
  {
    var q := lost / staked;
    assert q * staked == lost;
    IsRatio(lost / 100.0, staked / 100.0, q);
    assert (1.0 - q) * staked == staked - q * staked;
    IsRatio(staked - lost, staked, 1.0 - q);
  }

  function Curve(e: real, floor: real): real
    requires floor != 1.0
  {
    100.0 * (e - floor) / (1.0 - floor)
  }

  /** The same number of points, from what is lost and from what is left. */
  lemma PointsAgree(exp: real -> real, q: real, g: real) returns (points: real)
    requires Exponential(exp) && AddsUp(exp) && g > 0.0
    ensures exp(g) > 1.0 && exp(-g) < 1.0
    ensures points == Curve(exp(-(q * g)), exp(-g))
    ensures points == 100.0 * (exp((1.0 - q) * g) - 1.0) / (exp(g) - 1.0)
  {
    FromLostToLeft(exp, q, g);
    points := Curve(exp(-(q * g)), exp(-g));
    TimesHundred(exp(-(q * g)) - exp(-g), 1.0 - exp(-g), exp((1.0 - q) * g) - 1.0, exp(g) - 1.0);
  }

  lemma DecayedUnfolds(exp: real -> real, weight: nat, x: real, xmax: real, scaled: real, g: real)
    requires xmax != 0.0 && scaled == x / xmax * (weight as real / GRAVITY) && g == weight as real / GRAVITY
    requires exp(-g) != 1.0
    ensures DecayedValue(exp, weight, x, xmax) == Whole(Curve(exp(-scaled), exp(-g)))
  {
    FloorIsWhole(Curve(exp(-scaled), exp(-g)));
  }

  lemma DecayedFrom(exp: real -> real, weight: nat, x: real, xmax: real, q: real, g: real)
    requires xmax != 0.0 && x / xmax == q && g == weight as real / 10.0 && exp(-g) != 1.0
    ensures DecayedValue(exp, weight, x, xmax) == Whole(Curve(exp(-(q * g)), exp(-g)))
  {
    var scaled := x / xmax * g;
    assert weight as real / GRAVITY == g && scaled == q * g;
    assert exp(-scaled) == exp(-(q * g));
    DecayedUnfolds(exp, weight, x, xmax, scaled, g);
  }

  lemma FloorIsWhole(x: real)
    ensures ToUnsigned(x.Floor as real) == Whole(x)
  {
  }

  lemma ValueIsLeft(exp: real -> real, weight: nat, lost: nat, staked: nat, x: real, xmax: real)
    requires Exponential(exp) && AddsUp(exp) && weight > 0 && staked > 0
    requires x == lost as real / 100.0 && xmax == staked as real / 100.0 && exp(-(weight as real / GRAVITY)) != 1.0
    ensures DecayedValue(exp, weight, x, xmax) == PointsLeft(exp, weight, lost, staked)
  {
    var q := RatioOfLoss(lost as real, staked as real, x, xmax);
    DecayedPoints(exp, weight, x, xmax, q, weight as real / 10.0);
  }

  lemma DecayedPoints(exp: real -> real, weight: nat, x: real, xmax: real, q: real, g: real)
    requires Exponential(exp) && AddsUp(exp) && xmax != 0.0 && x / xmax == q
    requires weight > 0 && g == weight as real / 10.0 && exp(-g) != 1.0
    ensures exp(g) > 1.0 && DecayedValue(exp, weight, x, xmax) == PointsAt(exp, 1.0 - q, g)
  {
    var points := PointsAgree(exp, q, g);
    DecayedFrom(exp, weight, x, xmax, q, g);
  }

  lemma RatioOfLoss(lost: real, staked: real, x: real, xmax: real) returns (q: real)
    requires staked > 0.0 && x == lost / 100.0 && xmax == staked / 100.0
    ensures x / xmax == q && (staked - lost) / staked == 1.0 - q
  {
    LeftIs(lost, staked);
    q := lost / staked;
  }

  lemma LossIs(run: Run)
    requires forall x :: x in run ==> InBounds(x)
    ensures Loss(run) == Total(run, Lost()) as real / 100.0 && Limit(run) == Total(run, Staked()) as real / 100.0
  {
    TotalIs(DecayLoss, false, run, Lost());
    TotalIs(DecayLimit, false, run, Staked());
    SumIsPositive(DecayDebt, false, run);
  }

  lemma DecayedValueIs(exp: real -> real, failErrors: bool, run: Run)
    requires Exponential(exp) && AddsUp(exp) && forall x :: x in run ==> InBounds(x)
    requires Total(run, Staked()) > 0
    ensures var weight := Sum(Weight, failErrors, run);
      && weight > 0 && exp(-(weight as real / GRAVITY)) != 1.0
      && DecayedValue(exp, weight, Loss(run), Limit(run)) ==
        PointsLeft(exp, weight, Total(run, Lost()), Total(run, Staked()))
  {
    LossIs(run);
    LimitNeedsWeight(exp, failErrors, run);
    ValueIsLeft(exp, Sum(Weight, failErrors, run), Total(run, Lost()), Total(run, Staked()), Loss(run), Limit(run));
  }

  /** The decayed score is the points for what is left, and 0 if nothing is at stake. */
  lemma DecayedIsPointsLeft(exp: real -> real, failErrors: bool, run: Run)
    requires Exponential(exp) && AddsUp(exp) && forall x :: x in run ==> InBounds(x)
    ensures var s, lost, staked := DecayedScore(exp, failErrors, run), Total(run, Lost()), Total(run, Staked());
      && IsOutcome(failErrors, run, s)
      && (s.typ == Scored && staked == 0 ==> s.value == 0)
      && (s.typ == Scored && staked > 0 ==> s.weight > 0 && s.value == PointsLeft(exp, s.weight, lost, staked))
  {
    TotalsAre(failErrors, run);
    LossIs(run);
    if Total(run, Staked()) > 0 {
      DecayedValueIs(exp, failErrors, run);
      var weight := Sum(Weight, failErrors, run);
      OutcomeIs(failErrors, run, PointsLeft(exp, weight, Total(run, Lost()), Total(run, Staked())));
    } else {
      OutcomeIs(failErrors, run, 0);
    }
  }

  /** With half of the stakes lost there are 100 / (1 + exp(weight / 20)) points. */
  lemma HalfLost(exp: real -> real, weight: nat, lost: nat, staked: nat)
    requires Exponential(exp) && AddsUp(exp) && weight > 0 && staked > 0 && 2 * lost == staked
    ensures exp(weight as real / 20.0) > 0.0
    ensures PointsLeft(exp, weight, lost, staked) == Whole(100.0 / (1.0 + exp(weight as real / 20.0)))
  {
    var h := weight as real / 20.0;
    IsRatio(staked as real - lost as real, staked as real, 0.5);
    MoreThanOne(exp, h);
    assert AddsAt(exp, h, h);
    assert h + h == weight as real / 10.0 && 0.5 * (weight as real / 10.0) == h;
    HalfFrom(exp, weight as real / 10.0, h);
  }

  lemma HalfFrom(exp: real -> real, g: real, h: real)
    requires 0.5 * g == h && exp(h) > 1.0 && exp(g) == exp(h) * exp(h) && exp(g) > 1.0
    ensures PointsAt(exp, 0.5, g) == Whole(100.0 / (1.0 + exp(h)))
  {
    assert exp(0.5 * g) == exp(h);
    RatioOfSquare(exp(0.5 * g), exp(g), exp(h));
  }

  lemma RatioOfSquare(e: real, f: real, t: real)
    requires t > 1.0 && e == t && f == t * t && f > 1.0
    ensures 100.0 * (e - 1.0) / (f - 1.0) == 100.0 / (1.0 + t)
  {
    var z := 100.0 / (1.0 + t);
    assert z * (1.0 + t) == 100.0;
    assert t * t - 1.0 == (1.0 + t) * (t - 1.0);
    assert z * ((1.0 + t) * (t - 1.0)) == 100.0 * (t - 1.0);
    IsRatio(100.0 * (e - 1.0), f - 1.0, z);
  }

  // ----- the adapter -----

  /** What the impact leaves untouched of 100, in unsigned 32-bit arithmetic. */
  predicate IsFloorOf(impact: Option<Impact>, floor: int) {
    && impact.Some? && impact.value.value.Some?
    && floor == (if impact.value.value.value <= 100 then 0 else 0x1_0000_0000) + 100 - impact.value.value.value
  }

  /** A missing score counts as unknown and empty. One that is there keeps its data and completion; its value
      is raised to the floor that its impact sets; an ignored one is skipped; the impact decides its weight if it
      has one, and otherwise a score without a weight counts once. */
  lemma AdapterIsPlain(r: Reported)
    ensures !r.found ==> Specd(r) == Contribution(Score(Unknown, 0, 0, 0, 0, 0), None)
    ensures r.found ==> var s := Specd(r).score;
      && s.scoreCompletion == r.score.scoreCompletion && s.dataCompletion == r.score.dataCompletion
      && s.dataTotal == r.score.dataTotal
      && s.value >= r.score.value && (forall floor: int :: IsFloorOf(r.impact, floor) ==> s.value >= floor)
      && (s.value == r.score.value || IsFloorOf(r.impact, s.value))
    ensures r.found && (r.impact.None? || r.impact.value.scoring != IgnoreScore) ==>
      Specd(r).impact == r.impact && Specd(r).score.typ == r.score.typ
    ensures r.found && r.impact.Some? && r.impact.value.scoring == IgnoreScore ==>
      Specd(r).score.typ == Skip && Specd(r).score.weight == 0 && !TakesPart(Specd(r))
    ensures r.found && r.impact.Some? && r.impact.value.scoring != IgnoreScore ==>
      Specd(r).score.weight ==
        if r.impact.value.weight > 0 then r.impact.value.weight else if r.score.weight > 0 then r.score.weight else 1
    ensures r.found && r.impact.None? ==> Specd(r).score.weight == r.score.weight
  {
    if r.impact.Some? && r.impact.value.value.Some? {
      var v: int := r.impact.value.value.value;
      assert IsFloorOf(r.impact, (if v <= 100 then 0 else 0x1_0000_0000) + 100 - v);
    }
  }
}
