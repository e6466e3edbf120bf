/** Banded scoring: failing weight is collected per severity band, and the worst failing band
    decides the range the score falls into. */
module BandedScoring {
  import opened Wrappers
  import opened PolicyTypes
  import opened Scores
  import opened ScoreCalculators

  /** Failing weight and total weight of each band. */
  datatype Bands = Bands(
    crit: nat, critMax: nat, high: nat, highMax: nat, mid: nat, midMax: nat, low: nat, lowMax: nat)
  {
    predicate Valid() {
      crit <= critMax && high <= highMax && mid <= midMax && low <= lowMax
    }

    /** The most severe band in which something fails. */
    function Worst(): Option<Band> {
      if crit != 0 then Some(Critical) else if high != 0 then Some(High)
      else if mid != 0 then Some(Medium) else if low != 0 then Some(Low) else None
    }

    function Add(band: Band, failing: nat, weight: nat): Bands {
      match band
      case Critical => this.(crit := crit + failing, critMax := critMax + weight)
      case High => this.(high := high + failing, highMax := highMax + weight)
      case Medium => this.(mid := mid + failing, midMax := midMax + weight)
      case Low => this.(low := low + failing, lowMax := lowMax + weight)
    }
  }

  const NO_BANDS := Bands(0, 0, 0, 0, 0, 0, 0, 0)

  lemma ProductIsNonNegative(a: real, b: real)
    requires a >= 0.0 && b >= 0.0
    ensures a * b >= 0.0
  {
  }

  lemma FractionOfWhole(p: real, m: real)
    requires 0.0 <= p <= m && m > 0.0
    ensures 0.0 <= p / m <= 1.0
    ensures p < m ==> p / m < 1.0
    ensures p == m ==> p / m == 1.0
  {
    QuotientBounds(p / m, p, m);
  }

  /** The share of a band that passes; an empty band passes entirely. */
  function Passing(failing: nat, max: nat): (share: real)
    requires failing <= max
    ensures 0.0 <= share <= 1.0
    ensures failing == 0 ==> share == 1.0
    ensures failing != 0 ==> share < 1.0
  {
    if max != 0 then
      FractionOfWhole((max - failing) as real, max as real);
      (max - failing) as real / max as real
    else 1.0
  }

  /** A share of a share. */
  function Part(base: real, share: real): (r: real)
    ensures 0.0 <= base <= 1.0 && 0.0 <= share <= 1.0 ==> 0.0 <= r <= base && r <= share
    ensures share == 1.0 ==> r == base
  {
    PartBounds(base, share);
    base * share
  }

  lemma PartBounds(base: real, share: real)
    ensures 0.0 <= base <= 1.0 && 0.0 <= share <= 1.0 ==> 0.0 <= base * share <= base && base * share <= share
  {
    if 0.0 <= base <= 1.0 && 0.0 <= share <= 1.0 {
      ProductIsNonNegative(base, share);
      ProductIsNonNegative(base, 1.0 - share);
      ProductIsNonNegative(1.0 - base, share);
    }
  }

  // The percentages of the four bands: each is dampened by those below it.
  function PcrLow(b: Bands): (r: real)
    requires b.Valid()
    ensures 0.0 <= r <= 1.0 && (b.low != 0 ==> r < 1.0)
  {
    Passing(b.low, b.lowMax)
  }

  function PcrMid(b: Bands): (r: real)
    requires b.Valid()
    ensures 0.0 <= r <= 1.0 && (b.mid != 0 ==> r < 1.0)
    ensures r <= (3.0 + PcrLow(b)) / 4.0
  {
    Part((3.0 + PcrLow(b)) / 4.0, Passing(b.mid, b.midMax))
  }

  function PcrHigh(b: Bands): (r: real)
    requires b.Valid()
    ensures 0.0 <= r <= 1.0 && (b.high != 0 ==> r < 1.0)
    ensures r <= (1.0 + PcrMid(b)) / 2.0
  {
    Part((1.0 + PcrMid(b)) / 2.0, Passing(b.high, b.highMax))
  }

  function PcrCrit(b: Bands): (r: real)
    requires b.Valid()
    ensures 0.0 <= r <= 1.0 && (b.crit != 0 ==> r < 1.0)
    ensures r <= (1.0 + 4.0 * PcrHigh(b)) / 5.0
  {
    Part((1.0 + 4.0 * PcrHigh(b)) / 5.0, Passing(b.crit, b.critMax))
  }

  function BandedValue(b: Bands): nat
    requires b.Valid()
  {
    if b.crit != 0 then (50.0 * PcrCrit(b)).Floor
    else if b.high != 0 then (50.0 * PcrHigh(b)).Floor + 10
    else if b.mid != 0 then (50.0 * PcrMid(b)).Floor + 30
    else if b.low != 0 then (40.0 * PcrLow(b)).Floor + 60
    else 100
  }

  function BandsOf(run: Run): Bands {
    Bands(
      Sum(BandFailing(Critical), false, run), Sum(BandWeight(Critical), false, run),
      Sum(BandFailing(High), false, run), Sum(BandWeight(High), false, run),
      Sum(BandFailing(Medium), false, run), Sum(BandWeight(Medium), false, run),
      Sum(BandFailing(Low), false, run), Sum(BandWeight(Low), false, run))
  }

  /** No band ever fails by more than it weighs. */
  lemma BandsAreValid(run: Run)
    ensures BandsOf(run).Valid()
  {
    forall band: Band ensures Sum(BandFailing(band), false, run) <= Sum(BandWeight(band), false, run) {
      SumBounded(BandFailing(band), BandWeight(band), false, false, run);
    }
  }

  function BandedScore(failErrors: bool, run: Run): Score {
    BandsAreValid(run);
    TallyOf(failErrors, run).Outcome(BandedValue(BandsOf(run)))
  }

  lemma BandsStep(run: Run, x: Contribution)
    ensures BandsOf(run + [x]) ==
      if Counted(false, x) && x.score.weight != 0 then
        BandsOf(run).Add(BandOf(x.impact), if x.score.value < 100 then x.score.weight else 0, x.score.weight)
      else BandsOf(run)
  {
    forall band: Band
      ensures Sum(BandFailing(band), false, run + [x]) ==
        Sum(BandFailing(band), false, run) + Amount(BandFailing(band), false, x)
      ensures Sum(BandWeight(band), false, run + [x]) ==
        Sum(BandWeight(band), false, run) + Amount(BandWeight(band), false, x)
    {
      SumStep(BandFailing(band), false, run, x);
      SumStep(BandWeight(band), false, run, x);
    }
  }

  class BandedScoreCalculator {
    const failErrors: bool
    var tally: Tally
    var bands: Bands
    ghost var run: Run

    ghost predicate Valid()
      reads this
    {
      tally == TallyOf(failErrors, run) && bands == BandsOf(run)
    }

    constructor (failErrors: bool)
      ensures Valid() && run == [] && this.failErrors == failErrors
    {
      this.failErrors := failErrors;
      tally, bands, run := EMPTY_TALLY, NO_BANDS, [];
    }

    /** Does not touch the bands: a used calculator is as good as new afterwards exactly when
        nothing with a weight had been counted. */
    method Init()
      modifies this
      ensures run == [] && tally == EMPTY_TALLY && bands == old(bands)
      ensures Valid() <==> old(bands) == NO_BANDS
    {
      tally, run := EMPTY_TALLY, [];
    }

    method Add(score: Score, impact: Option<Impact>)
      requires Valid()
      modifies this
      ensures Valid() && run == old(run) + [Contribution(score, impact)]
    {
      var x := Contribution(score, impact);
      TallyStep(failErrors, run, x);
      BandsStep(run, x);
      tally := tally.Add(failErrors, score, impact);
      if Relevant(x) && score.typ == Scored && score.scoreCompletion != 0 && score.weight != 0 {
        bands := bands.Add(BandOf(impact), if score.value < 100 then score.weight else 0, score.weight);
      }
      run := run + [x];
    }

    method Calculate() returns (res: Score)
      requires Valid()
      ensures res == BandedScore(failErrors, run)
    {
      ResultsAreScores(failErrors, run);
      BandsAreValid(run);
      res := Score(Unscored, 0, 0, 100, 100, tally.dataTotal);
      if tally.dataTotal != 0 {
        res := res.(dataCompletion := Div(tally.dataCompletion, tally.dataTotal));
      }
      if tally.scoreTotal == 0 {
        return;
      }
      if tally.hasResults {
        var pcrLow := Passing(bands.low, bands.lowMax);
        var pcrMid := Part((3.0 + pcrLow) / 4.0, Passing(bands.mid, bands.midMax));
        var pcrHigh := Part((1.0 + pcrMid) / 2.0, Passing(bands.high, bands.highMax));
        var pcrCrit := Part((1.0 + 4.0 * pcrHigh) / 5.0, Passing(bands.crit, bands.critMax));
        assert pcrLow == PcrLow(bands) && pcrMid == PcrMid(bands) && pcrHigh == PcrHigh(bands)
          && pcrCrit == PcrCrit(bands);
        var value;
        if bands.crit != 0 {
          value := (50.0 * pcrCrit).Floor;
        } else if bands.high != 0 {
          value := (50.0 * pcrHigh).Floor + 10;
        } else if bands.mid != 0 {
          value := (50.0 * pcrMid).Floor + 30;
        } else if bands.low != 0 {
          value := (40.0 * pcrLow).Floor + 60;
        } else {
          value := 100;
        }
        res := Score(Scored, value, tally.weight, Div(tally.scoreCompletion, tally.scoreTotal), res.dataCompletion,
          res.dataTotal);
      } else if tally.hasErrors {
        res := res.(typ := Failed);
      }
    }
  }

  // ----- properties -----

  lemma BandedIgnoresOrder(failErrors: bool, a: Run, b: Run)
    requires multiset(a) == multiset(b)
    ensures BandedScore(failErrors, a) == BandedScore(failErrors, b)
  {
    TallyForgetsOrder(failErrors, a, b);
    forall m: Measure ensures Sum(m, false, a) == Sum(m, false, b) {
      SumForgetsOrder(m, false, a, b);
    }
  }

  lemma BandedIgnoresIrrelevant(failErrors: bool, run: Run)
    ensures BandedScore(failErrors, OnlyRelevant(run)) == BandedScore(failErrors, run)
  {
    TallyDropsIrrelevant(failErrors, run);
    forall m: Measure ensures Sum(m, false, OnlyRelevant(run)) == Sum(m, false, run) {
      SumDropsIrrelevant(m, false, run);
    }
  }

  /** A contribution that fails within a band. */
  predicate FailsIn(band: Band, x: Contribution) {
    InBand(band, x) && x.score.value < 100
  }

  lemma FailingBand(run: Run, band: Band)
    ensures Sum(BandFailing(band), false, run) > 0 <==> exists x :: x in run && FailsIn(band, x)
  {
    SumIsPositive(BandFailing(band), false, run);
    if exists x :: x in run && Amount(BandFailing(band), false, x) > 0 {
      var x :| x in run && Amount(BandFailing(band), false, x) > 0;
      assert FailsIn(band, x);
    }
    if exists x :: x in run && FailsIn(band, x) {
      var x :| x in run && FailsIn(band, x);
      assert Amount(BandFailing(band), false, x) > 0;
    }
  }

  /** The worst failing band fixes the range of the score. */
  lemma BandedRange(failErrors: bool, run: Run)
    requires exists x :: x in run && IsResult(failErrors, x)
    ensures var v := BandedScore(failErrors, run).value;
      if exists x :: x in run && FailsIn(Critical, x) then 0 <= v <= 49
      else if exists x :: x in run && FailsIn(High, x) then 10 <= v <= 59
      else if exists x :: x in run && FailsIn(Medium, x) then 30 <= v <= 79
      else if exists x :: x in run && FailsIn(Low, x) then 60 <= v <= 99
      else v == 100
  {
    SomeResult(failErrors, run);
    BandsAreValid(run);
    FailingBand(run, Critical);
    FailingBand(run, High);
    FailingBand(run, Medium);
    FailingBand(run, Low);
    ValueRange(BandsOf(run));
  }

  lemma SomeResult(failErrors: bool, run: Run)
    requires exists x :: x in run && IsResult(failErrors, x)
    ensures Sum(Results, failErrors, run) > 0 && Sum(ScoreTotal, failErrors, run) > 0
  {
    var x :| x in run && IsResult(failErrors, x);
    assert Amount(Results, failErrors, x) > 0;
    SumIsPositive(Results, failErrors, run);
    ResultsAreScores(failErrors, run);
  }

  lemma ValueRange(b: Bands)
    requires b.Valid()
    ensures match b.Worst()
      case Some(Critical) => 0 <= BandedValue(b) <= 49
      case Some(High) => 10 <= BandedValue(b) <= 59
      case Some(Medium) => 30 <= BandedValue(b) <= 79
      case Some(Low) => 60 <= BandedValue(b) <= 99
      case None => BandedValue(b) == 100
  {
    if b.crit != 0 {
      FloorBelow(50.0 * PcrCrit(b), 50);
    } else if b.high != 0 {
      FloorBelow(50.0 * PcrHigh(b), 50);
    } else if b.mid != 0 {
      FloorBelow(50.0 * PcrMid(b), 50);
    } else if b.low != 0 {
      FloorBelow(40.0 * PcrLow(b), 40);
    }
  }

  lemma FloorBelow(x: real, bound: nat)
    requires 0.0 <= x < bound as real
    ensures 0 <= x.Floor < bound
  {
  }

  /** The situations in which one more failing check cannot raise the score, whatever the weights:
      nothing failed yet, the check is critical, its band is no more severe than the worst failing
      one, or it is high while so far only low checks fail. */
  predicate NeverRaises(worst: Option<Band>, band: Band) {
    match worst
    case None => true
    case Some(Critical) => true
    case Some(High) => true
    case Some(Medium) => band != High
    case Some(Low) => band != Medium
  }

  function Fail(b: Bands, band: Band, weight: nat): Bands {
    b.Add(band, weight, weight)
  }

  /** One more failing check in the given band does not raise the score. */
  predicate Lowers(b: Bands, band: Band, weight: nat)
    requires b.Valid()
  {
    BandedValue(Fail(b, band, weight)) <= BandedValue(b)
  }

  /** NeverRaises is exact: in all other situations some weights make the score go up. */
  lemma OneMoreFailure(worst: Option<Band>, band: Band)
    ensures NeverRaises(worst, band) <==>
      forall b: Bands, weight: nat :: b.Valid() && b.Worst() == worst && weight > 0 ==> Lowers(b, band, weight)
  {
    if NeverRaises(worst, band) {
      forall b: Bands, weight: nat | b.Valid() && b.Worst() == worst && weight > 0 ensures Lowers(b, band, weight) {
        FailureLowers(b, band, weight);
      }
    } else if worst == Some(Medium) {
      HighOnMediumRaises(Bands(0, 0, 0, 24, 1, 1, 0, 0), 1);
      assert !Lowers(Bands(0, 0, 0, 24, 1, 1, 0, 0), High, 1);
    } else {
      MediumOnLowRaises(Bands(0, 0, 0, 0, 0, 24, 1, 1), 1);
      assert !Lowers(Bands(0, 0, 0, 0, 0, 24, 1, 1), Medium, 1);
    }
  }

  lemma ShareOf24In25()
    ensures Passing(1, 1) == 0.0 && Passing(1, 25) == 0.96
  {
  }

  lemma PartsOf24In25(none: real, share: real)
    requires none == 0.0 && share == 0.96
    ensures Part((3.0 + none) / 4.0, none) == 0.0
    ensures Part((3.0 + none) / 4.0, share) == 0.72
    ensures Part((1.0 + none) / 2.0, share) == 0.48
  {
  }

  lemma FloorOf(x: real, n: int)
    requires n as real <= x < n as real + 1.0
    ensures x.Floor == n
  {
  }

  /** The first failing high check on top of all-failing mediums: from 30 to 34. */
  lemma HighOnMediumRaises(b: Bands, w: nat)
    requires b == Bands(0, 0, 0, 24, 1, 1, 0, 0) && w == 1
    ensures b.Valid() && b.Worst() == Some(Medium) && BandedValue(b) == 30 && BandedValue(Fail(b, High, w)) == 34
  {
    var b' := Fail(b, High, w);
    assert PcrMid(b) == PcrMid(b') == 0.0 by {
      PartIsZero((3.0 + PcrLow(b)) / 4.0);
    }
    ShareOf24In25();
    PartsOf24In25(PcrMid(b'), Passing(1, 25));
    FloorOf(50.0 * PcrMid(b), 0);
    FloorOf(50.0 * PcrHigh(b'), 24);
  }

  lemma PartIsZero(base: real)
    ensures Part(base, 0.0) == 0.0 && Passing(1, 1) == 0.0
  {
  }

  /** The first failing medium check on top of all-failing lows: from 60 to 66. */
  lemma MediumOnLowRaises(b: Bands, w: nat)
    requires b == Bands(0, 0, 0, 0, 0, 24, 1, 1) && w == 1
    ensures b.Valid() && b.Worst() == Some(Low) && BandedValue(b) == 60 && BandedValue(Fail(b, Medium, w)) == 66
  {
    var b' := Fail(b, Medium, w);
    ShareOf24In25();
    assert PcrLow(b) == PcrLow(b') == 0.0;
    PartsOf24In25(PcrLow(b'), Passing(1, 25));
    FloorOf(40.0 * PcrLow(b), 0);
    FloorOf(50.0 * PcrMid(b'), 36);
  }

  lemma PassingShrinks(failing: nat, max: nat, weight: nat)
    requires failing <= max
    ensures Passing(failing + weight, max + weight) <= Passing(failing, max)
  {
    if max != 0 {
      var p, m, w := (max - failing) as real, max as real, weight as real;
      assert (max + weight) as real == m + w;
      assert p / (m + w) <= p / m by {
        FractionShrinks(p, m, w);
      }
    }
  }

  lemma FractionShrinks(p: real, m: real, w: real)
    requires p >= 0.0 && m > 0.0 && w >= 0.0
    ensures p / (m + w) <= p / m
  {
    var q := p / (m + w);
    assert q * (m + w) == p;
    assert q >= 0.0;
    assert q * w >= 0.0;
    assert q * m <= p;
  }

  lemma PartShrinks(base: real, share: real, base': real, share': real)
    requires 0.0 <= base' <= base && 0.0 <= share' <= share
    ensures Part(base', share') <= Part(base, share)
  {
    ProductIsNonNegative(base - base', share');
    ProductIsNonNegative(base, share - share');
  }

  lemma FloorShrinks(x: real, y: real)
    requires x <= y
    ensures x.Floor <= y.Floor
  {
  }

  /** Failing more in one band lowers (or keeps) the percentage of every band. */
  lemma PercentagesShrink(b: Bands, band: Band, weight: nat)
    requires b.Valid()
    ensures var b' := Fail(b, band, weight);
      PcrLow(b') <= PcrLow(b) && PcrMid(b') <= PcrMid(b) && PcrHigh(b') <= PcrHigh(b) && PcrCrit(b') <= PcrCrit(b)
  {
    var b' := Fail(b, band, weight);
    PassingShrinks(b.low, b.lowMax, weight);
    PassingShrinks(b.mid, b.midMax, weight);
    PassingShrinks(b.high, b.highMax, weight);
    PassingShrinks(b.crit, b.critMax, weight);
    PartShrinks((3.0 + PcrLow(b)) / 4.0, Passing(b.mid, b.midMax), (3.0 + PcrLow(b')) / 4.0,
      Passing(b'.mid, b'.midMax));
    PartShrinks((1.0 + PcrMid(b)) / 2.0, Passing(b.high, b.highMax), (1.0 + PcrMid(b')) / 2.0,
      Passing(b'.high, b'.highMax));
    PartShrinks((1.0 + 4.0 * PcrHigh(b)) / 5.0, Passing(b.crit, b.critMax),
                (1.0 + 4.0 * PcrHigh(b')) / 5.0, Passing(b'.crit, b'.critMax));
  }

  lemma FailureLowers(b: Bands, band: Band, weight: nat)
    requires b.Valid() && weight > 0 && NeverRaises(b.Worst(), band)
    ensures Lowers(b, band, weight)
  {
    var b' := Fail(b, band, weight);
    PercentagesShrink(b, band, weight);
    ValueRange(b');
    match b.Worst() {
      case None =>
      case Some(Critical) =>
        FloorShrinks(50.0 * PcrCrit(b'), 50.0 * PcrCrit(b));
      case Some(High) =>
        if band == Critical {
          FloorShrinks(50.0 * PcrCrit(b'), 50.0 * PcrHigh(b) + 10.0);
          FloorPlus(50.0 * PcrHigh(b), 10);
        } else {
          FloorShrinks(50.0 * PcrHigh(b'), 50.0 * PcrHigh(b));
        }
      case Some(Medium) =>
        if band == Critical {
          FloorShrinks(50.0 * PcrCrit(b'), 50.0 * PcrMid(b) + 30.0);
          FloorPlus(50.0 * PcrMid(b), 30);
        } else {
          FloorShrinks(50.0 * PcrMid(b'), 50.0 * PcrMid(b));
        }
      case Some(Low) =>
        if band == Critical {
        } else if band == High {
          FloorShrinks(50.0 * PcrHigh(b') + 10.0, 60.0);
          FloorPlus(50.0 * PcrHigh(b'), 10);
          ValueRange(b);
        } else {
          FloorShrinks(40.0 * PcrLow(b'), 40.0 * PcrLow(b));
        }
    }
    if b.Worst() == Some(Low) && band == Critical {
      ValueRange(b);
    }
  }

  lemma FloorPlus(x: real, n: int)
    ensures (x + n as real).Floor == x.Floor + n
  {
  }

  /** On runs: once there is a result, a new failing check in a safe situation does not raise the
      banded score. */
  lemma NewFailureDoesNotRaise(failErrors: bool, run: Run, x: Contribution, band: Band)
    requires exists y :: y in run && IsResult(failErrors, y)
    requires FailsIn(band, x) && NeverRaises(BandsOf(run).Worst(), band)
    ensures BandedScore(failErrors, run + [x]).value <= BandedScore(failErrors, run).value
  {
    SomeResult(failErrors, run);
    var y :| y in run && IsResult(failErrors, y);
    assert y in run + [x];
    SomeResult(failErrors, run + [x]);
    BandsStep(run, x);
    BandsAreValid(run);
    BandsAreValid(run + [x]);
    FailureLowers(BandsOf(run), band, x.score.weight);
  }
}
