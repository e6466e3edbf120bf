/** What banded scores are, in terms of nothing but the fields of the contributions. */
module BandedLaws {
  import opened Wrappers
  import opened PolicyTypes
  import opened Scores
  import opened BandedScoring
  import opened ScoreLaws

  predicate ValueWithin(impact: Option<Impact>, lo: int, hi: int) {
    impact.Some? && impact.value.value.Some? && lo <= impact.value.value.value <= hi
  }

  /** An impact is critical from 90 on, or without a value, high from 70 and medium from 40 on, and low
      below that; values above 100 do not belong to any of the upper bands. */
  predicate IsInBand(band: Band, impact: Option<Impact>) {
    match band
    case Critical => impact.None? || impact.value.value.None? || ValueWithin(impact, 90, 100)
    case High => ValueWithin(impact, 70, 89)
    case Medium => ValueWithin(impact, 40, 69)
    case Low =>
      impact.Some? && impact.value.value.Some? && (impact.value.value.value < 40 || impact.value.value.value > 100)
  }

  lemma BandIs(band: Band, impact: Option<Impact>)
    ensures BandOf(impact) == band <==> IsInBand(band, impact)
  {
  }

  /** Errors do not count, whether or not they count as results elsewhere. */
  function WeightIn(band: Band): Contribution -> nat {
    x => if GivesValue(false, x) && IsInBand(band, x.impact) then x.score.weight else 0
  }

  function FailingIn(band: Band): Contribution -> nat {
    x => if GivesValue(false, x) && IsInBand(band, x.impact) && x.score.value < 100 then x.score.weight else 0
  }

  /** The share of the weight in a band that does not fail; a band without weight does not fail. */
  function Share(run: Run, band: Band): real {
    var all, failing := Total(run, WeightIn(band)), Total(run, FailingIn(band));
    if all == 0 then 1.0 else (all - failing) as real / all as real
  }

  /** A critical failure leaves 50 points: 10 depend on what passes among the critical checks, 20 more on
      the high ones as well, 15 more on the medium ones too, and 5 on all four. */
  function CriticalPoints(k: real, h: real, m: real, l: real): real {
    10.0 * k + 20.0 * (h * k) + 15.0 * ((m * h) * k) + 5.0 * (((l * m) * h) * k)
  }

  function HighPoints(h: real, m: real, l: real): real {
    25.0 * h + 18.75 * (m * h) + 6.25 * ((l * m) * h)
  }

  function MediumPoints(m: real, l: real): real {
    37.5 * m + 12.5 * (l * m)
  }

  /** Without a critical failure there are 50 points above 10, without a high one 50 above 30, and low
      failures alone leave 40 above 60. */
  function Points(run: Run): nat {
    var k, h, m, l := Share(run, Critical), Share(run, High), Share(run, Medium), Share(run, Low);
    if Total(run, FailingIn(Critical)) > 0 then Whole(CriticalPoints(k, h, m, l))
    else if Total(run, FailingIn(High)) > 0 then 10 + Whole(HighPoints(h, m, l))
    else if Total(run, FailingIn(Medium)) > 0 then 30 + Whole(MediumPoints(m, l))
    else if Total(run, FailingIn(Low)) > 0 then 60 + Whole(40.0 * l)
    else 100
  }

  lemma BandTotals(run: Run, band: Band)
    ensures Total(run, WeightIn(band)) == Sum(BandWeight(band), false, run)
    ensures Total(run, FailingIn(band)) == Sum(BandFailing(band), false, run)
  {
    forall x ensures WeightIn(band)(x) == Amount(BandWeight(band), false, x) {
      BandIs(band, x.impact);
    }
    forall x ensures FailingIn(band)(x) == Amount(BandFailing(band), false, x) {
      BandIs(band, x.impact);
    }
    TotalIs(BandWeight(band), false, run, WeightIn(band));
    TotalIs(BandFailing(band), false, run, FailingIn(band));
  }

  lemma ShareIs(run: Run, band: Band)
    ensures BandsOf(run).Valid()
    ensures var b := BandsOf(run);
      Share(run, band) == match band
        case Critical => Passing(b.crit, b.critMax)
        case High => Passing(b.high, b.highMax)
        case Medium => Passing(b.mid, b.midMax)
        case Low => Passing(b.low, b.lowMax)
  {
    BandsAreValid(run);
    BandTotals(run, band);
  }

  lemma MidIs(b: Bands, m: real, l: real)
    requires b.Valid() && m == Passing(b.mid, b.midMax) && l == Passing(b.low, b.lowMax)
    ensures 50.0 * PcrMid(b) == MediumPoints(m, l)
  {
  }

  lemma HighIs(b: Bands, h: real, m: real, l: real)
    requires b.Valid() && h == Passing(b.high, b.highMax)
    requires m == Passing(b.mid, b.midMax) && l == Passing(b.low, b.lowMax)
    ensures 50.0 * PcrHigh(b) == HighPoints(h, m, l)
  {
    MidIs(b, m, l);
    HighFromMid(PcrMid(b), h, m, l);
  }

  lemma HighFromMid(mid: real, h: real, m: real, l: real)
    requires 50.0 * mid == MediumPoints(m, l)
    ensures 50.0 * Part((1.0 + mid) / 2.0, h) == HighPoints(h, m, l)
  {
    Half(mid, m, l * m, h);
  }

  lemma Half(mid: real, m: real, lm: real, h: real)
    requires 50.0 * mid == 37.5 * m + 12.5 * lm
    ensures 50.0 * Part((1.0 + mid) / 2.0, h) == 25.0 * h + 18.75 * (m * h) + 6.25 * (lm * h)
  {
    assert mid * h == 0.75 * (m * h) + 0.25 * (lm * h);
  }

  lemma CritIs(b: Bands, k: real, h: real, m: real, l: real)
    requires b.Valid() && k == Passing(b.crit, b.critMax) && h == Passing(b.high, b.highMax)
    requires m == Passing(b.mid, b.midMax) && l == Passing(b.low, b.lowMax)
    ensures 50.0 * PcrCrit(b) == CriticalPoints(k, h, m, l)
  {
    HighIs(b, h, m, l);
    CritFromHigh(PcrHigh(b), k, h, m, l);
  }

  lemma CritFromHigh(high: real, k: real, h: real, m: real, l: real)
    requires 50.0 * high == HighPoints(h, m, l)
    ensures 50.0 * Part((1.0 + 4.0 * high) / 5.0, k) == CriticalPoints(k, h, m, l)
  {
    Fifth(high, h, m * h, (l * m) * h, k);
  }

  lemma Fifth(high: real, h: real, mh: real, lmh: real, k: real)
    requires 50.0 * high == 25.0 * h + 18.75 * mh + 6.25 * lmh
    ensures 50.0 * Part((1.0 + 4.0 * high) / 5.0, k) == 10.0 * k + 20.0 * (h * k) + 15.0 * (mh * k) + 5.0 * (lmh * k)
  {
    assert high * k == 0.5 * (h * k) + 0.375 * (mh * k) + 0.125 * (lmh * k);
  }

  lemma ValueIs(b: Bands, k: real, h: real, m: real, l: real)
    requires b.Valid() && k == Passing(b.crit, b.critMax) && h == Passing(b.high, b.highMax)
    requires m == Passing(b.mid, b.midMax) && l == Passing(b.low, b.lowMax)
    ensures BandedValue(b) ==
      if b.crit > 0 then Whole(CriticalPoints(k, h, m, l))
      else if b.high > 0 then 10 + Whole(HighPoints(h, m, l))
      else if b.mid > 0 then 30 + Whole(MediumPoints(m, l))
      else if b.low > 0 then 60 + Whole(40.0 * l)
      else 100
  {
    if b.crit > 0 {
      CritIs(b, k, h, m, l);
    } else if b.high > 0 {
      HighIs(b, h, m, l);
    } else if b.mid > 0 {
      MidIs(b, m, l);
    }
  }

  lemma ValueOfRun(run: Run)
    ensures BandsOf(run).Valid() && BandedValue(BandsOf(run)) == Points(run)
  {
    ShareIs(run, Critical);
    ShareIs(run, High);
    ShareIs(run, Medium);
    ShareIs(run, Low);
    BandTotals(run, Critical);
    BandTotals(run, High);
    BandTotals(run, Medium);
    BandTotals(run, Low);
    ValueIs(BandsOf(run), Share(run, Critical), Share(run, High), Share(run, Medium), Share(run, Low));
  }

  /** The banded score is these points. */
  lemma BandedIsPoints(failErrors: bool, run: Run)
    ensures var s := BandedScore(failErrors, run);
      IsOutcome(failErrors, run, s) && (s.typ == Scored ==> s.value == Points(run))
  {
    BandsAreValid(run);
    ValueOfRun(run);
    OutcomeIs(failErrors, run, BandedValue(BandsOf(run)));
  }
}
