/** When a policy group applies, and how long the answer stays valid. Times are nanoseconds
    since the Unix epoch; the dates of a group are whole seconds. */
module PolicyWindow {
  import opened Wrappers
  import opened PolicyTypes

  type CodeId = string

  const SECOND := 1_000_000_000

  datatype Validity = Validity(from: Option<int>, until: Option<int>)

  /** The part of a group that decides whether it applies. */
  datatype Availability = Availability(
    reviewStatus: ReviewStatus, valid: Option<Validity>, startDate: int, endDate: int, filters: set<CodeId>)

  /** A group applies unless it is rejected, has run out, or none of its filters is supported. */
  predicate IsGroupMatching(g: Availability, assetFilters: set<CodeId>, now: int) {
    if g.reviewStatus == Rejected then false
    else if g.valid.Some? && g.valid.value.until.Some? && g.valid.value.until.value * SECOND < now then false
    else if g.endDate != 0 && g.endDate * SECOND < now then false
    else g.filters == {} || g.filters * assetFilters != {}
  }

  /** The dates of a group, in the order they are looked at. */
  function DatesOf(g: Availability): seq<int> {
    (if g.valid.Some? && g.valid.value.from.Some? then [g.valid.value.from.value] else [])
    + (if g.valid.Some? && g.valid.value.until.Some? then [g.valid.value.until.value] else [])
    + [g.startDate, g.endDate]
  }

  function AllDates(groups: seq<Availability>): seq<int> {
    if groups == [] then [] else AllDates(groups[..|groups| - 1]) + DatesOf(groups[|groups| - 1])
  }

  /** A date that is set and not over yet. */
  predicate Upcoming(date: int, now: int) {
    date != 0 && now <= date * SECOND
  }

  /** at is the earliest upcoming date, or None without any. */
  ghost predicate IsEarliest(at: Option<int>, dates: seq<int>, now: int) {
    match at
    case None => forall d :: d in dates ==> !Upcoming(d, now)
    case Some(t) =>
      && (exists d :: d in dates && Upcoming(d, now) && t == d * SECOND)
      && (forall d :: d in dates && Upcoming(d, now) ==> t <= d * SECOND)
  }

  lemma EarliestIsUnique(a: Option<int>, b: Option<int>, dates: seq<int>, now: int)
    requires IsEarliest(a, dates, now) && IsEarliest(b, dates, now)
    ensures a == b
  {
  }

  function Consider(at: Option<int>, date: int, now: int): Option<int> {
    if Upcoming(date, now) && (at.None? || date * SECOND < at.value) then Some(date * SECOND) else at
  }

  lemma ConsiderKeepsEarliest(at: Option<int>, dates: seq<int>, date: int, now: int)
    requires IsEarliest(at, dates, now)
    ensures IsEarliest(Consider(at, date, now), dates + [date], now)
  {
    var dates' := dates + [date];
    assert date in dates';
    if Consider(at, date, now) == at && at.Some? {
      var d :| d in dates && Upcoming(d, now) && at.value == d * SECOND;
      assert d in dates';
    }
  }

  /** The earliest upcoming of some dates. */
  function EarliestOf(dates: seq<int>, now: int): (at: Option<int>)
    ensures IsEarliest(at, dates, now)
  {
    if dates == [] then None
    else
      var front, last := dates[..|dates| - 1], dates[|dates| - 1];
      ConsiderKeepsEarliest(EarliestOf(front, now), front, last, now);
      assert front + [last] == dates;
      Consider(EarliestOf(front, now), last, now)
  }

  /** One of the two ends of the validity of the group, or its start or end date. */
  predicate IsDateOf(g: Availability, d: int) {
    || (g.valid.Some? && (g.valid.value.from == Some(d) || g.valid.value.until == Some(d)))
    || g.startDate == d || g.endDate == d
  }

  /** A group has this date, it is set, and it is not over yet. */
  predicate IsAhead(groups: seq<Availability>, now: int, d: int) {
    d != 0 && now <= 1_000_000_000 * d && exists g :: g in groups && IsDateOf(g, d)
  }

  /** at is the first moment, in nanoseconds, of a date of the groups that is ahead. */
  ghost predicate IsNextDate(at: Option<int>, groups: seq<Availability>, now: int) {
    match at
    case None => forall d :: !IsAhead(groups, now, d)
    case Some(t) =>
      && (exists d :: IsAhead(groups, now, d) && t == 1_000_000_000 * d)
      && (forall d :: IsAhead(groups, now, d) ==> t <= 1_000_000_000 * d)
  }

  lemma {:induction false} AllDatesIff(groups: seq<Availability>, d: int)
    ensures d in AllDates(groups) <==> exists g :: g in groups && IsDateOf(g, d)
  {
    if groups != [] {
      var front, last := groups[..|groups| - 1], groups[|groups| - 1];
      AllDatesIff(front, d);
      assert groups == front + [last];
      assert d in DatesOf(last) <==> IsDateOf(last, d);
    }
  }

  lemma EarliestIsNext(at: Option<int>, groups: seq<Availability>, now: int)
    requires IsEarliest(at, AllDates(groups), now)
    ensures IsNextDate(at, groups, now)
  {
    forall d ensures IsAhead(groups, now, d) <==> d in AllDates(groups) && Upcoming(d, now) {
      AllDatesIff(groups, d);
    }
  }

  /** The next time at which a group may start or stop to apply. */
  method RecalculateAt(groups: seq<Availability>, now: int) returns (at: Option<int>)
    ensures IsNextDate(at, groups, now)
    ensures IsEarliest(at, AllDates(groups), now)
    ensures at == EarliestOf(AllDates(groups), now)
  {
    at := None;
    for i := 0 to |groups|
      invariant IsEarliest(at, AllDates(groups[..i]), now)
    {
      ghost var dates := AllDates(groups[..i]);
      var todo := DatesOf(groups[i]);
      for j := 0 to |todo|
        invariant IsEarliest(at, dates + todo[..j], now)
      {
        ConsiderKeepsEarliest(at, dates + todo[..j], todo[j], now);
        at := Consider(at, todo[j], now);
        assert dates + todo[..j] + [todo[j]] == dates + todo[..j + 1];
      }
      assert todo[..|todo|] == todo && groups[..i + 1][..i] == groups[..i];
    }
    assert groups[..|groups|] == groups;
    EarliestIsUnique(at, EarliestOf(AllDates(groups), now), AllDates(groups), now);
    EarliestIsNext(at, groups, now);
  }

  lemma {:induction false} DatesAreIncluded(groups: seq<Availability>, g: Availability, d: int)
    requires g in groups && d in DatesOf(g)
    ensures d in AllDates(groups)
  {
    if g != groups[|groups| - 1] {
      DatesAreIncluded(groups[..|groups| - 1], g, d);
    }
  }

  /** From now until the recalculation time, inclusive, the group does not change its answer. */
  ghost predicate IsSafeFor(g: Availability, assetFilters: set<CodeId>, now: int, at: Option<int>) {
    forall t {:trigger IsGroupMatching(g, assetFilters, t)} ::
      now <= t && (at.Some? ==> t <= at.value) ==>
        IsGroupMatching(g, assetFilters, t) == IsGroupMatching(g, assetFilters, now)
  }

  /** The validity of the group ends with the Unix epoch, which does not count as a date. */
  predicate EndsWithEpoch(g: Availability) {
    g.valid.Some? && g.valid.value.until == Some(0)
  }

  /** Until the recalculation time no group changes its answer, exactly unless the clock is not past
      the Unix epoch, the window reaches past it, and a group that applies runs out then. */
  lemma WindowIsSafeIff(groups: seq<Availability>, assetFilters: set<CodeId>, now: int, at: Option<int>)
    requires IsEarliest(at, AllDates(groups), now)
    ensures (forall g :: g in groups ==> IsSafeFor(g, assetFilters, now, at)) <==>
      || 0 < now || (at.Some? && at.value <= 0)
      || forall g :: g in groups && IsGroupMatching(g, assetFilters, now) ==> !EndsWithEpoch(g)
  {
    forall g | g in groups
      ensures IsSafeFor(g, assetFilters, now, at) <==>
        0 < now || (at.Some? && at.value <= 0) || !IsGroupMatching(g, assetFilters, now) || !EndsWithEpoch(g)
    {
      GroupIsSafeIff(groups, g, assetFilters, now, at);
    }
  }

  lemma GroupIsSafeIff(groups: seq<Availability>, g: Availability, assetFilters: set<CodeId>, now: int, at: Option<int>)
    requires IsEarliest(at, AllDates(groups), now) && g in groups
    ensures IsSafeFor(g, assetFilters, now, at) <==>
      0 < now || (at.Some? && at.value <= 0) || !IsGroupMatching(g, assetFilters, now) || !EndsWithEpoch(g)
  {
    if g.valid.Some? && g.valid.value.until.Some? {
      DatesAreIncluded(groups, g, g.valid.value.until.value);
    }
    DatesAreIncluded(groups, g, g.endDate);
    if now <= 0 && EndsWithEpoch(g) && !(at.Some? && at.value <= 0) && IsGroupMatching(g, assetFilters, now) {
      assert !IsGroupMatching(g, assetFilters, 1);
    }
  }

  /** The least case that is not safe: at second 0, a group that runs out then. */
  lemma EpochIsSkipped(groups: seq<Availability>)
    requires groups == [Availability(NotReviewed, Some(Validity(None, Some(0))), 0, 0, {})]
    ensures IsEarliest(None, AllDates(groups), 0) && !IsSafeFor(groups[0], {}, 0, None)
  {
    assert groups[..0] == [];
    assert AllDates(groups) == AllDates([]) + DatesOf(groups[0]);
    assert IsGroupMatching(groups[0], {}, 0) && !IsGroupMatching(groups[0], {}, 1);
  }

  /** One of the dates after which the group no longer applies. */
  predicate EndsAt(g: Availability, at: int) {
    || (g.valid.Some? && g.valid.value.until.Some? && g.valid.value.until.value * SECOND == at)
    || (g.endDate != 0 && g.endDate * SECOND == at)
  }

  /** Right after the recalculation time a group changes its answer exactly if it applies now and
      ends then; the other dates are waited for although nothing depends on them. */
  lemma WindowIsTightIff(groups: seq<Availability>, g: Availability, assetFilters: set<CodeId>, now: int, at: int)
    requires 0 < now && IsEarliest(Some(at), AllDates(groups), now) && g in groups
    ensures IsGroupMatching(g, assetFilters, at + 1) != IsGroupMatching(g, assetFilters, at) <==>
      IsGroupMatching(g, assetFilters, now) && EndsAt(g, at)
  {
    GroupIsSafeIff(groups, g, assetFilters, now, Some(at));
    assert IsGroupMatching(g, assetFilters, at) == IsGroupMatching(g, assetFilters, now);
  }

  /** Looked at again later, the earliest upcoming date is still the same exactly until it has passed. */
  lemma EarliestStaysIff(dates: seq<int>, now: int, later: int)
    requires now <= later
    ensures EarliestOf(dates, later) == EarliestOf(dates, now) <==>
      EarliestOf(dates, now).None? || later <= EarliestOf(dates, now).value
  {
    var at := EarliestOf(dates, now);
    if at.None? || later <= at.value {
      assert IsEarliest(at, dates, later);
      EarliestIsUnique(at, EarliestOf(dates, later), dates, later);
    } else if EarliestOf(dates, later).Some? {
      var d :| d in dates && Upcoming(d, later) && EarliestOf(dates, later).value == d * SECOND;
    }
  }

  /** Recalculation times are whole seconds and never the epoch. */
  lemma EarliestIsSecond(dates: seq<int>, now: int)
    ensures var at := EarliestOf(dates, now);
      at.Some? ==> at.value == at.value / SECOND * SECOND && at.value / SECOND != 0
  {
  }
}
