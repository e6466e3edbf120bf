/** Which checks end up ignored: by the groups that list them, and by what is given to them later. */
module IgnoredChecks {
  import opened Wrappers
  import opened PolicyTypes
  import opened Digraph
  import opened Sequences
  import opened ImpactOverrides

  /** A group for ignored entries lists the check, or a group that neither disables its entries nor
      takes them out of scope lists it as one to ignore. */
  predicate ListsIgnored(o: Occurrence) {
    || o.groupType == Ignored
    || (o.groupType != Disable && o.groupType != OutOfScopeGroup && o.check.action == Ignore)
  }

  /** Only such listings ignore a check, unless its impact is marked already, which counts except in
      groups that disable entries or take them out of scope. */
  lemma IgnoresIff(o: Occurrence, marked: bool)
    ensures Ignores(o, marked) <==>
      ListsIgnored(o) || (marked && o.groupType != Disable && o.groupType != OutOfScopeGroup)
  {
  }

  // ----- what a check holds -----

  function StartMarks(marked: set<SharedImpact>): Marks {
    Marks(map[], marked, {})
  }

  /** What the check holds after these occurrences. */
  function HeldAfter(src: Source, marked: set<SharedImpact>, occurrences: seq<Occurrence>, m: Mrn): Held {
    MarkAll(src, StartMarks(marked), occurrences).Of(m)
  }

  function HeldValue(h: Held): int {
    if h.Given? then ValueOf(h.impact) else 0
  }

  lemma HeldStep(src: Source, st: Marks, o: Occurrence, m: Mrn)
    ensures var h := Choose(src, st.Of(m), o.check);
      Mark(src, st, o).Of(m) == if o.check.mrn == m then Kept(h, Ignores(o, st.IsMarked(h))) else st.Of(m)
  {
  }

  /** Something is given to the check here, on its own or through its query. */
  predicate Gives(src: Source, o: Occurrence, m: Mrn) {
    o.check.mrn == m && GivenImpact(src, o.check).Some?
  }

  function GivenValue(src: Source, o: Occurrence): int
    requires Gives(src, o, o.check.mrn)
  {
    ValueOf(GivenImpact(src, o.check).value)
  }

  /** Nothing more than this is ever given to the check. */
  predicate AtMost(src: Source, occurrences: seq<Occurrence>, m: Mrn, bound: int) {
    forall k :: 0 <= k < |occurrences| && Gives(src, occurrences[k], m) ==> GivenValue(src, occurrences[k]) <= bound
  }

  predicate NothingGiven(src: Source, occurrences: seq<Occurrence>, m: Mrn) {
    forall k :: 0 <= k < |occurrences| ==> !Gives(src, occurrences[k], m)
  }

  predicate IsGiven(src: Source, occurrences: seq<Occurrence>, m: Mrn, i: SharedImpact) {
    exists k :: 0 <= k < |occurrences| && Gives(src, occurrences[k], m)
      && GivenImpact(src, occurrences[k].check).value == i
  }

  predicate ListsIgnoredAt(occurrences: seq<Occurrence>, m: Mrn, k: nat) {
    k < |occurrences| && occurrences[k].check.mrn == m && ListsIgnored(occurrences[k])
  }

  /** The check is ignored when nothing has been given to it yet. */
  ghost predicate IgnoredEmpty(src: Source, occurrences: seq<Occurrence>, m: Mrn) {
    exists k :: ListsIgnoredAt(occurrences, m, k) && NothingGiven(src, occurrences[..k + 1], m)
  }

  ghost predicate NeverIgnored(occurrences: seq<Occurrence>, m: Mrn) {
    forall k :: !ListsIgnoredAt(occurrences, m, k)
  }

  /** What is held after some occurrences: nothing, an empty impact, or the highest one given. */
  ghost predicate IsHeldAfter(src: Source, occurrences: seq<Occurrence>, m: Mrn, h: Held) {
    match h
    case Nothing => NothingGiven(src, occurrences, m) && NeverIgnored(occurrences, m)
    case Made => AtMost(src, occurrences, m, 0) && IgnoredEmpty(src, occurrences, m)
    case Given(i) => AtMost(src, occurrences, m, ValueOf(i)) && IsGiven(src, occurrences, m, i)
  }

  lemma {:induction false} WhatIsHeld(src: Source, marked: set<SharedImpact>, occurrences: seq<Occurrence>, m: Mrn)
    ensures IsHeldAfter(src, occurrences, m, HeldAfter(src, marked, occurrences, m))
  {
    if occurrences != [] {
      var n := |occurrences| - 1;
      var front, o := occurrences[..n], occurrences[n];
      WhatIsHeld(src, marked, front, m);
      var st := MarkAll(src, StartMarks(marked), front);
      var h := Choose(src, st.Of(m), o.check);
      HeldStep(src, st, o, m);
      IgnoresIff(o, st.IsMarked(h));
      assert occurrences == front + [o];
      HeldOneMore(src, front, o, m, st.Of(m));
    }
  }

  lemma HeldOneMore(src: Source, front: seq<Occurrence>, o: Occurrence, m: Mrn, h: Held)
    requires IsHeldAfter(src, front, m, h)
    ensures o.check.mrn != m ==> IsHeldAfter(src, front + [o], m, h)
    ensures o.check.mrn == m ==> IsHeldAfter(src, front + [o], m, Kept(Choose(src, h, o.check), ListsIgnored(o)))
  {
    var all, n := front + [o], |front|;
    assert forall k :: 0 <= k < n ==> all[k] == front[k];
    assert all[n] == o && all[..n + 1] == all;
    if h.Made? {
      var k: nat :| ListsIgnoredAt(front, m, k) && NothingGiven(src, front[..k + 1], m);
      assert all[..k + 1] == front[..k + 1] && ListsIgnoredAt(all, m, k);
    }
    if h.Nothing? {
      assert forall k: nat :: ListsIgnoredAt(all, m, k) ==> k == n || ListsIgnoredAt(front, m, k);
      assert o.check.mrn == m && ListsIgnored(o) ==> ListsIgnoredAt(all, m, n);
    }
    assert Gives(src, o, m) ==> Gives(src, all[n], m);
  }

  // ----- how long it is held -----

  /** From number k on nothing higher than this is given to the check. */
  predicate NothingAbove(src: Source, occurrences: seq<Occurrence>, m: Mrn, k: nat, bound: int) {
    forall j :: k <= j < |occurrences| && Gives(src, occurrences[j], m) ==> GivenValue(src, occurrences[j]) <= bound
  }

  /** What is held stays the same or is replaced by something higher. */
  predicate Advances(before: Held, after: Held, same: bool) {
    && !after.Nothing? && (after == before <==> same)
    && (if same then HeldValue(after) == HeldValue(before) else HeldValue(before) < HeldValue(after))
  }

  lemma OnlyHigherReplaces(src: Source, st: Marks, o: Occurrence, m: Mrn)
    requires !st.Of(m).Nothing?
    ensures Advances(st.Of(m), Mark(src, st, o).Of(m), Gives(src, o, m) ==> GivenValue(src, o) <= HeldValue(st.Of(m)))
  {
    HeldStep(src, st, o, m);
  }

  lemma AdvancesTwice(a: Held, b: Held, c: Held, first: bool, second: bool)
    requires Advances(a, b, first) && Advances(b, c, second)
    ensures first ==> Advances(a, c, second)
    ensures !first ==> Advances(a, c, false)
  {
  }

  lemma AboveOneMore(src: Source, occurrences: seq<Occurrence>, m: Mrn, k: nat, bound: int)
    requires k < |occurrences|
    ensures var n := |occurrences| - 1;
      NothingAbove(src, occurrences, m, k, bound) <==>
        NothingAbove(src, occurrences[..n], m, k, bound)
          && (Gives(src, occurrences[n], m) ==> GivenValue(src, occurrences[n]) <= bound)
  {
    var n := |occurrences| - 1;
    assert forall j :: k <= j < n ==> occurrences[j] == occurrences[..n][j];
  }

  lemma {:induction false} HeldStays(
      src: Source, marked: set<SharedImpact>, occurrences: seq<Occurrence>, m: Mrn, k: nat)
    requires k <= |occurrences| && !HeldAfter(src, marked, occurrences[..k], m).Nothing?
    ensures var before := HeldAfter(src, marked, occurrences[..k], m);
      Advances(before, HeldAfter(src, marked, occurrences, m),
        NothingAbove(src, occurrences, m, k, HeldValue(before)))
    decreases |occurrences|
  {
    var before := HeldAfter(src, marked, occurrences[..k], m);
    if k == |occurrences| {
      assert occurrences[..k] == occurrences;
    } else {
      var front, o := occurrences[..|occurrences| - 1], occurrences[|occurrences| - 1];
      var held := HeldAfter(src, marked, front, m);
      assert front[..k] == occurrences[..k];
      HeldStays(src, marked, front, m, k);
      OnlyHigherReplaces(src, MarkAll(src, StartMarks(marked), front), o, m);
      AdvancesTwice(before, held, HeldAfter(src, marked, occurrences, m),
        NothingAbove(src, front, m, k, HeldValue(before)), Gives(src, o, m) ==> GivenValue(src, o) <= HeldValue(held));
      AboveOneMore(src, occurrences, m, k, HeldValue(before));
    }
  }

  /** After number k nothing is given to its check that is higher than everything given by then, nor,
      if nothing is, above 0. */
  predicate NothingHigherAfter(src: Source, occurrences: seq<Occurrence>, k: nat)
    requires k < |occurrences|
  {
    var m := occurrences[k].check.mrn;
    forall j :: k < j < |occurrences| && Gives(src, occurrences[j], m) ==>
      if NothingGiven(src, occurrences[..k + 1], m) then GivenValue(src, occurrences[j]) <= 0
      else exists i :: 0 <= i <= k && Gives(src, occurrences[i], m)
                    && GivenValue(src, occurrences[j]) <= GivenValue(src, occurrences[i])
  }

  /** This is the same as nothing above what is held. */
  lemma HigherIsAbove(src: Source, occurrences: seq<Occurrence>, k: nat, h: Held)
    requires k < |occurrences| && IsHeldAfter(src, occurrences[..k + 1], occurrences[k].check.mrn, h) && !h.Nothing?
    ensures var m := occurrences[k].check.mrn;
      var above := NothingAbove(src, occurrences, m, k + 1, HeldValue(h));
      && (NothingHigherAfter(src, occurrences, k) ==> above)
      && (above && (h.Given? || NothingGiven(src, occurrences[..k + 1], m)) ==> NothingHigherAfter(src, occurrences, k))
  {
    var m, front := occurrences[k].check.mrn, occurrences[..k + 1];
    assert forall i :: 0 <= i <= k ==> front[i] == occurrences[i];
    if h.Given? {
      var i :| 0 <= i < |front| && Gives(src, front[i], m) && GivenImpact(src, front[i].check).value == h.impact;
      assert !NothingGiven(src, front, m) && Gives(src, occurrences[i], m);
    }
  }

  // ----- which impacts are marked -----

  /** The listing ignores its check, which holds this impact from then on. */
  ghost predicate IgnoresHolder(
      src: Source, marked: set<SharedImpact>, occurrences: seq<Occurrence>, k: nat, i: SharedImpact)
    requires k < |occurrences|
  {
    && ListsIgnored(occurrences[k])
    && HeldAfter(src, marked, occurrences[..k + 1], occurrences[k].check.mrn) == Held.Given(i)
  }

  lemma MarksWhatIsHeld(src: Source, marked: set<SharedImpact>, occurrences: seq<Occurrence>, k: nat, i: SharedImpact)
    requires k < |occurrences|
    ensures MarksAt(src, StartMarks(marked), occurrences, k, i) <==> IgnoresHolder(src, marked, occurrences, k, i)
  {
    var o, st := occurrences[k], MarkAll(src, StartMarks(marked), occurrences[..k]);
    assert occurrences[..k + 1][..k] == occurrences[..k];
    HeldStep(src, st, o, o.check.mrn);
    IgnoresIff(o, false);
  }

  /** An impact of the bundle ends up marked exactly if it was from the start, or a listing ignored a
      check that held it then; in this case it has been changed in place. */
  lemma {:induction false} MarkedByListing(
      src: Source, marked: set<SharedImpact>, occurrences: seq<Occurrence>, i: SharedImpact)
    ensures var st := MarkAll(src, StartMarks(marked), occurrences);
      var listed := exists k :: 0 <= k < |occurrences| && IgnoresHolder(src, marked, occurrences, k, i);
      && (i in st.marked <==> i in marked || listed)
      && (listed ==> i in st.changed)
  {
    MarkedIff(src, StartMarks(marked), occurrences, i);
    forall k | 0 <= k < |occurrences| {
      MarksWhatIsHeld(src, marked, occurrences, k, i);
    }
    if k :| 0 <= k < |occurrences| && IgnoresHolder(src, marked, occurrences, k, i) {
      StaysChanged(src, marked, occurrences, k, i);
    }
  }

  lemma {:induction false} StaysChanged(
      src: Source, marked: set<SharedImpact>, occurrences: seq<Occurrence>, k: nat, i: SharedImpact)
    requires k < |occurrences| && MarksAt(src, StartMarks(marked), occurrences, k, i)
    ensures i in MarkAll(src, StartMarks(marked), occurrences).changed
    decreases |occurrences|
  {
    var n := |occurrences| - 1;
    IgnoresIff(occurrences[k], false);
    IgnoresIff(occurrences[k], true);
    if k < n {
      assert occurrences[..n][..k] == occurrences[..k];
      StaysChanged(src, marked, occurrences[..n], k, i);
    }
  }

  // ----- which checks end up ignored -----

  /** What the check holds in the end is marked. */
  ghost predicate EndsIgnored(src: Source, marked: set<SharedImpact>, occurrences: seq<Occurrence>, m: Mrn) {
    var st := MarkAll(src, StartMarks(marked), occurrences);
    st.IsMarked(st.Of(m))
  }

  /** A check that some group ignores keeps its mark unless a higher impact is given to it later. */
  ghost predicate IgnoredForGood(src: Source, occurrences: seq<Occurrence>, m: Mrn) {
    exists k :: ListsIgnoredAt(occurrences, m, k) && NothingHigherAfter(src, occurrences, k)
  }

  /** It shares the impact it holds in the end with a check that was ignored while holding it, or
      that impact was marked from the start. */
  ghost predicate SharesMark(src: Source, marked: set<SharedImpact>, occurrences: seq<Occurrence>, m: Mrn) {
    var h := HeldAfter(src, marked, occurrences, m);
    h.Given? && (h.impact in marked || MarkedThroughOther(src, marked, occurrences, m, h.impact))
  }

  ghost predicate MarkedThroughOther(
      src: Source, marked: set<SharedImpact>, occurrences: seq<Occurrence>, m: Mrn, i: SharedImpact)
  {
    exists k :: 0 <= k < |occurrences| && occurrences[k].check.mrn != m && IgnoresHolder(src, marked, occurrences, k, i)
  }

  lemma IgnoredForGoodEnds(src: Source, marked: set<SharedImpact>, occurrences: seq<Occurrence>, m: Mrn, k: nat)
    requires ListsIgnoredAt(occurrences, m, k) && NothingHigherAfter(src, occurrences, k)
    ensures EndsIgnored(src, marked, occurrences, m)
    ensures var h := HeldAfter(src, marked, occurrences, m);
      && h == HeldAfter(src, marked, occurrences[..k + 1], m)
      && (h.Given? ==> IgnoresHolder(src, marked, occurrences, k, h.impact))
  {
    var h := HeldAfter(src, marked, occurrences[..k + 1], m);
    WhatIsHeld(src, marked, occurrences[..k + 1], m);
    assert ListsIgnoredAt(occurrences[..k + 1], m, k);
    HigherIsAbove(src, occurrences, k, h);
    HeldStays(src, marked, occurrences, m, k + 1);
    if h.Given? {
      assert IgnoresHolder(src, marked, occurrences, k, h.impact);
      MarkedByListing(src, marked, occurrences, h.impact);
    }
  }

  lemma EndsIgnoredThrough(src: Source, marked: set<SharedImpact>, occurrences: seq<Occurrence>, m: Mrn)
    requires EndsIgnored(src, marked, occurrences, m)
    ensures IgnoredForGood(src, occurrences, m) || SharesMark(src, marked, occurrences, m)
  {
    var h := HeldAfter(src, marked, occurrences, m);
    WhatIsHeld(src, marked, occurrences, m);
    if h.Made? {
      var k: nat :| ListsIgnoredAt(occurrences, m, k) && NothingGiven(src, occurrences[..k + 1], m);
      assert NothingHigherAfter(src, occurrences, k);
    } else {
      MarkedByListing(src, marked, occurrences, h.impact);
      if h.impact !in marked && !MarkedThroughOther(src, marked, occurrences, m, h.impact) {
        var k :| 0 <= k < |occurrences| && IgnoresHolder(src, marked, occurrences, k, h.impact);
        WhatIsHeld(src, marked, occurrences[..k + 1], m);
        HeldStays(src, marked, occurrences, m, k + 1);
        HigherIsAbove(src, occurrences, k, h);
        assert ListsIgnoredAt(occurrences, m, k);
      }
    }
  }

  /** A check ends up ignored exactly if some group ignores it and nothing higher is given to it
      later, or if it shares what it holds in the end with one that was ignored holding it. */
  lemma EndsIgnoredIff(src: Source, marked: set<SharedImpact>, occurrences: seq<Occurrence>, m: Mrn)
    ensures EndsIgnored(src, marked, occurrences, m) <==>
      IgnoredForGood(src, occurrences, m) || SharesMark(src, marked, occurrences, m)
  {
    if EndsIgnored(src, marked, occurrences, m) {
      EndsIgnoredThrough(src, marked, occurrences, m);
    }
    if k: nat :| ListsIgnoredAt(occurrences, m, k) && NothingHigherAfter(src, occurrences, k) {
      IgnoredForGoodEnds(src, marked, occurrences, m, k);
    }
    if SharesMark(src, marked, occurrences, m) {
      MarkedByListing(src, marked, occurrences, HeldAfter(src, marked, occurrences, m).impact);
    }
  }

  /** The least case of a check that some group ignores and that does not end up so: an ignored
      listing with a lower impact comes before a plain one with a higher impact. */
  lemma LaterImpactIsNotIgnored(src: Source, m: Mrn, low: SharedImpact, high: SharedImpact)
    requires src.queries == map[] && low != high && low.value == Some(10) && high.value == Some(80)
    ensures var ignored := Occurrence(Ignored, Check(m, Unspecified, Some(low)));
      var plain := Occurrence(Uncategorized, Check(m, Unspecified, Some(high)));
      && ListsIgnored(ignored) && !EndsIgnored(src, {}, [ignored, plain], m)
      && EndsIgnored(src, {}, [plain, ignored], m)
  {
    var ignored := Occurrence(Ignored, Check(m, Unspecified, Some(low)));
    var plain := Occurrence(Uncategorized, Check(m, Unspecified, Some(high)));
    assert [ignored, plain][..1] == [ignored] && [plain, ignored][..1] == [plain];
    assert [ignored][..0] == [] && [plain][..0] == [];
    assert MarkAll(src, StartMarks({}), [ignored]) == Mark(src, StartMarks({}), ignored);
    assert MarkAll(src, StartMarks({}), [plain]) == Mark(src, StartMarks({}), plain);
  }

  // ----- the gathered impacts -----

  /** After gathering, a check that some matching group ignores has an impact that is marked and says
      that it is ignored, unless something higher is given to the check later. */
  lemma IgnoredCheckIsMarked(
      gatherer: ImpactGatherer, marked: set<SharedImpact>, occurrences: seq<Occurrence>, m: Mrn, k: nat)
    requires gatherer.Follows(MarkAll(gatherer.src, StartMarks(marked), occurrences))
    requires ListsIgnoredAt(occurrences, m, k) && NothingHigherAfter(gatherer.src, occurrences, k)
    ensures m in gatherer.impacts
    ensures gatherer.impacts[m].scoring == IgnoreScore && gatherer.impacts[m].action == Ignore
  {
    var st := MarkAll(gatherer.src, StartMarks(marked), occurrences);
    IgnoredForGoodEnds(gatherer.src, marked, occurrences, m, k);
    assert gatherer.Holds(st.held, m);
    if st.Of(m).Given? {
      MarkedByListing(gatherer.src, marked, occurrences, st.Of(m).impact);
    }
  }

  /** And a check without such a listing has a marked impact only if it shares it. */
  lemma OnlyIgnoredChecksAreMarked(
      gatherer: ImpactGatherer, marked: set<SharedImpact>, occurrences: seq<Occurrence>, m: Mrn)
    requires gatherer.Follows(MarkAll(gatherer.src, StartMarks(marked), occurrences))
    requires m in gatherer.impacts && gatherer.impacts[m].scoring == IgnoreScore
    ensures IgnoredForGood(gatherer.src, occurrences, m) || SharesMark(gatherer.src, marked, occurrences, m)
  {
    assert gatherer.Holds(MarkAll(gatherer.src, StartMarks(marked), occurrences).held, m);
    EndsIgnoredThrough(gatherer.src, marked, occurrences, m);
  }

  // ----- in terms of the groups that are reached -----

  /** A matching group of a policy reached from p through matching groups lists this. */
  ghost predicate Comes(src: Source, p: Mrn, o: Occurrence) {
    exists q, g :: q in src.policies && Reaches(PolicyEdges(src), p, q) && g in src.policies[q] && GroupLists(src, g, o)
  }

  predicate GroupLists(src: Source, g: Group, o: Occurrence) {
    Matches(src, g) && o.groupType == g.groupType && o.check in g.checks
  }

  ghost predicate ComesFromAny(src: Source, list: seq<Mrn>, o: Occurrence) {
    exists c :: c in list && Comes(src, c, o)
  }

  ghost predicate ComesFromGroup(src: Source, g: Group, o: Occurrence) {
    GroupLists(src, g, o) || (Matches(src, g) && ComesFromAny(src, g.policies, o))
  }

  ghost predicate ComesFromGroups(src: Source, groups: seq<Group>, o: Occurrence) {
    exists g :: g in groups && ComesFromGroup(src, g, o)
  }

  lemma ComesUnfolds(src: Source, rank: Mrn -> nat, p: Mrn, o: Occurrence)
    requires WellFormed(src, rank) && p in src.policies
    ensures Comes(src, p, o) <==> ComesFromGroups(src, src.policies[p], o)
  {
    var h := PolicyEdges(src);
    if Comes(src, p, o) {
      var q, g :| q in src.policies && Reaches(h, p, q) && g in src.policies[q] && GroupLists(src, g, o);
      if q != p {
        var c := FirstEdge(h, p, q);
        assert Comes(src, c, o);
        var group :| group in src.policies[p] && Matches(src, group) && c in group.policies;
        assert ComesFromGroup(src, group, o);
      } else {
        assert ComesFromGroup(src, g, o);
      }
    }
    if ComesFromGroups(src, src.policies[p], o) {
      var group :| group in src.policies[p] && ComesFromGroup(src, group, o);
      if GroupLists(src, group, o) {
        ReachesSelf(h, p);
      } else {
        var c :| c in group.policies && Comes(src, c, o);
        var q, g :| q in src.policies && Reaches(h, c, q) && g in src.policies[q] && GroupLists(src, g, o);
        EdgeReaches(h, p, c);
        ReachesTransitive(h, p, c, q);
      }
    }
  }

  /** The occurrences that are gathered are exactly these. */
  lemma {:induction false} OccurrencesAreThose(src: Source, rank: Mrn -> nat, p: Mrn, o: Occurrence)
    requires WellFormed(src, rank) && p in src.policies
    ensures o in OccurrencesIn(src, rank, p) <==> Comes(src, p, o)
    decreases rank(p), 3, 0
  {
    ComesUnfolds(src, rank, p, o);
    GroupsAreThose(src, rank, p, src.policies[p], o);
  }

  lemma {:induction false} GroupsAreThose(src: Source, rank: Mrn -> nat, p: Mrn, groups: seq<Group>, o: Occurrence)
    requires WellFormed(src, rank) && p in src.policies && forall g :: g in groups ==> g in src.policies[p]
    ensures o in OccurrencesInGroups(src, rank, p, groups) <==> ComesFromGroups(src, groups, o)
    decreases rank(p), 2, |groups|
  {
    if groups != [] {
      var front, last := groups[..|groups| - 1], groups[|groups| - 1];
      InFrontOrLast(groups);
      GroupsAreThose(src, rank, p, front, o);
      if Matches(src, last) {
        AllAreThose(src, rank, p, last.policies, o);
        ListingHas(last.groupType, last.checks, o);
      }
    }
  }

  lemma {:induction false} AllAreThose(src: Source, rank: Mrn -> nat, p: Mrn, list: seq<Mrn>, o: Occurrence)
    requires WellFormed(src, rank) && forall c :: c in list ==> c in src.policies && rank(c) < rank(p)
    ensures o in OccurrencesInAll(src, rank, p, list) <==> ComesFromAny(src, list, o)
    decreases rank(p), 0, |list|
  {
    if list != [] {
      InFrontOrLast(list);
      AllAreThose(src, rank, p, list[..|list| - 1], o);
      OccurrencesAreThose(src, rank, list[|list| - 1], o);
    }
  }

  lemma {:induction false} ListingHas(groupType: GroupType, checks: seq<Check>, o: Occurrence)
    ensures o in Listing(groupType, checks) <==> o.groupType == groupType && o.check in checks
  {
    if checks != [] {
      InFrontOrLast(checks);
      ListingHas(groupType, checks[..|checks| - 1], o);
    }
  }

  predicate GivesNoMore(src: Source, c: Check, d: Check) {
    c.mrn == d.mrn && GivenImpact(src, c).Some? ==>
      GivenImpact(src, d).Some? && ValueOf(GivenImpact(src, c).value) <= ValueOf(GivenImpact(src, d).value)
  }

  /** The group of this policy matches, and the policy is reached. */
  ghost predicate IsReached(src: Source, p: Mrn, q: Mrn, g: Group) {
    Reaches(PolicyEdges(src), p, q) && Matches(src, g)
  }

  /** The listing gives its check as much as any other one that is reached, or none gives anything. */
  ghost predicate GivesMost(src: Source, p: Mrn, d: Check) {
    forall q, g, c ::
      q in src.policies && g in src.policies[q] && c in g.checks && IsReached(src, p, q, g) ==> GivesNoMore(src, c, d)
  }

  lemma OtherGivesNoMore(src: Source, p: Mrn, other: Occurrence, d: Check)
    requires Comes(src, p, other) && GivesMost(src, p, d)
    ensures GivesNoMore(src, other.check, d)
  {
  }

  lemma MostIsHighest(src: Source, rank: Mrn -> nat, p: Mrn, k: nat)
    requires WellFormed(src, rank) && p in src.policies && k < |OccurrencesIn(src, rank, p)|
    requires GivesMost(src, p, OccurrencesIn(src, rank, p)[k].check)
    ensures NothingHigherAfter(src, OccurrencesIn(src, rank, p), k)
  {
    var occurrences := OccurrencesIn(src, rank, p);
    forall j | 0 <= j < |occurrences| ensures GivesNoMore(src, occurrences[j].check, occurrences[k].check) {
      OccurrencesAreThose(src, rank, p, occurrences[j]);
      OtherGivesNoMore(src, p, occurrences[j], occurrences[k].check);
    }
    assert occurrences[..k + 1][k] == occurrences[k];
  }

  /** So whatever the order of groups and policies, a check that a matching group of a reached policy
      ignores ends up with a marked impact, if that listing gives it as much as any other. */
  lemma IgnoredByReachedGroup(
      gatherer: ImpactGatherer, marked: set<SharedImpact>, rank: Mrn -> nat, p: Mrn, o: Occurrence)
    requires WellFormed(gatherer.src, rank) && p in gatherer.src.policies
    requires gatherer.Follows(MarkAll(gatherer.src, StartMarks(marked), OccurrencesIn(gatherer.src, rank, p)))
    requires Comes(gatherer.src, p, o) && ListsIgnored(o) && GivesMost(gatherer.src, p, o.check)
    ensures o.check.mrn in gatherer.impacts
    ensures gatherer.impacts[o.check.mrn].scoring == IgnoreScore && gatherer.impacts[o.check.mrn].action == Ignore
  {
    var occurrences := OccurrencesIn(gatherer.src, rank, p);
    OccurrencesAreThose(gatherer.src, rank, p, o);
    var k :| 0 <= k < |occurrences| && occurrences[k] == o;
    MostIsHighest(gatherer.src, rank, p, k);
    IgnoredCheckIsMarked(gatherer, marked, occurrences, o.check.mrn, k);
  }
}
