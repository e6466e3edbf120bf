/** Gathering the impact overrides of checks. Impacts are shared between groups and queries, and
    are changed in place when a check is ignored. */
module ImpactOverrides {
  import opened Wrappers
  import opened PolicyTypes
  import opened PolicyWindow
  import opened Digraph
  import PolicyBundle

  type Mrn = PolicyBundle.Mrn

  class SharedImpact {
    const value: Option<int32>
    var scoring: ScoringSystem
    var action: Action

    constructor ()
      ensures value == None && scoring == ScoringUnspecified && action == Unspecified
    {
      value, scoring, action := None, ScoringUnspecified, Unspecified;
    }
  }

  /** The value of an impact; one without a value counts as 0. */
  function ValueOf(i: SharedImpact): int {
    if i.value.Some? then i.value.value as int else 0
  }

  /** The worse of two impacts. */
  function WorstOf(a: Option<SharedImpact>, b: Option<SharedImpact>): (w: Option<SharedImpact>)
    ensures w == a || w == b
    ensures a.Some? ==> w.Some? && ValueOf(a.value) <= ValueOf(w.value)
    ensures b.Some? ==> w.Some? && ValueOf(b.value) <= ValueOf(w.value)
  {
    if a.None? then b
    else if b.None? then a
    else if ValueOf(a.value) > ValueOf(b.value) then a else b
  }

  datatype Check = Check(mrn: Mrn, action: Action, impact: Option<SharedImpact>)

  datatype Group = Group(availability: Availability, groupType: GroupType, policies: seq<Mrn>, checks: seq<Check>)

  /** The groups of each policy and the impact of each query. */
  datatype Source = Source(policies: map<Mrn, seq<Group>>, queries: map<Mrn, Option<SharedImpact>>,
    target: PolicyBundle.Target)

  predicate Matches(src: Source, g: Group) {
    IsGroupMatching(g.availability, src.target.assetFilters, src.target.now)
  }

  // ----- what is known about the impact of a check -----

  datatype Fact = Value(mrn: Mrn, value: int) | Snoozed(mrn: Mrn)

  function ImpactFact(m: Mrn, impact: Option<SharedImpact>): set<Fact> {
    if impact.Some? then {Value(m, ValueOf(impact.value))} else {}
  }

  function QueryImpact(src: Source, m: Mrn): Option<SharedImpact> {
    if m in src.queries then src.queries[m] else None
  }

  /** One occurrence of a check: its own impact, that of the query, and whether it is ignored. */
  function CheckFacts(src: Source, groupType: GroupType, c: Check): set<Fact> {
    ImpactFact(c.mrn, c.impact) + ImpactFact(c.mrn, QueryImpact(src, c.mrn))
    + if PolicyBundle.NormalizeAction(groupType, c.action, None) == Ignore then {Snoozed(c.mrn)} else {}
  }

  /** The impact of a check is the maximum of what is known: at least as high as every value, and
      one of them, or 0 for a check that is ignored; it is there as soon as anything is known. */
  ghost predicate IsMaximum(impacts: map<Mrn, SharedImpact>, facts: iset<Fact>, m: Mrn) {
    && (m in impacts <==> Snoozed(m) in facts || exists x :: Value(m, x) in facts)
    && (m in impacts ==>
          && (forall x :: Value(m, x) in facts ==> x <= ValueOf(impacts[m]))
          && (Value(m, ValueOf(impacts[m])) in facts || (ValueOf(impacts[m]) == 0 && Snoozed(m) in facts)))
  }

  ghost predicate Gathered(impacts: map<Mrn, SharedImpact>, facts: iset<Fact>) {
    forall m {:trigger IsMaximum(impacts, facts, m)} :: IsMaximum(impacts, facts, m)
  }

  /** The worst of what an occurrence gives and what there was before, or an impact without a value
      for an ignored check that has none. */
  ghost predicate IsNext(
    src: Source, impacts: map<Mrn, SharedImpact>, groupType: GroupType, c: Check, impact: Option<SharedImpact>)
  {
    var held := if c.mrn in impacts then Some(impacts[c.mrn]) else None;
    var known := WorstOf(WorstOf(c.impact, QueryImpact(src, c.mrn)), held);
    if known.None? && Snoozed(c.mrn) in CheckFacts(src, groupType, c) then impact.Some? && ValueOf(impact.value) == 0
    else impact == known
  }

  /** Adding an occurrence to what is known. */
  lemma OneMoreOccurrence(
    src: Source, impacts: map<Mrn, SharedImpact>, facts: iset<Fact>, groupType: GroupType, c: Check,
    impact: Option<SharedImpact>, impacts': map<Mrn, SharedImpact>)
    requires Gathered(impacts, facts)
    requires IsNext(src, impacts, groupType, c, impact)
    requires impacts' == if impact.Some? then impacts[c.mrn := impact.value] else impacts
    ensures Gathered(impacts', facts + (iset f | f in CheckFacts(src, groupType, c)))
  {
    var facts' := facts + (iset f | f in CheckFacts(src, groupType, c));
    forall m ensures IsMaximum(impacts', facts', m) {
      assert IsMaximum(impacts, facts, m);
      if m != c.mrn {
        assert forall x :: Value(m, x) in facts' <==> Value(m, x) in facts;
        assert Snoozed(m) in facts' <==> Snoozed(m) in facts;
      } else {
        OccurrenceIsMaximum(src, impacts, facts, groupType, c, impact, impacts');
      }
    }
  }

  lemma OccurrenceIsMaximum(
    src: Source, impacts: map<Mrn, SharedImpact>, facts: iset<Fact>, groupType: GroupType, c: Check,
    impact: Option<SharedImpact>, impacts': map<Mrn, SharedImpact>)
    requires IsMaximum(impacts, facts, c.mrn)
    requires IsNext(src, impacts, groupType, c, impact)
    requires impacts' == if impact.Some? then impacts[c.mrn := impact.value] else impacts
    ensures IsMaximum(impacts', facts + (iset f | f in CheckFacts(src, groupType, c)), c.mrn)
  {
    var added := iset f | f in CheckFacts(src, groupType, c);
    forall x | Value(c.mrn, x) in added
      ensures (c.impact.Some? && x == ValueOf(c.impact.value))
        || (QueryImpact(src, c.mrn).Some? && x == ValueOf(QueryImpact(src, c.mrn).value))
    {
    }
    if c.impact.Some? {
      assert Value(c.mrn, ValueOf(c.impact.value)) in added;
    }
    if QueryImpact(src, c.mrn).Some? {
      assert Value(c.mrn, ValueOf(QueryImpact(src, c.mrn).value)) in added;
    }
  }

  // ----- the occurrences in a policy and in those it refers to -----

  function PolicyEdges(src: Source): Graph<Mrn> {
    map p | p in src.policies :: (set g, c | g in src.policies[p] && Matches(src, g) && c in g.policies :: c)
  }

  predicate GroupHas(src: Source, g: Group, f: Fact) {
    Matches(src, g) && OccursInChecks(src, g.groupType, g.checks, f)
  }

  predicate OccursInChecks(src: Source, groupType: GroupType, checks: seq<Check>, f: Fact) {
    exists c :: c in checks && f in CheckFacts(src, groupType, c)
  }

  /** The fact comes from a matching group of a policy reached from p through matching groups. */
  ghost predicate Occurs(src: Source, p: Mrn, f: Fact) {
    exists q, g :: q in src.policies && Reaches(PolicyEdges(src), p, q) && g in src.policies[q] && GroupHas(src, g, f)
  }

  ghost predicate OccursInAny(src: Source, list: seq<Mrn>, f: Fact) {
    exists p :: p in list && Occurs(src, p, f)
  }

  ghost predicate OccursInGroup(src: Source, g: Group, f: Fact) {
    GroupHas(src, g, f) || (Matches(src, g) && OccursInAny(src, g.policies, f))
  }

  ghost predicate OccursInGroups(src: Source, groups: seq<Group>, f: Fact) {
    exists g :: g in groups && OccursInGroup(src, g, f)
  }

  lemma OccursUnfolds(src: Source, p: Mrn, f: Fact)
    requires p in src.policies
    requires forall g, c :: g in src.policies[p] && c in g.policies ==> c in src.policies
    ensures Occurs(src, p, f) <==> OccursInGroups(src, src.policies[p], f)
  {
    var h := PolicyEdges(src);
    if Occurs(src, p, f) {
      var q, g :| q in src.policies && Reaches(h, p, q) && g in src.policies[q] && GroupHas(src, g, f);
      if q != p {
        var c := FirstEdge(h, p, q);
        assert Occurs(src, c, f);
        var group :| group in src.policies[p] && Matches(src, group) && c in group.policies;
        assert OccursInGroup(src, group, f);
      } else {
        assert OccursInGroup(src, g, f);
      }
    }
    if OccursInGroups(src, src.policies[p], f) {
      var group :| group in src.policies[p] && OccursInGroup(src, group, f);
      if GroupHas(src, group, f) {
        ReachesSelf(h, p);
      } else {
        var c :| c in group.policies && Occurs(src, c, f);
        var q, g :| q in src.policies && Reaches(h, c, q) && g in src.policies[q] && GroupHas(src, g, f);
        EdgeReaches(h, p, c);
        ReachesTransitive(h, p, c, q);
      }
    }
  }

  ghost function AllFacts(src: Source, p: Mrn): iset<Fact> {
    iset f | Occurs(src, p, f)
  }

  ghost function FactsOfAny(src: Source, list: seq<Mrn>): iset<Fact> {
    iset f | OccursInAny(src, list, f)
  }

  ghost function FactsOfGroup(src: Source, g: Group): iset<Fact> {
    iset f | OccursInGroup(src, g, f)
  }

  ghost function FactsOfGroups(src: Source, groups: seq<Group>): iset<Fact> {
    iset f | OccursInGroups(src, groups, f)
  }

  ghost function FactsOfChecks(src: Source, groupType: GroupType, checks: seq<Check>): iset<Fact> {
    iset f | OccursInChecks(src, groupType, checks, f)
  }

  lemma FactsUnfold(src: Source, p: Mrn)
    requires p in src.policies
    requires forall g, c :: g in src.policies[p] && c in g.policies ==> c in src.policies
    ensures AllFacts(src, p) == FactsOfGroups(src, src.policies[p])
  {
    forall f ensures f in AllFacts(src, p) <==> f in FactsOfGroups(src, src.policies[p]) {
      OccursUnfolds(src, p, f);
    }
  }

  lemma OneMorePolicy(src: Source, facts: iset<Fact>, list: seq<Mrn>, i: nat)
    requires i < |list|
    ensures facts + FactsOfAny(src, list[..i]) + AllFacts(src, list[i]) == facts + FactsOfAny(src, list[..i + 1])
  {
    assert list[..i + 1] == list[..i] + [list[i]];
  }

  lemma OneMoreGroup(src: Source, facts: iset<Fact>, groups: seq<Group>, i: nat)
    requires i < |groups|
    ensures facts + FactsOfGroups(src, groups[..i]) + FactsOfGroup(src, groups[i]) ==
      facts + FactsOfGroups(src, groups[..i + 1])
  {
    assert groups[..i + 1] == groups[..i] + [groups[i]];
  }

  lemma OneMoreCheck(src: Source, facts: iset<Fact>, groupType: GroupType, checks: seq<Check>, i: nat)
    requires i < |checks|
    ensures
      facts + FactsOfChecks(src, groupType, checks[..i]) + (iset f | f in CheckFacts(src, groupType, checks[i])) ==
      facts + FactsOfChecks(src, groupType, checks[..i + 1])
  {
    assert checks[..i + 1] == checks[..i] + [checks[i]];
  }

  lemma GroupFacts(src: Source, g: Group)
    ensures FactsOfGroup(src, g) ==
      if Matches(src, g) then FactsOfAny(src, g.policies) + FactsOfChecks(src, g.groupType, g.checks) else iset{}
  {
  }

  // ----- gathering -----

  /** References resolve and are not circular. */
  ghost predicate WellFormed(src: Source, rank: Mrn -> nat) {
    forall p, g, c :: p in src.policies && g in src.policies[p] && c in g.policies ==>
      c in src.policies && rank(c) < rank(p)
  }

  /** A check as a group lists it. */
  datatype Occurrence = Occurrence(groupType: GroupType, check: Check)

  /** The occurrences of checks in the order they are come across: what a group refers to comes
      before what it lists. */
  ghost function OccurrencesIn(src: Source, rank: Mrn -> nat, p: Mrn): seq<Occurrence>
    requires WellFormed(src, rank) && p in src.policies
    decreases rank(p), 3, 0
  {
    OccurrencesInGroups(src, rank, p, src.policies[p])
  }

  ghost function OccurrencesInGroups(src: Source, rank: Mrn -> nat, p: Mrn, groups: seq<Group>): seq<Occurrence>
    requires WellFormed(src, rank) && p in src.policies && forall g :: g in groups ==> g in src.policies[p]
    decreases rank(p), 2, |groups|
  {
    if groups == [] then []
    else
      OccurrencesInGroups(src, rank, p, groups[..|groups| - 1]) +
      OccurrencesInGroup(src, rank, p, groups[|groups| - 1])
  }

  ghost function OccurrencesInGroup(src: Source, rank: Mrn -> nat, p: Mrn, g: Group): seq<Occurrence>
    requires WellFormed(src, rank) && p in src.policies && g in src.policies[p]
    decreases rank(p), 1, 0
  {
    if !Matches(src, g) then []
    else OccurrencesInAll(src, rank, p, g.policies) + Listing(g.groupType, g.checks)
  }

  ghost function OccurrencesInAll(src: Source, rank: Mrn -> nat, p: Mrn, list: seq<Mrn>): seq<Occurrence>
    requires WellFormed(src, rank) && forall c :: c in list ==> c in src.policies && rank(c) < rank(p)
    decreases rank(p), 0, |list|
  {
    if list == [] then []
    else OccurrencesInAll(src, rank, p, list[..|list| - 1]) + OccurrencesIn(src, rank, list[|list| - 1])
  }

  function Listing(groupType: GroupType, checks: seq<Check>): seq<Occurrence> {
    if checks == [] then []
    else Listing(groupType, checks[..|checks| - 1]) + [Occurrence(groupType, checks[|checks| - 1])]
  }

  /** What a check holds: an impact of the bundle, or one made for it because it is ignored. */
  datatype Held = Nothing | Made | Given(impact: SharedImpact)

  function HeldIn(held: map<Mrn, Held>, m: Mrn): Held {
    if m in held then held[m] else Nothing
  }

  /** What every check holds, which impacts of the bundle are marked as ignored, and which of them
      have been changed on the way. */
  datatype Marks = Marks(held: map<Mrn, Held>, marked: set<SharedImpact>, changed: set<SharedImpact>) {
    /** The check now holds this, which is marked if the check is ignored. */
    function Keep(m: Mrn, h: Held, ignored: bool): Marks {
      var more := if ignored && h.Given? then {h.impact} else {};
      Marks(With(held, m, Kept(h, ignored)), marked + more, changed + more)
    }

    function Of(m: Mrn): Held {
      HeldIn(held, m)
    }

    predicate IsMarked(h: Held) {
      h.Made? || (h.Given? && h.impact in marked)
    }
  }

  function GivenImpact(src: Source, c: Check): Option<SharedImpact> {
    WorstOf(c.impact, QueryImpact(src, c.mrn))
  }

  /** What a check holds next: what is given only if it is higher than what it holds already. */
  function Choose(src: Source, held: Held, c: Check): Held {
    var given := GivenImpact(src, c);
    if given.None? then held
    else
      match held
      case Nothing => Given(given.value)
      case Made => if ValueOf(given.value) > 0 then Given(given.value) else held
      case Given(h) => if ValueOf(given.value) > ValueOf(h) then Given(given.value) else held
  }

  predicate Ignores(o: Occurrence, marked: bool) {
    PolicyBundle.NormalizeAction(o.groupType, o.check.action, if marked then Some(IgnoreScore) else None) == Ignore
  }

  /** What a check holds afterwards: one without any impact gets one if it is ignored. */
  function Kept(h: Held, ignored: bool): Held {
    if ignored && h.Nothing? then Made else h
  }

  function With(held: map<Mrn, Held>, m: Mrn, h: Held): map<Mrn, Held> {
    if h.Nothing? then held else held[m := h]
  }

  /** One more occurrence. */
  function Mark(src: Source, st: Marks, o: Occurrence): Marks {
    var h := Choose(src, st.Of(o.check.mrn), o.check);
    st.Keep(o.check.mrn, h, Ignores(o, st.IsMarked(h)))
  }

  function MarkAll(src: Source, st: Marks, occurrences: seq<Occurrence>): Marks {
    if occurrences == [] then st
    else
      Mark(src, MarkAll(src, st, occurrences[..|occurrences| - 1]), occurrences[|occurrences| - 1])
  }

  lemma {:induction false} MarkBoth(src: Source, st: Marks, a: seq<Occurrence>, b: seq<Occurrence>)
    ensures MarkAll(src, st, a + b) == MarkAll(src, MarkAll(src, st, a), b)
  {
    if b == [] {
      assert a + b == a;
    } else {
      assert (a + b)[..|a + b| - 1] == a + b[..|b| - 1];
      MarkBoth(src, st, a, b[..|b| - 1]);
    }
  }

  /** The occurrence is ignored, and it is this impact that its check holds from then on. */
  ghost predicate MarksAt(src: Source, st: Marks, occurrences: seq<Occurrence>, k: nat, i: SharedImpact)
    requires k < |occurrences|
  {
    var o := occurrences[k];
    Ignores(o, false) && Choose(src, MarkAll(src, st, occurrences[..k]).Of(o.check.mrn), o.check) == Given(i)
  }

  /** An impact of the bundle ends up marked exactly if it was marked from the start, or a check that
      is ignored somewhere held it there. A check ends up marked exactly if what it holds in the end
      is: a later occurrence with a higher impact lets it go, another check with the same impact
      does not. */
  lemma {:induction false} MarkedIff(src: Source, st: Marks, occurrences: seq<Occurrence>, i: SharedImpact)
    ensures i in MarkAll(src, st, occurrences).marked <==>
      i in st.marked || exists k :: 0 <= k < |occurrences| && MarksAt(src, st, occurrences, k, i)
  {
    if occurrences != [] {
      var n := |occurrences| - 1;
      var front := occurrences[..n];
      MarkedIff(src, st, front, i);
      forall k | 0 <= k < n ensures MarksAt(src, st, occurrences, k, i) <==> MarksAt(src, st, front, k, i) {
        assert occurrences[..k] == front[..k];
      }
      if k :| 0 <= k < n && MarksAt(src, st, front, k, i) {
        assert MarksAt(src, st, occurrences, k, i);
      }
      LastMark(src, MarkAll(src, st, front), occurrences[n], i);
      assert MarksAt(src, st, occurrences, n, i) <==>
        Ignores(occurrences[n], false) &&
        Choose(src, MarkAll(src, st, front).Of(occurrences[n].check.mrn), occurrences[n].check) == Given(i);
    }
  }

  lemma LastMark(src: Source, st: Marks, o: Occurrence, i: SharedImpact)
    ensures i in Mark(src, st, o).marked <==>
      i in st.marked || (Ignores(o, false) && Choose(src, st.Of(o.check.mrn), o.check) == Given(i))
  {
  }

  /** Marks the impact of a check as ignored, in place, if the check is; a check without any impact
      gets an empty one. */
  method Snooze(impact: Option<SharedImpact>, groupType: GroupType, action: Action) returns (r: Option<SharedImpact>)
    modifies (if impact.Some? then {impact.value} else {})`scoring, (if impact.Some? then {impact.value} else {})`action
    ensures impact.Some? ==> r == impact
    ensures impact.None? ==> r.Some? == (PolicyBundle.NormalizeAction(groupType, action, None) == Ignore)
    ensures impact.None? && r.Some? ==> fresh(r.value) && ValueOf(r.value) == 0
    ensures var scoring := if impact.Some? then Some(old(impact.value.scoring)) else None;
      if PolicyBundle.NormalizeAction(groupType, action, scoring) == Ignore then r.Some?
        && r.value.scoring == IgnoreScore && r.value.action == Ignore
      else impact.Some? ==> unchanged(impact.value)
  {
    r := impact;
    if PolicyBundle.NormalizeAction(groupType, action, if r.Some? then Some(r.value.scoring) else None) == Ignore {
      if r.None? {
        var none := new SharedImpact();
        r := Some(none);
      }
      r.value.scoring := IgnoreScore;
      r.value.action := Ignore;
    }
  }

  lemma SnoozedIsNext(
      src: Source, impacts: map<Mrn, SharedImpact>, groupType: GroupType, c: Check, known: Option<SharedImpact>,
      impact: Option<SharedImpact>)
    requires known == WorstOf(GivenImpact(src, c), if c.mrn in impacts then Some(impacts[c.mrn]) else None)
    requires known.Some? ==> impact == known
    requires known.None? ==> impact.Some? == Ignores(Occurrence(groupType, c), false)
    requires known.None? && impact.Some? ==> ValueOf(impact.value) == 0
    ensures IsNext(src, impacts, groupType, c, impact)
  {
  }

  /** Of the scoring system of an impact only the mark matters. */
  lemma OnlyMarkMatters(groupType: GroupType, action: Action, scoring: Option<ScoringSystem>)
    ensures PolicyBundle.NormalizeAction(groupType, action, scoring) ==
      PolicyBundle.NormalizeAction(groupType, action, if scoring == Some(IgnoreScore) then scoring else None)
  {
  }

  class ImpactGatherer {
    const src: Source
    /** The impacts that belong to the bundle; they may be changed in place. */
    ghost const shared: set<SharedImpact>
    var impacts: map<Mrn, SharedImpact>
    ghost var made: set<SharedImpact>

    ghost predicate Valid()
      reads this
    {
      && (forall m :: m in impacts ==> impacts[m] in shared + made)
      && (forall m :: m in src.queries && src.queries[m].Some? ==> src.queries[m].value in shared)
      && (forall p, g, c :: p in src.policies && g in src.policies[p] && c in g.checks && c.impact.Some? ==>
        c.impact.value in shared)
    }

    constructor (src: Source, ghost shared: set<SharedImpact>)
      requires forall m :: m in src.queries && src.queries[m].Some? ==> src.queries[m].value in shared
      requires forall p, g, c :: p in src.policies && g in src.policies[p] && c in g.checks && c.impact.Some? ==>
        c.impact.value in shared
      ensures Valid() && this.src == src && this.shared == shared && impacts == map[] && made == {}
    {
      this.src, this.shared, impacts, made := src, shared, map[], {};
    }

    /** Checks have the impacts that they hold according to held. */
    ghost predicate AllHold(held: map<Mrn, Held>)
      reads this
    {
      && made !! shared && impacts.Keys == held.Keys
      && (forall m {:trigger Holds(held, m)} :: m in impacts ==> Holds(held, m))
    }

    ghost predicate Holds(held: map<Mrn, Held>, m: Mrn)
      requires m in impacts
      reads this
    {
      match HeldIn(held, m)
      case Nothing => false
      case Made => impacts[m] in made && ValueOf(impacts[m]) == 0
      case Given(i) => impacts[m] == i && i in shared
    }

    /** Marked are the impacts of the bundle that are listed, and those made for checks; the action
        is set as well in those that were changed or made. */
    ghost predicate AreMarked(marked: set<SharedImpact>, changed: set<SharedImpact>)
      reads this, shared, made
    {
      && changed <= marked
      && (forall o :: o in shared ==> (o.scoring == IgnoreScore <==> o in marked))
      && (forall o :: o in shared && o in changed ==> o.action == Ignore)
      && (forall o :: o in made ==> o.scoring == IgnoreScore && o.action == Ignore)
    }

    ghost predicate Follows(st: Marks)
      reads this, shared, made
    {
      AllHold(st.held) && AreMarked(st.marked, st.changed)
    }

    /** The worst impact so far is the one that the check chooses. */
    lemma PicksChoice(held: map<Mrn, Held>, c: Check, impact: Option<SharedImpact>)
      requires AllHold(held) && Valid() && (c.impact.Some? ==> c.impact.value in shared)
      requires impact == WorstOf(GivenImpact(src, c), if c.mrn in impacts then Some(impacts[c.mrn]) else None)
      ensures IsHeld(Choose(src, HeldIn(held, c.mrn), c), impact)
    {
      assert c.mrn in impacts ==> Holds(held, c.mrn);
    }

    ghost predicate IsHeld(h: Held, impact: Option<SharedImpact>)
      reads this
    {
      match h
      case Nothing => impact.None?
      case Made => impact.Some? && impact.value in made && ValueOf(impact.value) == 0
      case Given(i) => impact == Some(i) && i in shared
    }

    /** Marks what the check holds, if the check is ignored. */
    method SnoozeHeld(impact: Option<SharedImpact>, groupType: GroupType, c: Check, ghost st: Marks, ghost h: Held)
      returns (r: Option<SharedImpact>)
      requires IsHeld(h, impact) && AreMarked(st.marked, st.changed) && made !! shared
      modifies (shared + made)`scoring, (shared + made)`action
      ensures impact.Some? ==> r == impact
      ensures impact.None? ==> r.Some? == Ignores(Occurrence(groupType, c), false)
      ensures impact.None? && r.Some? ==>
        fresh(r.value) && ValueOf(r.value) == 0 && r.value.scoring == IgnoreScore && r.value.action == Ignore
      ensures var ignored := Ignores(Occurrence(groupType, c), st.IsMarked(h));
        && AreMarked(st.Keep(c.mrn, h, ignored).marked, st.Keep(c.mrn, h, ignored).changed)
        && CanKeep(Kept(h, ignored), r)
      ensures Ignores(Occurrence(groupType, c), false) ==>
        r.Some? && r.value.scoring == IgnoreScore && r.value.action == Ignore
    {
      OnlyMarkMatters(groupType, c.action, if impact.Some? then Some(impact.value.scoring) else None);
      r := Snooze(impact, groupType, c.action);
    }

    /** The impact is the one held, or new. */
    ghost predicate CanKeep(h: Held, impact: Option<SharedImpact>)
      reads this
    {
      IsHeld(h, impact) || (h.Made? && impact.Some? && impact.value !in shared && ValueOf(impact.value) == 0)
    }

    /** Gives the impact to a check. */
    method Keep(m: Mrn, impact: Option<SharedImpact>, ghost held: map<Mrn, Held>, ghost h: Held)
      requires Valid() && AllHold(held) && CanKeep(h, impact)
      modifies this`impacts, this`made
      ensures Valid() && AllHold(With(held, m, h))
      ensures impacts == if impact.Some? then old(impacts)[m := impact.value] else old(impacts)
      ensures made == old(made) + if h.Made? then {impact.value} else {}
    {
      if impact.None? {
        return;
      }
      assert forall o :: o in impacts ==> Holds(held, o);
      label before:
      if h.Made? {
        made := made + {impact.value};
      }
      impacts := impacts[m := impact.value];
      forall o | o in impacts ensures Holds(held[m := h], o) {
        if o != m {
          assert old@before(Holds(held, o));
        }
      }
    }

    /** The worst of the impact at this occurrence, that of the query, and the one found so far. */
    method Worst(c: Check, ghost held: map<Mrn, Held>) returns (known: Option<SharedImpact>)
      requires Valid() && AllHold(held) && (c.impact.Some? ==> c.impact.value in shared)
      ensures known == WorstOf(GivenImpact(src, c), if c.mrn in impacts then Some(impacts[c.mrn]) else None)
      ensures IsHeld(Choose(src, HeldIn(held, c.mrn), c), known)
    {
      known := WorstOf(c.impact, QueryImpact(src, c.mrn));
      known := WorstOf(known, if c.mrn in impacts then Some(impacts[c.mrn]) else None);
      PicksChoice(held, c, known);
    }

    /** Gives the worst impact to the check, marked if the check is ignored. */
    method Settle(known: Option<SharedImpact>, groupType: GroupType, c: Check, ghost st: Marks, ghost h: Held)
      returns (impact: Option<SharedImpact>)
      requires Valid() && Follows(st) && IsHeld(h, known)
      modifies this`impacts, this`made, (shared + made)`scoring, (shared + made)`action
      ensures Valid() && fresh(made - old(made)) && old(made) <= made
      ensures Follows(st.Keep(c.mrn, h, Ignores(Occurrence(groupType, c), st.IsMarked(h))))
      ensures impacts == if impact.Some? then old(impacts)[c.mrn := impact.value] else old(impacts)
      ensures known.Some? ==> impact == known
      ensures known.None? ==> impact.Some? == Ignores(Occurrence(groupType, c), false)
      ensures known.None? && impact.Some? ==> ValueOf(impact.value) == 0
      ensures Ignores(Occurrence(groupType, c), false) ==>
        impact.Some? && impact.value.scoring == IgnoreScore && impact.value.action == Ignore
    {
      impact := SnoozeHeld(known, groupType, c, st, h);
      Keep(c.mrn, impact, st.held, Kept(h, Ignores(Occurrence(groupType, c), st.IsMarked(h))));
    }

    /** Updates the impact of a check with one of its occurrences; that of an ignored check is
        changed in place, whoever else uses it. */
    method Record(groupType: GroupType, c: Check, ghost st: Marks) returns (impact: Option<SharedImpact>)
      requires Valid() && Follows(st) && (c.impact.Some? ==> c.impact.value in shared)
      modifies this`impacts, this`made, (shared + made)`scoring, (shared + made)`action
      ensures Valid() && fresh(made - old(made)) && old(made) <= made
      ensures Follows(Mark(src, st, Occurrence(groupType, c)))
      ensures IsNext(src, old(impacts), groupType, c, impact)
      ensures impacts == if impact.Some? then old(impacts)[c.mrn := impact.value] else old(impacts)
      ensures Ignores(Occurrence(groupType, c), false) ==>
        impact.Some? && impact.value.scoring == IgnoreScore && impact.value.action == Ignore
    {
      var known := Worst(c, st.held);
      ghost var h := Choose(src, st.Of(c.mrn), c);
      impact := Settle(known, groupType, c, st, h);
      SnoozedIsNext(src, old(impacts), groupType, c, known, impact);
    }

    method AddCheck(groupType: GroupType, c: Check, ghost facts: iset<Fact>, ghost st: Marks)
      requires Valid() && Gathered(impacts, facts) && Follows(st) && (c.impact.Some? ==> c.impact.value in shared)
      modifies this`impacts, this`made, (shared + made)`scoring, (shared + made)`action
      ensures Valid() && fresh(made - old(made)) && old(made) <= made
      ensures Gathered(impacts, facts + (iset f | f in CheckFacts(src, groupType, c)))
      ensures Follows(Mark(src, st, Occurrence(groupType, c)))
      ensures PolicyBundle.NormalizeAction(groupType, c.action, None) == Ignore ==>
        c.mrn in impacts && impacts[c.mrn].scoring == IgnoreScore && impacts[c.mrn].action == Ignore
    {
      ghost var before := impacts;
      var impact := Record(groupType, c, st);
      OneMoreOccurrence(src, before, facts, groupType, c, impact, impacts);
    }

    method AddChecks(groupType: GroupType, checks: seq<Check>, ghost facts: iset<Fact>, ghost st: Marks)
      requires Valid() && Gathered(impacts, facts) && Follows(st)
      requires forall c :: c in checks && c.impact.Some? ==> c.impact.value in shared
      modifies this`impacts, this`made, (shared + made)`scoring, (shared + made)`action
      ensures Valid() && fresh(made - old(made)) && old(made) <= made
      ensures Gathered(impacts, facts + FactsOfChecks(src, groupType, checks))
      ensures Follows(MarkAll(src, st, Listing(groupType, checks)))
    {
      assert facts + FactsOfChecks(src, groupType, []) == facts;
      for i := 0 to |checks|
        invariant Valid() && fresh(made - old(made)) && old(made) <= made
        invariant Gathered(impacts, facts + FactsOfChecks(src, groupType, checks[..i]))
        invariant Follows(MarkAll(src, st, Listing(groupType, checks[..i])))
      {
        OneMoreCheck(src, facts, groupType, checks, i);
        ListingOneMore(src, st, groupType, checks, i);
        ghost var so := facts + FactsOfChecks(src, groupType, checks[..i]);
        AddCheck(groupType, checks[i], so, MarkAll(src, st, Listing(groupType, checks[..i])));
      }
      assert checks[..|checks|] == checks;
    }

    /** Gathers the impacts of all checks of a policy and of the policies it refers to. */
    method GatherFromPolicy(p: Mrn, ghost facts: iset<Fact>, ghost st: Marks, ghost rank: Mrn -> nat)
      requires Valid() && Gathered(impacts, facts) && Follows(st) && WellFormed(src, rank) && p in src.policies
      modifies this`impacts, this`made, (shared + made)`scoring, (shared + made)`action
      ensures Valid() && fresh(made - old(made)) && old(made) <= made
      ensures Gathered(impacts, facts + AllFacts(src, p))
      ensures Follows(MarkAll(src, st, OccurrencesIn(src, rank, p)))
      decreases rank(p), 2
    {
      var groups := src.policies[p];
      FactsUnfold(src, p);
      assert facts + FactsOfGroups(src, []) == facts;
      for i := 0 to |groups|
        invariant Valid() && fresh(made - old(made)) && old(made) <= made
        invariant Gathered(impacts, facts + FactsOfGroups(src, groups[..i]))
        invariant Follows(MarkAll(src, st, OccurrencesInGroups(src, rank, p, groups[..i])))
      {
        OneMoreGroup(src, facts, groups, i);
        GroupMarksOneMore(src, st, rank, p, groups, i);
        ghost var so := facts + FactsOfGroups(src, groups[..i]);
        GatherFromGroup(groups[i], p, so, MarkAll(src, st, OccurrencesInGroups(src, rank, p, groups[..i])), rank);
      }
      assert groups[..|groups|] == groups;
    }

    method GatherFromGroup(g: Group, ghost p: Mrn, ghost facts: iset<Fact>, ghost st: Marks, ghost rank: Mrn -> nat)
      requires Valid() && Gathered(impacts, facts) && Follows(st)
      requires WellFormed(src, rank) && p in src.policies && g in src.policies[p]
      modifies this`impacts, this`made, (shared + made)`scoring, (shared + made)`action
      ensures Valid() && fresh(made - old(made)) && old(made) <= made
      ensures Gathered(impacts, facts + FactsOfGroup(src, g))
      ensures Follows(MarkAll(src, st, OccurrencesInGroup(src, rank, p, g)))
      decreases rank(p), 1
    {
      GroupFacts(src, g);
      if !Matches(src, g) {
        assert facts + iset{} == facts;
        return;
      }
      ghost var below := OccurrencesInAll(src, rank, p, g.policies);
      MarkBoth(src, st, below, Listing(g.groupType, g.checks));
      GatherFromAll(g.policies, p, facts, st, rank);
      AddChecks(g.groupType, g.checks, facts + FactsOfAny(src, g.policies), MarkAll(src, st, below));
      assert facts + FactsOfAny(src, g.policies) + FactsOfChecks(src, g.groupType, g.checks) ==
        facts + FactsOfGroup(src, g);
    }

    method GatherFromAll(list: seq<Mrn>, ghost p: Mrn, ghost facts: iset<Fact>, ghost st: Marks, ghost rank: Mrn -> nat)
      requires Valid() && Gathered(impacts, facts) && Follows(st) && WellFormed(src, rank)
      requires forall c :: c in list ==> c in src.policies && rank(c) < rank(p)
      modifies this`impacts, this`made, (shared + made)`scoring, (shared + made)`action
      ensures Valid() && fresh(made - old(made)) && old(made) <= made
      ensures Gathered(impacts, facts + FactsOfAny(src, list))
      ensures Follows(MarkAll(src, st, OccurrencesInAll(src, rank, p, list)))
      decreases rank(p), 0
    {
      assert facts + FactsOfAny(src, []) == facts;
      for i := 0 to |list|
        invariant Valid() && fresh(made - old(made)) && old(made) <= made
        invariant Gathered(impacts, facts + FactsOfAny(src, list[..i]))
        invariant Follows(MarkAll(src, st, OccurrencesInAll(src, rank, p, list[..i])))
      {
        OneMorePolicy(src, facts, list, i);
        PolicyMarksOneMore(src, st, rank, p, list, i);
        ghost var so := facts + FactsOfAny(src, list[..i]);
        GatherFromPolicy(list[i], so, MarkAll(src, st, OccurrencesInAll(src, rank, p, list[..i])), rank);
      }
      assert list[..|list|] == list;
    }

    /** The whole pass, starting from nothing. */
    method Gather(p: Mrn, ghost rank: Mrn -> nat)
      requires Valid() && impacts == map[] && made == {} && WellFormed(src, rank) && p in src.policies
      modifies this`impacts, this`made, (shared + made)`scoring, (shared + made)`action
      ensures Valid() && Gathered(impacts, AllFacts(src, p))
      ensures var st := MarkAll(src, Marks(map[], old(MarkedNow()), {}), OccurrencesIn(src, rank, p));
        && Follows(st)
        && forall m :: m in impacts ==> (impacts[m].scoring == IgnoreScore <==> st.IsMarked(st.Of(m)))
    {
      NothingGathered();
      ghost var st := Marks(map[], MarkedNow(), {});
      GatherFromPolicy(p, iset{}, st, rank);
      assert iset{} + AllFacts(src, p) == AllFacts(src, p);
      forall m | m in impacts
        ensures var end := MarkAll(src, st, OccurrencesIn(src, rank, p));
          impacts[m].scoring == IgnoreScore <==> end.IsMarked(end.Of(m))
      {
        assert Holds(MarkAll(src, st, OccurrencesIn(src, rank, p)).held, m);
      }
    }

    /** The impacts of the bundle that are marked as ignored. */
    ghost function MarkedNow(): set<SharedImpact>
      reads shared
    {
      set o | o in shared && o.scoring == IgnoreScore
    }
  }

  lemma ListingOneMore(src: Source, st: Marks, groupType: GroupType, checks: seq<Check>, i: nat)
    requires i < |checks|
    ensures MarkAll(src, st, Listing(groupType, checks[..i + 1])) ==
      Mark(src, MarkAll(src, st, Listing(groupType, checks[..i])), Occurrence(groupType, checks[i]))
  {
    assert checks[..i + 1][..i] == checks[..i];
    var front, o := Listing(groupType, checks[..i]), Occurrence(groupType, checks[i]);
    assert (front + [o])[..|front|] == front;
  }

  lemma GroupMarksOneMore(src: Source, st: Marks, rank: Mrn -> nat, p: Mrn, groups: seq<Group>, i: nat)
    requires WellFormed(src, rank) && p in src.policies && (forall g :: g in groups ==> g in src.policies[p])
    requires i < |groups|
    ensures MarkAll(src, st, OccurrencesInGroups(src, rank, p, groups[..i + 1])) ==
      MarkAll(src, MarkAll(src, st, OccurrencesInGroups(src, rank, p, groups[..i])),
        OccurrencesInGroup(src, rank, p, groups[i]))
  {
    assert groups[..i + 1][..i] == groups[..i];
    MarkBoth(src, st, OccurrencesInGroups(src, rank, p, groups[..i]), OccurrencesInGroup(src, rank, p, groups[i]));
  }

  lemma PolicyMarksOneMore(src: Source, st: Marks, rank: Mrn -> nat, p: Mrn, list: seq<Mrn>, i: nat)
    requires WellFormed(src, rank) && (forall c :: c in list ==> c in src.policies && rank(c) < rank(p))
    requires i < |list|
    ensures MarkAll(src, st, OccurrencesInAll(src, rank, p, list[..i + 1])) ==
      MarkAll(src, MarkAll(src, st, OccurrencesInAll(src, rank, p, list[..i])), OccurrencesIn(src, rank, list[i]))
  {
    assert list[..i + 1][..i] == list[..i];
    MarkBoth(src, st, OccurrencesInAll(src, rank, p, list[..i]), OccurrencesIn(src, rank, list[i]));
  }

  lemma NothingGathered()
    ensures Gathered(map[], iset{})
  {
  }

  /** With values that are not negative, a check that has any impact ends up with the highest. */
  lemma ImpactIsHighest(src: Source, p: Mrn, impacts: map<Mrn, SharedImpact>, m: Mrn, x: int)
    requires Gathered(impacts, AllFacts(src, p)) && Occurs(src, p, Value(m, x))
    requires forall y :: Occurs(src, p, Value(m, y)) ==> y >= 0
    ensures m in impacts && x <= ValueOf(impacts[m]) && Occurs(src, p, Value(m, ValueOf(impacts[m])))
  {
    assert IsMaximum(impacts, AllFacts(src, p), m);
    assert Value(m, x) in AllFacts(src, p);
  }

  /** A check has an impact exactly if one is given somewhere, or it is ignored somewhere. */
  lemma ImpactIffGivenOrIgnored(src: Source, p: Mrn, impacts: map<Mrn, SharedImpact>, m: Mrn)
    requires Gathered(impacts, AllFacts(src, p))
    ensures m in impacts <==> Occurs(src, p, Snoozed(m)) || exists x :: Occurs(src, p, Value(m, x))
  {
    assert IsMaximum(impacts, AllFacts(src, p), m);
    if x :| Value(m, x) in AllFacts(src, p) {
      assert Occurs(src, p, Value(m, x));
    }
    if x :| Occurs(src, p, Value(m, x)) {
      assert Value(m, x) in AllFacts(src, p);
    }
  }
}
