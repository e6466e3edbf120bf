/** From the impacts that groups and queries give to a check, to what a policy is told about it. */
module GatheredSeverity {
  import opened PolicyTypes
  import opened Digraph
  import opened JobGraph
  import opened VariantSelection
  import opened PolicyRules
  import opened PlainImpacts
  import opened ImpactOverrides
  import PolicyBundle

  /** The impact has this value; one without any counts as 0. */
  predicate HasValue(i: SharedImpact, v: int) {
    if i.value.Some? then i.value.value as int == v else v == 0
  }

  /** The listing gives this value to the check, on its own or through the query. */
  predicate GivesValue(src: Source, check: Check, v: int) {
    || (check.impact.Some? && HasValue(check.impact.value, v))
    || (check.mrn in src.queries && src.queries[check.mrn].Some? && HasValue(src.queries[check.mrn].value, v))
  }

  predicate GroupGives(src: Source, g: Group, x: Mrn, v: int) {
    ImpactOverrides.Matches(src, g) && exists check :: check in g.checks && check.mrn == x && GivesValue(src, check, v)
  }

  /** A matching group of a policy that is reached gives this value to the check. */
  ghost predicate IsGivenTo(src: Source, p: Mrn, x: Mrn, v: int) {
    exists q, g :: q in src.policies && Reaches(PolicyEdges(src), p, q) && g in src.policies[q]
      && GroupGives(src, g, x, v)
  }

  lemma GivenIsFact(src: Source, groupType: GroupType, check: Check, x: Mrn, v: int)
    ensures Value(x, v) in CheckFacts(src, groupType, check) <==> check.mrn == x && GivesValue(src, check, v)
  {
  }

  lemma GroupGivesFact(src: Source, g: Group, x: Mrn, v: int)
    ensures GroupGives(src, g, x, v) <==> GroupHas(src, g, Value(x, v))
  {
    forall check | check in g.checks
      ensures Value(x, v) in CheckFacts(src, g.groupType, check) <==> check.mrn == x && GivesValue(src, check, v)
    {
      GivenIsFact(src, g.groupType, check, x, v);
    }
  }

  lemma GivenIff(src: Source, p: Mrn, x: Mrn, v: int)
    ensures IsGivenTo(src, p, x, v) <==> Value(x, v) in AllFacts(src, p)
  {
    forall q, g | q in src.policies && g in src.policies[q]
      ensures GroupGives(src, g, x, v) <==> GroupHas(src, g, Value(x, v))
    {
      GroupGivesFact(src, g, x, v);
    }
  }

  /** The impact overrides of queries are those gathered. */
  ghost predicate AreGathered(c: Config, impacts: map<Mrn, SharedImpact>) {
    forall m :: (QueryMrn(m) in c.impacts <==> m in impacts)
      && (m in impacts ==> c.impacts[QueryMrn(m)].value == impacts[m].value)
  }

  /** With gathered overrides, what a policy is told by a check that it lists, and that is not to be
      ignored, is the highest value given to the check anywhere; if it is told none, then no value
      above 0 is given. */
  lemma HighestReachesPolicy(
      src: Source, root: Mrn, impacts: map<Mrn, SharedImpact>, c: Config, ranks: PolicyBundle.Ranks,
      p: Mrn, x: Mrn, e: EdgeImpact)
    requires PolicyRules.WellFormed(c, ranks) && c.bundleMrn in c.bundle.policies
    requires Gathered(impacts, AllFacts(src, root)) && AreGathered(c, impacts)
    requires e in WholeGraph(c, ranks).From(PolicyMrn(p)) && e.edge == QueryMrn(x)
    requires OffersCheckFirst(c, p, x) && !IsToIgnore(c, QueryMrn(x))
    ensures e.impact.Some? ==>
      && e.impact.value.value.Some?
      && (forall v :: IsGivenTo(src, root, x, v) ==> v <= e.impact.value.value.value as int)
      && (IsGivenTo(src, root, x, e.impact.value.value.value as int) || e.impact.value.value.value == 0)
    ensures e.impact.None? ==> forall v :: IsGivenTo(src, root, x, v) ==> v <= 0
  {
    CheckTellsValue(c, ranks, p, x, e);
    assert IsMaximum(impacts, AllFacts(src, root), x);
    forall v ensures IsGivenTo(src, root, x, v) <==> Value(x, v) in AllFacts(src, root) {
      GivenIff(src, root, x, v);
    }
  }
}
