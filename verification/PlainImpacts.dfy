/** What the edges of the graph say, in terms of nothing but the records of the bundle and the
    overrides. */
module PlainImpacts {
  import opened Wrappers
  import opened PolicyTypes
  import opened PolicyWindow
  import opened PolicyBundle
  import opened JobGraph
  import opened VariantSelection
  import opened GraphRules
  import opened PolicyRules
  import opened GraphContents
  import opened PolicyImpacts
  import opened ControlImpacts
  import opened GraphImpacts
  import opened PolicyCoverage
  import opened PlainTerms

  /** Ignored in scoring, and nothing else. */
  predicate SaysIgnored(impact: Option<Impact>) {
    && impact.Some? && impact.value.scoring == IgnoreScore && impact.value.action == Ignore
    && impact.value.value.None? && impact.value.weight == 0
  }

  predicate IsToIgnore(c: Config, id: Id) {
    id in c.actions && c.actions[id] == Ignore
  }

  /** The impact is the override of this entry, if there is one. */
  predicate IsOverrideOf(c: Config, id: Id, impact: Option<Impact>) {
    if id in c.impacts then impact == Some(c.impacts[id]) else impact == None
  }

  /** Only the value of the override, if it has one. */
  predicate IsValueOf(c: Config, id: Id, impact: Option<Impact>) {
    && (impact.Some? <==> id in c.impacts && c.impacts[id].value.Some?)
    && (impact.Some? ==>
          && impact.value.value == c.impacts[id].value && impact.value.scoring == ScoringUnspecified
          && impact.value.weight == 0 && impact.value.action == Unspecified)
  }

  // ----- checks and data queries -----

  /** The group offers the query, as a check or as a data query. */
  predicate OffersAs(c: Config, g: Group, x: Mrn, check: bool) {
    OffersIn(c, g, x) && QueryRef(x, Unspecified) in (if check then g.checks else g.queries)
  }

  /** A group of the policy offers the query as a check, and no group before it as a data query. */
  predicate OffersCheckFirst(c: Config, p: Mrn, x: Mrn) {
    && p in c.bundle.policies
    && exists i :: 0 <= i < |c.bundle.policies[p].groups| && OffersAs(c, c.bundle.policies[p].groups[i], x, true)
         && forall j :: 0 <= j < i ==> !OffersAs(c, c.bundle.policies[p].groups[j], x, false)
  }

  lemma OffersAsIff(c: Config, g: Group, x: Mrn, check: bool)
    ensures ListedIn(c, g, x, check) <==> OffersAs(c, g, x, check)
  {
    MatchesIff(c, g);
    if ListedIn(c, g, x, check) {
      var ref :| ref in ListOf(g, check) && ref.mrn == x && !IsOverride(ref.action, g.groupType);
      assert ref == QueryRef(x, Unspecified);
    }
    if OffersAs(c, g, x, check) {
      var ref := QueryRef(x, Unspecified);
      assert ref in ListOf(g, check) && !IsOverride(ref.action, g.groupType);
    }
  }

  lemma FirstIff(c: Config, p: Mrn, x: Mrn)
    requires p in c.bundle.policies
    ensures CheckIsFirst(c, c.bundle.policies[p].groups, x) <==> OffersCheckFirst(c, p, x)
  {
    forall g, check ensures ListedIn(c, g, x, check) <==> OffersAs(c, g, x, check) {
      OffersAsIff(c, g, x, check);
    }
  }

  /** A check that is not to be ignored tells a policy exactly the value of its impact, and nothing
      without one; a check that is to be ignored, and a query that the policy lists as a data query
      first, is ignored in scoring. */
  lemma CheckTellsValue(c: Config, ranks: Ranks, p: Mrn, x: Mrn, e: EdgeImpact)
    requires WellFormed(c, ranks) && c.bundleMrn in c.bundle.policies
    requires e in WholeGraph(c, ranks).From(PolicyMrn(p)) && e.edge == QueryMrn(x)
    ensures if OffersCheckFirst(c, p, x) && !IsToIgnore(c, QueryMrn(x)) then IsValueOf(c, QueryMrn(x), e.impact)
      else SaysIgnored(e.impact)
  {
    SeverityReachesPolicy(c, ranks, x, p, e);
    FirstIff(c, p, x);
  }

  /** The code or variant that feeds a query carries the override of the query, unless the query is
      stopped, which disables scoring. */
  lemma QueryCarriesOverride(c: Config, ranks: Ranks, q: Mrn, e: EdgeImpact)
    requires WellFormed(c, ranks) && c.bundleMrn in c.bundle.policies && e in WholeGraph(c, ranks).From(QueryMrn(q))
    ensures if IsStopped(c, QueryMrn(q)) then
        e.impact.Some? && e.impact.value.scoring == ScoringDisabled && e.impact.value.value.None?
        && e.impact.value.weight == 0 && e.impact.value.action == Unspecified
      else IsOverrideOf(c, QueryMrn(q), e.impact)
  {
    ImpactIsExact(c, ranks, QueryMrn(q), e);
  }

  // ----- risk factors, policies and frameworks -----

  /** Risk factors, and the code that reports to them, are ignored in scoring. */
  lemma RisksAreIgnored(c: Config, ranks: Ranks, b: Id, e: EdgeImpact)
    requires WellFormed(c, ranks) && c.bundleMrn in c.bundle.policies && e in WholeGraph(c, ranks).From(b)
    requires b.RiskMrn? || e.edge.RiskMrn?
    ensures SaysIgnored(e.impact)
  {
    assert SourcesAreSound(c, ranks.query, WholeGraph(c, ranks), b);
    assert EdgeIsSound(c, ranks.query, e.edge, b, e.impact);
  }

  /** What a policy on a chain, or another one, is to be told by a policy. */
  predicate CarriesReference(c: Config, p: Mrn, q: Mrn, onChain: bool, impact: Option<Impact>) {
    if onChain && RefersTo(c, p, q) && Runs(c, q) && HasContents(c, q) && !IsToIgnore(c, PolicyMrn(q)) then
      IsOverrideOf(c, PolicyMrn(q), impact)
    else if onChain then SaysIgnored(impact)
    else impact == None
  }

  lemma ReferenceIff(c: Config, ranks: Ranks, p: Mrn, q: Mrn)
    requires WellFormed(c, ranks)
    ensures CarriesReference(c, p, q, IsOnChain(c, p), OwnerImpact(c, ranks, PolicyMrn(q), p, PolicyMrn(p)))
  {
    ActiveIff(c, ranks, p);
    RefersIff(c, ranks, p, q);
    CountsIff(c, ranks, q);
  }

  /** A policy that another one on a chain refers to carries its override there, unless it is to be
      ignored; a framework that a policy on a chain depends on is ignored otherwise. */
  lemma ReferenceCarriesOverride(c: Config, ranks: Ranks, p: Mrn, q: Mrn, e: EdgeImpact)
    requires WellFormed(c, ranks) && c.bundleMrn in c.bundle.policies
    requires e in WholeGraph(c, ranks).From(PolicyMrn(p)) && e.edge == PolicyMrn(q)
    ensures CarriesReference(c, p, q, IsOnChain(c, p), e.impact)
  {
    OwnerImpactIsExact(c, ranks, p, PolicyMrn(p), e);
    ReferenceIff(c, ranks, p, q);
  }

  lemma FrameworkIff(c: Config, ranks: Ranks, f: Mrn, d: Mrn)
    requires WellFormed(c, ranks)
    ensures var impact := OwnerImpact(c, ranks, FrameworkMrn(d), f, OwnerId(c, f));
      if IsOnChain(c, f) then SaysIgnored(impact) else impact == None
  {
    ActiveIff(c, ranks, f);
  }

  /** Frameworks say nothing to the frameworks that depend on them, except that they are ignored where
      a policy on a chain has the MRN of that. */
  lemma FrameworksSayNothing(c: Config, ranks: Ranks, f: Mrn, e: EdgeImpact)
    requires WellFormed(c, ranks) && c.bundleMrn in c.bundle.policies
    requires e in WholeGraph(c, ranks).From(OwnerId(c, f)) && e.edge.FrameworkMrn?
    ensures if IsOnChain(c, f) then SaysIgnored(e.impact) else e.impact == None
  {
    OwnerImpactIsExact(c, ranks, f, OwnerId(c, f), e);
    FrameworkIff(c, ranks, f, e.edge.mrn);
  }

  // ----- controls -----

  /** A control or policy says only whether it is to be ignored, to controls as well as frameworks. */
  lemma ControlsSayIgnored(c: Config, ranks: Ranks, b: Id, e: EdgeImpact)
    requires WellFormed(c, ranks) && c.bundleMrn in c.bundle.policies && e in WholeGraph(c, ranks).From(b)
    requires e.edge.ControlMrn? || (b.ControlMrn? && e.edge.PolicyMrn?)
    ensures if IsToIgnore(c, e.edge) then SaysIgnored(e.impact) else e.impact == None
  {
    assert SourcesAreSound(c, ranks.query, WholeGraph(c, ranks), b);
    assert EdgeIsSound(c, ranks.query, e.edge, b, e.impact);
  }

  /** The first of these listings with this code is this one: the query is in use and selects it. */
  ghost predicate DecidesFor(c: Config, ranks: Ranks, log: seq<Listing>, code: CodeId, n: nat)
    requires WellFormed(c, ranks)
  {
    && n < |log| && IsCodeOf(c, ranks.query, log[n].query, code)
    && forall j :: 0 <= j < n ==> !IsCodeOf(c, ranks.query, log[j].query, code)
  }

  /** Code tells a control that it is ignored exactly if the first of its queries with this code is a
      data query or to be ignored, and otherwise nothing. */
  lemma CodeSaysIgnored(c: Config, ranks: Ranks, code: CodeId, k: Mrn, e: EdgeImpact) returns (n: nat)
    requires WellFormed(c, ranks) && c.bundleMrn in c.bundle.policies
    requires e in WholeGraph(c, ranks).From(ControlMrn(k)) && e.edge == CodeNode(code)
    ensures var log := ControlLog(c, ranks, k);
      && DecidesFor(c, ranks, log, code, n)
      && if log[n].isData || IsToIgnore(c, QueryMrn(log[n].query)) then SaysIgnored(e.impact) else e.impact == None
  {
    CodeImpactIsExact(c, ranks, code, k, e.impact);
    n := FirstDecides(c, ranks, ControlLog(c, ranks, k), code, e.impact);
  }

  lemma FirstDecides(c: Config, ranks: Ranks, log: seq<Listing>, code: CodeId, impact: Option<Impact>) returns (n: nat)
    requires WellFormed(c, ranks) && FirstSays(c, KnownAtFirst(c, ranks.query).code, log, code) == Some(impact)
    ensures DecidesFor(c, ranks, log, code, n)
    ensures if log[n].isData || IsToIgnore(c, QueryMrn(log[n].query)) then SaysIgnored(impact) else impact == None
  {
    var codes := KnownAtFirst(c, ranks.query).code;
    FirstSaysIff(c, codes, log, code, impact);
    n :| 0 <= n < |log| && (log[n].query, code) in codes && impact == ListingImpact(c, log[n])
      && forall j :: 0 <= j < n ==> (log[j].query, code) !in codes;
    forall j | 0 <= j < |log| ensures (log[j].query, code) in codes <==> IsCodeOf(c, ranks.query, log[j].query, code) {
    }
  }
}
