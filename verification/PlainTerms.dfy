/** What the graph of a bundle says, in terms of nothing but the records of the bundle, the asset,
    the clock and the overrides. */
module PlainTerms {
  import opened PolicyTypes
  import opened PolicyWindow
  import opened PolicyBundle
  import opened JobGraph
  import opened Digraph
  import opened VariantSelection
  import opened GraphRules
  import opened GraphParts
  import opened PolicyRules
  import opened PolicyParts
  import opened GraphSources
  import opened GraphContents
  import opened PolicyCoverage

  // ----- groups and policies -----

  /** The group is not rejected, has not run out, and is meant for the asset. */
  predicate Applies(c: Config, g: Group) {
    var a := g.availability;
    && a.reviewStatus != Rejected
    && (a.valid.Some? && a.valid.value.until.Some? ==> c.target.now <= 1_000_000_000 * a.valid.value.until.value)
    && (a.endDate != 0 ==> c.target.now <= 1_000_000_000 * a.endDate)
    && IsSupported(c, a.filters)
  }

  lemma MatchesIff(c: Config, g: Group)
    ensures Matches(c.target, g) <==> Applies(c, g)
  {
    AcceptsIff(c, g.availability.filters);
  }

  /** The policy is neither deactivated nor out of scope, and meant for the asset. */
  predicate Runs(c: Config, p: Mrn) {
    p in c.bundle.policies && !IsStopped(c, PolicyMrn(p)) && IsSupported(c, c.bundle.policies[p].computedFilters)
  }

  lemma RunsIff(c: Config, ranks: Ranks, p: Mrn)
    requires WellFormed(c, ranks)
    ensures p in c.bundle.policies && RunsPolicy(c, c.bundle.policies[p]) <==> Runs(c, p)
  {
    if p in c.bundle.policies {
      AcceptsIff(c, c.bundle.policies[p].computedFilters);
    }
  }

  /** A group of p that applies refers to q. */
  predicate RefersTo(c: Config, p: Mrn, q: Mrn) {
    p in c.bundle.policies && exists g :: g in c.bundle.policies[p].groups && Applies(c, g) && q in g.policies
  }

  lemma RefersIff(c: Config, ranks: Ranks, p: Mrn, q: Mrn)
    requires WellFormed(c, ranks)
    ensures Edge(RunningPolicies(c), p, q) <==> Runs(c, p) && RefersTo(c, p, q)
  {
    RunsIff(c, ranks, p);
    if p in c.bundle.policies {
      forall g | g in c.bundle.policies[p].groups ensures Matches(c.target, g) <==> Applies(c, g) {
        MatchesIff(c, g);
      }
      if RefersTo(c, p, q) {
        var g :| g in c.bundle.policies[p].groups && Applies(c, g) && q in g.policies;
        assert Matches(c.target, g) && q in c.bundle.policies;
      }
    }
  }

  /** A chain of policies that run, from that of the bundle down, each referring to the next one. */
  predicate IsChain(c: Config, chain: seq<Mrn>) {
    && chain != [] && chain[0] == c.bundleMrn
    && (forall i :: 0 <= i < |chain| ==> Runs(c, chain[i]))
    && (forall i :: 0 <= i < |chain| - 1 ==> RefersTo(c, chain[i], chain[i + 1]))
  }

  ghost predicate IsOnChain(c: Config, p: Mrn) {
    exists chain :: IsChain(c, chain) && chain[|chain| - 1] == p
  }

  lemma ActiveIff(c: Config, ranks: Ranks, p: Mrn)
    requires WellFormed(c, ranks)
    ensures IsActive(c, p) <==> IsOnChain(c, p)
  {
    var g := RunningPolicies(c);
    forall a, b ensures Edge(g, a, b) <==> Runs(c, a) && RefersTo(c, a, b) {
      RefersIff(c, ranks, a, b);
    }
    RunsIff(c, ranks, p);
    if IsActive(c, p) {
      var walk :| WalkFromTo(g, walk, c.bundleMrn, p);
      forall i | 0 <= i < |walk| ensures Runs(c, walk[i]) {
        assert i < |walk| - 1 ==> Edge(g, walk[i], walk[i + 1]);
      }
      assert IsChain(c, walk);
    }
    if IsOnChain(c, p) {
      var chain :| IsChain(c, chain) && chain[|chain| - 1] == p;
      assert WalkFromTo(g, chain, c.bundleMrn, p);
    }
  }

  // ----- queries -----

  /** A group that applies lists the query, as a check or as a data query, with no action of its own,
      and is not one that disables, ignores or takes out of scope what it lists. */
  predicate Offers(c: Config, p: Mrn, x: Mrn) {
    && p in c.bundle.policies
    && exists g :: g in c.bundle.policies[p].groups && OffersIn(c, g, x)
  }

  predicate OffersIn(c: Config, g: Group, x: Mrn) {
    && Applies(c, g) && g.groupType != Disable && g.groupType != OutOfScopeGroup && g.groupType != Ignored
    && (QueryRef(x, Unspecified) in g.checks || QueryRef(x, Unspecified) in g.queries)
  }

  lemma OffersIff(c: Config, p: Mrn, x: Mrn)
    ensures (exists check :: ListsAs(c, p, x, check)) <==> Offers(c, p, x)
  {
    if check :| ListsAs(c, p, x, check) {
      var g, ref :| g in c.bundle.policies[p].groups && Matches(c.target, g) && ref in ListOf(g, check)
        && ref.mrn == x && !IsOverride(ref.action, g.groupType);
      MatchesIff(c, g);
      assert ref == QueryRef(x, Unspecified);
      assert OffersIn(c, g, x);
    }
    if Offers(c, p, x) {
      var g :| g in c.bundle.policies[p].groups && OffersIn(c, g, x);
      MatchesIff(c, g);
      var ref := QueryRef(x, Unspecified);
      var check := ref in g.checks;
      assert ref in ListOf(g, check) && !IsOverride(ref.action, g.groupType);
      assert ListsAs(c, p, x, check);
    }
  }

  /** Some choice of variants leads from the query to one that can be run on the asset, or answered
      as disabled. */
  ghost predicate HasCode(c: Config, x: Mrn) {
    exists path :: Follow(c, x, path).Some?
  }

  lemma HasCodeIff(c: Config, ranks: Ranks, x: Mrn)
    requires WellFormed(c, ranks)
    ensures Select(c, ranks.query, x).Some? <==> HasCode(c, x)
  {
    var path := SelectsLeastPath(c, ranks.query, x);
  }

  /** A query reports to a policy exactly if a chain of policies that run leads to the policy, one of
      its groups offers the query, and there is code to run for it. */
  lemma QueryReportsPlainly(c: Config, ranks: Ranks, x: Mrn, p: Mrn)
    requires WellFormed(c, ranks) && c.bundleMrn in c.bundle.policies
    ensures HasEdge(WholeGraph(c, ranks), QueryMrn(x), PolicyMrn(p)) <==>
      IsOnChain(c, p) && Offers(c, p, x) && HasCode(c, x)
  {
    QueryReportsIff(c, ranks, x, p);
    ActiveIff(c, ranks, p);
    OffersIff(c, p, x);
    HasCodeIff(c, ranks, x);
  }

  // ----- risk factors -----

  /** The risk factor is to be run on the asset, none of its checks and queries has variants, and at
      least one of them is meant for the asset. */
  predicate RiskCounts(c: Config, r: RiskFactor) {
    && !IsStopped(c, RiskMrn(r.mrn)) && IsSupported(c, r.filters)
    && (forall q :: q in r.checks + r.queries ==> q.variants == [])
    && exists q :: q in r.checks + r.queries && IsSupported(c, q.filters)
  }

  lemma RiskCountsIff(c: Config, r: RiskFactor)
    ensures AddsRisk(c, r) <==> RiskCounts(c, r)
  {
    var all := r.checks + r.queries;
    AcceptsIff(c, r.filters);
    assert NoneVaries(all) <==> NoneVaries(r.checks) && NoneVaries(r.queries);
    if AddsRisk(c, r) {
      var code :| Takes(c, all, code);
      var i :| 0 <= i < |all| && NoneVaries(all[..i + 1]) && c.Accepts(all[i].filters) && all[i].codeId == code;
      AcceptsIff(c, all[i].filters);
      assert all[i] in all;
    }
    if RiskCounts(c, r) {
      var q :| q in all && IsSupported(c, q.filters);
      AcceptsIff(c, q.filters);
      var i :| 0 <= i < |all| && all[i] == q;
      assert Takes(c, all, q.codeId);
    }
  }

  /** The policy has a risk factor with this MRN, and with checks, that counts. */
  predicate HasRiskThatCounts(c: Config, p: Mrn, k: Mrn) {
    && p in c.bundle.policies
    && exists r :: r in c.bundle.policies[p].riskFactors && r.mrn == k && r.checks != [] && RiskCounts(c, r)
  }

  lemma HasRiskIff(c: Config, p: Mrn, k: Mrn)
    ensures HasRisk(c, p, k) <==> HasRiskThatCounts(c, p, k)
  {
    if p in c.bundle.policies {
      forall r | r in c.bundle.policies[p].riskFactors ensures AddsRisk(c, r) <==> RiskCounts(c, r) {
        RiskCountsIff(c, r);
      }
    }
  }

  /** A risk factor reports to a policy exactly if a chain leads to that and it has the risk factor. */
  lemma RiskReportsPlainly(c: Config, ranks: Ranks, k: Mrn, p: Mrn)
    requires WellFormed(c, ranks) && c.bundleMrn in c.bundle.policies
    ensures HasEdge(WholeGraph(c, ranks), RiskMrn(k), PolicyMrn(p)) <==> IsOnChain(c, p) && HasRiskThatCounts(c, p, k)
  {
    RiskReportsIff(c, ranks, k, p);
    ActiveIff(c, ranks, p);
    HasRiskIff(c, p, k);
  }

  /** One of these checks or data queries runs this code and is meant for the asset, and none up to it
      has variants. */
  predicate TakesUp(c: Config, list: seq<Mquery>, code: CodeId) {
    exists i :: 0 <= i < |list| && list[i].codeId == code && IsSupported(c, list[i].filters)
      && forall j :: 0 <= j <= i ==> list[j].variants == []
  }

  lemma TakesUpIff(c: Config, list: seq<Mquery>, code: CodeId)
    ensures Takes(c, list, code) <==> TakesUp(c, list, code)
  {
    forall i | 0 <= i < |list|
      ensures c.Accepts(list[i].filters) <==> IsSupported(c, list[i].filters)
      ensures NoneVaries(list[..i + 1]) <==> forall j :: 0 <= j <= i ==> list[j].variants == []
    {
      AcceptsIff(c, list[i].filters);
      assert forall j :: 0 <= j <= i ==> list[..i + 1][j] == list[j];
    }
  }

  /** The policy has a risk factor with this MRN that is to be run on the asset and takes up a check
      with this code. */
  predicate HasRiskTakingUp(c: Config, p: Mrn, k: Mrn, code: CodeId) {
    && p in c.bundle.policies && !IsStopped(c, RiskMrn(k))
    && exists r :: r in c.bundle.policies[p].riskFactors && r.mrn == k && IsSupported(c, r.filters)
         && TakesUp(c, r.checks, code)
  }

  lemma RiskTakesIff(c: Config, p: Mrn, k: Mrn, code: CodeId)
    ensures RiskTakes(c, p, k, code) <==> HasRiskTakingUp(c, p, k, code)
  {
    if p in c.bundle.policies {
      forall r | r in c.bundle.policies[p].riskFactors
        ensures Takes(c, r.checks, code) <==> TakesUp(c, r.checks, code)
        ensures c.Accepts(r.filters) <==> IsSupported(c, r.filters)
      {
        TakesUpIff(c, r.checks, code);
        AcceptsIff(c, r.filters);
      }
    }
  }

  ghost predicate IsTakenUp(c: Config, k: Mrn, code: CodeId) {
    exists p :: IsOnChain(c, p) && HasRiskTakingUp(c, p, k, code)
  }

  lemma TakenUpIff(c: Config, ranks: Ranks, k: Mrn, code: CodeId)
    requires WellFormed(c, ranks)
    ensures ActiveRiskTakes(c, k, code) <==> IsTakenUp(c, k, code)
  {
    if p :| IsActive(c, p) && RiskTakes(c, p, k, code) {
      ActiveIff(c, ranks, p);
      RiskTakesIff(c, p, k, code);
    }
    if p :| IsOnChain(c, p) && HasRiskTakingUp(c, p, k, code) {
      ActiveIff(c, ranks, p);
      RiskTakesIff(c, p, k, code);
    }
  }

  /** Code reports to a risk factor exactly if a chain leads to a policy that has such a risk factor. */
  lemma CodeReportsToRiskPlainly(c: Config, ranks: Ranks, code: CodeId, k: Mrn)
    requires WellFormed(c, ranks) && c.bundleMrn in c.bundle.policies
    ensures HasEdge(WholeGraph(c, ranks), CodeNode(code), RiskMrn(k)) <==> IsTakenUp(c, k, code)
  {
    CodeReportsToRiskIff(c, ranks, code, k);
    TakenUpIff(c, ranks, k, code);
  }

  lemma CodeReportsToRiskIff(c: Config, ranks: Ranks, code: CodeId, k: Mrn)
    requires WellFormed(c, ranks) && c.bundleMrn in c.bundle.policies
    ensures HasEdge(WholeGraph(c, ranks), CodeNode(code), RiskMrn(k)) <==> ActiveRiskTakes(c, k, code)
  {
    EdgesIff(c, ranks, CodeNode(code), RiskMrn(k));
    OthersHearNothing(c, CodeNode(code), RiskMrn(k));
  }

  // ----- policies -----

  /** One of its groups applies, or one of its risk factors with checks counts. */
  predicate HasContents(c: Config, p: Mrn) {
    && p in c.bundle.policies
    && (|| (exists g :: g in c.bundle.policies[p].groups && Applies(c, g))
        || (exists r :: r in c.bundle.policies[p].riskFactors && r.checks != [] && RiskCounts(c, r)))
  }

  lemma CountsIff(c: Config, ranks: Ranks, p: Mrn)
    requires WellFormed(c, ranks)
    ensures Counts(c, p) <==> Runs(c, p) && HasContents(c, p)
  {
    RunsIff(c, ranks, p);
    if p in c.bundle.policies {
      forall g | g in c.bundle.policies[p].groups ensures Matches(c.target, g) <==> Applies(c, g) {
        MatchesIff(c, g);
      }
      forall r | r in c.bundle.policies[p].riskFactors ensures AddsRisk(c, r) <==> RiskCounts(c, r) {
        RiskCountsIff(c, r);
      }
    }
  }

  /** A policy reports to another one exactly if a chain leads to that, it refers to the first, and the
      first runs and has contents; or as a framework that it depends on. */
  lemma PolicyReportsPlainly(c: Config, ranks: Ranks, q: Mrn, p: Mrn)
    requires WellFormed(c, ranks) && c.bundleMrn in c.bundle.policies
    ensures HasEdge(WholeGraph(c, ranks), PolicyMrn(q), PolicyMrn(p)) <==>
      || (IsOnChain(c, p) && RefersTo(c, p, q) && Runs(c, q) && HasContents(c, q))
      || (p in c.bundle.policies && q in c.bundle.policies && DependsPlainly(c, p, q))
  {
    PolicyReportsIff(c, ranks, q, p);
    ActiveIff(c, ranks, p);
    RefersIff(c, ranks, p, q);
    CountsIff(c, ranks, q);
    DependsIff(c, ranks, p, q);
  }

  // ----- frameworks -----

  /** A framework with the MRN of a policy is filed under that. */
  function OwnerId(c: Config, f: Mrn): Id {
    if f in c.bundle.policies then PolicyMrn(f) else FrameworkMrn(f)
  }

  predicate FrameworkRuns(c: Config, f: Mrn) {
    f in c.bundle.frameworks && !IsStopped(c, OwnerId(c, f))
  }

  /** A chain of frameworks that run, from that of the bundle down, each depending on the next one. */
  predicate IsFrameworkChain(c: Config, chain: seq<Mrn>) {
    && chain != [] && chain[0] == c.bundleMrn
    && (forall i :: 0 <= i < |chain| ==> FrameworkRuns(c, chain[i]))
    && (forall i :: 0 <= i < |chain| - 1 ==> chain[i + 1] in c.bundle.frameworks[chain[i]].dependencies)
  }

  ghost predicate IsOnFrameworkChain(c: Config, f: Mrn) {
    exists chain :: IsFrameworkChain(c, chain) && chain[|chain| - 1] == f
  }

  predicate LeadsTo(c: Config, a: Mrn, b: Mrn) {
    FrameworkRuns(c, a) && b in c.bundle.frameworks && b in c.bundle.frameworks[a].dependencies
  }

  lemma FrameworkActiveIff(c: Config, f: Mrn)
    ensures FrameworkIsActive(c, f) <==> IsOnFrameworkChain(c, f)
  {
    var g := RunningFrameworks(c);
    forall m ensures m in c.bundle.frameworks && RunsFramework(c, m) <==> FrameworkRuns(c, m) {
    }
    forall a, b ensures Edge(g, a, b) <==> LeadsTo(c, a, b) {
    }
    if FrameworkIsActive(c, f) {
      var walk :| WalkFromTo(g, walk, c.bundleMrn, f);
      forall i | 0 <= i < |walk| ensures FrameworkRuns(c, walk[i]) {
        assert i < |walk| - 1 ==> Edge(g, walk[i], walk[i + 1]);
      }
      assert IsFrameworkChain(c, walk);
    }
    if IsOnFrameworkChain(c, f) {
      var chain :| IsFrameworkChain(c, chain) && chain[|chain| - 1] == f;
      forall i | 0 <= i < |chain| - 1 ensures Edge(g, chain[i], chain[i + 1]) {
        assert LeadsTo(c, chain[i], chain[i + 1]);
      }
      assert WalkFromTo(g, chain, c.bundleMrn, f);
    }
  }

  /** A framework on a chain depends on another one, which runs. */
  ghost predicate DependsPlainly(c: Config, f: Mrn, d: Mrn) {
    IsOnFrameworkChain(c, f) && f in c.bundle.frameworks && d in c.bundle.frameworks[f].dependencies
      && FrameworkRuns(c, d)
  }

  lemma DependsIff(c: Config, ranks: Ranks, f: Mrn, d: Mrn)
    requires WellFormed(c, ranks)
    ensures DependencyReports(c, d, f) <==> DependsPlainly(c, f, d)
  {
    FrameworkActiveIff(c, f);
  }

  /** A framework on a chain maps this control to the owner, and the control is not stopped. */
  ghost predicate IsMappedPlainly(c: Config, control: Control, owner: Mrn) {
    !IsStopped(c, ControlMrn(control.mrn)) && exists f :: IsOnFrameworkChain(c, f) && Maps(c, f, control, owner)
  }

  predicate Maps(c: Config, f: Mrn, control: Control, owner: Mrn) {
    && f in c.bundle.frameworks
    && exists fmap :: fmap in c.bundle.frameworks[f].maps && fmap.owner == owner && control in fmap.controls
  }

  lemma MappedIff(c: Config, control: Control, owner: Mrn)
    ensures IsMappedTo(c, control, owner) <==> IsMappedPlainly(c, control, owner)
  {
    forall f ensures FrameworkIsActive(c, f) <==> IsOnFrameworkChain(c, f) {
      FrameworkActiveIff(c, f);
    }
  }

  ghost predicate HearsPlainly(c: Config, f: Mrn, a: Id) {
    || (exists control: Control :: IsMappedPlainly(c, control, f) && a == ControlMrn(control.mrn))
    || (exists d :: DependsPlainly(c, f, d) && a == OwnerId(c, d))
  }

  lemma HearsIff(c: Config, ranks: Ranks, f: Mrn, a: Id)
    requires WellFormed(c, ranks)
    ensures OwnerHears(c, f, a) <==> HearsPlainly(c, f, a)
  {
    forall control ensures IsMappedTo(c, control, f) <==> IsMappedPlainly(c, control, f) {
      MappedIff(c, control, f);
    }
    forall d ensures DependencyReports(c, d, f) <==> DependsPlainly(c, f, d) {
      DependsIff(c, ranks, f, d);
    }
  }

  /** Of controls and frameworks, what reports to a framework or to the policy with its MRN are exactly
      the controls mapped to it and the frameworks that it depends on as one on a chain. */
  lemma FrameworkHearsPlainly(c: Config, ranks: Ranks, a: Id, f: Mrn)
    requires WellFormed(c, ranks) && c.bundleMrn in c.bundle.policies && (a.ControlMrn? || a.FrameworkMrn?)
    ensures HasEdge(WholeGraph(c, ranks), a, OwnerId(c, f)) <==> HearsPlainly(c, f, a)
  {
    EdgesIff(c, ranks, a, OwnerId(c, f));
    OwnerHearsSources(c, f, a);
    HearsIff(c, ranks, f, a);
  }

  // ----- what feeds a query -----

  /** The first variant that leads to code. */
  ghost predicate IsFirstWithCode(c: Config, variants: seq<Mrn>, v: Mrn) {
    exists i :: 0 <= i < |variants| && variants[i] == v && HasCode(c, v)
      && forall j :: 0 <= j < i ==> !HasCode(c, variants[j])
  }

  /** What feeds a query is the disabled code if it is stopped, else the first of its variants that
      leads to code, or its own code if it has no variants. */
  ghost predicate FeedsPlainly(c: Config, q: Mrn, a: Id) {
    && q in c.bundle.queries
    && if IsStopped(c, QueryMrn(q)) then a == CodeNode(c.disabledCode)
       else if c.bundle.queries[q].variants != [] then
         a.QueryMrn? && IsFirstWithCode(c, c.bundle.queries[q].variants, a.mrn)
       else a == CodeNode(c.bundle.queries[q].codeId)
  }

  lemma FeederIff(c: Config, ranks: Ranks, q: Mrn, a: Id)
    requires WellFormed(c, ranks) && Select(c, ranks.query, q).Some?
    ensures a == Feeder(c, ranks.query, q) <==> FeedsPlainly(c, q, a)
  {
    if !IsDisabled(c, q) && c.bundle.queries[q].variants != [] {
      FirstMatchIff(c, ranks, c.bundle.queries[q].variants, if a.QueryMrn? then a.mrn else "");
    }
  }

  lemma {:induction false} FirstMatchIff(c: Config, ranks: Ranks, list: seq<Mrn>, v: Mrn)
    requires WellFormed(c, ranks)
    ensures SelectFirst(c, ranks.query, list).Some? && v == FirstMatch(c, ranks.query, list) <==>
      IsFirstWithCode(c, list, v)
    ensures SelectFirst(c, ranks.query, list).None? <==> forall j :: 0 <= j < |list| ==> !HasCode(c, list[j])
  {
    if list != [] {
      var n := |list| - 1;
      FirstMatchIff(c, ranks, list[..n], v);
      HasCodeIff(c, ranks, list[n]);
      assert forall j :: 0 <= j < n ==> list[..n][j] == list[j];
    }
  }

  /** Every query in the graph is fed by this and nothing else. */
  lemma QueryIsFedPlainly(c: Config, ranks: Ranks, q: Mrn, a: Id)
    requires WellFormed(c, ranks) && c.bundleMrn in c.bundle.policies && QueryMrn(q) in WholeGraph(c, ranks).nodes
    ensures HasEdge(WholeGraph(c, ranks), a, QueryMrn(q)) <==> FeedsPlainly(c, q, a)
  {
    NodesIff(c, ranks, QueryMrn(q));
    EdgesIff(c, ranks, a, QueryMrn(q));
    OthersHearNothing(c, a, QueryMrn(q));
    QueryNodeSelects(c, ranks.query, WholeGraph(c, ranks), q);
    FeederIff(c, ranks, q, a);
  }
}
