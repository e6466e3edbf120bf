/** What queries, policies, risk factors, controls and frameworks hear of in the graph of a bundle. */
module PolicyCoverage {
  import opened Wrappers
  import opened PolicyWindow
  import opened PolicyBundle
  import opened JobGraph
  import opened Digraph
  import opened VariantSelection
  import opened GraphRules
  import opened PolicyRules
  import opened PolicyParts
  import opened GraphSources
  import opened GraphContents
  import opened PolicyImpacts

  /** The active framework f depends on d, which can run as well. */
  ghost predicate DependencyReports(c: Config, d: Mrn, f: Mrn) {
    && FrameworkIsActive(c, f) && d in c.bundle.frameworks[f].dependencies
    && d in c.bundle.frameworks && RunsFramework(c, d)
  }

  ghost predicate IsMappedTo(c: Config, control: Control, owner: Mrn) {
    exists f :: FrameworkIsActive(c, f) && MapsTo(c, f, owner, control)
  }

  /** What reports to the node of a framework: the controls mapped to it, and its dependencies. */
  ghost predicate OwnerHears(c: Config, m: Mrn, a: Id) {
    || (exists control: Control :: IsMappedTo(c, control, m) && a == ControlMrn(control.mrn))
    || (exists d :: DependencyReports(c, d, m) && a == FrameworkId(c, d))
  }

  lemma SourceIsHeard(c: Config, f: Mrn, m: Mrn, a: Id)
    requires FrameworkIsActive(c, f) && SourceThrough(c, f, a, FrameworkId(c, m))
    ensures OwnerHears(c, m, a)
  {
    if owner, control :|
      MapsTo(c, f, owner, control) && FrameworkId(c, owner) == FrameworkId(c, m) && a == ControlMrn(control.mrn)
    {
      assert IsMappedTo(c, control, m);
    } else {
      var d :| d in c.bundle.frameworks[f].dependencies && d in c.bundle.frameworks && RunsFramework(c, d)
        && a == FrameworkId(c, d);
      assert DependencyReports(c, d, m);
    }
  }

  lemma HeardIsSource(c: Config, m: Mrn, a: Id)
    requires OwnerHears(c, m, a)
    ensures ActiveSourceThrough(c, a, FrameworkId(c, m))
  {
    if control: Control :| IsMappedTo(c, control, m) && a == ControlMrn(control.mrn) {
      var f :| FrameworkIsActive(c, f) && MapsTo(c, f, m, control);
      assert SourceThrough(c, f, a, FrameworkId(c, m));
    } else {
      assert SourceThrough(c, m, a, FrameworkId(c, m));
    }
  }

  lemma OwnerHearsSources(c: Config, m: Mrn, a: Id)
    ensures ActiveSourceThrough(c, a, FrameworkId(c, m)) <==> OwnerHears(c, m, a)
  {
    if f :| FrameworkIsActive(c, f) && SourceThrough(c, f, a, FrameworkId(c, m)) {
      SourceIsHeard(c, f, m, a);
    }
    if OwnerHears(c, m, a) {
      HeardIsSource(c, m, a);
    }
  }

  /** Only nodes that stand for a framework hear of frameworks and their controls. */
  lemma OthersHearNothing(c: Config, a: Id, b: Id)
    requires !((b.FrameworkMrn? || b.PolicyMrn?) && b == FrameworkId(c, b.mrn))
    ensures !ActiveSourceThrough(c, a, b)
  {
  }

  /** What a policy hears of apart from its own queries, risk factors and references. */
  lemma PolicyHearsOwner(c: Config, p: Mrn, a: Id)
    ensures ActiveSourceThrough(c, a, PolicyMrn(p)) ==>
      p in c.bundle.policies && (a.ControlMrn? || a.FrameworkMrn? || a.PolicyMrn?)
    ensures a.PolicyMrn? ==>
      (ActiveSourceThrough(c, a, PolicyMrn(p)) <==>
       p in c.bundle.policies && a.mrn in c.bundle.policies && DependencyReports(c, a.mrn, p))
  {
    if p in c.bundle.policies {
      OwnerHearsSources(c, p, a);
    } else {
      OthersHearNothing(c, a, PolicyMrn(p));
    }
  }

  /** A query reports to a policy exactly if the policy is reached from the root through policies
      that run, one of its matching groups lists the query without overriding it, and code is
      selected for the query. */
  lemma QueryReportsIff(c: Config, ranks: Ranks, x: Mrn, p: Mrn)
    requires WellFormed(c, ranks) && c.bundleMrn in c.bundle.policies
    ensures HasEdge(WholeGraph(c, ranks), QueryMrn(x), PolicyMrn(p)) <==>
      IsActive(c, p) && Select(c, ranks.query, x).Some? && exists check :: ListsAs(c, p, x, check)
  {
    EdgesIff(c, ranks, QueryMrn(x), PolicyMrn(p));
    PolicyHearsOwner(c, p, QueryMrn(x));
  }

  /** A policy reports to an active one exactly if a matching group refers to it, it runs, and it has
      a matching group or a risk factor that is added; or as the framework of the same name. */
  lemma PolicyReportsIff(c: Config, ranks: Ranks, q: Mrn, p: Mrn)
    requires WellFormed(c, ranks) && c.bundleMrn in c.bundle.policies
    ensures HasEdge(WholeGraph(c, ranks), PolicyMrn(q), PolicyMrn(p)) <==>
      || (IsActive(c, p) && Edge(RunningPolicies(c), p, q) && Counts(c, q))
      || (p in c.bundle.policies && q in c.bundle.policies && DependencyReports(c, q, p))
  {
    EdgesIff(c, ranks, PolicyMrn(q), PolicyMrn(p));
    PolicyHearsOwner(c, p, PolicyMrn(q));
  }

  /** A risk factor reports to a policy exactly if the policy is active and has it, with checks, and
      it is added: none of its checks and queries has variants, and one of them is accepted. */
  lemma RiskReportsIff(c: Config, ranks: Ranks, k: Mrn, p: Mrn)
    requires WellFormed(c, ranks) && c.bundleMrn in c.bundle.policies
    ensures HasEdge(WholeGraph(c, ranks), RiskMrn(k), PolicyMrn(p)) <==> IsActive(c, p) && HasRisk(c, p, k)
    ensures RiskMrn(k) in WholeGraph(c, ranks).nodes <==> exists p :: IsActive(c, p) && HasRisk(c, p, k)
  {
    EdgesIff(c, ranks, RiskMrn(k), PolicyMrn(p));
    PolicyHearsOwner(c, p, RiskMrn(k));
    NodesIff(c, ranks, RiskMrn(k));
  }

  /** Code reports to a control exactly if it is selected for one of its queries that is in use. */
  lemma CodeFeedsControlIff(c: Config, ranks: Ranks, code: CodeId, k: Mrn)
    requires WellFormed(c, ranks) && c.bundleMrn in c.bundle.policies
    ensures HasEdge(WholeGraph(c, ranks), CodeNode(code), ControlMrn(k)) <==>
      exists control, q :: IsMapped(c, control) && control.mrn == k && (q in control.checks || q in control.queries)
                        && IsCodeOf(c, ranks.query, q, code)
  {
    EdgesIff(c, ranks, CodeNode(code), ControlMrn(k));
    forall control ensures FeedsMapped(c, ranks, control, CodeNode(code)) <==>
      exists q :: (q in control.checks || q in control.queries) && IsCodeOf(c, ranks.query, q, code)
    {
    }
  }

  /** A control reports to another one exactly if that is mapped and lists it. */
  lemma ControlFeedsControlIff(c: Config, ranks: Ranks, m: Mrn, k: Mrn)
    requires WellFormed(c, ranks) && c.bundleMrn in c.bundle.policies
    ensures HasEdge(WholeGraph(c, ranks), ControlMrn(m), ControlMrn(k)) <==>
      exists control :: IsMapped(c, control) && control.mrn == k && m in control.controls
  {
    EdgesIff(c, ranks, ControlMrn(m), ControlMrn(k));
    forall control ensures FeedsMapped(c, ranks, control, ControlMrn(m)) <==> m in control.controls {
    }
  }

  /** A policy reports to a control exactly if a mapped control lists it and it is active or, by the
      time the control is added, has got a node as a framework. */
  lemma PolicyFeedsControlIff(c: Config, ranks: Ranks, p: Mrn, k: Mrn)
    requires WellFormed(c, ranks) && c.bundleMrn in c.bundle.policies
    ensures HasEdge(WholeGraph(c, ranks), PolicyMrn(p), ControlMrn(k)) <==>
      exists control :: IsMapped(c, control) && control.mrn == k && p in control.policies
                     && (IsActive(c, p) || VisitedBy(c, ranks, p, control))
  {
    EdgesIff(c, ranks, PolicyMrn(p), ControlMrn(k));
    forall control ensures FeedsMapped(c, ranks, control, PolicyMrn(p)) <==>
      p in control.policies && (IsActive(c, p) || VisitedBy(c, ranks, p, control))
    {
    }
  }

  /** A control has a node exactly if something reports to it. */
  lemma ControlIsFed(c: Config, ranks: Ranks, k: Mrn)
    requires WellFormed(c, ranks) && c.bundleMrn in c.bundle.policies
    ensures ControlMrn(k) in WholeGraph(c, ranks).nodes <==> exists a :: HasEdge(WholeGraph(c, ranks), a, ControlMrn(k))
  {
    NodesIff(c, ranks, ControlMrn(k));
    forall a ensures HasEdge(WholeGraph(c, ranks), a, ControlMrn(k)) <==> ControlSource(c, ranks, k, a) {
      EdgesIff(c, ranks, a, ControlMrn(k));
    }
  }

  /** A control reports to a framework exactly if an active framework maps it to that, and it can run;
      a framework or policy exactly if it is a dependency that can run. */
  lemma ReportsToFrameworkIff(c: Config, ranks: Ranks, a: Id, f: Mrn)
    requires WellFormed(c, ranks) && c.bundleMrn in c.bundle.policies
    ensures HasEdge(WholeGraph(c, ranks), a, FrameworkMrn(f)) <==>
      f !in c.bundle.policies && OwnerHears(c, f, a)
  {
    EdgesIff(c, ranks, a, FrameworkMrn(f));
    if f in c.bundle.policies {
      OthersHearNothing(c, a, FrameworkMrn(f));
    } else {
      OwnerHearsSources(c, f, a);
    }
  }

  /** The policy nodes of a graph are active policies, and every active policy has a node. */
  lemma PolicyNodesAreActive(c: Config, ranks: Ranks, p: Mrn)
    requires WellFormed(c, ranks) && c.bundleMrn in c.bundle.policies
    ensures var g := WholeGraph(c, ranks);
      && (PolicyMrn(p) in g.nodes && g.nodes[PolicyMrn(p)].PolicyNode? ==> IsActive(c, p))
      && (IsActive(c, p) ==> PolicyMrn(p) in g.nodes)
  {
    var g := WholeGraph(c, ranks);
    NodesIff(c, ranks, PolicyMrn(p));
    if PolicyMrn(p) in g.nodes {
      assert NodeIsSound(c, ranks.query, g, PolicyMrn(p));
    }
  }

  /** Severities stop at the checks: what a control hears of is code, policies and other controls,
      and nothing but whether it is ignored. */
  lemma ControlsHearNoSeverity(c: Config, ranks: Ranks, control: Mrn, e: EdgeImpact)
    requires WellFormed(c, ranks) && c.bundleMrn in c.bundle.policies
    requires e in WholeGraph(c, ranks).From(ControlMrn(control))
    ensures !e.edge.QueryMrn? && IsPlain(e.impact)
  {
    assert SourcesAreSound(c, ranks.query, WholeGraph(c, ranks), ControlMrn(control));
    assert EdgeIsSound(c, ranks.query, e.edge, ControlMrn(control), e.impact);
  }

  /** A query passes on to a policy that lists it exactly its value, unless it is ignored or the
      groups of the policy list it as a data query before they list it as a check: such data
      queries are ignored in scoring. */
  lemma SeverityReachesPolicy(c: Config, ranks: Ranks, x: Mrn, p: Mrn, e: EdgeImpact)
    requires WellFormed(c, ranks) && c.bundleMrn in c.bundle.policies
    requires e in WholeGraph(c, ranks).From(PolicyMrn(p)) && e.edge == QueryMrn(x)
    ensures p in c.bundle.policies
    ensures e.impact ==
      if CheckIsFirst(c, c.bundle.policies[p].groups, x) then CheckImpact(c, x) else Some(IGNORED_IMPACT)
  {
    CarriedIsEdge(WholeGraph(c, ranks), PolicyMrn(p), e);
    QueryReportsIff(c, ranks, x, p);
    PolicyImpactIsExact(c, ranks, p, e);
  }
}
