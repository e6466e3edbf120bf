/** The graph of a bundle with its impacts, described by the bundle alone. */
module GraphImpacts {
  import opened Wrappers
  import opened PolicyTypes
  import opened PolicyWindow
  import opened PolicyBundle
  import opened JobGraph
  import opened VariantSelection
  import opened GraphRules
  import opened PolicyRules
  import opened GraphSources
  import opened GraphContents
  import opened PolicyImpacts
  import opened FrameworkImpacts
  import opened ControlImpacts

  /** What b is told by a, if a reports to it. */
  ghost function ExpectedImpact(c: Config, ranks: Ranks, a: Id, b: Id): Option<Impact>
    requires WellFormed(c, ranks)
  {
    match b
    case CodeNode(_) => None
    case QueryMrn(m) => QueryImpact(c, m)
    case RiskMrn(_) => Some(IGNORED_IMPACT)
    case ControlMrn(k) => if a.CodeNode? then CodeImpact(c, ranks, a.code, k) else ActionToImpact(c, a)
    case PolicyMrn(p) => OwnerImpact(c, ranks, a, p, b)
    case FrameworkMrn(f) => OwnerImpact(c, ranks, a, f, b)
  }

  /** Code tells a control what the first listing says that runs it. */
  ghost function CodeImpact(c: Config, ranks: Ranks, code: CodeId, k: Mrn): Option<Impact>
    requires WellFormed(c, ranks)
  {
    var first := FirstSays(c, KnownAtFirst(c, ranks.query).code, ControlLog(c, ranks, k), code);
    if first.Some? then first.value else None
  }

  /** What comes from controls depends on these alone; otherwise what a policy lists, has or refers
      to goes before the dependencies of a framework. */
  ghost function OwnerImpact(c: Config, ranks: Ranks, a: Id, m: Mrn, b: Id): Option<Impact>
    requires WellFormed(c, ranks)
  {
    if a.ControlMrn? then ActionToImpact(c, a)
    else if b == PolicyMrn(m) && IsActive(c, m) && PolicySource(c, ranks.query, m, a) then PolicyImpact(c, m, a)
    else DependencyImpact(c, m)
  }

  lemma OwnerImpactIsExact(c: Config, ranks: Ranks, m: Mrn, b: Id, e: EdgeImpact)
    requires WellFormed(c, ranks) && c.bundleMrn in c.bundle.policies
    requires (b == PolicyMrn(m) || b == FrameworkMrn(m)) && e in WholeGraph(c, ranks).From(b)
    ensures e.impact == OwnerImpact(c, ranks, e.edge, m, b)
  {
    assert SourcesAreSound(c, ranks.query, WholeGraph(c, ranks), b);
    assert EdgeIsSound(c, ranks.query, e.edge, b, e.impact);
    if !e.edge.ControlMrn? {
      if b == PolicyMrn(m) && IsActive(c, m) && PolicySource(c, ranks.query, m, e.edge) {
        PolicyImpactIsExact(c, ranks, m, e);
      } else {
        EdgeOfDependency(c, ranks, m, b, e);
        DependencyImpactIsExact(c, ranks, m, e);
      }
    }
  }

  lemma EdgeOfDependency(c: Config, ranks: Ranks, m: Mrn, b: Id, e: EdgeImpact)
    requires WellFormed(c, ranks) && c.bundleMrn in c.bundle.policies && !e.edge.ControlMrn?
    requires (b == PolicyMrn(m) || b == FrameworkMrn(m)) && e in WholeGraph(c, ranks).From(b)
    requires !ReportsByPolicies(c, ranks.query, e.edge, b)
    ensures m in c.bundle.frameworks && FrameworkId(c, m) == b
  {
    CarriedIsEdge(WholeGraph(c, ranks), b, e);
    EdgesIff(c, ranks, e.edge, b);
  }

  lemma ImpactIsExact(c: Config, ranks: Ranks, b: Id, e: EdgeImpact)
    requires WellFormed(c, ranks) && c.bundleMrn in c.bundle.policies && e in WholeGraph(c, ranks).From(b)
    ensures e.impact == ExpectedImpact(c, ranks, e.edge, b)
  {
    assert SourcesAreSound(c, ranks.query, WholeGraph(c, ranks), b);
    assert EdgeIsSound(c, ranks.query, e.edge, b, e.impact);
    match b
    case PolicyMrn(m) => OwnerImpactIsExact(c, ranks, m, b, e);
    case FrameworkMrn(m) => OwnerImpactIsExact(c, ranks, m, b, e);
    case ControlMrn(k) =>
      if e.edge.CodeNode? {
        CodeImpactIsExact(c, ranks, e.edge.code, k, e.impact);
      }
    case _ =>
  }

  /** In the graph of a bundle a reports to b with this impact exactly if the bundle says so: which
      of several listings decides depends on nothing but their order. */
  lemma ImpactsIff(c: Config, ranks: Ranks, a: Id, b: Id, impact: Option<Impact>)
    requires WellFormed(c, ranks) && c.bundleMrn in c.bundle.policies
    ensures EdgeImpact(a, impact) in WholeGraph(c, ranks).From(b) <==>
      && (ReportsByPolicies(c, ranks.query, a, b) || ReportsByFrameworks(c, ranks, a, b))
      && impact == ExpectedImpact(c, ranks, a, b)
  {
    var g := WholeGraph(c, ranks);
    EdgesIff(c, ranks, a, b);
    if EdgeImpact(a, impact) in g.From(b) {
      CarriedIsEdge(g, b, EdgeImpact(a, impact));
      ImpactIsExact(c, ranks, b, EdgeImpact(a, impact));
    }
    if HasEdge(g, a, b) {
      assert g.HasSource(b, a);
      var i :| 0 <= i < |g.From(b)| && g.From(b)[i].edge == a;
      ImpactIsExact(c, ranks, b, g.From(b)[i]);
    }
  }
}
