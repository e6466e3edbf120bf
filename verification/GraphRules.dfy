/** What each part of a bundle contributes to the graph, and what every such step keeps. */
module GraphRules {
  import opened Wrappers
  import opened PolicyTypes
  import opened PolicyWindow
  import opened PolicyBundle
  import opened JobGraph
  import opened VariantSelection
  import opened Digraph

  const IGNORED_IMPACT := Impact(None, IgnoreScore, 0, Ignore)

  const DISABLED_IMPACT := Impact(None, ScoringDisabled, 0, Unspecified)

  // ----- the impacts of edges -----

  /** The impact of the edge from a policy to one that refers to it. */
  function ReferenceImpact(c: Config, p: Mrn): Option<Impact> {
    if c.ActionOf(PolicyMrn(p)) == Ignore then Some(IGNORED_IMPACT) else c.ImpactOf(PolicyMrn(p))
  }

  /** The impact of the edge from a check to a policy: only its value is carried. */
  function CheckImpact(c: Config, m: Mrn): Option<Impact> {
    if c.ActionOf(QueryMrn(m)) == Ignore then Some(IGNORED_IMPACT)
    else
      var i := c.ImpactOf(QueryMrn(m));
      if i.Some? && i.value.value.Some? then Some(Impact(i.value.value, ScoringUnspecified, 0, Unspecified)) else None
  }

  function ActionToImpact(c: Config, id: Id): Option<Impact> {
    if c.ActionOf(id) == Ignore then Some(IGNORED_IMPACT) else None
  }

  /** The impact of the edge from a listed query to a policy; data queries are not scored. */
  function ListedImpact(c: Config, m: Mrn, check: bool): Option<Impact> {
    if check then CheckImpact(c, m) else Some(IGNORED_IMPACT)
  }

  function QueryImpact(c: Config, m: Mrn): Option<Impact> {
    if IsDisabled(c, m) then Some(DISABLED_IMPACT) else c.ImpactOf(QueryMrn(m))
  }

  /** Nothing but the fact that an entry is ignored. */
  predicate IsPlain(impact: Option<Impact>) {
    impact == None || impact == Some(IGNORED_IMPACT)
  }

  // ----- the policies and queries that count -----

  predicate RunsPolicy(c: Config, p: Policy) {
    CanRun(c.ActionOf(PolicyMrn(p.mrn))) && c.Accepts(p.computedFilters)
  }

  /** From a policy that runs to those that its matching groups refer to. */
  function RunningPolicies(c: Config): Graph<Mrn> {
    map p | p in c.bundle.policies ::
      if RunsPolicy(c, c.bundle.policies[p]) then
        (set g, r | g in c.bundle.policies[p].groups && Matches(c.target, g) && r in g.policies :: r)
      else {}
  }

  /** A policy that runs and is reached from the root through others that do. */
  ghost predicate IsActive(c: Config, p: Mrn) {
    p in c.bundle.policies && RunsPolicy(c, c.bundle.policies[p]) && Reaches(RunningPolicies(c), c.bundleMrn, p)
  }

  function ListOf(g: Group, check: bool): seq<QueryRef> {
    if check then g.checks else g.queries
  }

  /** A matching group of the policy lists the query, as a check or as a data query, and does not
      override it. */
  ghost predicate ListsAs(c: Config, p: Mrn, m: Mrn, check: bool) {
    && p in c.bundle.policies
    && (exists g, ref :: g in c.bundle.policies[p].groups && Matches(c.target, g) && ref in ListOf(g, check)
          && ref.mrn == m && !IsOverride(ref.action, g.groupType))
  }

  /** Which nodes report to which, and what the edge between them may say. Severities reach queries
      and policies but neither controls nor frameworks, and nothing reports to code. */
  ghost predicate EdgeIsSound(c: Config, rank: Mrn -> nat, a: Id, b: Id, impact: Option<Impact>)
    requires VariantsDescend(c.bundle.queries, rank)
  {
    match b
    case CodeNode(_) => false
    case QueryMrn(m) => (a.CodeNode? || a.QueryMrn?) && impact == QueryImpact(c, m)
    case RiskMrn(_) => a.CodeNode? && impact == Some(IGNORED_IMPACT)
    case ControlMrn(_) =>
      if a.CodeNode? then IsPlain(impact) else (a.PolicyMrn? || a.ControlMrn?) && impact == ActionToImpact(c, a)
    case FrameworkMrn(_) =>
      if a.ControlMrn? then impact == ActionToImpact(c, a) else (a.FrameworkMrn? || a.PolicyMrn?) && IsPlain(impact)
    case PolicyMrn(p) =>
      match a
      case CodeNode(_) => false
      case QueryMrn(m) =>
        && IsActive(c, p) && Select(c, rank, m).Some?
        && (exists check :: ListsAs(c, p, m, check) && impact == ListedImpact(c, m, check))
      case RiskMrn(_) => impact == Some(IGNORED_IMPACT)
      case PolicyMrn(m) => impact == ReferenceImpact(c, m) || IsPlain(impact)
      case ControlMrn(_) => impact == ActionToImpact(c, a)
      case FrameworkMrn(_) => IsPlain(impact)
  }

  // ----- what every graph under construction satisfies -----

  /** The one node that reports to a query: the code it runs, or the variant it selects. */
  ghost function Feeder(c: Config, rank: Mrn -> nat, m: Mrn): Id
    requires VariantsDescend(c.bundle.queries, rank) && Select(c, rank, m).Some?
  {
    if IsDisabled(c, m) then CodeNode(c.disabledCode)
    else if c.bundle.queries[m].variants != [] then QueryMrn(FirstMatch(c, rank, c.bundle.queries[m].variants))
    else CodeNode(c.bundle.queries[m].codeId)
  }

  ghost predicate NodeIsSound(c: Config, rank: Mrn -> nat, g: JobGraph, id: Id)
    requires VariantsDescend(c.bundle.queries, rank) && id in g.nodes
  {
    match g.nodes[id]
    case PolicyNode(m, _, _, isRoot) => isRoot == (m == c.bundleMrn) && IsActive(c, m)
    case QueryNode(m, queryType, selected) =>
      && Select(c, rank, m) == Some(selected) && queryType == c.TypeOf(m)
      && CodeNode(selected) in g.nodes && Feeder(c, rank, m) in g.nodes
      && |g.From(QueryMrn(m))| == 1 && g.From(QueryMrn(m))[0].edge == Feeder(c, rank, m)
    case RiskNode(_, codes) => forall code :: code in codes ==> CodeNode(code) in g.nodes
    case FrameworkNode(other) => other.FrameworkMrn? || other.PolicyMrn?
    case _ => true
  }

  ghost predicate SourcesAreSound(c: Config, rank: Mrn -> nat, g: JobGraph, b: Id)
    requires VariantsDescend(c.bundle.queries, rank)
  {
    forall e {:trigger EdgeIsSound(c, rank, e.edge, b, e.impact)} :: e in g.From(b) ==>
      EdgeIsSound(c, rank, e.edge, b, e.impact)
  }

  /** Edges mirror each other and are of the right kind, and every query node is fed by exactly one
      node, which is there, as is the code that the query selects. */
  ghost predicate Sound(c: Config, rank: Mrn -> nat, g: JobGraph) {
    && VariantsDescend(c.bundle.queries, rank)
    && Mirrored(g) && Keyed(g)
    && (forall id {:trigger NodeIsSound(c, rank, g, id)} :: id in g.nodes ==> NodeIsSound(c, rank, g, id))
    && (forall m {:trigger g.From(QueryMrn(m))} :: QueryMrn(m) !in g.nodes ==> g.From(QueryMrn(m)) == [])
    && (forall b {:trigger SourcesAreSound(c, rank, g, b)} :: SourcesAreSound(c, rank, g, b))
  }

  lemma AddEdgeKeepsSources(c: Config, rank: Mrn -> nat, g: JobGraph, a: Id, b: Id, impact: Option<Impact>, b': Id)
    requires VariantsDescend(c.bundle.queries, rank)
    requires SourcesAreSound(c, rank, g, b') && EdgeIsSound(c, rank, a, b, impact)
    ensures SourcesAreSound(c, rank, g.AddEdge(a, b, impact), b')
  {
    var h := g.AddEdge(a, b, impact);
    assert h.From(b') == g.From(b') || (b' == b && h.From(b') == g.From(b') + [EdgeImpact(a, impact)]);
  }

  predicate HasEdge(g: JobGraph, a: Id, b: Id) {
    b in g.To(a)
  }

  predicate Carries(g: JobGraph, b: Id, e: EdgeImpact) {
    e in g.From(b)
  }

  ghost predicate KeepsEdges(g: JobGraph, h: JobGraph) {
    forall b, e {:trigger Carries(g, b, e)} :: Carries(g, b, e) ==> Carries(h, b, e)
  }

  /** h is sound, no node of g is missing from it, and every edge of g has kept its impact. */
  ghost predicate Extends(c: Config, rank: Mrn -> nat, g: JobGraph, h: JobGraph) {
    Sound(c, rank, h) && g.nodes.Keys <= h.nodes.Keys && KeepsEdges(g, h)
  }

  lemma ExtendsTwice(c: Config, rank: Mrn -> nat, g: JobGraph, g1: JobGraph, h: JobGraph)
    requires Extends(c, rank, g, g1) && Extends(c, rank, g1, h)
    ensures Extends(c, rank, g, h)
  {
  }

  lemma EmptyIsSound(c: Config, rank: Mrn -> nat)
    requires VariantsDescend(c.bundle.queries, rank)
    ensures Sound(c, rank, EMPTY_GRAPH)
  {
    assert forall a, b :: !EMPTY_GRAPH.HasSource(b, a);
  }

  lemma AddNodeMirrored(g: JobGraph, n: Node)
    requires Mirrored(g)
    ensures Mirrored(g.AddNode(n))
    ensures forall b :: g.AddNode(n).From(b) == g.From(b)
  {
    var h := g.AddNode(n);
    assert forall b :: h.From(b) == g.From(b);
    assert forall a :: h.To(a) == g.To(a);
    forall a, b ensures b in h.To(a) <==> h.HasSource(b, a) {
      assert b in g.To(a) <==> g.HasSource(b, a);
    }
  }

  lemma AddNodeKeepsSources(c: Config, rank: Mrn -> nat, g: JobGraph, n: Node)
    requires VariantsDescend(c.bundle.queries, rank)
    requires forall b {:trigger SourcesAreSound(c, rank, g, b)} :: SourcesAreSound(c, rank, g, b)
    ensures forall b {:trigger SourcesAreSound(c, rank, g.AddNode(n), b)} :: SourcesAreSound(c, rank, g.AddNode(n), b)
  {
    forall b ensures SourcesAreSound(c, rank, g.AddNode(n), b) {
      assert SourcesAreSound(c, rank, g, b) && g.AddNode(n).From(b) == g.From(b);
    }
  }

  /** Nodes other than queries can be added freely, as long as a risk factor finds its code. */
  lemma AddNodeKeepsSound(c: Config, rank: Mrn -> nat, g: JobGraph, n: Node)
    requires Sound(c, rank, g) && !n.QueryNode?
    requires n.FrameworkNode? ==> n.id.FrameworkMrn? || n.id.PolicyMrn?
    requires n.PolicyNode? ==> n.isRoot == (n.mrn == c.bundleMrn) && IsActive(c, n.mrn)
    requires n.RiskNode? ==> forall code :: code in n.selectedCodes ==> CodeNode(code) in g.nodes
    ensures Extends(c, rank, g, g.AddNode(n))
  {
    var h := g.AddNode(n);
    AddNodeMirrored(g, n);
    AddNodeKeepsSources(c, rank, g, n);
    forall id | id in h.nodes ensures NodeIsSound(c, rank, h, id) {
      if id != IdOf(n) {
        assert NodeIsSound(c, rank, g, id);
      }
    }
  }

  /** So can edges that do not lead to a query. */
  lemma AddEdgeKeepsSound(c: Config, rank: Mrn -> nat, g: JobGraph, a: Id, b: Id, impact: Option<Impact>)
    requires Sound(c, rank, g) && !b.QueryMrn? && EdgeIsSound(c, rank, a, b, impact)
    ensures Extends(c, rank, g, g.AddEdge(a, b, impact)) && HasEdge(g.AddEdge(a, b, impact), a, b)
  {
    var h := g.AddEdge(a, b, impact);
    AddEdgeMirrored(g, a, b, impact);
    AddEdgeKeepsEdges(g, a, b, impact);
    forall b' ensures SourcesAreSound(c, rank, h, b') {
      assert SourcesAreSound(c, rank, g, b');
      AddEdgeKeepsSources(c, rank, g, a, b, impact, b');
    }
    forall id | id in h.nodes ensures NodeIsSound(c, rank, h, id) {
      AddEdgeKeepsNode(c, rank, g, a, b, impact, id);
    }
    forall m | QueryMrn(m) !in h.nodes ensures h.From(QueryMrn(m)) == [] {
      assert h.From(QueryMrn(m)) == g.From(QueryMrn(m));
    }
  }

  lemma AddEdgeKeepsEdges(g: JobGraph, a: Id, b: Id, impact: Option<Impact>)
    ensures KeepsEdges(g, g.AddEdge(a, b, impact)) && HasEdge(g.AddEdge(a, b, impact), a, b)
  {
  }

  lemma AddEdgeKeepsNode(c: Config, rank: Mrn -> nat, g: JobGraph, a: Id, b: Id, impact: Option<Impact>, id: Id)
    requires Sound(c, rank, g) && !b.QueryMrn? && id in g.nodes
    ensures NodeIsSound(c, rank, g.AddEdge(a, b, impact), id)
  {
    assert NodeIsSound(c, rank, g, id);
    assert id.QueryMrn? ==> g.AddEdge(a, b, impact).From(id) == g.From(id);
  }

  /** A query is added together with the edge that feeds it. */
  function WithQuery(c: Config, g: JobGraph, m: Mrn, code: CodeId, feeder: Id, impact: Option<Impact>): JobGraph {
    g.AddNode(QueryNode(m, c.TypeOf(m), code)).AddEdge(feeder, QueryMrn(m), impact)
  }

  lemma WithQueryKeepsSound(c: Config, rank: Mrn -> nat, g: JobGraph, m: Mrn, code: CodeId, impact: Option<Impact>)
    requires Sound(c, rank, g) && Select(c, rank, m) == Some(code) && impact == QueryImpact(c, m)
    requires CodeNode(code) in g.nodes && Feeder(c, rank, m) in g.nodes
    ensures Extends(c, rank, g, WithQuery(c, g, m, code, Feeder(c, rank, m), impact))
  {
    var h := WithQuery(c, g, m, code, Feeder(c, rank, m), impact);
    WithQueryMirrors(c, rank, g, m, code, Feeder(c, rank, m), impact);
    WithQueryKeepsSources(c, rank, g, m, code, Feeder(c, rank, m), impact);
    WithQueryFeeds(c, rank, g, m, code, impact);
    forall id | id in h.nodes ensures NodeIsSound(c, rank, h, id) {
      if id != QueryMrn(m) {
        WithQueryKeepsOthers(c, rank, g, m, code, impact, id);
      }
    }
  }

  lemma WithQueryMirrors(
      c: Config, rank: Mrn -> nat, g: JobGraph, m: Mrn, code: CodeId, feeder: Id, impact: Option<Impact>)
    requires Sound(c, rank, g)
    ensures var h := WithQuery(c, g, m, code, feeder, impact);
      && Mirrored(h) && Keyed(h) && KeepsEdges(g, h) && g.nodes.Keys + {QueryMrn(m)} == h.nodes.Keys
      && (forall m' {:trigger h.From(QueryMrn(m'))} :: QueryMrn(m') !in h.nodes ==> h.From(QueryMrn(m')) == [])
  {
    var n := QueryNode(m, c.TypeOf(m), code);
    var h := WithQuery(c, g, m, code, feeder, impact);
    AddNodeMirrored(g, n);
    AddEdgeMirrored(g.AddNode(n), feeder, QueryMrn(m), impact);
    forall m' | QueryMrn(m') !in h.nodes ensures h.From(QueryMrn(m')) == [] {
      assert h.From(QueryMrn(m')) == g.From(QueryMrn(m'));
    }
  }

  lemma WithQueryKeepsSources(
      c: Config, rank: Mrn -> nat, g: JobGraph, m: Mrn, code: CodeId, feeder: Id, impact: Option<Impact>)
    requires Sound(c, rank, g) && (feeder.CodeNode? || feeder.QueryMrn?) && impact == QueryImpact(c, m)
    ensures var h := WithQuery(c, g, m, code, feeder, impact);
      forall b {:trigger SourcesAreSound(c, rank, h, b)} :: SourcesAreSound(c, rank, h, b)
  {
    var n := QueryNode(m, c.TypeOf(m), code);
    var g1, h := g.AddNode(n), WithQuery(c, g, m, code, feeder, impact);
    AddNodeKeepsSources(c, rank, g, n);
    forall b ensures SourcesAreSound(c, rank, h, b) {
      assert SourcesAreSound(c, rank, g1, b);
      AddEdgeKeepsSources(c, rank, g1, feeder, QueryMrn(m), impact, b);
    }
  }

  lemma WithQueryKeepsOthers(
      c: Config, rank: Mrn -> nat, g: JobGraph, m: Mrn, code: CodeId, impact: Option<Impact>, id: Id)
    requires Sound(c, rank, g) && Select(c, rank, m).Some? && id in g.nodes && id != QueryMrn(m)
    ensures NodeIsSound(c, rank, WithQuery(c, g, m, code, Feeder(c, rank, m), impact), id)
  {
    var h := WithQuery(c, g, m, code, Feeder(c, rank, m), impact);
    assert NodeIsSound(c, rank, g, id);
    assert h.From(id) == g.From(id);
    assert h.nodes[id] == g.nodes[id] && g.nodes.Keys <= h.nodes.Keys;
  }

  lemma WithQueryFeeds(c: Config, rank: Mrn -> nat, g: JobGraph, m: Mrn, code: CodeId, impact: Option<Impact>)
    requires Sound(c, rank, g) && Select(c, rank, m) == Some(code)
    ensures var from := WithQuery(c, g, m, code, Feeder(c, rank, m), impact).From(QueryMrn(m));
      |from| == 1 && from[0].edge == Feeder(c, rank, m)
  {
    var feeder := Feeder(c, rank, m);
    if QueryMrn(m) in g.nodes {
      assert NodeIsSound(c, rank, g, QueryMrn(m));
      assert g.From(QueryMrn(m))[0].edge == feeder;
      assert g.HasSource(QueryMrn(m), feeder);
    } else {
      assert g.From(QueryMrn(m)) == [];
      assert !g.HasSource(QueryMrn(m), feeder);
    }
  }

  // ----- queries -----

  /** The graph with a query for which there is code: its chain of selected variants, from the code
      up, each with the edge that feeds it. */
  ghost function WithSelected(c: Config, rank: Mrn -> nat, g: JobGraph, m: Mrn): (h: JobGraph)
    requires Sound(c, rank, g) && Select(c, rank, m).Some?
    ensures Extends(c, rank, g, h) && QueryMrn(m) in h.nodes && CodeNode(Select(c, rank, m).value) in h.nodes
    decreases Level(c.bundle.queries, rank, m)
  {
    var q, impact := c.bundle.queries[m], c.ImpactOf(QueryMrn(m));
    if IsDisabled(c, m) then
      WithCodeQuery(c, rank, g, m, c.disabledCode, Some(DISABLED_IMPACT))
    else if q.variants != [] then
      var v := FirstMatch(c, rank, q.variants);
      var g1 := WithSelected(c, rank, g, v);
      WithQueryKeepsSound(c, rank, g1, m, Select(c, rank, v).value, impact);
      WithQuery(c, g1, m, Select(c, rank, v).value, QueryMrn(v), impact)
    else
      WithCodeQuery(c, rank, g, m, q.codeId, impact)
  }

  /** A query that runs code itself. */
  ghost function WithCodeQuery(
      c: Config, rank: Mrn -> nat, g: JobGraph, m: Mrn, code: CodeId, impact: Option<Impact>): (h: JobGraph)
    requires Sound(c, rank, g) && Select(c, rank, m) == Some(code) && Feeder(c, rank, m) == CodeNode(code)
    requires impact == QueryImpact(c, m)
    ensures Extends(c, rank, g, h) && QueryMrn(m) in h.nodes && CodeNode(code) in h.nodes
  {
    var g1 := g.AddNode(ExecutionNode(code));
    AddNodeKeepsSound(c, rank, g, ExecutionNode(code));
    WithQueryKeepsSound(c, rank, g1, m, code, impact);
    WithQuery(c, g1, m, code, CodeNode(code), impact)
  }

  /** In a sound graph there is a path of edges from the code of a query to the query. */
  lemma {:induction false} CodeReachesQuery(c: Config, rank: Mrn -> nat, g: JobGraph, m: Mrn)
    requires Sound(c, rank, g) && QueryMrn(m) in g.nodes
    ensures Select(c, rank, m).Some? && CodeNode(Select(c, rank, m).value) in g.nodes
    ensures Reaches(ReportEdges(g), CodeNode(Select(c, rank, m).value), QueryMrn(m))
    decreases Level(c.bundle.queries, rank, m)
  {
    assert NodeIsSound(c, rank, g, QueryMrn(m));
    var feeder := Feeder(c, rank, m);
    assert g.From(QueryMrn(m))[0].edge == feeder;
    assert g.HasSource(QueryMrn(m), feeder);
    assert Edge(ReportEdges(g), feeder, QueryMrn(m));
    if feeder.QueryMrn? {
      CodeReachesQuery(c, rank, g, feeder.mrn);
    } else {
      ReachesSelf(ReportEdges(g), feeder);
    }
    ReachesOneMore(ReportEdges(g), CodeNode(Select(c, rank, m).value), feeder, QueryMrn(m));
  }

  // ----- risk factors -----

  /** The checks of a risk factor as far as they were added: the code selected, and whether a check
      with variants stopped it. */
  datatype RiskState = RiskState(graph: JobGraph, codes: seq<CodeId>, failed: bool)

  ghost function WithRiskChecks(
      c: Config, rank: Mrn -> nat, g: JobGraph, risk: Mrn, checks: seq<Mquery>): (r: RiskState)
    requires Sound(c, rank, g)
    ensures Extends(c, rank, g, r.graph) && forall code :: code in r.codes ==> CodeNode(code) in r.graph.nodes
  {
    if checks == [] then RiskState(g, [], false)
    else
      var done, check := WithRiskChecks(c, rank, g, risk, checks[..|checks| - 1]), checks[|checks| - 1];
      if done.failed || check.variants != [] then done.(failed := true)
      else if !c.Accepts(check.filters) then done
      else
        var g1 := done.graph.AddNode(ExecutionNode(check.codeId));
        AddNodeKeepsSound(c, rank, done.graph, ExecutionNode(check.codeId));
        AddEdgeKeepsSound(c, rank, g1, CodeNode(check.codeId), RiskMrn(risk), Some(IGNORED_IMPACT));
        RiskState(g1.AddEdge(CodeNode(check.codeId), RiskMrn(risk), Some(IGNORED_IMPACT)),
          done.codes + [check.codeId], false)
  }

  /** The data queries of a risk factor only bring their code. */
  ghost function WithRiskQueries(c: Config, rank: Mrn -> nat, g: JobGraph, queries: seq<Mquery>): (r: RiskState)
    requires Sound(c, rank, g)
    ensures Extends(c, rank, g, r.graph)
  {
    if queries == [] then RiskState(g, [], false)
    else
      var done, q := WithRiskQueries(c, rank, g, queries[..|queries| - 1]), queries[|queries| - 1];
      if done.failed || q.variants != [] then done.(failed := true)
      else if !c.Accepts(q.filters) then done
      else
        AddNodeKeepsSound(c, rank, done.graph, ExecutionNode(q.codeId));
        RiskState(done.graph.AddNode(ExecutionNode(q.codeId)), done.codes + [q.codeId], false)
  }

  predicate RunsRisk(c: Config, r: RiskFactor) {
    CanRun(c.ActionOf(RiskMrn(r.mrn))) && c.Accepts(r.filters)
  }

  /** A risk factor: whether it was added, or an error when one of its checks or queries has
      variants. What was added before an error stays. */
  ghost function WithRisk(
      c: Config, rank: Mrn -> nat, g: JobGraph, r: RiskFactor): (res: (JobGraph, Result<bool, string>))
    requires Sound(c, rank, g)
    ensures Extends(c, rank, g, res.0)
    ensures res.1 == Ok(true) ==> RiskMrn(r.mrn) in res.0.nodes
  {
    if !RunsRisk(c, r) then (g, Ok(false))
    else
      var checks := WithRiskChecks(c, rank, g, r.mrn, r.checks);
      if checks.failed then (checks.graph, Err(RISK_CHECK_ERROR))
      else
        var data := WithRiskQueries(c, rank, checks.graph, r.queries);
        if data.failed then (data.graph, Err(RISK_QUERY_ERROR))
        else if checks.codes == [] && data.codes == [] then (data.graph, Ok(false))
        else
          AddNodeKeepsSound(c, rank, data.graph, RiskNode(r.mrn, checks.codes));
          (data.graph.AddNode(RiskNode(r.mrn, checks.codes)), Ok(true))
  }

  const RISK_CHECK_ERROR := "risk factor checks cannot have variants"

  const RISK_QUERY_ERROR := "risk factor data queries cannot have variants"
}
