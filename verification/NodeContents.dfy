/** What the nodes of policies and risk factors hold, in terms of the records of the bundle. */
module NodeContents {
  import opened Wrappers
  import opened PolicyTypes
  import opened PolicyWindow
  import opened PolicyBundle
  import opened JobGraph
  import opened Digraph
  import opened Sequences
  import opened VariantSelection
  import opened GraphRules
  import opened GraphParts
  import opened PolicyRules
  import opened PolicyParts
  import opened GraphContents
  import opened PlainTerms

  /** The codes of the checks that are meant for the asset, in order. */
  function CodesOf(c: Config, checks: seq<Mquery>): seq<CodeId> {
    if checks == [] then []
    else
      var front, last := CodesOf(c, checks[..|checks| - 1]), checks[|checks| - 1];
      if IsSupported(c, last.filters) then front + [last.codeId] else front
  }

  /** The node of a policy holds its graph checksum, its scoring override, and whether it is that of
      the bundle. */
  ghost predicate IsPolicyNode(c: Config, p: Mrn, n: Node) {
    && n.PolicyNode? && n.mrn == p && p in c.bundle.policies && n.graphChecksum == c.bundle.policies[p].graphChecksum
    && n.scoring == (if p in c.scorings then c.scorings[p] else ScoringUnspecified)
    && (n.isRoot <==> p == c.bundleMrn)
  }

  /** The node of a risk factor holds the codes of the checks of a risk factor with this MRN that an
      active policy has and that counts. */
  ghost predicate HoldsRisk(c: Config, k: Mrn, n: Node) {
    && n.RiskNode? && n.mrn == k
    && exists p, r :: HasIt(c, p, r) && r.mrn == k && RiskCounts(c, r) && n.selectedCodes == CodesOf(c, r.checks)
  }

  ghost predicate HasIt(c: Config, p: Mrn, r: RiskFactor) {
    IsActive(c, p) && r in c.bundle.policies[p].riskFactors && r.checks != []
  }

  /** If the node is there then it holds what it should. */
  ghost predicate IsFilled(c: Config, g: JobGraph, id: Id) {
    id in g.nodes ==>
      match id
      case PolicyMrn(p) => IsPolicyNode(c, p, g.nodes[id])
      case RiskMrn(k) => HoldsRisk(c, k, g.nodes[id])
      case _ => true
  }

  /** The node is the same in both graphs, if it is there. */
  predicate SameNode(g: JobGraph, h: JobGraph, id: Id) {
    (id in g.nodes <==> id in h.nodes) && (id in g.nodes ==> g.nodes[id] == h.nodes[id])
  }

  lemma SameStaysFilled(c: Config, g: JobGraph, h: JobGraph, id: Id)
    requires SameNode(g, h, id) && IsFilled(c, g, id)
    ensures IsFilled(c, h, id)
  {
  }

  // ----- queries and risk factors -----

  lemma QueryKeepsNode(c: Config, g: JobGraph, m: Mrn, code: CodeId, feeder: Id, impact: Option<Impact>, id: Id)
    requires !id.QueryMrn?
    ensures SameNode(g, WithQuery(c, g, m, code, feeder, impact), id)
  {
  }

  lemma {:induction false} SelectedKeepsNode(c: Config, rank: Mrn -> nat, g: JobGraph, m: Mrn, id: Id)
    requires Sound(c, rank, g) && Select(c, rank, m).Some? && !id.QueryMrn? && !id.CodeNode?
    ensures SameNode(g, WithSelected(c, rank, g, m), id)
    decreases Level(c.bundle.queries, rank, m)
  {
    SelectedUnfolds(c, rank, g, m);
    var feeder, code := Feeder(c, rank, m), Select(c, rank, m).value;
    var g1 := g.AddNode(ExecutionNode(code));
    if feeder.QueryMrn? {
      SelectedKeepsNode(c, rank, g, feeder.mrn, id);
      g1 := WithSelected(c, rank, g, feeder.mrn);
    }
    QueryKeepsNode(c, g1, m, code, feeder, QueryImpact(c, m), id);
  }

  lemma {:induction false} QueriesKeepNode(
      c: Config, rank: Mrn -> nat, g: JobGraph, p: Mrn, groupType: GroupType, refs: seq<QueryRef>, check: bool, id: Id)
    requires Sound(c, rank, g) && IsActive(c, p) && AreListed(c, p, groupType, refs, check)
    requires !id.QueryMrn? && !id.CodeNode?
    ensures SameNode(g, WithQueries(c, rank, g, p, groupType, refs, check), id)
    decreases |refs|
  {
    if refs != [] {
      var front, last := refs[..|refs| - 1], refs[|refs| - 1];
      QueriesKeepNode(c, rank, g, p, groupType, front, check, id);
      ListedKeepsNode(c, rank, WithQueries(c, rank, g, p, groupType, front, check), p, groupType, last, check, id);
    }
  }

  lemma ListedKeepsNode(
      c: Config, rank: Mrn -> nat, g: JobGraph, p: Mrn, groupType: GroupType, ref: QueryRef, check: bool, id: Id)
    requires Sound(c, rank, g) && IsActive(c, p) && AreListed(c, p, groupType, [ref], check)
    requires !id.QueryMrn? && !id.CodeNode?
    ensures SameNode(g, WithListed(c, rank, g, p, groupType, ref, check), id)
  {
    ListedUnfolds(c, rank, g, p, groupType, ref, check);
    if !IsOverride(ref.action, groupType) && Select(c, rank, ref.mrn).Some? {
      SelectedKeepsNode(c, rank, g, ref.mrn, id);
    }
  }

  lemma {:induction false} RiskChecksKeepNode(
      c: Config, rank: Mrn -> nat, g: JobGraph, risk: Mrn, checks: seq<Mquery>, id: Id)
    requires Sound(c, rank, g) && !id.CodeNode?
    ensures SameNode(g, WithRiskChecks(c, rank, g, risk, checks).graph, id)
  {
    if checks != [] {
      RiskChecksKeepNode(c, rank, g, risk, checks[..|checks| - 1], id);
    }
  }

  lemma {:induction false} RiskChecksGiveCodes(
      c: Config, rank: Mrn -> nat, g: JobGraph, risk: Mrn, checks: seq<Mquery>)
    requires Sound(c, rank, g) && NoneVaries(checks)
    ensures WithRiskChecks(c, rank, g, risk, checks).codes == CodesOf(c, checks)
  {
    if checks != [] {
      var front, last := checks[..|checks| - 1], checks[|checks| - 1];
      RiskChecksGiveCodes(c, rank, g, risk, front);
      RiskCheckCodes(c, rank, g, risk, front);
      InFrontOrLast(checks);
      AcceptsIff(c, last.filters);
    }
  }

  lemma {:induction false} RiskQueriesKeepNode(c: Config, rank: Mrn -> nat, g: JobGraph, queries: seq<Mquery>, id: Id)
    requires Sound(c, rank, g) && !id.CodeNode?
    ensures SameNode(g, WithRiskQueries(c, rank, g, queries).graph, id)
  {
    if queries != [] {
      RiskQueriesKeepNode(c, rank, g, queries[..|queries| - 1], id);
    }
  }

  lemma SameIsTransitive(f: JobGraph, g: JobGraph, h: JobGraph, id: Id)
    requires SameNode(f, g, id) && SameNode(g, h, id)
    ensures SameNode(f, h, id)
  {
  }

  /** Only the node of the risk factor itself changes, and only if it is added. */
  lemma RiskKeepsOther(c: Config, rank: Mrn -> nat, g: JobGraph, r: RiskFactor, id: Id)
    requires Sound(c, rank, g) && !id.CodeNode? && (id == RiskMrn(r.mrn) ==> !AddsRisk(c, r))
    ensures SameNode(g, WithRisk(c, rank, g, r).0, id)
  {
    if RunsRisk(c, r) {
      var g1 := WithRiskChecks(c, rank, g, r.mrn, r.checks).graph;
      RiskChecksKeepNode(c, rank, g, r.mrn, r.checks, id);
      RiskTailKeepsOther(c, rank, g, r, id);
      SameIsTransitive(g, g1, WithRisk(c, rank, g, r).0, id);
    }
  }

  lemma RiskTailKeepsOther(c: Config, rank: Mrn -> nat, g: JobGraph, r: RiskFactor, id: Id)
    requires Sound(c, rank, g) && RunsRisk(c, r) && !id.CodeNode? && (id == RiskMrn(r.mrn) ==> !AddsRisk(c, r))
    ensures SameNode(WithRiskChecks(c, rank, g, r.mrn, r.checks).graph, WithRisk(c, rank, g, r).0, id)
  {
    if NoneVaries(r.checks) {
      RiskDataKeepsOther(c, rank, WithRiskChecks(c, rank, g, r.mrn, r.checks), WithRisk(c, rank, g, r).0, r, id) by {
        RiskLastStep(c, rank, g, r);
      }
    } else {
      RiskStops(c, rank, g, r);
    }
  }

  lemma RiskDataKeepsOther(c: Config, rank: Mrn -> nat, checks: RiskState, h: JobGraph, r: RiskFactor, id: Id)
    requires Sound(c, rank, checks.graph) && !id.CodeNode? && (id == RiskMrn(r.mrn) ==> !AddsRisk(c, r))
    requires var data := WithRiskQueries(c, rank, checks.graph, r.queries).graph;
      h == if AddsRisk(c, r) then data.AddNode(RiskNode(r.mrn, checks.codes)) else data
    ensures SameNode(checks.graph, h, id)
  {
    RiskQueriesKeepNode(c, rank, checks.graph, r.queries, id);
  }

  lemma RiskStops(c: Config, rank: Mrn -> nat, g: JobGraph, r: RiskFactor)
    requires Sound(c, rank, g) && RunsRisk(c, r) && !NoneVaries(r.checks)
    ensures WithRisk(c, rank, g, r).0 == WithRiskChecks(c, rank, g, r.mrn, r.checks).graph
  {
    RiskCheckCodes(c, rank, g, r.mrn, r.checks);
  }

  lemma AddedRiskIsNode(c: Config, rank: Mrn -> nat, g: JobGraph, r: RiskFactor)
    requires Sound(c, rank, g) && AddsRisk(c, r)
    ensures var h := WithRisk(c, rank, g, r).0;
      RiskMrn(r.mrn) in h.nodes && h.nodes[RiskMrn(r.mrn)] == RiskNode(r.mrn, CodesOf(c, r.checks))
  {
    RiskLastStep(c, rank, g, r);
    RiskChecksGiveCodes(c, rank, g, r.mrn, r.checks);
  }

  lemma RiskIsFilled(c: Config, rank: Mrn -> nat, g: JobGraph, p: Mrn, r: RiskFactor, id: Id)
    requires Sound(c, rank, g) && HasIt(c, p, r) && IsFilled(c, g, id)
    ensures IsFilled(c, WithRisk(c, rank, g, r).0, id)
  {
    if id == RiskMrn(r.mrn) && AddsRisk(c, r) {
      AddedRiskIsNode(c, rank, g, r);
      RiskCountsIff(c, r);
    } else if !id.CodeNode? {
      RiskKeepsOther(c, rank, g, r, id);
      SameStaysFilled(c, g, WithRisk(c, rank, g, r).0, id);
    }
  }

  // ----- policies -----

  lemma {:induction false} RisksAreFilled(
      c: Config, rank: Mrn -> nat, g: JobGraph, p: Mrn, risks: seq<RiskFactor>, id: Id)
    requires Sound(c, rank, g) && IsActive(c, p) && IsFilled(c, g, id)
    requires forall r :: r in risks ==> r in c.bundle.policies[p].riskFactors
    ensures IsFilled(c, WithRisks(c, rank, g, p, risks).0, id)
  {
    if risks != [] {
      var front, last := risks[..|risks| - 1], risks[|risks| - 1];
      RisksAreFilled(c, rank, g, p, front, id);
      RiskStep(c, rank, g, p, risks);
      if last.checks != [] {
        RiskIsFilled(c, rank, WithRisks(c, rank, g, p, front).0, p, last, id);
      }
    }
  }

  lemma {:induction false} PolicyIsFilled(c: Config, ranks: Ranks, g: JobGraph, m: Mrn, id: Id)
    requires WellFormed(c, ranks) && Sound(c, ranks.query, g) && m in c.bundle.policies
    requires Reaches(RunningPolicies(c), c.bundleMrn, m) && IsFilled(c, g, id)
    ensures IsFilled(c, WithPolicy(c, ranks, g, m).0, id)
    decreases Level(c.bundle.policies, ranks.policy, m), 0, 0
  {
    if RunsPolicy(c, c.bundle.policies[m]) {
      var bound := Level(c.bundle.policies, ranks.policy, m) - 1;
      PolicyStarts(c, ranks, g, m, bound);
      NodeIsFilled(c, g, m, id);
      OwnAreFilled(c, ranks, g.AddNode(NodeOfPolicy(c, c.bundle.policies[m])), m, bound, id);
    }
  }

  lemma NodeIsFilled(c: Config, g: JobGraph, m: Mrn, id: Id)
    requires m in c.bundle.policies && c.bundle.policies[m].mrn == m && IsFilled(c, g, id)
    ensures IsFilled(c, g.AddNode(NodeOfPolicy(c, c.bundle.policies[m])), id)
  {
    if id != PolicyMrn(m) {
      SameStaysFilled(c, g, g.AddNode(NodeOfPolicy(c, c.bundle.policies[m])), id);
    }
  }

  lemma OwnAreFilled(c: Config, ranks: Ranks, g: JobGraph, m: Mrn, bound: nat, id: Id)
    requires WellFormed(c, ranks) && Sound(c, ranks.query, g) && IsActive(c, m) && IsFilled(c, g, id)
    requires GroupsBelow(c, ranks, c.bundle.policies[m].groups, bound) && GroupsKnown(c, m, c.bundle.policies[m].groups)
    ensures IsFilled(c, WithPolicyParts(c, ranks, g, m, bound).0, id)
    decreases bound, 3, 0
  {
    var groups, risks := c.bundle.policies[m].groups, c.bundle.policies[m].riskFactors;
    GroupsAreFilled(c, ranks, g, m, groups, bound, id);
    RisksAreFilled(c, ranks.query, WithGroups(c, ranks, g, m, groups, bound), m, risks, id);
  }

  lemma {:induction false} GroupsAreFilled(
      c: Config, ranks: Ranks, g: JobGraph, m: Mrn, groups: seq<Group>, bound: nat, id: Id)
    requires WellFormed(c, ranks) && Sound(c, ranks.query, g) && IsActive(c, m) && IsFilled(c, g, id)
    requires GroupsBelow(c, ranks, groups, bound) && GroupsKnown(c, m, groups)
    ensures IsFilled(c, WithGroups(c, ranks, g, m, groups, bound), id)
    decreases bound, 2, |groups|
  {
    if groups != [] {
      var front, last := groups[..|groups| - 1], groups[|groups| - 1];
      var g1 := LastGroup(c, ranks, g, m, groups, bound);
      GroupsAreFilled(c, ranks, g, m, front, bound, id);
      if Matches(c.target, last) {
        GroupIsFilled(c, ranks, g1, m, last, bound, id);
      }
    }
  }

  lemma GroupIsFilled(c: Config, ranks: Ranks, g: JobGraph, m: Mrn, group: Group, bound: nat, id: Id)
    requires WellFormed(c, ranks) && Sound(c, ranks.query, g) && IsActive(c, m) && IsFilled(c, g, id)
    requires group in c.bundle.policies[m].groups && Matches(c.target, group)
    requires ListLevel(c.bundle.policies, ranks.policy, group.policies) <= bound
    ensures IsFilled(c, WithGroup(c, ranks, g, m, group, bound), id)
    decreases bound, 1, |group.policies| + 1
  {
    PolicyRules.GroupOffers(c, ranks, m, group);
    ReferencesAreFilled(c, ranks, g, m, group.policies, bound, id);
    var g1 := WithReferences(c, ranks, g, m, group.policies, bound);
    var g2 := WithQueries(c, ranks.query, g1, m, group.groupType, group.checks, true);
    if !id.QueryMrn? && !id.CodeNode? {
      QueriesKeepNode(c, ranks.query, g1, m, group.groupType, group.checks, true, id);
      QueriesKeepNode(c, ranks.query, g2, m, group.groupType, group.queries, false, id);
      SameStaysFilled(c, g1, WithGroup(c, ranks, g, m, group, bound), id);
    }
  }

  lemma {:induction false} ReferencesAreFilled(
      c: Config, ranks: Ranks, g: JobGraph, m: Mrn, refs: seq<Mrn>, bound: nat, id: Id)
    requires WellFormed(c, ranks) && Sound(c, ranks.query, g) && IsActive(c, m) && AllKnown(c, refs)
    requires AllReached(c, m, refs) && ListLevel(c.bundle.policies, ranks.policy, refs) <= bound && IsFilled(c, g, id)
    ensures IsFilled(c, WithReferences(c, ranks, g, m, refs, bound), id)
    decreases bound, 1, |refs|
  {
    if refs != [] {
      var front, last := refs[..|refs| - 1], refs[|refs| - 1];
      var g1 := LastReference(c, ranks, g, m, refs, bound);
      ReferencesAreFilled(c, ranks, g, m, front, bound, id);
      ReferenceIsFilled(c, ranks, g1, m, last, bound, id);
    }
  }

  lemma ReferenceIsFilled(c: Config, ranks: Ranks, g: JobGraph, m: Mrn, r: Mrn, bound: nat, id: Id)
    requires WellFormed(c, ranks) && Sound(c, ranks.query, g) && IsActive(c, m) && r in c.bundle.policies
    requires Edge(RunningPolicies(c), m, r) && Level(c.bundle.policies, ranks.policy, r) <= bound && IsFilled(c, g, id)
    ensures IsFilled(c, WithReference(c, ranks, g, m, r, bound), id)
    decreases bound, 1, 0
  {
    ReachesOneMore(RunningPolicies(c), c.bundleMrn, m, r);
    PolicyIsFilled(c, ranks, g, r, id);
  }

  // ----- frameworks -----

  /** Frameworks leave the nodes that are there as they are, apart from those of controls. */
  predicate StaysNode(g: JobGraph, h: JobGraph, id: Id) {
    id in g.nodes && !id.ControlMrn? ==> id in h.nodes && h.nodes[id] == g.nodes[id]
  }

  lemma ControlKeepsNode(c: Config, rank: Mrn -> nat, g: JobGraph, control: Control, id: Id)
    requires Sound(c, rank, g)
    ensures StaysNode(g, WithControl(c, rank, g, control), id)
  {
    assert WithControlEdges(c, rank, g, control).0.nodes == g.nodes;
  }

  lemma {:induction false} OwnedKeepNode(
      c: Config, rank: Mrn -> nat, g: JobGraph, owner: Mrn, controls: seq<Control>, id: Id)
    requires Sound(c, rank, g)
    ensures StaysNode(g, WithOwnedControls(c, rank, g, owner, controls), id)
  {
    if controls != [] {
      var front, last := controls[..|controls| - 1], controls[|controls| - 1];
      OwnedKeepNode(c, rank, g, owner, front, id);
      OwnedOneKeepsNode(c, rank, WithOwnedControls(c, rank, g, owner, front), owner, last, id);
    }
  }

  lemma OwnedOneKeepsNode(c: Config, rank: Mrn -> nat, g: JobGraph, owner: Mrn, control: Control, id: Id)
    requires Sound(c, rank, g)
    ensures StaysNode(g, WithOwned(c, rank, g, owner, control), id)
  {
    ControlKeepsNode(c, rank, g, control, id);
  }

  lemma {:induction false} MapsKeepNode(c: Config, rank: Mrn -> nat, g: JobGraph, maps: seq<FrameworkMap>, id: Id)
    requires Sound(c, rank, g)
    ensures StaysNode(g, WithMaps(c, rank, g, maps), id)
  {
    if maps != [] {
      var front, last := maps[..|maps| - 1], maps[|maps| - 1];
      MapsKeepNode(c, rank, g, front, id);
      OwnedKeepNode(c, rank, WithMaps(c, rank, g, front), last.owner, last.controls, id);
    }
  }

  lemma {:induction false} FrameworkKeepsNode(c: Config, ranks: Ranks, g: JobGraph, m: Mrn, id: Id)
    requires WellFormed(c, ranks) && Sound(c, ranks.query, g) && m in c.bundle.frameworks
    ensures StaysNode(g, WithFramework(c, ranks, g, m), id)
    decreases Level(c.bundle.frameworks, ranks.framework, m), 0, 0
  {
    if RunsFramework(c, m) {
      var owner := FrameworkId(c, m);
      var impact := if owner in g.nodes then Some(IGNORED_IMPACT) else None;
      AddNodeKeepsSound(c, ranks.query, g, FrameworkNode(owner));
      BodyKeepsNode(c, ranks, if owner in g.nodes then g else g.AddNode(FrameworkNode(owner)), m, impact, id);
    }
  }

  lemma BodyKeepsNode(c: Config, ranks: Ranks, g: JobGraph, m: Mrn, impact: Option<Impact>, id: Id)
    requires WellFormed(c, ranks) && Sound(c, ranks.query, g) && m in c.bundle.frameworks && IsPlain(impact)
    ensures StaysNode(g, WithFrameworkParts(c, ranks, g, m, impact), id)
    decreases Level(c.bundle.frameworks, ranks.framework, m) - 1, 2, 0
  {
    var f, bound := c.bundle.frameworks[m], Level(c.bundle.frameworks, ranks.framework, m) - 1;
    DependenciesAreLower(c, ranks, m);
    FrameworkBody(c, ranks, g, m, impact, bound);
    MapsKeepNode(c, ranks.query, g, f.maps, id);
    DependenciesKeepNode(c, ranks, WithMaps(c, ranks.query, g, f.maps), FrameworkId(c, m), impact, f.dependencies,
      bound, id);
  }

  lemma {:induction false} DependenciesKeepNode(
      c: Config, ranks: Ranks, g: JobGraph, owner: Id, impact: Option<Impact>, deps: seq<Mrn>, bound: nat, id: Id)
    requires WellFormed(c, ranks) && Sound(c, ranks.query, g) && IsPlain(impact)
    requires (owner.FrameworkMrn? || owner.PolicyMrn?) && ListLevel(c.bundle.frameworks, ranks.framework, deps) <= bound
    ensures StaysNode(g, WithDependencies(c, ranks, g, owner, impact, deps, bound), id)
    decreases bound, 1, |deps|
  {
    if deps != [] {
      var front, last := deps[..|deps| - 1], deps[|deps| - 1];
      DependenciesKeepNode(c, ranks, g, owner, impact, front, bound, id);
      DependencyKeepsNode(c, ranks, WithDependencies(c, ranks, g, owner, impact, front, bound), owner, impact, last,
        bound, id);
    }
  }

  lemma DependencyKeepsNode(
      c: Config, ranks: Ranks, g: JobGraph, owner: Id, impact: Option<Impact>, d: Mrn, bound: nat, id: Id)
    requires WellFormed(c, ranks) && Sound(c, ranks.query, g) && IsPlain(impact)
    requires (owner.FrameworkMrn? || owner.PolicyMrn?) && Level(c.bundle.frameworks, ranks.framework, d) <= bound
    ensures StaysNode(g, WithDependency(c, ranks, g, owner, impact, d, bound), id)
    decreases bound, 1, 0
  {
    if d in c.bundle.frameworks {
      FrameworkKeepsNode(c, ranks, g, d, id);
    }
  }

  // ----- the whole graph -----

  /** A policy that a chain leads to has the risk factor, and this counts. */
  ghost predicate HasCounting(c: Config, p: Mrn, r: RiskFactor) {
    && IsOnChain(c, p) && p in c.bundle.policies && r in c.bundle.policies[p].riskFactors && r.checks != []
    && RiskCounts(c, r)
  }

  /** The node of a risk factor holds the codes of the checks of such a risk factor with this MRN. */
  ghost predicate IsRiskNode(c: Config, k: Mrn, n: Node) {
    && n.RiskNode? && n.mrn == k
    && exists p, r :: HasCounting(c, p, r) && r.mrn == k && n.selectedCodes == CodesOf(c, r.checks)
  }

  lemma RiskIsOnChain(c: Config, ranks: Ranks, k: Mrn, n: Node)
    requires WellFormed(c, ranks) && HoldsRisk(c, k, n)
    ensures IsRiskNode(c, k, n)
  {
    var p, r :| HasIt(c, p, r) && r.mrn == k && RiskCounts(c, r) && n.selectedCodes == CodesOf(c, r.checks);
    ActiveIff(c, ranks, p);
    assert HasCounting(c, p, r);
  }

  /** The node of a policy on a chain, and that of a risk factor, hold what the bundle says. */
  lemma NodesAreFilled(c: Config, ranks: Ranks, id: Id)
    requires WellFormed(c, ranks) && c.bundleMrn in c.bundle.policies && id in WholeGraph(c, ranks).nodes
    ensures id.PolicyMrn? && IsOnChain(c, id.mrn) ==> IsPolicyNode(c, id.mrn, WholeGraph(c, ranks).nodes[id])
    ensures id.RiskMrn? ==> IsRiskNode(c, id.mrn, WholeGraph(c, ranks).nodes[id])
  {
    NodesAreHeld(c, ranks, id);
    if id.PolicyMrn? {
      ActiveIff(c, ranks, id.mrn);
    } else if id.RiskMrn? {
      RiskIsOnChain(c, ranks, id.mrn, WholeGraph(c, ranks).nodes[id]);
    }
  }

  lemma NodesAreHeld(c: Config, ranks: Ranks, id: Id)
    requires WellFormed(c, ranks) && c.bundleMrn in c.bundle.policies && id in WholeGraph(c, ranks).nodes
    ensures id.PolicyMrn? && IsActive(c, id.mrn) ==> IsPolicyNode(c, id.mrn, WholeGraph(c, ranks).nodes[id])
    ensures id.RiskMrn? ==> HoldsRisk(c, id.mrn, WholeGraph(c, ranks).nodes[id])
  {
    var g := FilledStart(c, ranks, id);
    if c.bundleMrn in c.bundle.frameworks {
      FrameworkKeepsNode(c, ranks, g, c.bundleMrn, id);
    }
    NodesIff(c, ranks, id);
  }

  lemma FilledStart(c: Config, ranks: Ranks, id: Id) returns (g: JobGraph)
    requires WellFormed(c, ranks) && c.bundleMrn in c.bundle.policies
    ensures Sound(c, ranks.query, g) && IsFilled(c, g, id)
    ensures id in g.nodes <==> IncludedByPolicies(c, ranks.query, id)
    ensures WholeGraph(c, ranks) ==
      if c.bundleMrn in c.bundle.frameworks then WithFramework(c, ranks, g, c.bundleMrn) else g
  {
    EmptyIsSound(c, ranks.query);
    ReachesSelf(RunningPolicies(c), c.bundleMrn);
    g := WithPolicy(c, ranks, EMPTY_GRAPH, c.bundleMrn).0;
    PolicyIsFilled(c, ranks, EMPTY_GRAPH, c.bundleMrn, id);
    StartParts(c, ranks, NodePart(id));
    ActiveNodes(c, ranks.query, id);
  }
}
