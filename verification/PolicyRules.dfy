/** What policies, controls and frameworks contribute to the graph. */
module PolicyRules {
  import opened Wrappers
  import opened PolicyTypes
  import opened PolicyBundle
  import opened QueryTypes
  import opened JobGraph
  import opened Digraph
  import opened VariantSelection
  import opened GraphRules

  /** Records are filed under their MRNs, references to policies resolve, and nothing is circular. */
  ghost predicate WellFormed(c: Config, ranks: Ranks) {
    && VariantsDescend(c.bundle.queries, ranks.query) && QueriesFiled(c.bundle.queries)
    && PoliciesDescend(c.bundle.policies, ranks.policy)
    && (forall m :: m in c.bundle.policies ==> c.bundle.policies[m].mrn == m)
    && (forall m, g, p :: m in c.bundle.policies && g in c.bundle.policies[m].groups && p in g.policies ==>
      p in c.bundle.policies)
    && FrameworksDescend(c.bundle.frameworks, ranks.framework)
    && (forall m :: m in c.bundle.frameworks ==> c.bundle.frameworks[m].mrn == m)
  }

  /** What a group of a policy lists, and does not override, is listed by the policy. */
  ghost predicate AreListed(c: Config, p: Mrn, groupType: GroupType, refs: seq<QueryRef>, check: bool) {
    forall ref :: ref in refs && !IsOverride(ref.action, groupType) ==> ListsAs(c, p, ref.mrn, check)
  }

  /** A query listed by a group of a policy, unless the group overrides it. */
  ghost function WithListed(
      c: Config, rank: Mrn -> nat, g: JobGraph, p: Mrn, groupType: GroupType, ref: QueryRef, check: bool): (h: JobGraph)
    requires Sound(c, rank, g) && IsActive(c, p) && AreListed(c, p, groupType, [ref], check)
    ensures Extends(c, rank, g, h)
  {
    if IsOverride(ref.action, groupType) || Select(c, rank, ref.mrn).None? then g
    else
      var g1 := WithSelected(c, rank, g, ref.mrn);
      assert ref in [ref];
      AddEdgeKeepsSound(c, rank, g1, QueryMrn(ref.mrn), PolicyMrn(p), ListedImpact(c, ref.mrn, check));
      g1.AddEdge(QueryMrn(ref.mrn), PolicyMrn(p), ListedImpact(c, ref.mrn, check))
  }

  lemma ListedUnfolds(
      c: Config, rank: Mrn -> nat, g: JobGraph, p: Mrn, groupType: GroupType, ref: QueryRef, check: bool)
    requires Sound(c, rank, g) && IsActive(c, p) && AreListed(c, p, groupType, [ref], check)
    ensures WithListed(c, rank, g, p, groupType, ref, check) ==
      if IsOverride(ref.action, groupType) || Select(c, rank, ref.mrn).None? then g
      else
        WithSelected(c, rank, g, ref.mrn)
          .AddEdge(QueryMrn(ref.mrn), PolicyMrn(p), ListedImpact(c, ref.mrn, check))
  {
  }

  ghost function WithQueries(
      c: Config, rank: Mrn -> nat, g: JobGraph, p: Mrn, groupType: GroupType, refs: seq<QueryRef>,
        check: bool): (h: JobGraph)
    requires Sound(c, rank, g) && IsActive(c, p) && AreListed(c, p, groupType, refs, check)
    ensures Extends(c, rank, g, h)
  {
    if refs == [] then g
    else
      WithListed(c, rank, WithQueries(c, rank, g, p, groupType, refs[..|refs| - 1], check), p, groupType,
        refs[|refs| - 1], check)
  }

  /** The risk factors of a policy; those without checks are passed over, those with errors leave
      what they had added. */
  ghost function WithRisks(
      c: Config, rank: Mrn -> nat, g: JobGraph, p: Mrn, risks: seq<RiskFactor>): (res: (JobGraph, bool))
    requires Sound(c, rank, g)
    ensures Extends(c, rank, g, res.0)
  {
    if risks == [] then (g, false)
    else
      var done, r := WithRisks(c, rank, g, p, risks[..|risks| - 1]), risks[|risks| - 1];
      if r.checks == [] then done
      else
        var added := WithRisk(c, rank, done.0, r);
        if added.1 == Ok(true) then
          AddEdgeKeepsSound(c, rank, added.0, RiskMrn(r.mrn), PolicyMrn(p), Some(IGNORED_IMPACT));
          (added.0.AddEdge(RiskMrn(r.mrn), PolicyMrn(p), Some(IGNORED_IMPACT)), true)
        else (added.0, done.1)
  }

  predicate AnyMatches(c: Config, groups: seq<Group>) {
    exists group :: group in groups && Matches(c.target, group)
  }

  function NodeOfPolicy(c: Config, p: Policy): Node {
    PolicyNode(p.mrn, p.graphChecksum, c.ScoringOf(p.mrn), c.bundleMrn == p.mrn)
  }

  ghost predicate GroupsBelow(c: Config, ranks: Ranks, groups: seq<Group>, bound: nat) {
    forall g :: g in groups ==> ListLevel(c.bundle.policies, ranks.policy, g.policies) <= bound
  }

  ghost predicate AllKnown(c: Config, refs: seq<Mrn>) {
    forall p :: p in refs ==> p in c.bundle.policies
  }

  ghost predicate GroupsKnown(c: Config, m: Mrn, groups: seq<Group>) {
    m in c.bundle.policies && forall g :: g in groups ==> g in c.bundle.policies[m].groups
  }

  /** The policies that a matching group of an active policy refers to. */
  ghost predicate AllReached(c: Config, m: Mrn, refs: seq<Mrn>) {
    forall p :: p in refs ==> Edge(RunningPolicies(c), m, p)
  }

  /** What a matching group of an active policy offers. */
  lemma GroupOffers(c: Config, ranks: Ranks, m: Mrn, g: Group)
    requires WellFormed(c, ranks) && IsActive(c, m) && g in c.bundle.policies[m].groups && Matches(c.target, g)
    ensures AllKnown(c, g.policies) && AllReached(c, m, g.policies)
    ensures AreListed(c, m, g.groupType, g.checks, true) && AreListed(c, m, g.groupType, g.queries, false)
  {
    forall ref | ref in g.checks && !IsOverride(ref.action, g.groupType) ensures ListsAs(c, m, ref.mrn, true) {
      assert ref in ListOf(g, true);
    }
    forall ref | ref in g.queries && !IsOverride(ref.action, g.groupType) ensures ListsAs(c, m, ref.mrn, false) {
      assert ref in ListOf(g, false);
    }
  }

  lemma GroupsOf(c: Config, ranks: Ranks, m: Mrn)
    requires WellFormed(c, ranks) && m in c.bundle.policies
    ensures GroupsBelow(c, ranks, c.bundle.policies[m].groups, Level(c.bundle.policies, ranks.policy, m) - 1)
    ensures GroupsKnown(c, m, c.bundle.policies[m].groups)
  {
    forall g | g in c.bundle.policies[m].groups
      ensures ListLevel(c.bundle.policies, ranks.policy, g.policies) <= Level(c.bundle.policies, ranks.policy, m) - 1
    {
      GroupIsLower(c.bundle, m, g, ranks.policy);
    }
  }

  /** A policy with everything it refers to, and whether it counts as added. */
  ghost function WithPolicy(c: Config, ranks: Ranks, g: JobGraph, m: Mrn): (res: (JobGraph, bool))
    requires WellFormed(c, ranks) && Sound(c, ranks.query, g) && m in c.bundle.policies
    requires Reaches(RunningPolicies(c), c.bundleMrn, m)
    ensures Extends(c, ranks.query, g, res.0) && (res.1 ==> PolicyMrn(m) in res.0.nodes)
    decreases Level(c.bundle.policies, ranks.policy, m), 0, 0
  {
    var p := c.bundle.policies[m];
    if !RunsPolicy(c, p) then (g, false)
    else
      AddNodeKeepsSound(c, ranks.query, g, NodeOfPolicy(c, p));
      GroupsOf(c, ranks, m);
      WithPolicyParts(c, ranks, g.AddNode(NodeOfPolicy(c, p)), m, Level(c.bundle.policies, ranks.policy, m) - 1)
  }

  ghost function WithPolicyParts(c: Config, ranks: Ranks, g: JobGraph, m: Mrn, bound: nat): (res: (JobGraph, bool))
    requires WellFormed(c, ranks) && Sound(c, ranks.query, g) && IsActive(c, m)
    requires GroupsBelow(c, ranks, c.bundle.policies[m].groups, bound) && GroupsKnown(c, m, c.bundle.policies[m].groups)
    ensures Extends(c, ranks.query, g, res.0)
    decreases bound, 3, 0
  {
    var g1 := WithGroups(c, ranks, g, m, c.bundle.policies[m].groups, bound);
    var r := WithRisks(c, ranks.query, g1, m, c.bundle.policies[m].riskFactors);
    (r.0, r.1 || AnyMatches(c, c.bundle.policies[m].groups))
  }

  ghost function WithGroups(c: Config, ranks: Ranks, g: JobGraph, m: Mrn, groups: seq<Group>, bound: nat): (h: JobGraph)
    requires WellFormed(c, ranks) && Sound(c, ranks.query, g) && IsActive(c, m)
    requires GroupsBelow(c, ranks, groups, bound) && GroupsKnown(c, m, groups)
    ensures Extends(c, ranks.query, g, h)
    decreases bound, 2, |groups|
  {
    if groups == [] then g
    else
      var done, group := WithGroups(c, ranks, g, m, groups[..|groups| - 1], bound), groups[|groups| - 1];
      if !Matches(c.target, group) then done
      else
        WithGroup(c, ranks, done, m, group, bound)
  }

  ghost function WithGroup(c: Config, ranks: Ranks, g: JobGraph, m: Mrn, group: Group, bound: nat): (h: JobGraph)
    requires WellFormed(c, ranks) && Sound(c, ranks.query, g) && IsActive(c, m)
    requires group in c.bundle.policies[m].groups && Matches(c.target, group)
    requires ListLevel(c.bundle.policies, ranks.policy, group.policies) <= bound
    ensures Extends(c, ranks.query, g, h)
    decreases bound, 1, |group.policies| + 1
  {
    GroupOffers(c, ranks, m, group);
    var g1 := WithReferences(c, ranks, g, m, group.policies, bound);
    var g2 := WithQueries(c, ranks.query, g1, m, group.groupType, group.checks, true);
    WithQueries(c, ranks.query, g2, m, group.groupType, group.queries, false)
  }

  lemma SplitReferences(c: Config, ranks: Ranks, m: Mrn, refs: seq<Mrn>)
    requires refs != [] && AllKnown(c, refs) && AllReached(c, m, refs)
    ensures var front, last := refs[..|refs| - 1], refs[|refs| - 1];
      && AllKnown(c, front) && AllReached(c, m, front) && last in c.bundle.policies && Edge(RunningPolicies(c), m, last)
      && ListLevel(c.bundle.policies, ranks.policy, front) <= ListLevel(c.bundle.policies, ranks.policy, refs)
      && Level(c.bundle.policies, ranks.policy, last) <= ListLevel(c.bundle.policies, ranks.policy, refs)
  {
    assert refs[|refs| - 1] in refs;
  }

  ghost function WithReferences(c: Config, ranks: Ranks, g: JobGraph, m: Mrn, refs: seq<Mrn>, bound: nat): (h: JobGraph)
    requires WellFormed(c, ranks) && Sound(c, ranks.query, g) && IsActive(c, m) && AllKnown(c, refs)
    requires AllReached(c, m, refs)
    requires ListLevel(c.bundle.policies, ranks.policy, refs) <= bound
    ensures Extends(c, ranks.query, g, h)
    decreases bound, 1, |refs|
  {
    if refs == [] then g
    else
      SplitReferences(c, ranks, m, refs);
      var g1 := WithReferences(c, ranks, g, m, refs[..|refs| - 1], bound);
      var h := WithReference(c, ranks, g1, m, refs[|refs| - 1], bound);
      ExtendsTwice(c, ranks.query, g, g1, h);
      h
  }

  ghost function WithReference(c: Config, ranks: Ranks, g: JobGraph, m: Mrn, ref: Mrn, bound: nat): (h: JobGraph)
    requires WellFormed(c, ranks) && Sound(c, ranks.query, g) && ref in c.bundle.policies
    requires IsActive(c, m) && Edge(RunningPolicies(c), m, ref)
    requires Level(c.bundle.policies, ranks.policy, ref) <= bound
    ensures Extends(c, ranks.query, g, h)
    decreases bound, 1, 0
  {
    ReachesOneMore(RunningPolicies(c), c.bundleMrn, m, ref);
    var r := WithPolicy(c, ranks, g, ref);
    if r.1 then
      AddEdgeKeepsSound(c, ranks.query, r.0, PolicyMrn(ref), PolicyMrn(m), ReferenceImpact(c, ref));
      r.0.AddEdge(PolicyMrn(ref), PolicyMrn(m), ReferenceImpact(c, ref))
    else r.0
  }

  /** A policy that runs is its node followed by its parts. */
  lemma PolicyStarts(c: Config, ranks: Ranks, g: JobGraph, m: Mrn, bound: nat)
    requires WellFormed(c, ranks) && Sound(c, ranks.query, g) && m in c.bundle.policies
    requires Reaches(RunningPolicies(c), c.bundleMrn, m) && RunsPolicy(c, c.bundle.policies[m])
    requires bound == Level(c.bundle.policies, ranks.policy, m) - 1
    ensures IsActive(c, m) && Sound(c, ranks.query, g.AddNode(NodeOfPolicy(c, c.bundle.policies[m])))
    ensures GroupsBelow(c, ranks, c.bundle.policies[m].groups, bound)
    ensures GroupsKnown(c, m, c.bundle.policies[m].groups)
    ensures WithPolicy(c, ranks, g, m) ==
      WithPolicyParts(c, ranks, g.AddNode(NodeOfPolicy(c, c.bundle.policies[m])), m, bound)
  {
    AddNodeKeepsSound(c, ranks.query, g, NodeOfPolicy(c, c.bundle.policies[m]));
    GroupsOf(c, ranks, m);
  }

  // ----- controls and frameworks -----

  /** A framework with the MRN of a policy shares its node: that is how space and asset policies
      take the place of the frameworks of the same name. */
  function FrameworkId(c: Config, m: Mrn): Id {
    if m in c.bundle.policies then PolicyMrn(m) else FrameworkMrn(m)
  }

  function IsQuery(g: JobGraph, m: Mrn): bool {
    QueryMrn(m) in g.nodes && g.nodes[QueryMrn(m)].QueryNode?
  }

  /** Controls are fed by the code of a query, not by the query, so impacts do not reach them. */
  ghost function WithControlQueries(
      c: Config, rank: Mrn -> nat, g: JobGraph, control: Mrn, list: seq<Mrn>, ignored: bool): (res: (JobGraph, bool))
    requires Sound(c, rank, g)
    ensures Extends(c, rank, g, res.0) && res.0.nodes == g.nodes
  {
    if list == [] then (g, false)
    else
      var done, m := WithControlQueries(c, rank, g, control, list[..|list| - 1], ignored), list[|list| - 1];
      if !IsQuery(done.0, m) then done
      else
        var impact := if ignored then Some(IGNORED_IMPACT) else ActionToImpact(c, QueryMrn(m));
        var code := CodeNode(done.0.nodes[QueryMrn(m)].selected);
        AddEdgeKeepsSound(c, rank, done.0, code, ControlMrn(control), impact);
        (done.0.AddEdge(code, ControlMrn(control), impact), true)
  }

  ghost function WithControlPolicies(
      c: Config, rank: Mrn -> nat, g: JobGraph, control: Mrn, list: seq<Mrn>): (res: (JobGraph, bool))
    requires Sound(c, rank, g)
    ensures Extends(c, rank, g, res.0) && res.0.nodes == g.nodes
  {
    if list == [] then (g, false)
    else
      var done, m := WithControlPolicies(c, rank, g, control, list[..|list| - 1]), list[|list| - 1];
      if PolicyMrn(m) !in done.0.nodes then done
      else
        AddEdgeKeepsSound(c, rank, done.0, PolicyMrn(m), ControlMrn(control), ActionToImpact(c, PolicyMrn(m)));
        (done.0.AddEdge(PolicyMrn(m), ControlMrn(control), ActionToImpact(c, PolicyMrn(m))), true)
  }

  /** Sub-controls are connected whether or not they are in the graph. */
  ghost function WithControlControls(
      c: Config, rank: Mrn -> nat, g: JobGraph, control: Mrn, list: seq<Mrn>): (h: JobGraph)
    requires Sound(c, rank, g)
    ensures Extends(c, rank, g, h) && h.nodes == g.nodes
  {
    if list == [] then g
    else
      var done, m := WithControlControls(c, rank, g, control, list[..|list| - 1]), list[|list| - 1];
      AddEdgeKeepsSound(c, rank, done, ControlMrn(m), ControlMrn(control), ActionToImpact(c, ControlMrn(m)));
      done.AddEdge(ControlMrn(m), ControlMrn(control), ActionToImpact(c, ControlMrn(m)))
  }

  /** Everything that feeds a control, and whether there is anything. */
  ghost function WithControlEdges(c: Config, rank: Mrn -> nat, g: JobGraph, control: Control): (res: (JobGraph, bool))
    requires Sound(c, rank, g)
    ensures Extends(c, rank, g, res.0)
  {
    var checks := WithControlQueries(c, rank, g, control.mrn, control.checks, false);
    var queries := WithControlQueries(c, rank, checks.0, control.mrn, control.queries, true);
    var policies := WithControlPolicies(c, rank, queries.0, control.mrn, control.policies);
    (WithControlControls(c, rank, policies.0, control.mrn, control.controls),
     checks.1 || queries.1 || policies.1 || control.controls != [])
  }

  /** A control is there exactly if something feeds it. */
  ghost function WithControl(c: Config, rank: Mrn -> nat, g: JobGraph, control: Control): (h: JobGraph)
    requires Sound(c, rank, g)
    ensures Extends(c, rank, g, h)
  {
    var fed := WithControlEdges(c, rank, g, control);
    if fed.1 then
      AddNodeKeepsSound(c, rank, fed.0, ControlNode(control.mrn));
      fed.0.AddNode(ControlNode(control.mrn))
    else fed.0
  }

  /** A control that runs reports to the owner it is mapped to. */
  ghost function WithOwned(c: Config, rank: Mrn -> nat, g: JobGraph, owner: Mrn, control: Control): (h: JobGraph)
    requires Sound(c, rank, g)
    ensures Extends(c, rank, g, h)
  {
    var id := ControlMrn(control.mrn);
    if !CanRun(c.ActionOf(id)) then g
    else
      var g1 := WithControl(c, rank, g, control);
      AddEdgeKeepsSound(c, rank, g1, id, FrameworkId(c, owner), ActionToImpact(c, id));
      g1.AddEdge(id, FrameworkId(c, owner), ActionToImpact(c, id))
  }

  ghost function WithOwnedControls(
      c: Config, rank: Mrn -> nat, g: JobGraph, owner: Mrn, controls: seq<Control>): (h: JobGraph)
    requires Sound(c, rank, g)
    ensures Extends(c, rank, g, h)
  {
    if controls == [] then g
    else WithOwned(c, rank, WithOwnedControls(c, rank, g, owner, controls[..|controls| - 1]), owner,
      controls[|controls| - 1])
  }

  ghost function WithMaps(c: Config, rank: Mrn -> nat, g: JobGraph, maps: seq<FrameworkMap>): (h: JobGraph)
    requires Sound(c, rank, g)
    ensures Extends(c, rank, g, h)
  {
    if maps == [] then g
    else
      var last := maps[|maps| - 1];
      WithOwnedControls(c, rank, WithMaps(c, rank, g, maps[..|maps| - 1]), last.owner, last.controls)
  }

  predicate RunsFramework(c: Config, m: Mrn) {
    CanRun(c.ActionOf(FrameworkId(c, m)))
  }

  /** A framework with its controls and dependencies. The edges from its dependencies are ignored
      in scoring if the node was there before, that is, if it stands for a policy. */
  ghost function WithFramework(c: Config, ranks: Ranks, g: JobGraph, m: Mrn): (h: JobGraph)
    requires WellFormed(c, ranks) && Sound(c, ranks.query, g) && m in c.bundle.frameworks
    ensures Extends(c, ranks.query, g, h)
    ensures RunsFramework(c, m) ==> FrameworkId(c, m) in h.nodes
    decreases Level(c.bundle.frameworks, ranks.framework, m), 0, 0
  {
    var id := FrameworkId(c, m);
    if !RunsFramework(c, m) then g
    else
      var impact := if id in g.nodes then Some(IGNORED_IMPACT) else None;
      AddNodeKeepsSound(c, ranks.query, g, FrameworkNode(id));
      WithFrameworkParts(c, ranks, if id in g.nodes then g else g.AddNode(FrameworkNode(id)), m, impact)
  }

  ghost function WithFrameworkParts(c: Config, ranks: Ranks, g: JobGraph, m: Mrn, impact: Option<Impact>): (h: JobGraph)
    requires WellFormed(c, ranks) && Sound(c, ranks.query, g) && m in c.bundle.frameworks && IsPlain(impact)
    ensures Extends(c, ranks.query, g, h)
    decreases Level(c.bundle.frameworks, ranks.framework, m) - 1, 2, 0
  {
    var f := c.bundle.frameworks[m];
    DependenciesAreLower(c, ranks, m);
    WithDependencies(c, ranks, WithMaps(c, ranks.query, g, f.maps), FrameworkId(c, m), impact, f.dependencies,
      Level(c.bundle.frameworks, ranks.framework, m) - 1)
  }

  ghost function WithDependencies(
      c: Config, ranks: Ranks, g: JobGraph, id: Id, impact: Option<Impact>, deps: seq<Mrn>, bound: nat): (h: JobGraph)
    requires WellFormed(c, ranks) && Sound(c, ranks.query, g) && (id.FrameworkMrn? || id.PolicyMrn?) && IsPlain(impact)
    requires ListLevel(c.bundle.frameworks, ranks.framework, deps) <= bound
    ensures Extends(c, ranks.query, g, h)
    decreases bound, 1, |deps|
  {
    if deps == [] then g
    else
      WithDependency(c, ranks, WithDependencies(c, ranks, g, id, impact, deps[..|deps| - 1], bound), id, impact,
        deps[|deps| - 1], bound)
  }

  ghost function WithDependency(
      c: Config, ranks: Ranks, g: JobGraph, id: Id, impact: Option<Impact>, dep: Mrn, bound: nat): (h: JobGraph)
    requires WellFormed(c, ranks) && Sound(c, ranks.query, g) && (id.FrameworkMrn? || id.PolicyMrn?) && IsPlain(impact)
    requires Level(c.bundle.frameworks, ranks.framework, dep) <= bound
    ensures Extends(c, ranks.query, g, h)
    decreases bound, 1, 0
  {
    if dep !in c.bundle.frameworks then g
    else
      var g1 := WithFramework(c, ranks, g, dep);
      if RunsFramework(c, dep) then
        AddEdgeKeepsSound(c, ranks.query, g1, FrameworkId(c, dep), id, impact);
        g1.AddEdge(FrameworkId(c, dep), id, impact)
      else g1
  }

  lemma DependenciesAreLower(c: Config, ranks: Ranks, m: Mrn)
    requires WellFormed(c, ranks) && m in c.bundle.frameworks
    ensures ListLevel(c.bundle.frameworks, ranks.framework, c.bundle.frameworks[m].dependencies)
      <= Level(c.bundle.frameworks, ranks.framework, m) - 1
  {
    forall d | d in c.bundle.frameworks[m].dependencies
      ensures Level(c.bundle.frameworks, ranks.framework, d) < Level(c.bundle.frameworks, ranks.framework, m)
    {
    }
  }

  /** A framework is its maps followed by its dependencies. */
  lemma FrameworkBody(c: Config, ranks: Ranks, g: JobGraph, m: Mrn, impact: Option<Impact>, bound: nat)
    requires WellFormed(c, ranks) && Sound(c, ranks.query, g) && m in c.bundle.frameworks && IsPlain(impact)
    requires bound == Level(c.bundle.frameworks, ranks.framework, m) - 1
    requires ListLevel(c.bundle.frameworks, ranks.framework, c.bundle.frameworks[m].dependencies) <= bound
    ensures WithFrameworkParts(c, ranks, g, m, impact) ==
      WithDependencies(c, ranks, WithMaps(c, ranks.query, g, c.bundle.frameworks[m].maps), FrameworkId(c, m), impact,
        c.bundle.frameworks[m].dependencies, bound)
  {
  }

  // ----- the whole graph -----

  /** The graph of the policy and, if there is one, the framework of the bundle. */
  ghost function WholeGraph(c: Config, ranks: Ranks): (g: JobGraph)
    requires WellFormed(c, ranks) && c.bundleMrn in c.bundle.policies
    ensures Sound(c, ranks.query, g)
  {
    EmptyIsSound(c, ranks.query);
    ReachesSelf(RunningPolicies(c), c.bundleMrn);
    var g1 := WithPolicy(c, ranks, EMPTY_GRAPH, c.bundleMrn).0;
    if c.bundleMrn in c.bundle.frameworks then WithFramework(c, ranks, g1, c.bundleMrn) else g1
  }
}
