/** The builder that adds the parts of a bundle to the graph, one after the other. */
module GraphBuilder {
  import opened Wrappers
  import opened PolicyTypes
  import opened PolicyWindow
  import opened PolicyBundle
  import opened JobGraph
  import opened Digraph
  import opened VariantSelection
  import opened GraphRules
  import opened PolicyRules
  import opened Sequences

  class ResolvedPolicyBuilder {
    const c: Config
    ghost const ranks: Ranks
    var nodes: map<Id, Node>
    var reportsToEdges: map<Id, seq<Id>>
    var reportsFromEdges: map<Id, seq<EdgeImpact>>

    function G(): JobGraph
      reads this
    {
      JobGraph(nodes, reportsToEdges, reportsFromEdges)
    }

    ghost predicate Valid()
      reads this
    {
      WellFormed(c, ranks) && Sound(c, ranks.query, G())
    }

    constructor (c: Config, ghost ranks: Ranks)
      requires WellFormed(c, ranks)
      ensures this.c == c && this.ranks == ranks && Valid() && G() == EMPTY_GRAPH
    {
      this.c, this.ranks := c, ranks;
      nodes, reportsToEdges, reportsFromEdges := map[], map[], map[];
      new;
      EmptyIsSound(c, ranks.query);
    }

    /** Adds an edge in both directions, unless it is there already. */
    method AddEdge(a: Id, b: Id, impact: Option<Impact>)
      modifies this
      ensures G() == old(G()).AddEdge(a, b, impact)
    {
      ghost var g := G();
      if a !in reportsToEdges {
        reportsToEdges := reportsToEdges[a := []];
      }
      var edges := reportsToEdges[a];
      assert edges == g.To(a);
      for i := 0 to |edges|
        invariant b !in edges[..i]
        invariant reportsToEdges == old(reportsToEdges)[a := edges] && nodes == old(nodes)
        invariant reportsFromEdges == old(reportsFromEdges)
      {
        if edges[i] == b {
          assert reportsToEdges == old(reportsToEdges);
          return;
        }
      }
      TakeAll(edges);
      SetTwice(g.to, a, edges, edges + [b]);
      reportsToEdges := reportsToEdges[a := edges + [b]];
      if b !in reportsFromEdges {
        SetTwice(g.from, b, [], g.From(b) + [EdgeImpact(a, impact)]);
        reportsFromEdges := reportsFromEdges[b := []];
      }
      reportsFromEdges := reportsFromEdges[b := reportsFromEdges[b] + [EdgeImpact(a, impact)]];
    }

    method AddNode(n: Node)
      modifies this
      ensures G() == old(G()).AddNode(n)
    {
      nodes := nodes[IdOf(n) := n];
    }

    /** Adds a query together with the edge that feeds it. */
    method AddFedQuery(m: Mrn, code: CodeId, feeder: Id, impact: Option<Impact>)
      modifies this
      ensures G() == WithQuery(c, old(G()), m, code, feeder, impact)
    {
      AddNode(QueryNode(m, c.TypeOf(m), code));
      AddEdge(feeder, QueryMrn(m), impact);
    }

    method AddCodeQuery(m: Mrn, code: CodeId, impact: Option<Impact>)
      requires Valid() && Select(c, ranks.query, m) == Some(code) && Feeder(c, ranks.query, m) == CodeNode(code)
      requires impact == QueryImpact(c, m)
      modifies this
      ensures Valid() && G() == WithCodeQuery(c, ranks.query, old(G()), m, code, impact)
    {
      ghost var h := WithCodeQuery(c, ranks.query, G(), m, code, impact);
      AddNode(ExecutionNode(code));
      AddFedQuery(m, code, CodeNode(code), impact);
      assert G() == h && Sound(c, ranks.query, h);
    }

    /** Adds a query with the first of its variants that matches, recursively. A failed call leaves
        the graph as it was. */
    method AddQuery(m: Mrn) returns (code: Option<CodeId>)
      requires Valid() && m in c.bundle.queries
      modifies this
      ensures Valid() && code == Select(c, ranks.query, m)
      ensures code.None? ==> G() == old(G())
      ensures code.Some? ==> G() == WithSelected(c, ranks.query, old(G()), m)
      decreases Level(c.bundle.queries, ranks.query, m)
    {
      var query := c.bundle.queries[m];
      var impact := c.ImpactOf(QueryMrn(query.mrn));
      if !CanRun(c.ActionOf(QueryMrn(query.mrn))) {
        if !c.Accepts(query.filters) {
          return None;
        }
        AddCodeQuery(query.mrn, c.disabledCode, Some(DISABLED_IMPACT));
        return Some(c.disabledCode);
      }
      if query.variants != [] {
        var v;
        v, code := AddFirstVariant(query.variants, m);
        if code.Some? {
          AddFedQuery(query.mrn, code.value, QueryMrn(v), impact);
          ghost var h := WithSelected(c, ranks.query, old(G()), m);
          assert G() == h && Sound(c, ranks.query, h);
        }
      } else {
        if !c.Accepts(query.filters) {
          return None;
        }
        AddCodeQuery(query.mrn, query.codeId, impact);
        return Some(query.codeId);
      }
    }

    method AddFirstVariant(variants: seq<Mrn>, ghost m: Mrn) returns (v: Mrn, code: Option<CodeId>)
      requires Valid() && m in c.bundle.queries && variants == c.bundle.queries[m].variants
      modifies this
      ensures Valid() && code == SelectFirst(c, ranks.query, variants)
      ensures code.None? ==> G() == old(G())
      ensures code.Some? ==> v == FirstMatch(c, ranks.query, variants) && G() == WithSelected(c, ranks.query,
        old(G()), v)
      decreases Level(c.bundle.queries, ranks.query, m), 0
    {
      for i := 0 to |variants|
        invariant Valid() && G() == old(G()) && SelectFirst(c, ranks.query, variants[..i]).None?
      {
        SelectOneMore(c, ranks.query, variants, i);
        v := variants[i];
        if v in c.bundle.queries {
          code := AddQuery(v);
          if code.Some? {
            FrontDecides(c, ranks.query, variants, i + 1);
            return;
          }
        }
      }
      TakeAll(variants);
      v, code := "", None;
    }

    // ----- risk factors -----

    method AddRiskChecks(risk: Mrn, checks: seq<Mquery>) returns (codes: seq<CodeId>, failed: bool)
      requires Valid()
      modifies this
      ensures Valid() && RiskState(G(), codes, failed) == WithRiskChecks(c, ranks.query, old(G()), risk, checks)
    {
      codes, failed := [], false;
      for i := 0 to |checks|
        invariant Valid() && !failed
        invariant RiskState(G(), codes, false) == WithRiskChecks(c, ranks.query, old(G()), risk, checks[..i])
      {
        TakeFront(checks, i);
        var check := checks[i];
        ghost var next := WithRiskChecks(c, ranks.query, old(G()), risk, checks[..i + 1]);
        if check.variants != [] {
          failed := true;
          ErrorStays(c, ranks.query, old(G()), risk, checks, i + 1);
          return;
        }
        if c.Accepts(check.filters) {
          AddNode(ExecutionNode(check.codeId));
          AddEdge(CodeNode(check.codeId), RiskMrn(risk), Some(IGNORED_IMPACT));
          codes := codes + [check.codeId];
        }
        assert G() == next.graph && Sound(c, ranks.query, next.graph);
      }
      TakeAll(checks);
    }

    method AddRiskQueries(queries: seq<Mquery>) returns (codes: seq<CodeId>, failed: bool)
      requires Valid()
      modifies this
      ensures Valid() && RiskState(G(), codes, failed) == WithRiskQueries(c, ranks.query, old(G()), queries)
    {
      codes, failed := [], false;
      for i := 0 to |queries|
        invariant Valid() && !failed
        invariant RiskState(G(), codes, false) == WithRiskQueries(c, ranks.query, old(G()), queries[..i])
      {
        TakeFront(queries, i);
        var q := queries[i];
        ghost var next := WithRiskQueries(c, ranks.query, old(G()), queries[..i + 1]);
        if q.variants != [] {
          failed := true;
          QueryErrorStays(c, ranks.query, old(G()), queries, i + 1);
          return;
        }
        if c.Accepts(q.filters) {
          AddNode(ExecutionNode(q.codeId));
          codes := codes + [q.codeId];
        }
        assert G() == next.graph && Sound(c, ranks.query, next.graph);
      }
      TakeAll(queries);
    }

    /** Adds a risk factor; what was added before an error stays. */
    method AddRiskFactor(r: RiskFactor) returns (added: Result<bool, string>)
      requires Valid()
      modifies this
      ensures Valid() && (G(), added) == WithRisk(c, ranks.query, old(G()), r)
    {
      ghost var res := WithRisk(c, ranks.query, G(), r);
      assert Sound(c, ranks.query, res.0);
      if !CanRun(c.ActionOf(RiskMrn(r.mrn))) || !c.Accepts(r.filters) {
        return Ok(false);
      }
      var codes, failed := AddRiskChecks(r.mrn, r.checks);
      if failed {
        return Err(RISK_CHECK_ERROR);
      }
      var data, failed' := AddRiskQueries(r.queries);
      if failed' {
        return Err(RISK_QUERY_ERROR);
      }
      if codes == [] && data == [] {
        return Ok(false);
      }
      AddNode(RiskNode(r.mrn, codes));
      return Ok(true);
    }

    method AddRisks(p: Mrn, risks: seq<RiskFactor>) returns (matching: bool)
      requires Valid()
      modifies this
      ensures Valid() && (G(), matching) == WithRisks(c, ranks.query, old(G()), p, risks)
    {
      matching := false;
      for i := 0 to |risks|
        invariant Valid() && (G(), matching) == WithRisks(c, ranks.query, old(G()), p, risks[..i])
      {
        TakeFront(risks, i);
        var r := risks[i];
        ghost var next := WithRisks(c, ranks.query, old(G()), p, risks[..i + 1]);
        if r.checks != [] {
          var added := AddRiskFactor(r);
          if added == Ok(true) {
            AddEdge(RiskMrn(r.mrn), PolicyMrn(p), Some(IGNORED_IMPACT));
            matching := true;
          }
        }
        assert G() == next.0 && Sound(c, ranks.query, next.0);
      }
      TakeAll(risks);
    }

    // ----- policies -----

    method AddListed(p: Mrn, groupType: GroupType, ref: QueryRef, check: bool)
      requires Valid() && IsActive(c, p) && AreListed(c, p, groupType, [ref], check)
      modifies this
      ensures Valid() && G() == WithListed(c, ranks.query, old(G()), p, groupType, ref, check)
    {
      ghost var h := WithListed(c, ranks.query, G(), p, groupType, ref, check);
      assert Sound(c, ranks.query, h);
      if IsOverride(ref.action, groupType) || ref.mrn !in c.bundle.queries {
        return;
      }
      var code := AddQuery(ref.mrn);
      if code.Some? {
        AddEdge(QueryMrn(ref.mrn), PolicyMrn(p), ListedImpact(c, ref.mrn, check));
      }
    }

    /** Adds the checks or the data queries of a group. */
    method AddQueries(p: Mrn, groupType: GroupType, refs: seq<QueryRef>, check: bool)
      requires Valid() && IsActive(c, p) && AreListed(c, p, groupType, refs, check)
      modifies this
      ensures Valid() && G() == WithQueries(c, ranks.query, old(G()), p, groupType, refs, check)
    {
      for i := 0 to |refs|
        invariant Valid() && AreListed(c, p, groupType, refs[..i], check)
        invariant G() == WithQueries(c, ranks.query, old(G()), p, groupType, refs[..i], check)
      {
        TakeFront(refs, i);
        assert refs[i] in refs;
        AddListed(p, groupType, refs[i], check);
      }
      TakeAll(refs);
    }

    /** Adds a policy with everything it refers to; tells whether a group or risk factor matched. */
    method AddPolicy(m: Mrn) returns (added: bool)
      requires Valid() && m in c.bundle.policies && Reaches(RunningPolicies(c), c.bundleMrn, m)
      modifies this
      ensures Valid() && (G(), added) == WithPolicy(c, ranks, old(G()), m)
      decreases Level(c.bundle.policies, ranks.policy, m), 0
    {
      var policy := c.bundle.policies[m];
      if !CanRun(c.ActionOf(PolicyMrn(policy.mrn))) {
        return false;
      }
      if !c.Accepts(policy.computedFilters) {
        return false;
      }
      ghost var bound := Level(c.bundle.policies, ranks.policy, m) - 1;
      PolicyStarts(c, ranks, G(), m, bound);
      AddNode(NodeOfPolicy(c, policy));
      added := AddPolicyParts(m, bound);
    }

    method AddPolicyParts(m: Mrn, ghost bound: nat) returns (added: bool)
      requires Valid() && IsActive(c, m)
      requires GroupsBelow(c, ranks, c.bundle.policies[m].groups, bound)
      requires GroupsKnown(c, m, c.bundle.policies[m].groups)
      modifies this
      ensures Valid() && (G(), added) == WithPolicyParts(c, ranks, old(G()), m, bound)
      decreases bound, 3
    {
      var group := AddGroups(m, c.bundle.policies[m].groups, bound);
      var risk := AddRisks(m, c.bundle.policies[m].riskFactors);
      return group || risk;
    }

    method AddGroups(m: Mrn, groups: seq<Group>, ghost bound: nat) returns (matching: bool)
      requires Valid() && IsActive(c, m) && GroupsBelow(c, ranks, groups, bound) && GroupsKnown(c, m, groups)
      modifies this
      ensures Valid() && G() == WithGroups(c, ranks, old(G()), m, groups, bound)
      ensures matching == AnyMatches(c, groups)
      decreases bound, 2
    {
      matching := false;
      for i := 0 to |groups|
        invariant Valid() && GroupsBelow(c, ranks, groups[..i], bound) && GroupsKnown(c, m, groups[..i])
        invariant G() == WithGroups(c, ranks, old(G()), m, groups[..i], bound)
        invariant matching == AnyMatches(c, groups[..i])
      {
        GroupsOneMore(c, ranks, old(G()), m, groups, i, bound);
        var group := groups[i];
        if Matches(c.target, group) {
          matching := true;
          AddGroup(m, group, bound);
        }
      }
      TakeAll(groups);
    }

    method AddGroup(m: Mrn, group: Group, ghost bound: nat)
      requires Valid() && IsActive(c, m) && group in c.bundle.policies[m].groups && Matches(c.target, group)
      requires ListLevel(c.bundle.policies, ranks.policy, group.policies) <= bound
      modifies this
      ensures Valid() && G() == WithGroup(c, ranks, old(G()), m, group, bound)
      decreases bound, 1, |group.policies| + 1
    {
      GroupOffers(c, ranks, m, group);
      AddReferences(m, group.policies, bound);
      AddQueries(m, group.groupType, group.checks, true);
      AddQueries(m, group.groupType, group.queries, false);
    }

    method AddReferences(m: Mrn, refs: seq<Mrn>, ghost bound: nat)
      requires Valid() && IsActive(c, m) && AllKnown(c, refs) && AllReached(c, m, refs)
      requires ListLevel(c.bundle.policies, ranks.policy, refs) <= bound
      modifies this
      ensures Valid() && G() == WithReferences(c, ranks, old(G()), m, refs, bound)
      decreases bound, 1, |refs|
    {
      for i := 0 to |refs|
        invariant Valid() && RefsBelow(c, ranks, m, refs[..i], bound)
        invariant G() == WithReferences(c, ranks, old(G()), m, refs[..i], bound)
      {
        ReferencesOneMore(c, ranks, old(G()), m, refs, i, bound);
        AddReference(m, refs[i], bound);
      }
      TakeAll(refs);
    }

    method AddReference(m: Mrn, ref: Mrn, ghost bound: nat)
      requires Valid() && ref in c.bundle.policies && Level(c.bundle.policies, ranks.policy, ref) <= bound
      requires IsActive(c, m) && Edge(RunningPolicies(c), m, ref)
      modifies this
      ensures Valid() && G() == WithReference(c, ranks, old(G()), m, ref, bound)
      decreases bound, 1, 0
    {
      ghost var h := WithReference(c, ranks, G(), m, ref, bound);
      assert Sound(c, ranks.query, h);
      ReachesOneMore(RunningPolicies(c), c.bundleMrn, m, ref);
      var added := AddPolicy(ref);
      if added {
        AddEdge(PolicyMrn(ref), PolicyMrn(m), ReferenceImpact(c, ref));
      }
    }

    // ----- controls and frameworks -----

    method AddControlQueries(control: Mrn, list: seq<Mrn>, ignored: bool) returns (hasChild: bool)
      requires Valid()
      modifies this
      ensures Valid() && (G(), hasChild) == WithControlQueries(c, ranks.query, old(G()), control, list, ignored)
    {
      hasChild := false;
      for i := 0 to |list|
        invariant Valid()
        invariant (G(), hasChild) == WithControlQueries(c, ranks.query, old(G()), control, list[..i], ignored)
      {
        TakeFront(list, i);
        ghost var next := WithControlQueries(c, ranks.query, old(G()), control, list[..i + 1], ignored);
        var id := QueryMrn(list[i]);
        if id in nodes && nodes[id].QueryNode? {
          AddEdge(CodeNode(nodes[id].selected), ControlMrn(control), if ignored
            then Some(IGNORED_IMPACT) else ActionToImpact(c, id));
          hasChild := true;
        }
        assert G() == next.0 && Sound(c, ranks.query, next.0);
      }
      TakeAll(list);
    }

    method AddControlPolicies(control: Mrn, list: seq<Mrn>) returns (hasChild: bool)
      requires Valid()
      modifies this
      ensures Valid() && (G(), hasChild) == WithControlPolicies(c, ranks.query, old(G()), control, list)
    {
      hasChild := false;
      for i := 0 to |list|
        invariant Valid() && (G(), hasChild) == WithControlPolicies(c, ranks.query, old(G()), control, list[..i])
      {
        TakeFront(list, i);
        ghost var next := WithControlPolicies(c, ranks.query, old(G()), control, list[..i + 1]);
        if PolicyMrn(list[i]) in nodes {
          AddEdge(PolicyMrn(list[i]), ControlMrn(control), ActionToImpact(c, PolicyMrn(list[i])));
          hasChild := true;
        }
        assert G() == next.0 && Sound(c, ranks.query, next.0);
      }
      TakeAll(list);
    }

    method AddControlControls(control: Mrn, list: seq<Mrn>)
      requires Valid()
      modifies this
      ensures Valid() && G() == WithControlControls(c, ranks.query, old(G()), control, list)
    {
      for i := 0 to |list|
        invariant Valid() && G() == WithControlControls(c, ranks.query, old(G()), control, list[..i])
      {
        TakeFront(list, i);
        ghost var next := WithControlControls(c, ranks.query, old(G()), control, list[..i + 1]);
        AddEdge(ControlMrn(list[i]), ControlMrn(control), ActionToImpact(c, ControlMrn(list[i])));
        assert G() == next && Sound(c, ranks.query, next);
      }
      TakeAll(list);
    }

    /** Connects a control to the queries, policies and controls that feed it. */
    method AddControl(control: Control) returns (added: bool)
      requires Valid()
      modifies this
      ensures Valid() && added == CanRun(c.ActionOf(ControlMrn(control.mrn)))
      ensures G() == if added then WithControl(c, ranks.query, old(G()), control) else old(G())
    {
      if !CanRun(c.ActionOf(ControlMrn(control.mrn))) {
        return false;
      }
      ghost var h := WithControl(c, ranks.query, G(), control);
      assert Sound(c, ranks.query, h);
      var checks := AddControlQueries(control.mrn, control.checks, false);
      var queries := AddControlQueries(control.mrn, control.queries, true);
      var policies := AddControlPolicies(control.mrn, control.policies);
      AddControlControls(control.mrn, control.controls);
      if checks || queries || policies || control.controls != [] {
        AddNode(ControlNode(control.mrn));
      }
      return true;
    }

    method AddOwnedControls(owner: Mrn, controls: seq<Control>)
      requires Valid()
      modifies this
      ensures Valid() && G() == WithOwnedControls(c, ranks.query, old(G()), owner, controls)
    {
      for i := 0 to |controls|
        invariant Valid() && G() == WithOwnedControls(c, ranks.query, old(G()), owner, controls[..i])
      {
        TakeFront(controls, i);
        ghost var next := WithOwnedControls(c, ranks.query, old(G()), owner, controls[..i + 1]);
        var id := ControlMrn(controls[i].mrn);
        var added := AddControl(controls[i]);
        if added {
          AddEdge(id, FrameworkId(c, owner), ActionToImpact(c, id));
        }
        assert G() == next && Sound(c, ranks.query, next);
      }
      TakeAll(controls);
    }

    method AddMaps(maps: seq<FrameworkMap>)
      requires Valid()
      modifies this
      ensures Valid() && G() == WithMaps(c, ranks.query, old(G()), maps)
    {
      for i := 0 to |maps|
        invariant Valid() && G() == WithMaps(c, ranks.query, old(G()), maps[..i])
      {
        TakeFront(maps, i);
        AddOwnedControls(maps[i].owner, maps[i].controls);
      }
      TakeAll(maps);
    }

    /** Adds a framework with its controls and the frameworks it depends on. */
    method AddFramework(m: Mrn) returns (added: bool)
      requires Valid() && m in c.bundle.frameworks
      modifies this
      ensures Valid() && added == RunsFramework(c, m) && G() == WithFramework(c, ranks, old(G()), m)
      decreases Level(c.bundle.frameworks, ranks.framework, m), 0
    {
      ghost var h := WithFramework(c, ranks, G(), m);
      assert Sound(c, ranks.query, h);
      var framework := c.bundle.frameworks[m];
      var id := FrameworkId(c, framework.mrn);
      if !CanRun(c.ActionOf(id)) {
        return false;
      }
      var impact := None;
      if id !in nodes {
        AddNodeKeepsSound(c, ranks.query, G(), FrameworkNode(id));
        AddNode(FrameworkNode(id));
      } else {
        impact := Some(IGNORED_IMPACT);
      }
      AddFrameworkParts(m, impact);
      return true;
    }

    method AddFrameworkParts(m: Mrn, impact: Option<Impact>)
      requires Valid() && m in c.bundle.frameworks && IsPlain(impact)
      modifies this
      ensures Valid() && G() == WithFrameworkParts(c, ranks, old(G()), m, impact)
      decreases Level(c.bundle.frameworks, ranks.framework, m) - 1, 2
    {
      var framework := c.bundle.frameworks[m];
      ghost var bound := Level(c.bundle.frameworks, ranks.framework, m) - 1;
      DependenciesAreLower(c, ranks, m);
      FrameworkBody(c, ranks, G(), m, impact, bound);
      AddMaps(framework.maps);
      AddDependencies(FrameworkId(c, m), impact, framework.dependencies, bound);
    }

    method AddDependencies(id: Id, impact: Option<Impact>, deps: seq<Mrn>, ghost bound: nat)
      requires Valid() && (id.FrameworkMrn? || id.PolicyMrn?) && IsPlain(impact)
      requires ListLevel(c.bundle.frameworks, ranks.framework, deps) <= bound
      modifies this
      ensures Valid() && G() == WithDependencies(c, ranks, old(G()), id, impact, deps, bound)
      decreases bound, 1
    {
      for i := 0 to |deps|
        invariant Valid() && ListLevel(c.bundle.frameworks, ranks.framework, deps[..i]) <= bound
        invariant G() == WithDependencies(c, ranks, old(G()), id, impact, deps[..i], bound)
      {
        DependenciesOneMore(c, ranks, old(G()), id, impact, deps, i, bound);
        AddDependency(id, impact, deps[i], bound);
      }
      TakeAll(deps);
    }

    method AddDependency(id: Id, impact: Option<Impact>, dep: Mrn, ghost bound: nat)
      requires Valid() && (id.FrameworkMrn? || id.PolicyMrn?) && IsPlain(impact)
        && Level(c.bundle.frameworks, ranks.framework, dep) <= bound
      modifies this
      ensures Valid() && G() == WithDependency(c, ranks, old(G()), id, impact, dep, bound)
      decreases bound, 1, 0
    {
      ghost var h := WithDependency(c, ranks, G(), id, impact, dep, bound);
      assert Sound(c, ranks.query, h);
      if dep in c.bundle.frameworks {
        var added := AddFramework(dep);
        if added {
          AddEdge(FrameworkId(c, dep), id, impact);
        }
      }
    }

    /** Builds the whole graph of the bundle. */
    method Build()
      requires Valid() && c.bundleMrn in c.bundle.policies && G() == EMPTY_GRAPH
      modifies this
      ensures Valid() && G() == WholeGraph(c, ranks)
    {
      ReachesSelf(RunningPolicies(c), c.bundleMrn);
      var _ := AddPolicy(c.bundleMrn);
      if c.bundleMrn in c.bundle.frameworks {
        var _ := AddFramework(c.bundleMrn);
      }
    }
  }

  lemma {:induction false} LevelOfFront<T>(records: map<Mrn, T>, rank: Mrn -> nat, list: seq<Mrn>, i: nat)
    requires i <= |list|
    ensures ListLevel(records, rank, list[..i]) <= ListLevel(records, rank, list)
    decreases |list|
  {
    if i < |list| {
      assert list[..|list| - 1][..i] == list[..i];
      LevelOfFront(records, rank, list[..|list| - 1], i);
    } else {
      TakeAll(list);
    }
  }

  lemma FrontIsLower(c: Config, ranks: Ranks, m: Mrn, refs: seq<Mrn>, i: nat)
    requires i <= |refs| && AllKnown(c, refs) && AllReached(c, m, refs)
    ensures AllKnown(c, refs[..i]) && AllReached(c, m, refs[..i])
    ensures i > 0 ==> refs[i - 1] in c.bundle.policies && Edge(RunningPolicies(c), m, refs[i - 1])
    ensures i > 0 ==> Level(c.bundle.policies, ranks.policy, refs[i - 1]) <= ListLevel(c.bundle.policies,
      ranks.policy, refs)
    ensures ListLevel(c.bundle.policies, ranks.policy, refs[..i]) <= ListLevel(c.bundle.policies, ranks.policy, refs)
  {
    LevelOfFront(c.bundle.policies, ranks.policy, refs, i);
  }

  lemma SetTwice<K, V>(m: map<K, V>, k: K, v: V, w: V)
    ensures m[k := v][k := w] == m[k := w]
  {
  }

  /** What adding references to an active policy asks of them. */
  ghost predicate RefsBelow(c: Config, ranks: Ranks, m: Mrn, refs: seq<Mrn>, bound: nat) {
    AllKnown(c, refs) && AllReached(c, m, refs) && ListLevel(c.bundle.policies, ranks.policy, refs) <= bound
  }

  lemma ReferencesOneMore(c: Config, ranks: Ranks, g: JobGraph, m: Mrn, refs: seq<Mrn>, i: nat, bound: nat)
    requires WellFormed(c, ranks) && Sound(c, ranks.query, g) && IsActive(c, m) && AllKnown(c, refs)
    requires AllReached(c, m, refs) && ListLevel(c.bundle.policies, ranks.policy, refs) <= bound && i < |refs|
    ensures RefsBelow(c, ranks, m, refs[..i], bound) && RefsBelow(c, ranks, m, refs[..i + 1], bound)
    ensures refs[i] in c.bundle.policies && Edge(RunningPolicies(c), m, refs[i])
    ensures Level(c.bundle.policies, ranks.policy, refs[i]) <= bound
    ensures WithReferences(c, ranks, g, m, refs[..i + 1], bound) ==
      WithReference(c, ranks, WithReferences(c, ranks, g, m, refs[..i], bound), m, refs[i], bound)
  {
    FrontIsLower(c, ranks, m, refs, i);
    FrontIsLower(c, ranks, m, refs, i + 1);
    TakeFront(refs, i);
  }

  lemma GroupsOneMore(c: Config, ranks: Ranks, g: JobGraph, m: Mrn, groups: seq<Group>, i: nat, bound: nat)
    requires WellFormed(c, ranks) && Sound(c, ranks.query, g) && IsActive(c, m)
    requires GroupsBelow(c, ranks, groups, bound) && GroupsKnown(c, m, groups) && i < |groups|
    ensures GroupsBelow(c, ranks, groups[..i], bound) && GroupsKnown(c, m, groups[..i])
    ensures GroupsBelow(c, ranks, groups[..i + 1], bound) && GroupsKnown(c, m, groups[..i + 1])
    ensures groups[i] in c.bundle.policies[m].groups
    ensures ListLevel(c.bundle.policies, ranks.policy, groups[i].policies) <= bound
    ensures WithGroups(c, ranks, g, m, groups[..i + 1], bound) ==
      var done := WithGroups(c, ranks, g, m, groups[..i], bound);
      if Matches(c.target, groups[i]) then WithGroup(c, ranks, done, m, groups[i], bound) else done
    ensures AnyMatches(c, groups[..i + 1]) <==> AnyMatches(c, groups[..i]) || Matches(c.target, groups[i])
  {
    TakeFront(groups, i);
    assert groups[..i + 1] == groups[..i] + [groups[i]];
  }

  lemma DependencyFrontIsLower(c: Config, ranks: Ranks, deps: seq<Mrn>, i: nat)
    requires i <= |deps|
    ensures ListLevel(c.bundle.frameworks, ranks.framework, deps[..i]) <= ListLevel(c.bundle.frameworks,
      ranks.framework, deps)
  {
    LevelOfFront(c.bundle.frameworks, ranks.framework, deps, i);
  }

  lemma DependenciesOneMore(
      c: Config, ranks: Ranks, g: JobGraph, id: Id, impact: Option<Impact>, deps: seq<Mrn>, i: nat, bound: nat)
    requires WellFormed(c, ranks) && Sound(c, ranks.query, g) && (id.FrameworkMrn? || id.PolicyMrn?) && IsPlain(impact)
    requires ListLevel(c.bundle.frameworks, ranks.framework, deps) <= bound && i < |deps|
    ensures ListLevel(c.bundle.frameworks, ranks.framework, deps[..i]) <= bound
    ensures ListLevel(c.bundle.frameworks, ranks.framework, deps[..i + 1]) <= bound
    ensures Level(c.bundle.frameworks, ranks.framework, deps[i]) <= bound
    ensures WithDependencies(c, ranks, g, id, impact, deps[..i + 1], bound) ==
      WithDependency(c, ranks, WithDependencies(c, ranks, g, id, impact, deps[..i], bound), id, impact, deps[i], bound)
  {
    DependencyFrontIsLower(c, ranks, deps, i);
    DependencyFrontIsLower(c, ranks, deps, i + 1);
    TakeFront(deps, i);
  }

  /** After an error the remaining checks are not looked at. */
  lemma {:induction false} ErrorStays(c: Config, rank: Mrn -> nat, g: JobGraph, risk: Mrn, checks: seq<Mquery>, i: nat)
    requires Sound(c, rank, g) && i <= |checks| && WithRiskChecks(c, rank, g, risk, checks[..i]).failed
    ensures WithRiskChecks(c, rank, g, risk, checks) == WithRiskChecks(c, rank, g, risk, checks[..i])
    decreases |checks|
  {
    if i < |checks| {
      assert checks[..|checks| - 1][..i] == checks[..i];
      ErrorStays(c, rank, g, risk, checks[..|checks| - 1], i);
    } else {
      TakeAll(checks);
    }
  }

  lemma {:induction false} QueryErrorStays(c: Config, rank: Mrn -> nat, g: JobGraph, queries: seq<Mquery>, i: nat)
    requires Sound(c, rank, g) && i <= |queries| && WithRiskQueries(c, rank, g, queries[..i]).failed
    ensures WithRiskQueries(c, rank, g, queries) == WithRiskQueries(c, rank, g, queries[..i])
    decreases |queries|
  {
    if i < |queries| {
      assert queries[..|queries| - 1][..i] == queries[..i];
      QueryErrorStays(c, rank, g, queries[..|queries| - 1], i);
    } else {
      TakeAll(queries);
    }
  }
}
