/** What the edges into a policy say: where it hears of a query, a risk factor or a policy more
    than once, the first time decides. */
module PolicyImpacts {
  import opened Wrappers
  import opened PolicyTypes
  import opened PolicyBundle
  import opened JobGraph
  import opened Digraph
  import opened VariantSelection
  import opened GraphRules
  import opened GraphParts
  import opened PolicyRules
  import opened PolicyParts
  import opened FrameworkParts
  import opened GraphSources
  import opened GraphContents

  /** The group matches and lists the query without overriding it. */
  ghost predicate ListedIn(c: Config, g: Group, x: Mrn, check: bool) {
    && Matches(c.target, g)
    && exists ref :: ref in ListOf(g, check) && ref.mrn == x && !IsOverride(ref.action, g.groupType)
  }

  /** A group lists the query as a check, and no group before it lists the query as a data query. */
  ghost predicate CheckIsFirst(c: Config, groups: seq<Group>, x: Mrn) {
    exists i :: 0 <= i < |groups| && ListedIn(c, groups[i], x, true)
      && forall j :: 0 <= j < i ==> !ListedIn(c, groups[j], x, false)
  }

  /** What a policy is told by a query, a risk factor, or a policy it refers to. */
  ghost function PolicyImpact(c: Config, p: Mrn, a: Id): Option<Impact>
    requires p in c.bundle.policies
  {
    match a
    case QueryMrn(x) => ListedImpact(c, x, CheckIsFirst(c, c.bundle.policies[p].groups, x))
    case PolicyMrn(q) => ReferenceImpact(c, q)
    case _ => Some(IGNORED_IMPACT)
  }

  /** If there is an edge from a to the policy then it says what it should. */
  ghost predicate IsRight(c: Config, g: JobGraph, p: Mrn, a: Id)
    requires p in c.bundle.policies
  {
    forall i {:trigger Carries(g, PolicyMrn(p), EdgeImpact(a, i))} ::
      Carries(g, PolicyMrn(p), EdgeImpact(a, i)) ==> i == PolicyImpact(c, p, a)
  }

  lemma CarriedIsEdge(g: JobGraph, b: Id, e: EdgeImpact)
    requires Mirrored(g) && Carries(g, b, e)
    ensures HasEdge(g, e.edge, b)
  {
    assert g.HasSource(b, e.edge);
  }

  /** An edge that was there before has the same impact after. */
  lemma OldEdgeKeepsImpact(g: JobGraph, h: JobGraph, b: Id, e: EdgeImpact)
    requires Mirrored(g) && Mirrored(h) && KeepsEdges(g, h) && HasEdge(g, e.edge, b) && Carries(h, b, e)
    ensures Carries(g, b, e)
  {
    assert g.HasSource(b, e.edge);
    var i :| 0 <= i < |g.From(b)| && g.From(b)[i].edge == e.edge;
    assert Carries(g, b, g.From(b)[i]);
    assert g.From(b)[i] in h.From(b) && DistinctSources(h.From(b));
  }

  lemma NothingNewIsRight(c: Config, rank: Mrn -> nat, g: JobGraph, h: JobGraph, p: Mrn, a: Id)
    requires p in c.bundle.policies && Sound(c, rank, g) && Extends(c, rank, g, h) && IsRight(c, g, p, a)
    requires HasEdge(h, a, PolicyMrn(p)) ==> HasEdge(g, a, PolicyMrn(p))
    ensures IsRight(c, h, p, a)
  {
    forall i | Carries(h, PolicyMrn(p), EdgeImpact(a, i)) ensures i == PolicyImpact(c, p, a) {
      CarriedIsEdge(h, PolicyMrn(p), EdgeImpact(a, i));
      OldEdgeKeepsImpact(g, h, PolicyMrn(p), EdgeImpact(a, i));
    }
  }

  lemma OneMoreEdgeIsRight(
      c: Config, g: JobGraph, x: Id, y: Id, impact: Option<Impact>, p: Mrn, a: Id)
    requires p in c.bundle.policies && IsRight(c, g, p, a)
    requires x == a && y == PolicyMrn(p) && !HasEdge(g, a, PolicyMrn(p)) ==> impact == PolicyImpact(c, p, a)
    ensures IsRight(c, g.AddEdge(x, y, impact), p, a)
  {
    var h, b := g.AddEdge(x, y, impact), PolicyMrn(p);
    forall i | Carries(h, b, EdgeImpact(a, i)) ensures i == PolicyImpact(c, p, a) {
      assert Carries(g, b, EdgeImpact(a, i)) ||
        (h.From(b) == g.From(b) + [EdgeImpact(x, impact)] && !HasEdge(g, x, y) && y == b);
    }
  }

  lemma NodeIsRight(c: Config, g: JobGraph, n: Node, p: Mrn, a: Id)
    requires p in c.bundle.policies && IsRight(c, g, p, a)
    ensures IsRight(c, g.AddNode(n), p, a)
  {
    assert g.AddNode(n).From(PolicyMrn(p)) == g.From(PolicyMrn(p));
    forall i | Carries(g.AddNode(n), PolicyMrn(p), EdgeImpact(a, i))
      ensures Carries(g, PolicyMrn(p), EdgeImpact(a, i))
    {
    }
  }

  // ----- the queries a policy lists -----

  /** A group before the one with number k lists the query, or this one does so as a check while
      its data queries are being added. */
  ghost predicate ListedBefore(c: Config, groups: seq<Group>, k: nat, check: bool, x: Mrn) {
    || (exists j, any :: 0 <= j < k && j < |groups| && ListedIn(c, groups[j], x, any))
    || (!check && k < |groups| && ListedIn(c, groups[k], x, true))
  }

  /** The listings that come before this point have brought their edge. */
  ghost predicate UpTo(c: Config, rank: Mrn -> nat, g: JobGraph, p: Mrn, k: nat, check: bool, x: Mrn)
    requires VariantsDescend(c.bundle.queries, rank) && p in c.bundle.policies
  {
    Select(c, rank, x).Some? && ListedBefore(c, c.bundle.policies[p].groups, k, check, x) ==>
      HasEdge(g, QueryMrn(x), PolicyMrn(p))
  }

  /** A listing that is not the first one finds its edge in place. */
  lemma FirstListingDecides(c: Config, groups: seq<Group>, k: nat, check: bool, x: Mrn)
    requires k < |groups| && ListedIn(c, groups[k], x, check) && !ListedBefore(c, groups, k, check, x)
    ensures CheckIsFirst(c, groups, x) == check
  {
  }

  lemma SelectedIsRight(c: Config, rank: Mrn -> nat, g: JobGraph, m: Mrn, p: Mrn, a: Id)
    requires p in c.bundle.policies && Sound(c, rank, g) && Select(c, rank, m).Some? && IsRight(c, g, p, a)
    ensures IsRight(c, WithSelected(c, rank, g, m), p, a)
    ensures HasEdge(WithSelected(c, rank, g, m), a, PolicyMrn(p)) <==> HasEdge(g, a, PolicyMrn(p))
  {
    SelectedParts(c, rank, g, m, EdgePart(a, PolicyMrn(p)));
    NothingNewIsRight(c, rank, g, WithSelected(c, rank, g, m), p, a);
  }

  lemma ListedIsRight(
      c: Config, rank: Mrn -> nat, g: JobGraph, m: Mrn, k: nat, ref: QueryRef, check: bool, p: Mrn, a: Id)
    requires p in c.bundle.policies && Sound(c, rank, g) && IsActive(c, m) && k < |c.bundle.policies[m].groups|
    requires var group := c.bundle.policies[m].groups[k];
      Matches(c.target, group) && ref in ListOf(group, check) && AreListed(c, m, group.groupType, [ref], check)
    requires IsRight(c, g, p, a) && (m == p && a.QueryMrn? ==> UpTo(c, rank, g, p, k, check, a.mrn))
    ensures IsRight(c, WithListed(c, rank, g, m, c.bundle.policies[m].groups[k].groupType, ref, check), p, a)
  {
    var groups := c.bundle.policies[m].groups;
    if !IsOverride(ref.action, groups[k].groupType) && Select(c, rank, ref.mrn).Some? {
      var g1 := WithSelected(c, rank, g, ref.mrn);
      SelectedIsRight(c, rank, g, ref.mrn, p, a);
      if m == p && a == QueryMrn(ref.mrn) && !HasEdge(g, a, PolicyMrn(p)) {
        FirstListingDecides(c, groups, k, check, ref.mrn);
      }
      OneMoreEdgeIsRight(c, g1, QueryMrn(ref.mrn), PolicyMrn(m), ListedImpact(c, ref.mrn, check), p, a);
    }
  }

  lemma {:induction false} QueriesAreRight(
      c: Config, rank: Mrn -> nat, g: JobGraph, m: Mrn, k: nat, refs: seq<QueryRef>, check: bool, p: Mrn, a: Id)
    requires p in c.bundle.policies && Sound(c, rank, g) && IsActive(c, m) && k < |c.bundle.policies[m].groups|
    requires var group := c.bundle.policies[m].groups[k];
      && Matches(c.target, group) && (forall ref :: ref in refs ==> ref in ListOf(group, check))
      && AreListed(c, m, group.groupType, refs, check)
    requires IsRight(c, g, p, a) && (m == p && a.QueryMrn? ==> UpTo(c, rank, g, p, k, check, a.mrn))
    ensures IsRight(c, WithQueries(c, rank, g, m, c.bundle.policies[m].groups[k].groupType, refs, check), p, a)
    decreases |refs|
  {
    if refs != [] {
      var front, last := refs[..|refs| - 1], refs[|refs| - 1];
      var t := c.bundle.policies[m].groups[k].groupType;
      QueriesAreRight(c, rank, g, m, k, front, check, p, a);
      QueriesParts(c, rank, g, m, t, front, check, EdgePart(a, PolicyMrn(p)));
      ListedIsRight(c, rank, WithQueries(c, rank, g, m, t, front, check), m, k, last, check, p, a);
    }
  }

  /** After the queries of a list their edges are in place. */
  lemma ListIsDone(c: Config, rank: Mrn -> nat, g: JobGraph, p: Mrn, k: nat, check: bool, x: Mrn)
    requires Sound(c, rank, g) && IsActive(c, p) && k < |c.bundle.policies[p].groups|
    requires Matches(c.target, c.bundle.policies[p].groups[k])
    requires var group := c.bundle.policies[p].groups[k];
      AreListed(c, p, group.groupType, ListOf(group, check), check)
    requires UpTo(c, rank, g, p, k, check, x)
    ensures var group := c.bundle.policies[p].groups[k];
      var h := WithQueries(c, rank, g, p, group.groupType, ListOf(group, check), check);
      UpTo(c, rank, h, p, if check then k else k + 1, !check, x)
  {
    var group := c.bundle.policies[p].groups[k];
    var edge := EdgePart(QueryMrn(x), PolicyMrn(p));
    QueriesParts(c, rank, g, p, group.groupType, ListOf(group, check), check, edge);
    if Select(c, rank, x).Some? && ListedIn(c, group, x, check) {
      assert ReportBrings(c, rank, p, x, edge);
    }
  }

  lemma GroupQueriesAreRight(c: Config, ranks: Ranks, g: JobGraph, m: Mrn, k: nat, p: Mrn, a: Id) returns (h: JobGraph)
    requires WellFormed(c, ranks) && p in c.bundle.policies && Sound(c, ranks.query, g) && IsActive(c, m)
    requires k < |c.bundle.policies[m].groups| && Matches(c.target, c.bundle.policies[m].groups[k])
    requires IsRight(c, g, p, a) && (m == p && a.QueryMrn? ==> UpTo(c, ranks.query, g, p, k, true, a.mrn))
    ensures var group := c.bundle.policies[m].groups[k];
      && AreListed(c, m, group.groupType, group.checks, true) && AreListed(c, m, group.groupType, group.queries, false)
      && h == WithQueries(c, ranks.query, WithQueries(c, ranks.query, g, m, group.groupType, group.checks, true),
                m, group.groupType, group.queries, false)
    ensures IsRight(c, h, p, a) && (m == p && a.QueryMrn? ==> UpTo(c, ranks.query, h, p, k + 1, true, a.mrn))
  {
    var group := c.bundle.policies[m].groups[k];
    GroupOffers(c, ranks, m, group);
    var g1 := WithQueries(c, ranks.query, g, m, group.groupType, group.checks, true);
    h := WithQueries(c, ranks.query, g1, m, group.groupType, group.queries, false);
    QueriesAreRight(c, ranks.query, g, m, k, group.checks, true, p, a);
    if m == p && a.QueryMrn? {
      ListIsDone(c, ranks.query, g, p, k, true, a.mrn);
      ListIsDone(c, ranks.query, g1, p, k, false, a.mrn);
    }
    QueriesAreRight(c, ranks.query, g1, m, k, group.queries, false, p, a);
  }

  lemma SkippedGroup(c: Config, rank: Mrn -> nat, g: JobGraph, p: Mrn, k: nat, x: Mrn)
    requires VariantsDescend(c.bundle.queries, rank) && p in c.bundle.policies && k < |c.bundle.policies[p].groups|
    requires !Matches(c.target, c.bundle.policies[p].groups[k]) && UpTo(c, rank, g, p, k, true, x)
    ensures UpTo(c, rank, g, p, k + 1, true, x)
  {
  }

  // ----- policies -----

  lemma {:induction false} RisksAreRight(
      c: Config, rank: Mrn -> nat, g: JobGraph, m: Mrn, risks: seq<RiskFactor>, p: Mrn, a: Id)
    requires p in c.bundle.policies && Sound(c, rank, g) && IsRight(c, g, p, a)
    ensures IsRight(c, WithRisks(c, rank, g, m, risks).0, p, a)
  {
    if risks != [] {
      var front, last := risks[..|risks| - 1], risks[|risks| - 1];
      RisksAreRight(c, rank, g, m, front, p, a);
      RiskStep(c, rank, g, m, risks);
      RiskIsRight(c, rank, WithRisks(c, rank, g, m, front).0, m, last, p, a);
    }
  }

  lemma RiskIsRight(c: Config, rank: Mrn -> nat, g: JobGraph, m: Mrn, r: RiskFactor, p: Mrn, a: Id)
    requires p in c.bundle.policies && Sound(c, rank, g) && IsRight(c, g, p, a)
    ensures var h := WithRisk(c, rank, g, r).0;
      IsRight(c, h, p, a) && IsRight(c, h.AddEdge(RiskMrn(r.mrn), PolicyMrn(m), Some(IGNORED_IMPACT)), p, a)
  {
    var h := WithRisk(c, rank, g, r).0;
    RiskParts(c, rank, g, r, EdgePart(a, PolicyMrn(p)));
    NothingNewIsRight(c, rank, g, h, p, a);
    OneMoreEdgeIsRight(c, h, RiskMrn(r.mrn), PolicyMrn(m), Some(IGNORED_IMPACT), p, a);
  }

  /** Adding a policy brings no edge into a policy that says anything else than it should. */
  lemma {:induction false} PolicyIsRight(c: Config, ranks: Ranks, g: JobGraph, m: Mrn, p: Mrn, a: Id)
    requires WellFormed(c, ranks) && Sound(c, ranks.query, g) && m in c.bundle.policies && p in c.bundle.policies
    requires Reaches(RunningPolicies(c), c.bundleMrn, m) && IsRight(c, g, p, a)
    ensures IsRight(c, WithPolicy(c, ranks, g, m).0, p, a)
    decreases Level(c.bundle.policies, ranks.policy, m), 0, 0
  {
    if RunsPolicy(c, c.bundle.policies[m]) {
      var bound := Level(c.bundle.policies, ranks.policy, m) - 1;
      PolicyStarts(c, ranks, g, m, bound);
      NodeIsRight(c, g, NodeOfPolicy(c, c.bundle.policies[m]), p, a);
      OwnAreRight(c, ranks, g.AddNode(NodeOfPolicy(c, c.bundle.policies[m])), m, bound, p, a);
    }
  }

  lemma OwnAreRight(c: Config, ranks: Ranks, g: JobGraph, m: Mrn, bound: nat, p: Mrn, a: Id)
    requires WellFormed(c, ranks) && Sound(c, ranks.query, g) && IsActive(c, m) && p in c.bundle.policies
    requires GroupsBelow(c, ranks, c.bundle.policies[m].groups, bound) && GroupsKnown(c, m, c.bundle.policies[m].groups)
    requires IsRight(c, g, p, a)
    ensures IsRight(c, WithPolicyParts(c, ranks, g, m, bound).0, p, a)
    decreases bound, 3, 0
  {
    var groups, risks := c.bundle.policies[m].groups, c.bundle.policies[m].riskFactors;
    GroupsAreRight(c, ranks, g, m, groups, bound, p, a);
    RisksAreRight(c, ranks.query, WithGroups(c, ranks, g, m, groups, bound), m, risks, p, a);
  }

  lemma {:induction false} GroupsAreRight(
      c: Config, ranks: Ranks, g: JobGraph, m: Mrn, groups: seq<Group>, bound: nat, p: Mrn, a: Id)
    requires WellFormed(c, ranks) && Sound(c, ranks.query, g) && IsActive(c, m) && p in c.bundle.policies
    requires GroupsBelow(c, ranks, groups, bound) && GroupsKnown(c, m, groups) && groups <= c.bundle.policies[m].groups
    requires IsRight(c, g, p, a)
    ensures var h := WithGroups(c, ranks, g, m, groups, bound);
      && IsRight(c, h, p, a) && (m == p && a.QueryMrn? ==> UpTo(c, ranks.query, h, p, |groups|, true, a.mrn))
    decreases bound, 2, |groups|
  {
    if groups != [] {
      var k := |groups| - 1;
      var g1 := LastGroup(c, ranks, g, m, groups, bound);
      GroupsAreRight(c, ranks, g, m, groups[..k], bound, p, a);
      assert groups[k] == c.bundle.policies[m].groups[k];
      if Matches(c.target, groups[k]) {
        GroupIsRight(c, ranks, g1, m, k, bound, p, a);
      } else if m == p && a.QueryMrn? {
        SkippedGroup(c, ranks.query, g1, p, k, a.mrn);
      }
    }
  }

  lemma GroupIsRight(c: Config, ranks: Ranks, g: JobGraph, m: Mrn, k: nat, bound: nat, p: Mrn, a: Id)
    requires WellFormed(c, ranks) && Sound(c, ranks.query, g) && IsActive(c, m) && p in c.bundle.policies
    requires k < |c.bundle.policies[m].groups| && Matches(c.target, c.bundle.policies[m].groups[k])
    requires ListLevel(c.bundle.policies, ranks.policy, c.bundle.policies[m].groups[k].policies) <= bound
    requires IsRight(c, g, p, a) && (m == p && a.QueryMrn? ==> UpTo(c, ranks.query, g, p, k, true, a.mrn))
    ensures var h := WithGroup(c, ranks, g, m, c.bundle.policies[m].groups[k], bound);
      && IsRight(c, h, p, a) && (m == p && a.QueryMrn? ==> UpTo(c, ranks.query, h, p, k + 1, true, a.mrn))
    decreases bound, 1, |c.bundle.policies[m].groups[k].policies| + 1
  {
    var group := c.bundle.policies[m].groups[k];
    GroupOffers(c, ranks, m, group);
    ReferencesAreRight(c, ranks, g, m, group.policies, bound, p, a);
    ReferencesParts(c, ranks, g, m, group.policies, bound, EdgePart(a, PolicyMrn(p)));
    var h := GroupQueriesAreRight(c, ranks, WithReferences(c, ranks, g, m, group.policies, bound), m, k, p, a);
  }

  lemma {:induction false} ReferencesAreRight(
      c: Config, ranks: Ranks, g: JobGraph, m: Mrn, refs: seq<Mrn>, bound: nat, p: Mrn, a: Id)
    requires WellFormed(c, ranks) && Sound(c, ranks.query, g) && IsActive(c, m) && AllKnown(c, refs)
    requires AllReached(c, m, refs) && ListLevel(c.bundle.policies, ranks.policy, refs) <= bound
    requires p in c.bundle.policies && IsRight(c, g, p, a)
    ensures IsRight(c, WithReferences(c, ranks, g, m, refs, bound), p, a)
    decreases bound, 1, |refs|
  {
    if refs != [] {
      var front, last := refs[..|refs| - 1], refs[|refs| - 1];
      var g1 := LastReference(c, ranks, g, m, refs, bound);
      ReferencesAreRight(c, ranks, g, m, front, bound, p, a);
      ReferenceIsRight(c, ranks, g1, m, last, bound, p, a);
    }
  }

  lemma ReferenceIsRight(c: Config, ranks: Ranks, g: JobGraph, m: Mrn, r: Mrn, bound: nat, p: Mrn, a: Id)
    requires WellFormed(c, ranks) && Sound(c, ranks.query, g) && IsActive(c, m) && r in c.bundle.policies
    requires Edge(RunningPolicies(c), m, r) && Level(c.bundle.policies, ranks.policy, r) <= bound
    requires p in c.bundle.policies && IsRight(c, g, p, a)
    ensures IsRight(c, WithReference(c, ranks, g, m, r, bound), p, a)
    decreases bound, 1, 0
  {
    ReachesOneMore(RunningPolicies(c), c.bundleMrn, m, r);
    PolicyIsRight(c, ranks, g, r, p, a);
    OneMoreEdgeIsRight(c, WithPolicy(c, ranks, g, r).0, PolicyMrn(r), PolicyMrn(m), ReferenceImpact(c, r), p, a);
  }

  /** The graph of the policies alone. */
  lemma PoliciesAlone(c: Config, ranks: Ranks, a: Id, b: Id) returns (g: JobGraph)
    requires WellFormed(c, ranks) && c.bundleMrn in c.bundle.policies
    ensures Sound(c, ranks.query, g) && Knows(g, KnownAtFirst(c, ranks.query))
    ensures WholeGraph(c, ranks) ==
      if c.bundleMrn in c.bundle.frameworks then WithFramework(c, ranks, g, c.bundleMrn) else g
    ensures HasEdge(g, a, b) <==> ReportsByPolicies(c, ranks.query, a, b)
    ensures b in g.nodes <==> IncludedByPolicies(c, ranks.query, b)
  {
    EmptyIsSound(c, ranks.query);
    ReachesSelf(RunningPolicies(c), c.bundleMrn);
    g := WithPolicy(c, ranks, EMPTY_GRAPH, c.bundleMrn).0;
    StartKnown(c, ranks);
    StartParts(c, ranks, EdgePart(a, b));
    ActiveEdges(c, ranks.query, a, b);
    StartParts(c, ranks, NodePart(b));
    ActiveNodes(c, ranks.query, b);
  }

  lemma NothingIsRight(c: Config, p: Mrn, a: Id)
    requires p in c.bundle.policies
    ensures IsRight(c, EMPTY_GRAPH, p, a)
  {
  }

  lemma StartIsRight(c: Config, ranks: Ranks, p: Mrn, a: Id) returns (g: JobGraph)
    requires WellFormed(c, ranks) && c.bundleMrn in c.bundle.policies && p in c.bundle.policies
    ensures Sound(c, ranks.query, g) && KeepsEdges(g, WholeGraph(c, ranks)) && IsRight(c, g, p, a)
    ensures HasEdge(g, a, PolicyMrn(p)) <==> IsActive(c, p) && PolicySource(c, ranks.query, p, a)
  {
    EmptyIsSound(c, ranks.query);
    ReachesSelf(RunningPolicies(c), c.bundleMrn);
    g := WithPolicy(c, ranks, EMPTY_GRAPH, c.bundleMrn).0;
    NothingIsRight(c, p, a);
    PolicyIsRight(c, ranks, EMPTY_GRAPH, c.bundleMrn, p, a);
    StartParts(c, ranks, EdgePart(a, PolicyMrn(p)));
    ActiveEdges(c, ranks.query, a, PolicyMrn(p));
  }

  /** A query, a risk factor or a policy that reports to an active policy because of what that lists,
      has or refers to, tells it exactly this: a data query is ignored; a check tells its value,
      unless it is ignored or an earlier group lists it as a data query; a risk factor is ignored;
      and a policy tells its own impact, unless it is ignored. */
  lemma PolicyImpactIsExact(c: Config, ranks: Ranks, p: Mrn, e: EdgeImpact)
    requires WellFormed(c, ranks) && c.bundleMrn in c.bundle.policies
    requires e in WholeGraph(c, ranks).From(PolicyMrn(p)) && IsActive(c, p) && PolicySource(c, ranks.query, p, e.edge)
    ensures e.impact == PolicyImpact(c, p, e.edge)
  {
    var g := StartIsRight(c, ranks, p, e.edge);
    OldEdgeKeepsImpact(g, WholeGraph(c, ranks), PolicyMrn(p), e);
    assert Carries(g, PolicyMrn(p), EdgeImpact(e.edge, e.impact));
  }
}
