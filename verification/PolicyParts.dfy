/** Exactly which nodes and edges policies bring into the graph. */
module PolicyParts {
  import opened Wrappers
  import opened PolicyTypes
  import opened PolicyBundle
  import opened JobGraph
  import opened Digraph
  import opened Sequences
  import opened VariantSelection
  import opened GraphRules
  import opened GraphParts
  import opened PolicyRules

  // ----- listed queries -----

  /** A query that reports to a policy comes with all that it needs. */
  ghost predicate ReportBrings(c: Config, rank: Mrn -> nat, p: Mrn, q: Mrn, x: Part)
    requires VariantsDescend(c.bundle.queries, rank)
  {
    Select(c, rank, q).Some? && (QueryBrings(c, rank, q, x) || x == EdgePart(QueryMrn(q), PolicyMrn(p)))
  }

  ghost predicate RefsBring(c: Config, rank: Mrn -> nat, p: Mrn, groupType: GroupType, refs: seq<QueryRef>, x: Part)
    requires VariantsDescend(c.bundle.queries, rank)
  {
    exists ref :: ref in refs && !IsOverride(ref.action, groupType) && ReportBrings(c, rank, p, ref.mrn, x)
  }

  lemma ListedParts(
      c: Config, rank: Mrn -> nat, g: JobGraph, p: Mrn, groupType: GroupType, ref: QueryRef, check: bool, x: Part)
    requires Sound(c, rank, g) && IsActive(c, p) && AreListed(c, p, groupType, [ref], check)
    ensures Holds(WithListed(c, rank, g, p, groupType, ref, check), x) <==>
      Holds(g, x) || (!IsOverride(ref.action, groupType) && ReportBrings(c, rank, p, ref.mrn, x))
  {
    ListedUnfolds(c, rank, g, p, groupType, ref, check);
    if !IsOverride(ref.action, groupType) && Select(c, rank, ref.mrn).Some? {
      SelectedParts(c, rank, g, ref.mrn, x);
      EdgeParts(WithSelected(c, rank, g, ref.mrn), QueryMrn(ref.mrn), PolicyMrn(p), ListedImpact(c, ref.mrn, check), x);
    }
  }

  lemma {:induction false} QueriesParts(
    c: Config, rank: Mrn -> nat, g: JobGraph, p: Mrn, groupType: GroupType, refs: seq<QueryRef>, check: bool, x: Part)
    requires Sound(c, rank, g) && IsActive(c, p) && AreListed(c, p, groupType, refs, check)
    ensures Holds(WithQueries(c, rank, g, p, groupType, refs, check), x) <==>
      Holds(g, x) || RefsBring(c, rank, p, groupType, refs, x)
    decreases |refs|
  {
    if refs != [] {
      var front, last := refs[..|refs| - 1], refs[|refs| - 1];
      InFrontOrLast(refs);
      QueriesParts(c, rank, g, p, groupType, front, check, x);
      ListedParts(c, rank, WithQueries(c, rank, g, p, groupType, front, check), p, groupType, last, check, x);
    }
  }

  // ----- risk factors of a policy -----

  /** Only risk factors with checks are looked at. */
  ghost predicate PolicyRiskBrings(c: Config, p: Mrn, r: RiskFactor, x: Part) {
    r.checks != [] && (RiskBrings(c, r, x) || (AddsRisk(c, r) && x == EdgePart(RiskMrn(r.mrn), PolicyMrn(p))))
  }

  ghost predicate RisksBring(c: Config, p: Mrn, risks: seq<RiskFactor>, x: Part) {
    exists r :: r in risks && PolicyRiskBrings(c, p, r, x)
  }

  ghost predicate AnyRisk(c: Config, risks: seq<RiskFactor>) {
    exists r :: r in risks && r.checks != [] && AddsRisk(c, r)
  }

  lemma RiskStep(c: Config, rank: Mrn -> nat, g: JobGraph, p: Mrn, risks: seq<RiskFactor>)
    requires Sound(c, rank, g) && risks != []
    ensures var done, r := WithRisks(c, rank, g, p, risks[..|risks| - 1]), risks[|risks| - 1];
      WithRisks(c, rank, g, p, risks) ==
      if r.checks == [] then done
      else if AddsRisk(c, r) then
        (WithRisk(c, rank, done.0, r).0.AddEdge(RiskMrn(r.mrn), PolicyMrn(p), Some(IGNORED_IMPACT)), true)
      else (WithRisk(c, rank, done.0, r).0, done.1)
  {
    RiskOutcome(c, rank, WithRisks(c, rank, g, p, risks[..|risks| - 1]).0, risks[|risks| - 1]);
  }

  lemma {:induction false} RisksOutcome(c: Config, rank: Mrn -> nat, g: JobGraph, p: Mrn, risks: seq<RiskFactor>)
    requires Sound(c, rank, g)
    ensures WithRisks(c, rank, g, p, risks).1 <==> AnyRisk(c, risks)
  {
    if risks != [] {
      RisksOutcome(c, rank, g, p, risks[..|risks| - 1]);
      RiskStep(c, rank, g, p, risks);
      InFrontOrLast(risks);
    }
  }

  lemma {:induction false} RisksParts(c: Config, rank: Mrn -> nat, g: JobGraph, p: Mrn, risks: seq<RiskFactor>, x: Part)
    requires Sound(c, rank, g)
    ensures Holds(WithRisks(c, rank, g, p, risks).0, x) <==> Holds(g, x) || RisksBring(c, p, risks, x)
  {
    if risks != [] {
      var front, last := risks[..|risks| - 1], risks[|risks| - 1];
      var done := WithRisks(c, rank, g, p, front).0;
      RisksParts(c, rank, g, p, front, x);
      RiskStep(c, rank, g, p, risks);
      RiskParts(c, rank, done, last, x);
      EdgeParts(WithRisk(c, rank, done, last).0, RiskMrn(last.mrn), PolicyMrn(p), Some(IGNORED_IMPACT), x);
      RisksBringOneMore(c, p, risks, x);
    }
  }

  lemma RisksBringOneMore(c: Config, p: Mrn, risks: seq<RiskFactor>, x: Part)
    requires risks != []
    ensures RisksBring(c, p, risks, x) <==>
      RisksBring(c, p, risks[..|risks| - 1], x) || PolicyRiskBrings(c, p, risks[|risks| - 1], x)
  {
    InFrontOrLast(risks);
  }

  // ----- policies -----

  /** A policy that counts as added where it is referred to: it runs, and one of its groups matches
      or one of its risk factors is added. */
  ghost predicate Counts(c: Config, m: Mrn) {
    && m in c.bundle.policies && RunsPolicy(c, c.bundle.policies[m])
    && (AnyMatches(c, c.bundle.policies[m].groups) || AnyRisk(c, c.bundle.policies[m].riskFactors))
  }

  /** What a policy brings itself: its node, the queries that matching groups list without
      overriding them, edges from the policies they refer to that count, and its risk factors. */
  ghost predicate PolicyBrings(c: Config, rank: Mrn -> nat, p: Mrn, x: Part)
    requires VariantsDescend(c.bundle.queries, rank) && p in c.bundle.policies
  {
    || x == NodePart(PolicyMrn(p))
    || (exists q, check :: ListsAs(c, p, q, check) && ReportBrings(c, rank, p, q, x))
    || (exists q :: Edge(RunningPolicies(c), p, q) && Counts(c, q) && x == EdgePart(PolicyMrn(q), PolicyMrn(p)))
    || RisksBring(c, p, c.bundle.policies[p].riskFactors, x)
  }

  /** What comes with m is what is brought by the policies it reaches through ones that run. */
  ghost predicate ReachedBring(c: Config, rank: Mrn -> nat, m: Mrn, x: Part)
    requires VariantsDescend(c.bundle.queries, rank)
  {
    exists p :: p in c.bundle.policies && RunsPolicy(c, c.bundle.policies[p])
      && Reaches(RunningPolicies(c), m, p) && PolicyBrings(c, rank, p, x)
  }

  ghost predicate ReferencesBring(c: Config, rank: Mrn -> nat, m: Mrn, refs: seq<Mrn>, x: Part)
    requires VariantsDescend(c.bundle.queries, rank)
  {
    exists r :: r in refs && ReferenceBrings(c, rank, m, r, x)
  }

  ghost predicate ReferenceBrings(c: Config, rank: Mrn -> nat, m: Mrn, r: Mrn, x: Part)
    requires VariantsDescend(c.bundle.queries, rank)
  {
    ReachedBring(c, rank, r, x) || (Counts(c, r) && x == EdgePart(PolicyMrn(r), PolicyMrn(m)))
  }

  ghost predicate GroupBrings(c: Config, rank: Mrn -> nat, m: Mrn, group: Group, x: Part)
    requires VariantsDescend(c.bundle.queries, rank)
  {
    || ReferencesBring(c, rank, m, group.policies, x)
    || RefsBring(c, rank, m, group.groupType, group.checks, x)
    || RefsBring(c, rank, m, group.groupType, group.queries, x)
  }

  ghost predicate GroupsBring(c: Config, rank: Mrn -> nat, m: Mrn, groups: seq<Group>, x: Part)
    requires VariantsDescend(c.bundle.queries, rank)
  {
    exists group :: group in groups && Matches(c.target, group) && GroupBrings(c, rank, m, group, x)
  }

  /** What matching groups bring, sorted by the policies it belongs to. */
  lemma ReachedUnfolds(c: Config, ranks: Ranks, m: Mrn, x: Part)
    requires WellFormed(c, ranks) && m in c.bundle.policies
    ensures ReachedBring(c, ranks.query, m, x) <==>
      && RunsPolicy(c, c.bundle.policies[m])
      && (|| x == NodePart(PolicyMrn(m))
          || GroupsBring(c, ranks.query, m, c.bundle.policies[m].groups, x)
          || RisksBring(c, m, c.bundle.policies[m].riskFactors, x))
  {
    if RunsPolicy(c, c.bundle.policies[m]) {
      if GroupsBring(c, ranks.query, m, c.bundle.policies[m].groups, x) {
        GroupsAreReached(c, ranks, m, x);
      }
      ReachesSelf(RunningPolicies(c), m);
    }
    if ReachedBring(c, ranks.query, m, x) {
      ReachedIsBrought(c, ranks, m, x);
    }
  }

  lemma GroupsAreReached(c: Config, ranks: Ranks, m: Mrn, x: Part)
    requires WellFormed(c, ranks) && m in c.bundle.policies && RunsPolicy(c, c.bundle.policies[m])
    requires GroupsBring(c, ranks.query, m, c.bundle.policies[m].groups, x)
    ensures ReachedBring(c, ranks.query, m, x)
  {
    var rank, policies := ranks.query, RunningPolicies(c);
    var group :| group in c.bundle.policies[m].groups && Matches(c.target, group) && GroupBrings(c, rank, m, group, x);
    ReachesSelf(policies, m);
    if ReferencesBring(c, rank, m, group.policies, x) {
      var r :| r in group.policies && ReferenceBrings(c, rank, m, r, x);
      assert Edge(policies, m, r);
      if ReachedBring(c, rank, r, x) {
        var p :| p in c.bundle.policies && RunsPolicy(c, c.bundle.policies[p]) && Reaches(policies, r, p)
          && PolicyBrings(c, rank, p, x);
        EdgeReaches(policies, m, r);
        ReachesTransitive(policies, m, r, p);
      }
    } else if RefsBring(c, rank, m, group.groupType, group.checks, x) {
      var ref :| ref in group.checks && !IsOverride(ref.action, group.groupType)
        && ReportBrings(c, rank, m, ref.mrn, x);
      assert ref in ListOf(group, true) && ListsAs(c, m, ref.mrn, true);
    } else {
      var ref :| ref in group.queries && !IsOverride(ref.action, group.groupType)
        && ReportBrings(c, rank, m, ref.mrn, x);
      assert ref in ListOf(group, false) && ListsAs(c, m, ref.mrn, false);
    }
  }

  lemma ReachedIsBrought(c: Config, ranks: Ranks, m: Mrn, x: Part)
    requires WellFormed(c, ranks) && m in c.bundle.policies && ReachedBring(c, ranks.query, m, x)
    ensures RunsPolicy(c, c.bundle.policies[m])
    ensures x == NodePart(PolicyMrn(m)) || GroupsBring(c, ranks.query, m, c.bundle.policies[m].groups, x)
      || RisksBring(c, m, c.bundle.policies[m].riskFactors, x)
  {
    var rank, policies := ranks.query, RunningPolicies(c);
    var p :| p in c.bundle.policies && RunsPolicy(c, c.bundle.policies[p]) && Reaches(policies, m, p)
      && PolicyBrings(c, rank, p, x);
    if p == m {
      OwnIsBrought(c, ranks, m, x);
    } else {
      var r := FirstEdge(policies, m, p);
      var group := ReferringGroup(c, m, r);
      assert ReachedBring(c, rank, r, x);
      assert ReferenceBrings(c, rank, m, r, x);
    }
  }

  lemma OwnIsBrought(c: Config, ranks: Ranks, m: Mrn, x: Part)
    requires WellFormed(c, ranks) && m in c.bundle.policies && PolicyBrings(c, ranks.query, m, x)
    ensures x == NodePart(PolicyMrn(m)) || GroupsBring(c, ranks.query, m, c.bundle.policies[m].groups, x)
      || RisksBring(c, m, c.bundle.policies[m].riskFactors, x)
  {
    var rank := ranks.query;
    if q, check :| ListsAs(c, m, q, check) && ReportBrings(c, rank, m, q, x) {
      var group, ref :| group in c.bundle.policies[m].groups && Matches(c.target, group) && ref in ListOf(group, check)
        && ref.mrn == q && !IsOverride(ref.action, group.groupType);
      assert GroupBrings(c, rank, m, group, x);
    } else if q :| Edge(RunningPolicies(c), m, q) && Counts(c, q) && x == EdgePart(PolicyMrn(q), PolicyMrn(m)) {
      var group := ReferringGroup(c, m, q);
      assert ReferenceBrings(c, rank, m, q, x);
    }
  }

  lemma ReferringGroup(c: Config, m: Mrn, r: Mrn) returns (group: Group)
    requires m in c.bundle.policies && Edge(RunningPolicies(c), m, r)
    ensures RunsPolicy(c, c.bundle.policies[m])
    ensures group in c.bundle.policies[m].groups && Matches(c.target, group) && r in group.policies
  {
    group :| group in c.bundle.policies[m].groups && Matches(c.target, group) && r in group.policies;
  }

  /** Adding a policy to any graph adds exactly what is brought by the policies it reaches, and it
      counts as added as it should. */
  lemma {:induction false} PolicyBringsReached(c: Config, ranks: Ranks, g: JobGraph, m: Mrn, x: Part)
    requires WellFormed(c, ranks) && Sound(c, ranks.query, g) && m in c.bundle.policies
    requires Reaches(RunningPolicies(c), c.bundleMrn, m)
    ensures Holds(WithPolicy(c, ranks, g, m).0, x) <==> Holds(g, x) || ReachedBring(c, ranks.query, m, x)
    ensures WithPolicy(c, ranks, g, m).1 <==> Counts(c, m)
    decreases Level(c.bundle.policies, ranks.policy, m), 0, 0
  {
    ReachedUnfolds(c, ranks, m, x);
    if RunsPolicy(c, c.bundle.policies[m]) {
      var g1, bound := StartPolicy(c, ranks, g, m, x);
      OwnParts(c, ranks, g1, m, bound, x);
    }
  }

  lemma StartPolicy(c: Config, ranks: Ranks, g: JobGraph, m: Mrn, x: Part) returns (g1: JobGraph, bound: nat)
    requires WellFormed(c, ranks) && Sound(c, ranks.query, g) && m in c.bundle.policies
    requires Reaches(RunningPolicies(c), c.bundleMrn, m) && RunsPolicy(c, c.bundle.policies[m])
    ensures IsActive(c, m) && Sound(c, ranks.query, g1)
    ensures Holds(g1, x) <==> Holds(g, x) || x == NodePart(PolicyMrn(m))
    ensures bound == Level(c.bundle.policies, ranks.policy, m) - 1
    ensures GroupsBelow(c, ranks, c.bundle.policies[m].groups, bound) && GroupsKnown(c, m, c.bundle.policies[m].groups)
    ensures WithPolicy(c, ranks, g, m) == WithPolicyParts(c, ranks, g1, m, bound)
  {
    g1 := g.AddNode(NodeOfPolicy(c, c.bundle.policies[m]));
    bound := Level(c.bundle.policies, ranks.policy, m) - 1;
    PolicyStarts(c, ranks, g, m, bound);
    NodeParts(g, NodeOfPolicy(c, c.bundle.policies[m]), x);
  }

  lemma OwnParts(c: Config, ranks: Ranks, g: JobGraph, m: Mrn, bound: nat, x: Part)
    requires WellFormed(c, ranks) && Sound(c, ranks.query, g) && IsActive(c, m)
    requires GroupsBelow(c, ranks, c.bundle.policies[m].groups, bound) && GroupsKnown(c, m, c.bundle.policies[m].groups)
    ensures Holds(WithPolicyParts(c, ranks, g, m, bound).0, x) <==>
      || Holds(g, x) || GroupsBring(c, ranks.query, m, c.bundle.policies[m].groups, x)
      || RisksBring(c, m, c.bundle.policies[m].riskFactors, x)
    ensures WithPolicyParts(c, ranks, g, m, bound).1 <==> Counts(c, m)
    decreases bound, 3, 0
  {
    var groups, risks := c.bundle.policies[m].groups, c.bundle.policies[m].riskFactors;
    GroupsParts(c, ranks, g, m, groups, bound, x);
    var g1 := WithGroups(c, ranks, g, m, groups, bound);
    RisksParts(c, ranks.query, g1, m, risks, x);
    RisksOutcome(c, ranks.query, g1, m, risks);
  }

  lemma {:induction false} GroupsParts(
      c: Config, ranks: Ranks, g: JobGraph, m: Mrn, groups: seq<Group>, bound: nat, x: Part)
    requires WellFormed(c, ranks) && Sound(c, ranks.query, g) && IsActive(c, m)
    requires GroupsBelow(c, ranks, groups, bound) && GroupsKnown(c, m, groups)
    ensures Holds(WithGroups(c, ranks, g, m, groups, bound), x) <==>
      Holds(g, x) || GroupsBring(c, ranks.query, m, groups, x)
    decreases bound, 2, |groups|
  {
    if groups != [] {
      var front, last := groups[..|groups| - 1], groups[|groups| - 1];
      var g1 := LastGroup(c, ranks, g, m, groups, bound);
      GroupsParts(c, ranks, g, m, front, bound, x);
      if Matches(c.target, last) {
        GroupParts(c, ranks, g1, m, last, bound, x);
      }
      InFrontOrLast(groups);
    }
  }

  lemma LastGroup(c: Config, ranks: Ranks, g: JobGraph, m: Mrn, groups: seq<Group>, bound: nat) returns (g1: JobGraph)
    requires WellFormed(c, ranks) && Sound(c, ranks.query, g) && IsActive(c, m)
    requires GroupsBelow(c, ranks, groups, bound) && GroupsKnown(c, m, groups) && groups != []
    ensures var front, last := groups[..|groups| - 1], groups[|groups| - 1];
      && GroupsBelow(c, ranks, front, bound) && GroupsKnown(c, m, front)
      && g1 == WithGroups(c, ranks, g, m, front, bound) && Sound(c, ranks.query, g1)
      && last in c.bundle.policies[m].groups && ListLevel(c.bundle.policies, ranks.policy, last.policies) <= bound
      && WithGroups(c, ranks, g, m, groups, bound) ==
        (if Matches(c.target, last) then WithGroup(c, ranks, g1, m, last, bound) else g1)
  {
    g1 := WithGroups(c, ranks, g, m, groups[..|groups| - 1], bound);
  }

  lemma GroupParts(c: Config, ranks: Ranks, g: JobGraph, m: Mrn, group: Group, bound: nat, x: Part)
    requires WellFormed(c, ranks) && Sound(c, ranks.query, g) && IsActive(c, m)
    requires group in c.bundle.policies[m].groups && Matches(c.target, group)
    requires ListLevel(c.bundle.policies, ranks.policy, group.policies) <= bound
    ensures Holds(WithGroup(c, ranks, g, m, group, bound), x) <==>
      Holds(g, x) || GroupBrings(c, ranks.query, m, group, x)
    decreases bound, 1, |group.policies| + 1
  {
    GroupOffers(c, ranks, m, group);
    ReferencesParts(c, ranks, g, m, group.policies, bound, x);
    var g1 := WithReferences(c, ranks, g, m, group.policies, bound);
    QueriesParts(c, ranks.query, g1, m, group.groupType, group.checks, true, x);
    var g2 := WithQueries(c, ranks.query, g1, m, group.groupType, group.checks, true);
    QueriesParts(c, ranks.query, g2, m, group.groupType, group.queries, false, x);
  }

  lemma {:induction false} ReferencesParts(
      c: Config, ranks: Ranks, g: JobGraph, m: Mrn, refs: seq<Mrn>, bound: nat, x: Part)
    requires WellFormed(c, ranks) && Sound(c, ranks.query, g) && IsActive(c, m) && AllKnown(c, refs)
    requires AllReached(c, m, refs)
    requires ListLevel(c.bundle.policies, ranks.policy, refs) <= bound
    ensures Holds(WithReferences(c, ranks, g, m, refs, bound), x) <==>
      Holds(g, x) || ReferencesBring(c, ranks.query, m, refs, x)
    decreases bound, 1, |refs|
  {
    if refs != [] {
      var front, last := refs[..|refs| - 1], refs[|refs| - 1];
      var g1 := LastReference(c, ranks, g, m, refs, bound);
      ReferencesParts(c, ranks, g, m, front, bound, x);
      ReferenceParts(c, ranks, g1, m, last, bound, x);
      InFrontOrLast(refs);
    }
  }

  lemma ReferenceParts(c: Config, ranks: Ranks, g: JobGraph, m: Mrn, r: Mrn, bound: nat, x: Part)
    requires WellFormed(c, ranks) && Sound(c, ranks.query, g) && IsActive(c, m) && r in c.bundle.policies
    requires Edge(RunningPolicies(c), m, r) && Level(c.bundle.policies, ranks.policy, r) <= bound
    ensures Holds(WithReference(c, ranks, g, m, r, bound), x) <==>
      Holds(g, x) || ReferenceBrings(c, ranks.query, m, r, x)
    decreases bound, 1, 0
  {
    ReachesOneMore(RunningPolicies(c), c.bundleMrn, m, r);
    PolicyBringsReached(c, ranks, g, r, x);
    EdgeParts(WithPolicy(c, ranks, g, r).0, PolicyMrn(r), PolicyMrn(m), ReferenceImpact(c, r), x);
  }

  lemma LastReference(c: Config, ranks: Ranks, g: JobGraph, m: Mrn, refs: seq<Mrn>, bound: nat) returns (g1: JobGraph)
    requires WellFormed(c, ranks) && Sound(c, ranks.query, g) && IsActive(c, m) && AllKnown(c, refs)
    requires AllReached(c, m, refs)
    requires ListLevel(c.bundle.policies, ranks.policy, refs) <= bound && refs != []
    ensures var front, last := refs[..|refs| - 1], refs[|refs| - 1];
      && AllKnown(c, front) && AllReached(c, m, front) && ListLevel(c.bundle.policies, ranks.policy, front) <= bound
      && g1 == WithReferences(c, ranks, g, m, front, bound) && Sound(c, ranks.query, g1)
      && last in c.bundle.policies && Edge(RunningPolicies(c), m, last)
        && Level(c.bundle.policies, ranks.policy, last) <= bound
      && WithReferences(c, ranks, g, m, refs, bound) == WithReference(c, ranks, g1, m, last, bound)
  {
    SplitReferences(c, ranks, m, refs);
    g1 := WithReferences(c, ranks, g, m, refs[..|refs| - 1], bound);
  }
}
