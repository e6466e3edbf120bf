/** Query nodes carry the type that was collected for them. */
module CollectedTypes {
  import opened PolicyBundle
  import opened JobGraph
  import opened Digraph
  import opened VariantSelection
  import opened GraphRules
  import opened GraphParts
  import opened PolicyRules
  import opened GraphSources
  import opened GraphContents
  import QueryTypes

  /** The types come from collecting those of the policy that is resolved, starting from nothing. */
  ghost predicate AreCollected(c: Config) {
    QueryTypes.Gains(map[], c.types,
      QueryTypes.AllUsed(c.bundle, c.target, c.bundleMrn, QueryTypes.Scoring),
      QueryTypes.AllUsed(c.bundle, c.target, c.bundleMrn, QueryTypes.Data))
  }

  function UseOf(check: bool): QueryTypes.QueryType {
    if check then QueryTypes.Scoring else QueryTypes.Data
  }

  /** Collecting passes through policies whether or not they can run. */
  lemma RunningIsReached(c: Config, p: Mrn)
    requires Reaches(RunningPolicies(c), c.bundleMrn, p)
    ensures Reaches(QueryTypes.PolicyEdges(c.bundle, c.target), c.bundleMrn, p)
  {
    var walk :| WalkFromTo(RunningPolicies(c), walk, c.bundleMrn, p);
    var edges := QueryTypes.PolicyEdges(c.bundle, c.target);
    forall i | 0 <= i < |walk| - 1 ensures Edge(edges, walk[i], walk[i + 1]) {
      assert Edge(RunningPolicies(c), walk[i], walk[i + 1]);
    }
    assert WalkFromTo(edges, walk, c.bundleMrn, p);
  }

  lemma {:induction false} ChainIsUnder(c: Config, rank: Mrn -> nat, m: Mrn, q: Mrn)
    requires VariantsDescend(c.bundle.queries, rank) && Select(c, rank, m).Some? && OnChain(c, rank, m, q)
    ensures QueryTypes.Under(c.bundle.queries, m, q)
    decreases Level(c.bundle.queries, rank, m)
  {
    if q != m {
      var v := FirstMatch(c, rank, c.bundle.queries[m].variants);
      ChainIsUnder(c, rank, v, q);
      QueryTypes.UnderVariant(c.bundle.queries, m, v, q);
    }
  }

  lemma ListedIsCollected(c: Config, rank: Mrn -> nat, p: Mrn, m: Mrn, check: bool, q: Mrn)
    requires VariantsDescend(c.bundle.queries, rank) && IsActive(c, p) && ListsAs(c, p, m, check)
    requires Select(c, rank, m).Some? && OnChain(c, rank, m, q)
    ensures QueryTypes.UsedBy(c.bundle, c.target, c.bundleMrn, q, UseOf(check))
  {
    RunningIsReached(c, p);
    ChainIsUnder(c, rank, m, q);
    var g, ref :| g in c.bundle.policies[p].groups && Matches(c.target, g) && ref in ListOf(g, check) && ref.mrn == m
      && !IsOverride(ref.action, g.groupType);
    var names := QueryTypes.GroupNames(g, UseOf(check));
    var i :| 0 <= i < |ListOf(g, check)| && ListOf(g, check)[i] == ref;
    assert names[i] == m;
    assert QueryTypes.UnderAny(c.bundle.queries, names, q);
    assert QueryTypes.Lists(c.bundle, c.target, c.bundle.policies[p], q, UseOf(check));
  }

  lemma UsedIsCollected(c: Config, rank: Mrn -> nat, m: Mrn) returns (check: bool)
    requires VariantsDescend(c.bundle.queries, rank) && IsUsed(c, rank, m)
    ensures QueryTypes.UsedBy(c.bundle, c.target, c.bundleMrn, m, UseOf(check))
  {
    var p :| IsActive(c, p) && UsedBy(c, rank, p, m);
    var x;
    x, check :| ListsAs(c, p, x, check) && Select(c, rank, x).Some? && OnChain(c, rank, x, m);
    ListedIsCollected(c, rank, p, x, check, m);
  }

  /** With collected types, every query in the graph has been collected, so the default is never
      taken; and its node says exactly how the bundle uses the query. */
  lemma NodesHaveCollectedTypes(c: Config, ranks: Ranks, m: Mrn)
    requires WellFormed(c, ranks) && c.bundleMrn in c.bundle.policies && AreCollected(c)
    requires QueryMrn(m) in WholeGraph(c, ranks).nodes
    ensures m in c.types && WholeGraph(c, ranks).nodes[QueryMrn(m)].QueryNode?
    ensures WholeGraph(c, ranks).nodes[QueryMrn(m)].queryType == c.types[m]
    ensures c.types[m] ==
      if !QueryTypes.UsedBy(c.bundle, c.target, c.bundleMrn, m, QueryTypes.Data) then QueryTypes.Scoring
      else if !QueryTypes.UsedBy(c.bundle, c.target, c.bundleMrn, m, QueryTypes.Scoring) then QueryTypes.Data
      else QueryTypes.Both
  {
    NodesIff(c, ranks, QueryMrn(m));
    QueryNodeSelects(c, ranks.query, WholeGraph(c, ranks), m);
    assert NodeIsSound(c, ranks.query, WholeGraph(c, ranks), QueryMrn(m));
    var check := UsedIsCollected(c, ranks.query, m);
    QueryTypes.CollectedTypeIsExact(c.bundle, c.target, c.bundleMrn, c.types, m);
  }
}
