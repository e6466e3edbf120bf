/** What a query is used for: as a check, as a data query, or as both. */
module QueryTypes {
  import opened PolicyBundle
  import opened Digraph

  datatype QueryType = Scoring | Data | Both

  /** What a query has been found to be used for so far. */
  function Uses(types: map<Mrn, QueryType>, m: Mrn): set<QueryType> {
    if m !in types then {} else if types[m] == Both then {Scoring, Data} else {types[m]}
  }

  // ----- the queries under a query -----

  function VariantEdges(queries: map<Mrn, Mquery>): Graph<Mrn> {
    map m | m in queries :: (set v | v in queries[m].variants)
  }

  /** x is m itself, or a variant, in the bundle or not, of a query that variants lead to. */
  ghost predicate Under(queries: map<Mrn, Mquery>, m: Mrn, x: Mrn) {
    x == m || exists q :: q in queries && Reaches(VariantEdges(queries), m, q) && x in queries[q].variants
  }

  ghost predicate UnderAny(queries: map<Mrn, Mquery>, list: seq<Mrn>, x: Mrn) {
    exists m :: m in list && Under(queries, m, x)
  }

  lemma UnderVariant(queries: map<Mrn, Mquery>, m: Mrn, v: Mrn, x: Mrn)
    requires m in queries && v in queries[m].variants && Under(queries, v, x)
    ensures Under(queries, m, x)
  {
    var g := VariantEdges(queries);
    if x == v {
      ReachesSelf(g, m);
    } else {
      var q :| q in queries && Reaches(g, v, q) && x in queries[q].variants;
      if v in queries {
        EdgeReaches(g, m, v);
        ReachesTransitive(g, m, v, q);
      } else {
        assert v != q;
        var w := FirstEdge(g, v, q);
        assert false;
      }
    }
  }

  /** The queries under m: m itself and those under its variants. */
  lemma UnderUnfolds(queries: map<Mrn, Mquery>, m: Mrn, x: Mrn)
    ensures Under(queries, m, x) <==> x == m || (m in queries && UnderAny(queries, queries[m].variants, x))
  {
    var g := VariantEdges(queries);
    if Under(queries, m, x) && x != m {
      var q :| q in queries && Reaches(g, m, q) && x in queries[q].variants;
      if q == m {
        assert Under(queries, x, x);
      } else {
        var v := FirstEdge(g, m, q);
        assert Under(queries, v, x);
      }
    }
    if m in queries && UnderAny(queries, queries[m].variants, x) {
      var v :| v in queries[m].variants && Under(queries, v, x);
      UnderVariant(queries, m, v, x);
    }
  }

  lemma UnderOneMore(queries: map<Mrn, Mquery>, list: seq<Mrn>, i: nat, x: Mrn)
    requires i < |list|
    ensures UnderAny(queries, list[..i + 1], x) <==> UnderAny(queries, list[..i], x) || Under(queries, list[i], x)
  {
    assert list[..i + 1] == list[..i] + [list[i]];
  }

  // ----- the policies that count -----

  /** From a policy to those that its matching groups refer to. */
  function PolicyEdges(bundle: Bundle, target: Target): Graph<Mrn> {
    map m | m in bundle.policies :: (set g, c | g in bundle.policies[m].groups && Matches(target, g)
      && c in g.policies :: c)
  }

  function Names(refs: seq<QueryRef>): (r: seq<Mrn>)
    ensures |r| == |refs|
  {
    seq(|refs|, i requires 0 <= i < |refs| => refs[i].mrn)
  }

  function QueryNames(queries: seq<Mquery>): (r: seq<Mrn>)
    ensures |r| == |queries|
  {
    seq(|queries|, i requires 0 <= i < |queries| => queries[i].mrn)
  }

  function GroupNames(g: Group, use: QueryType): seq<Mrn> {
    Names(if use == Scoring then g.checks else g.queries)
  }

  function RiskNames(r: RiskFactor, use: QueryType): seq<Mrn> {
    QueryNames(if use == Scoring then r.checks else r.queries)
  }

  /** The policy lists a query above x, in a matching group or in a risk factor. */
  ghost predicate Lists(bundle: Bundle, target: Target, p: Policy, x: Mrn, use: QueryType) {
    || (exists g :: g in p.groups && Matches(target, g) && UnderAny(bundle.queries, GroupNames(g, use), x))
    || (exists r :: r in p.riskFactors && UnderAny(bundle.queries, RiskNames(r, use), x))
  }

  /** A matching group lists, as a check or else as a data query, a query above x, or a risk factor does. */
  lemma ListsIff(bundle: Bundle, target: Target, p: Policy, x: Mrn, check: bool)
    ensures Lists(bundle, target, p, x, if check then Scoring else Data) <==>
      || (exists g, ref :: g in p.groups && Matches(target, g) && ref in (if check then g.checks else g.queries)
            && Under(bundle.queries, ref.mrn, x))
      || (exists r, q :: r in p.riskFactors && q in (if check then r.checks else r.queries)
            && Under(bundle.queries, q.mrn, x))
  {
    var use := if check then Scoring else Data;
    forall g ensures UnderAny(bundle.queries, GroupNames(g, use), x) <==>
      exists ref :: ref in (if check then g.checks else g.queries) && Under(bundle.queries, ref.mrn, x)
    {
      NamedUnder(bundle.queries, if check then g.checks else g.queries, x);
    }
    forall r: RiskFactor ensures UnderAny(bundle.queries, RiskNames(r, use), x) <==>
      exists q :: q in (if check then r.checks else r.queries) && Under(bundle.queries, q.mrn, x)
    {
      QueryNamedUnder(bundle.queries, if check then r.checks else r.queries, x);
    }
  }

  lemma NamedUnder(queries: map<Mrn, Mquery>, refs: seq<QueryRef>, x: Mrn)
    ensures UnderAny(queries, Names(refs), x) <==> exists ref :: ref in refs && Under(queries, ref.mrn, x)
  {
    if m :| m in Names(refs) && Under(queries, m, x) {
      var i :| 0 <= i < |refs| && Names(refs)[i] == m;
      assert refs[i] in refs;
    }
    if ref :| ref in refs && Under(queries, ref.mrn, x) {
      var i :| 0 <= i < |refs| && refs[i] == ref;
      assert Names(refs)[i] == ref.mrn;
    }
  }

  lemma QueryNamedUnder(queries: map<Mrn, Mquery>, list: seq<Mquery>, x: Mrn)
    ensures UnderAny(queries, QueryNames(list), x) <==> exists q :: q in list && Under(queries, q.mrn, x)
  {
    if m :| m in QueryNames(list) && Under(queries, m, x) {
      var i :| 0 <= i < |list| && QueryNames(list)[i] == m;
      assert list[i] in list;
    }
    if q :| q in list && Under(queries, q.mrn, x) {
      var i :| 0 <= i < |list| && list[i] == q;
      assert QueryNames(list)[i] == q.mrn;
    }
  }

  /** Some policy reached from p through matching groups lists a query above x. */
  ghost predicate UsedBy(bundle: Bundle, target: Target, p: Mrn, x: Mrn, use: QueryType) {
    exists q :: q in bundle.policies && Reaches(PolicyEdges(bundle, target), p, q)
      && Lists(bundle, target, bundle.policies[q], x, use)
  }

  ghost predicate UsedByAny(bundle: Bundle, target: Target, list: seq<Mrn>, x: Mrn, use: QueryType) {
    exists p :: p in list && UsedBy(bundle, target, p, x, use)
  }

  ghost predicate GroupUses(bundle: Bundle, target: Target, g: Group, x: Mrn, use: QueryType) {
    Matches(target, g) && (UnderAny(bundle.queries, GroupNames(g, use), x)
      || UsedByAny(bundle, target, g.policies, x, use))
  }

  ghost predicate GroupsUse(bundle: Bundle, target: Target, groups: seq<Group>, x: Mrn, use: QueryType) {
    exists g :: g in groups && GroupUses(bundle, target, g, x, use)
  }

  ghost predicate RisksUse(bundle: Bundle, risks: seq<RiskFactor>, x: Mrn, use: QueryType) {
    exists r :: r in risks && UnderAny(bundle.queries, RiskNames(r, use), x)
  }

  lemma UsedByReferrer(bundle: Bundle, target: Target, p: Mrn, c: Mrn, x: Mrn, use: QueryType)
    requires Edge(PolicyEdges(bundle, target), p, c) && UsedBy(bundle, target, c, x, use)
    ensures UsedBy(bundle, target, p, x, use)
  {
    var g := PolicyEdges(bundle, target);
    var q :| q in bundle.policies && Reaches(g, c, q) && Lists(bundle, target, bundle.policies[q], x, use);
    EdgeReaches(g, p, c);
    ReachesTransitive(g, p, c, q);
  }

  lemma UnknownUsesNothing(bundle: Bundle, target: Target, p: Mrn, x: Mrn, use: QueryType)
    requires p !in bundle.policies
    ensures !UsedBy(bundle, target, p, x, use)
  {
    if UsedBy(bundle, target, p, x, use) {
      var g := PolicyEdges(bundle, target);
      var q :| q in bundle.policies && Reaches(g, p, q) && Lists(bundle, target, bundle.policies[q], x, use);
      var v := FirstEdge(g, p, q);
      assert false;
    }
  }

  /** A policy uses what its groups and risk factors use. */
  lemma UsedByUnfolds(bundle: Bundle, target: Target, p: Mrn, x: Mrn, use: QueryType)
    requires p in bundle.policies
    ensures UsedBy(bundle, target, p, x, use) <==>
      GroupsUse(bundle, target, bundle.policies[p].groups, x, use)
        || RisksUse(bundle, bundle.policies[p].riskFactors, x, use)
  {
    var g := PolicyEdges(bundle, target);
    var policy := bundle.policies[p];
    if UsedBy(bundle, target, p, x, use) {
      var q :| q in bundle.policies && Reaches(g, p, q) && Lists(bundle, target, bundle.policies[q], x, use);
      if q != p {
        var c := FirstEdge(g, p, q);
        assert UsedBy(bundle, target, c, x, use);
        var group :| group in policy.groups && Matches(target, group) && c in group.policies;
        assert GroupUses(bundle, target, group, x, use);
      } else if !RisksUse(bundle, policy.riskFactors, x, use) {
        var group :| group in policy.groups && Matches(target, group)
          && UnderAny(bundle.queries, GroupNames(group, use), x);
        assert GroupUses(bundle, target, group, x, use);
      }
    }
    if GroupsUse(bundle, target, policy.groups, x, use) {
      var group :| group in policy.groups && GroupUses(bundle, target, group, x, use);
      if UnderAny(bundle.queries, GroupNames(group, use), x) {
        ReachesSelf(g, p);
      } else {
        var c :| c in group.policies && UsedBy(bundle, target, c, x, use);
        if c in bundle.policies {
          UsedByReferrer(bundle, target, p, c, x, use);
        } else {
          UnknownUsesNothing(bundle, target, c, x, use);
        }
      }
    }
    if RisksUse(bundle, policy.riskFactors, x, use) {
      ReachesSelf(g, p);
    }
  }

  // ----- collecting -----

  /** What is known more in after than in before: these queries are checks, those are data queries. */
  ghost predicate Gains(before: map<Mrn, QueryType>, after: map<Mrn, QueryType>, checks: iset<Mrn>, data: iset<Mrn>) {
    forall x :: Uses(after, x) == Uses(before, x) + (if x in checks then {Scoring} else {}) + (if x in data
      then {Data} else {})
  }

  ghost predicate Adds(before: map<Mrn, QueryType>, after: map<Mrn, QueryType>, who: iset<Mrn>, use: QueryType) {
    Gains(before, after, if use == Scoring then who else iset{}, if use == Data then who else iset{})
  }

  lemma GainsCompose(
    a: map<Mrn, QueryType>, b: map<Mrn, QueryType>, c: map<Mrn, QueryType>,
    s: iset<Mrn>, d: iset<Mrn>, s': iset<Mrn>, d': iset<Mrn>)
    requires Gains(a, b, s, d) && Gains(b, c, s', d')
    ensures Gains(a, c, s + s', d + d')
  {
    forall x ensures Uses(c, x) == Uses(a, x) + (if x in s + s' then {Scoring} else {}) + (if x in d + d'
      then {Data} else {}) {
      assert Uses(b, x) == Uses(a, x) + (if x in s then {Scoring} else {}) + (if x in d then {Data} else {});
      assert Uses(c, x) == Uses(b, x) + (if x in s' then {Scoring} else {}) + (if x in d' then {Data} else {});
    }
  }

  lemma AddsCompose(
    a: map<Mrn, QueryType>, b: map<Mrn, QueryType>, c: map<Mrn, QueryType>, who: iset<Mrn>, who': iset<Mrn>,
      all: iset<Mrn>,
    use: QueryType)
    requires Adds(a, b, who, use) && Adds(b, c, who', use) && all == who + who'
    ensures Adds(a, c, all, use)
  {
    GainsCompose(a, b, c, if use == Scoring then who else iset{}, if use == Data then who else iset{},
      if use == Scoring then who' else iset{}, if use == Data then who' else iset{});
    assert (if use == Scoring then who else iset{}) + (if use == Scoring then who' else iset{}) == if use == Scoring
      then all else iset{};
    assert (if use == Data then who else iset{}) + (if use == Data then who' else iset{}) == if use == Data
      then all else iset{};
  }

  ghost function AllUnder(queries: map<Mrn, Mquery>, list: seq<Mrn>): iset<Mrn> {
    iset x | UnderAny(queries, list, x)
  }

  lemma AllUnderOneMore(queries: map<Mrn, Mquery>, list: seq<Mrn>, i: nat)
    requires i < |list|
    ensures AllUnder(queries, list[..i + 1]) == AllUnder(queries, list[..i]) + AllUnder(queries, [list[i]])
  {
    forall x {
      UnderOneMore(queries, list, i, x);
    }
  }

  lemma AllUnderUnfolds(queries: map<Mrn, Mquery>, m: Mrn)
    ensures AllUnder(queries, [m]) == iset{m} + (if m in queries
      then AllUnder(queries, queries[m].variants) else iset{})
  {
    forall x ensures UnderAny(queries, [m], x) <==>
      x == m || (m in queries && UnderAny(queries, queries[m].variants, x)) {
      UnderUnfolds(queries, m, x);
    }
  }

  /** The queries that a policy and what it refers to use as checks or as data queries. */
  ghost function AllUsed(bundle: Bundle, target: Target, p: Mrn, use: QueryType): iset<Mrn> {
    iset x | UsedBy(bundle, target, p, x, use)
  }

  ghost function AllUsedByAny(bundle: Bundle, target: Target, list: seq<Mrn>, use: QueryType): iset<Mrn> {
    iset x | UsedByAny(bundle, target, list, x, use)
  }

  ghost function AllUsedByGroup(bundle: Bundle, target: Target, g: Group, use: QueryType): iset<Mrn> {
    if Matches(target, g) then AllUnder(bundle.queries, GroupNames(g, use)) + AllUsedByAny(bundle, target, g.policies,
      use)
    else iset{}
  }

  ghost function AllUsedByGroups(bundle: Bundle, target: Target, groups: seq<Group>, use: QueryType): iset<Mrn> {
    iset x | GroupsUse(bundle, target, groups, x, use)
  }

  ghost function AllUsedByRisks(bundle: Bundle, risks: seq<RiskFactor>, use: QueryType): iset<Mrn> {
    iset x | RisksUse(bundle, risks, x, use)
  }

  lemma OneMorePolicyUsed(bundle: Bundle, target: Target, list: seq<Mrn>, i: nat, use: QueryType)
    requires i < |list|
    ensures AllUsedByAny(bundle, target, list[..i + 1], use) ==
      AllUsedByAny(bundle, target, list[..i], use) + AllUsed(bundle, target, list[i], use)
  {
    assert list[..i + 1] == list[..i] + [list[i]];
  }

  lemma OneMoreGroupUsed(bundle: Bundle, target: Target, groups: seq<Group>, i: nat, use: QueryType)
    requires i < |groups|
    ensures AllUsedByGroups(bundle, target, groups[..i + 1], use) ==
      AllUsedByGroups(bundle, target, groups[..i], use) + AllUsedByGroup(bundle, target, groups[i], use)
  {
    assert groups[..i + 1] == groups[..i] + [groups[i]];
    forall x ensures GroupsUse(bundle, target, groups[..i + 1], x, use) <==>
      GroupsUse(bundle, target, groups[..i], x, use) || GroupUses(bundle, target, groups[i], x, use)
    {
    }
    forall x ensures x in AllUsedByGroup(bundle, target, groups[i], use) <==>
      GroupUses(bundle, target, groups[i], x, use) {
    }
  }

  lemma OneMoreRiskUsed(bundle: Bundle, risks: seq<RiskFactor>, i: nat, use: QueryType)
    requires i < |risks|
    ensures AllUsedByRisks(bundle, risks[..i + 1], use) ==
      AllUsedByRisks(bundle, risks[..i], use) + AllUnder(bundle.queries, RiskNames(risks[i], use))
  {
    assert risks[..i + 1] == risks[..i] + [risks[i]];
  }

  lemma UsedUnfolds(bundle: Bundle, target: Target, p: Mrn, use: QueryType)
    ensures AllUsed(bundle, target, p, use) ==
      if p in bundle.policies then
        AllUsedByGroups(bundle, target, bundle.policies[p].groups, use) + AllUsedByRisks(bundle,
          bundle.policies[p].riskFactors, use)
      else iset{}
  {
    if p in bundle.policies {
      var groups, risks := bundle.policies[p].groups, bundle.policies[p].riskFactors;
      forall x ensures x in AllUsed(bundle, target, p, use) <==>
        x in AllUsedByGroups(bundle, target, groups, use) + AllUsedByRisks(bundle, risks, use)
      {
        UsedByUnfolds(bundle, target, p, x, use);
      }
    } else {
      forall x ensures x !in AllUsed(bundle, target, p, use) {
        UnknownUsesNothing(bundle, target, p, x, use);
      }
    }
  }

  class QueryTypeCollector {
    const bundle: Bundle
    const target: Target
    var types: map<Mrn, QueryType>

    constructor (bundle: Bundle, target: Target)
      ensures this.bundle == bundle && this.target == target && types == map[]
    {
      this.bundle, this.target, types := bundle, target, map[];
    }

    method Record(m: Mrn, use: QueryType)
      requires use != Both
      modifies this`types
      ensures Adds(old(types), types, iset{m}, use)
    {
      if m !in types {
        types := types[m := use];
      } else {
        var existing := types[m];
        if existing != use && existing != Both {
          types := types[m := Both];
        }
      }
    }

    /** Records a use of a query and of everything under it. */
    method Accumulate(m: Mrn, use: QueryType, ghost rank: Mrn -> nat)
      requires use != Both && VariantsDescend(bundle.queries, rank)
      modifies this`types
      ensures Adds(old(types), types, AllUnder(bundle.queries, [m]), use)
      decreases Level(bundle.queries, rank, m), 0
    {
      Record(m, use);
      AllUnderUnfolds(bundle.queries, m);
      if m in bundle.queries {
        ghost var before := types;
        AccumulateAll(bundle.queries[m].variants, use, rank);
        AddsCompose(old(types), before, types, iset{m}, AllUnder(bundle.queries, bundle.queries[m].variants),
          AllUnder(bundle.queries, [m]), use);
      }
    }

    method AccumulateAll(list: seq<Mrn>, use: QueryType, ghost rank: Mrn -> nat)
      requires use != Both && VariantsDescend(bundle.queries, rank)
      modifies this`types
      ensures Adds(old(types), types, AllUnder(bundle.queries, list), use)
      decreases ListLevel(bundle.queries, rank, list), 1
    {
      for i := 0 to |list|
        invariant Adds(old(types), types, AllUnder(bundle.queries, list[..i]), use)
      {
        ghost var before := types;
        Accumulate(list[i], use, rank);
        AllUnderOneMore(bundle.queries, list, i);
        AddsCompose(old(types), before, types, AllUnder(bundle.queries, list[..i]), AllUnder(bundle.queries, [list[i]]),
          AllUnder(bundle.queries, list[..i + 1]), use);
      }
      assert list[..|list|] == list;
    }

    /** Adds the queries of a list of checks and of one of data queries. */
    method AccumulateBoth(checks: seq<Mrn>, data: seq<Mrn>, ghost rank: Mrn -> nat)
      requires VariantsDescend(bundle.queries, rank)
      modifies this`types
      ensures Gains(old(types), types, AllUnder(bundle.queries, checks), AllUnder(bundle.queries, data))
    {
      ghost var s, d := AllUnder(bundle.queries, checks), AllUnder(bundle.queries, data);
      AccumulateAll(checks, Scoring, rank);
      ghost var before := types;
      AccumulateAll(data, Data, rank);
      GainsCompose(old(types), before, types, s, iset{}, iset{}, d);
      assert s + iset{} == s && iset{} + d == d;
    }

    method CollectAll(list: seq<Mrn>, ghost ranks: Ranks)
      requires VariantsDescend(bundle.queries, ranks.query) && PoliciesDescend(bundle.policies, ranks.policy)
      modifies this`types
      ensures Gains(old(types), types, AllUsedByAny(bundle, target, list, Scoring),
        AllUsedByAny(bundle, target, list, Data))
      decreases ListLevel(bundle.policies, ranks.policy, list), 1
    {
      for i := 0 to |list|
        invariant Gains(old(types), types,
          AllUsedByAny(bundle, target, list[..i], Scoring), AllUsedByAny(bundle, target, list[..i], Data))
      {
        ghost var before := types;
        CollectQueryTypes(list[i], ranks);
        OneMorePolicyUsed(bundle, target, list, i, Scoring);
        OneMorePolicyUsed(bundle, target, list, i, Data);
        GainsCompose(old(types), before, types,
          AllUsedByAny(bundle, target, list[..i], Scoring), AllUsedByAny(bundle, target, list[..i], Data),
          AllUsed(bundle, target, list[i], Scoring), AllUsed(bundle, target, list[i], Data));
      }
      assert list[..|list|] == list;
    }

    method CollectGroup(g: Group, ghost ranks: Ranks)
      requires VariantsDescend(bundle.queries, ranks.query) && PoliciesDescend(bundle.policies, ranks.policy)
      modifies this`types
      ensures Gains(old(types), types, AllUsedByGroup(bundle, target, g, Scoring),
        AllUsedByGroup(bundle, target, g, Data))
      decreases ListLevel(bundle.policies, ranks.policy, g.policies), 2
    {
      if !Matches(target, g) {
        return;
      }
      AccumulateBoth(Names(g.checks), Names(g.queries), ranks.query);
      ghost var before := types;
      CollectAll(g.policies, ranks);
      GainsCompose(old(types), before, types,
        AllUnder(bundle.queries, Names(g.checks)), AllUnder(bundle.queries, Names(g.queries)),
        AllUsedByAny(bundle, target, g.policies, Scoring), AllUsedByAny(bundle, target, g.policies, Data));
    }

    /** Collects the uses of all queries of a policy and of the policies it refers to. */
    method CollectQueryTypes(p: Mrn, ghost ranks: Ranks)
      requires VariantsDescend(bundle.queries, ranks.query) && PoliciesDescend(bundle.policies, ranks.policy)
      modifies this`types
      ensures Gains(old(types), types, AllUsed(bundle, target, p, Scoring), AllUsed(bundle, target, p, Data))
      decreases Level(bundle.policies, ranks.policy, p), 0
    {
      UsedUnfolds(bundle, target, p, Scoring);
      UsedUnfolds(bundle, target, p, Data);
      if p !in bundle.policies {
        return;
      }
      var groups := bundle.policies[p].groups;
      for i := 0 to |groups|
        invariant Gains(old(types), types,
          AllUsedByGroups(bundle, target, groups[..i], Scoring), AllUsedByGroups(bundle, target, groups[..i], Data))
      {
        ghost var before := types;
        GroupIsLower(bundle, p, groups[i], ranks.policy);
        CollectGroup(groups[i], ranks);
        OneMoreGroupUsed(bundle, target, groups, i, Scoring);
        OneMoreGroupUsed(bundle, target, groups, i, Data);
        GainsCompose(old(types), before, types,
          AllUsedByGroups(bundle, target, groups[..i], Scoring), AllUsedByGroups(bundle, target, groups[..i], Data),
          AllUsedByGroup(bundle, target, groups[i], Scoring), AllUsedByGroup(bundle, target, groups[i], Data));
      }
      assert groups[..|groups|] == groups;
      ghost var before := types;
      CollectRisks(bundle.policies[p].riskFactors, ranks.query);
      GainsCompose(old(types), before, types,
        AllUsedByGroups(bundle, target, groups, Scoring), AllUsedByGroups(bundle, target, groups, Data),
        AllUsedByRisks(bundle, bundle.policies[p].riskFactors, Scoring),
          AllUsedByRisks(bundle, bundle.policies[p].riskFactors, Data));
    }

    method CollectRisks(risks: seq<RiskFactor>, ghost rank: Mrn -> nat)
      requires VariantsDescend(bundle.queries, rank)
      modifies this`types
      ensures Gains(old(types), types, AllUsedByRisks(bundle, risks, Scoring), AllUsedByRisks(bundle, risks, Data))
    {
      for i := 0 to |risks|
        invariant Gains(old(types), types, AllUsedByRisks(bundle, risks[..i], Scoring),
          AllUsedByRisks(bundle, risks[..i], Data))
      {
        ghost var before := types;
        AccumulateBoth(QueryNames(risks[i].checks), QueryNames(risks[i].queries), rank);
        OneMoreRiskUsed(bundle, risks, i, Scoring);
        OneMoreRiskUsed(bundle, risks, i, Data);
        GainsCompose(old(types), before, types,
          AllUsedByRisks(bundle, risks[..i], Scoring), AllUsedByRisks(bundle, risks[..i], Data),
          AllUnder(bundle.queries, QueryNames(risks[i].checks)),
            AllUnder(bundle.queries, QueryNames(risks[i].queries)));
      }
      assert risks[..|risks|] == risks;
    }
  }

  lemma GroupIsLower(bundle: Bundle, p: Mrn, g: Group, rank: Mrn -> nat)
    requires PoliciesDescend(bundle.policies, rank) && p in bundle.policies && g in bundle.policies[p].groups
    ensures ListLevel(bundle.policies, rank, g.policies) < Level(bundle.policies, rank, p)
  {
    forall c | c in g.policies ensures Level(bundle.policies, rank, c) < Level(bundle.policies, rank, p) {
      assert rank(c) < rank(p);
    }
  }

  /** Starting from nothing, a query ends up as both exactly when it is reached as a check and as a
      data query, as one of them exactly when it is reached only so, and unknown when it is not
      reached at all. */
  lemma CollectedTypeIsExact(bundle: Bundle, target: Target, p: Mrn, types: map<Mrn, QueryType>, x: Mrn)
    requires Gains(map[], types, AllUsed(bundle, target, p, Scoring), AllUsed(bundle, target, p, Data))
    ensures
      var check, data := UsedBy(bundle, target, p, x, Scoring), UsedBy(bundle, target, p, x, Data);
      && (x in types && types[x] == Both <==> check && data)
      && (x in types && types[x] == Scoring <==> check && !data)
      && (x in types && types[x] == Data <==> data && !check)
      && (x !in types <==> !check && !data)
  {
    assert Uses(map[], x) == {};
    var check, data := UsedBy(bundle, target, p, x, Scoring), UsedBy(bundle, target, p, x, Data);
    assert Uses(types, x) == Uses(map[], x) + (if check then {Scoring} else {}) + (if data then {Data} else {});
    assert Scoring in Uses(types, x) <==> check;
    assert Data in Uses(types, x) <==> data;
  }
}
