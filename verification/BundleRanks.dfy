/** Where the ranks come from by which the resolver descends along references. */
module BundleRanks {
  import opened Digraph
  import opened PolicyBundle
  import VariantGraph
  import PolicyOrder

  /** The queries as the cycle detection looks at them. */
  function QueriesToSort(queries: map<Mrn, Mquery>): map<Mrn, VariantGraph.Query> {
    map m | m in queries :: VariantGraph.Query(m, queries[m].variants)
  }

  /** The order that the cycle detection comes up with provides ranks for variants. */
  lemma OrderRanksVariants(queries: map<Mrn, Mquery>, order: seq<Mrn>)
    requires Ordered(VariantGraph.Variants(QueriesToSort(queries)), order)
    requires forall m :: m in order <==> m in queries
    ensures VariantsDescend(queries, m => Position(order, m))
  {
    var g := VariantGraph.Variants(QueriesToSort(queries));
    forall m, v | m in queries && v in queries[m].variants && v in queries
      ensures Position(order, v) < Position(order, m)
    {
      assert Edge(g, m, v);
      PositionDescends(g, order, m, v);
    }
  }

  lemma {:induction false} WalkLowersRank(queries: map<Mrn, Mquery>, rank: Mrn -> nat, p: seq<Mrn>)
    requires VariantsDescend(queries, rank) && p != [] && IsWalk(VariantGraph.Variants(QueriesToSort(queries)), p)
    ensures rank(p[|p| - 1]) <= rank(p[0])
  {
    if |p| > 1 {
      assert Edge(VariantGraph.Variants(QueriesToSort(queries)), p[0], p[1]);
      WalkLowersRank(queries, rank, p[1..]);
    }
  }

  /** When it reports a cycle there are none. */
  lemma CycleHasNoRanks(queries: map<Mrn, Mquery>, rank: Mrn -> nat)
    requires HasCycle(VariantGraph.Variants(QueriesToSort(queries)))
    ensures !VariantsDescend(queries, rank)
  {
    var g := VariantGraph.Variants(QueriesToSort(queries));
    if VariantsDescend(queries, rank) {
      var m :| OnCycle(g, m);
      var v :| Edge(g, m, v) && Reaches(g, v, m);
      var p :| WalkFromTo(g, p, v, m);
      WalkLowersRank(queries, rank, p);
      assert false;
    }
  }

  /** The policies as they are sorted by their dependencies. */
  function PoliciesToSort(policies: map<Mrn, Policy>): map<Mrn, PolicyOrder.Policy> {
    map m | m in policies :: PolicyOrder.Policy(m, GroupRefs(policies[m].groups))
  }

  function GroupRefs(groups: seq<Group>): (refs: seq<seq<Mrn>>)
    ensures |refs| == |groups| && forall i :: 0 <= i < |groups| ==> refs[i] == groups[i].policies
  {
    seq(|groups|, i requires 0 <= i < |groups| => groups[i].policies)
  }

  /** So does the order of policies, when every reference resolves and none is circular. */
  lemma OrderRanksPolicies(policies: map<Mrn, Policy>, order: seq<Mrn>)
    requires Ordered(PolicyOrder.Dependencies(PoliciesToSort(policies)), order)
    requires forall m :: m in order <==> m in policies
    requires forall m, g, p :: m in policies && g in policies[m].groups && p in g.policies ==> p in policies
    ensures PoliciesDescend(policies, m => Position(order, m))
  {
    var graph := PolicyOrder.Dependencies(PoliciesToSort(policies));
    forall m, g, p | m in policies && g in policies[m].groups && p in g.policies
      ensures Position(order, p) < Position(order, m)
    {
      ReferenceIsEdge(policies, m, g, p);
      PositionDescends(graph, order, m, p);
    }
  }

  lemma ReferenceIsEdge(policies: map<Mrn, Policy>, m: Mrn, g: Group, p: Mrn)
    requires m in policies && g in policies[m].groups && p in g.policies && p in policies
    ensures Edge(PolicyOrder.Dependencies(PoliciesToSort(policies)), m, p)
  {
    var i :| 0 <= i < |policies[m].groups| && policies[m].groups[i] == g;
    assert p in GroupRefs(policies[m].groups)[i];
    PolicyOrder.RefsInFlat(GroupRefs(policies[m].groups), i);
  }
}
