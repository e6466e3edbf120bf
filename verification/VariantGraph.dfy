/** The variants of queries: detecting cycles among them, and sorting queries so that every
    variant is compiled before the query that selects it. */
module VariantGraph {
  import opened Wrappers
  import opened Digraph

  type Mrn = string

  datatype Query = Query(mrn: Mrn, variants: seq<Mrn>)

  /** Queries are filed under their own MRN. */
  predicate Filed(queries: map<Mrn, Query>) {
    forall m :: m in queries ==> queries[m].mrn == m
  }

  /** The edges from queries to their variants. */
  function Variants(queries: map<Mrn, Query>): Graph<Mrn> {
    map m | m in queries :: (set v | v in queries[m].variants)
  }

  // ----- three-colour cycle detection -----

  datatype VisitStatus = NEW | ACTIVE | VISITED

  function StatusIn(status: map<Mrn, VisitStatus>, m: Mrn): VisitStatus {
    if m in status then status[m] else NEW
  }

  ghost predicate IsSearch(
    queries: map<Mrn, Query>, status: map<Mrn, VisitStatus>, path: seq<Mrn>, done: seq<Mrn>)
  {
    && IsWalk(Variants(queries), path)
    && Ordered(Variants(queries), done)
    && (forall m :: m in path ==> m in queries)
    && (forall m :: m in done ==> m in queries)
    && (forall m :: StatusIn(status, m) == ACTIVE <==> m in path)
    && (forall m :: StatusIn(status, m) == VISITED <==> m in done)
  }

  lemma StartsSearch(queries: map<Mrn, Query>, status: map<Mrn, VisitStatus>, path: seq<Mrn>, done: seq<Mrn>, mrn: Mrn)
    requires IsSearch(queries, status, path, done) && mrn in queries && StatusIn(status, mrn) == NEW
    requires path != [] ==> Edge(Variants(queries), path[|path| - 1], mrn)
    ensures mrn !in path && mrn !in done && IsSearch(queries, status[mrn := ACTIVE], path + [mrn], done)
  {
  }

  lemma EndsSearch(queries: map<Mrn, Query>, status: map<Mrn, VisitStatus>, path: seq<Mrn>, done: seq<Mrn>, mrn: Mrn)
    requires IsSearch(queries, status, path + [mrn], done) && mrn in queries && mrn !in path
    requires forall b :: Edge(Variants(queries), mrn, b) ==> b in done
    ensures IsSearch(queries, status[mrn := VISITED], path, done + [mrn])
  {
    var p := path + [mrn];
    assert p[|path|] == mrn;
    assert mrn !in done;
    OrderedExtend(Variants(queries), done, mrn);
    assert IsWalk(Variants(queries), path) by {
      forall i | 0 <= i < |path| - 1 ensures Edge(Variants(queries), path[i], path[i + 1]) {
        assert Edge(Variants(queries), p[i], p[i + 1]);
      }
    }
    forall m ensures m in path <==> m in p && m != mrn {
    }
  }

  class VariantCycleDetector {
    const queries: map<Mrn, Query>
    var status: map<Mrn, VisitStatus>

    constructor (queries: map<Mrn, Query>)
      ensures this.queries == queries && status == map[]
    {
      this.queries, status := queries, map[];
    }

    function StatusOf(m: Mrn): VisitStatus
      reads this
    {
      StatusIn(status, m)
    }

    /** The ACTIVE nodes are exactly the search path; the VISITED ones are exactly those finished,
        in an order in which each comes after everything it leads to. */
    ghost predicate Searching(path: seq<Mrn>, done: seq<Mrn>)
      reads this
    {
      IsSearch(queries, status, path, done)
    }

    /** Follows the variants of one query; reports a query on a cycle if there is one ahead. */
    method DetectDFS(mrn: Mrn, ghost path: seq<Mrn>, ghost done: seq<Mrn>)
      returns (err: Option<Mrn>, ghost done': seq<Mrn>)
      requires Filed(queries) && Searching(path, done)
      requires mrn in queries && path != [] ==> Edge(Variants(queries), path[|path| - 1], mrn)
      modifies this
      ensures err.None? ==> Searching(path, done') && done <= done' && (mrn in queries ==> mrn in done')
      ensures err.Some? ==> OnCycle(Variants(queries), err.value)
      decreases queries.Keys - (set m | m in path) - (set m | m in done), 1
    {
      ghost var g := Variants(queries);
      done' := done;
      if mrn !in queries {
        return None, done;
      }
      var q := queries[mrn];
      match StatusOf(mrn) {
        case VISITED => return None, done;
        case ACTIVE =>
          PathClosesCycle(g, path, mrn);
          return Some(mrn), done;
        case NEW =>
      }
      StartsSearch(queries, status, path, done, mrn);
      status := status[q.mrn := ACTIVE];
      ghost var path' := path + [mrn];
      for i := 0 to |q.variants|
        invariant Searching(path', done') && done <= done'
        invariant forall j :: 0 <= j < i && q.variants[j] in queries ==> q.variants[j] in done'
      {
        var variant := q.variants[i];
        if variant in queries {
          assert Edge(g, mrn, variant);
          ghost var before := done';
          MoreSeen(queries, path, done, path', before, mrn);
          err, done' := DetectDFS(queries[variant].mrn, path', before);
          if err.Some? {
            return err, done';
          }
        }
      }
      forall b | Edge(g, mrn, b) ensures b in done' {
        var j :| 0 <= j < |q.variants| && q.variants[j] == b;
      }
      EndsSearch(queries, status, path, done', mrn);
      status := status[q.mrn := VISITED];
      done' := done' + [mrn];
      err := None;
    }
  }

  lemma MoreSeen(queries: map<Mrn, Query>, path: seq<Mrn>, done: seq<Mrn>, path': seq<Mrn>, done': seq<Mrn>, mrn: Mrn)
    requires mrn in queries && mrn !in path && mrn !in done
    requires path' == path + [mrn] && done <= done'
    ensures queries.Keys - (set m | m in path') - (set m | m in done') <
      queries.Keys - (set m | m in path) - (set m | m in done)
  {
    var a := queries.Keys - (set m | m in path') - (set m | m in done');
    var b := queries.Keys - (set m | m in path) - (set m | m in done);
    assert mrn in path';
    assert mrn in b && mrn !in a;
    forall m | m in a ensures m in b {
      assert m in path ==> m in path';
      assert m in done ==> m in done';
    }
  }

  /** Meeting a node of the search path again closes a cycle. */
  lemma PathClosesCycle(g: Graph<Mrn>, path: seq<Mrn>, m: Mrn)
    requires IsWalk(g, path) && m in path && Edge(g, path[|path| - 1], m)
    ensures OnCycle(g, m)
  {
    var i :| 0 <= i < |path| && path[i] == m;
    var last := path[|path| - 1];
    if i == |path| - 1 {
      ReachesSelf(g, m);
    } else {
      var tail := path[i + 1..];
      assert WalkFromTo(g, tail, path[i + 1], last);
      assert Edge(g, m, path[i + 1]);
      ReachesOneMore(g, path[i + 1], last, m);
    }
  }

  /** Visits all queries, in whatever order the map yields them. An error is reported exactly
      when the variants have a cycle, and names a query on one; otherwise the order in which the
      queries were finished lists every query after all of its variants. */
  method DetectVariantCycles(queries: map<Mrn, Query>) returns (err: Option<Mrn>, ghost order: seq<Mrn>)
    requires Filed(queries)
    ensures err.Some? <==> HasCycle(Variants(queries))
    ensures err.Some? ==> OnCycle(Variants(queries), err.value)
    ensures err.None? ==> Ordered(Variants(queries), order) && forall m :: m in order <==> m in queries
  {
    var detector := new VariantCycleDetector(queries);
    order := [];
    err := None;
    var rest := queries.Keys;
    assert detector.Searching([], []);
    while rest != {}
      invariant detector.queries == queries && fresh(detector)
      invariant rest <= queries.Keys
      invariant err.None? && detector.Searching([], order)
      invariant forall m :: m in queries && m !in rest ==> m in order
    {
      var m :| m in rest;
      rest := rest - {m};
      err, order := detector.DetectDFS(queries[m].mrn, [], order);
      if err.Some? {
        assert HasCycle(Variants(queries));
        return;
      }
    }
    OrderedHasNoCycle(Variants(queries), order);
  }

  // ----- topological sort -----

  function Mrns(s: seq<Query>): seq<Mrn> {
    seq(|s|, i requires 0 <= i < |s| => s[i].mrn)
  }

  lemma MrnsAppend(s: seq<Query>, q: Query)
    ensures Mrns(s + [q]) == Mrns(s) + [q.mrn]
  {
  }

  /** Every variant comes before the query, except where it leads back to the query. */
  ghost predicate VariantsFirst(queries: map<Mrn, Query>, sorted: seq<Query>) {
    SuccessorsFirst(Variants(queries), Mrns(sorted))
  }

  /** Entries of the map, none of them twice. */
  ghost predicate DistinctEntries(queries: map<Mrn, Query>, sorted: seq<Query>) {
    && (forall i :: 0 <= i < |sorted| ==> sorted[i].mrn in queries && sorted[i] == queries[sorted[i].mrn])
    && (forall i, j :: 0 <= i < j < |sorted| ==> sorted[i].mrn != sorted[j].mrn)
  }

  ghost predicate AllEmitted(queries: map<Mrn, Query>, visited: set<Mrn>, sorted: seq<Query>) {
    forall m :: m in visited && m in queries ==> m in Mrns(sorted)
  }

  class QuerySorter {
    const queries: map<Mrn, Query>
    var visited: set<Mrn>
    var sorted: seq<Query>

    constructor (queries: map<Mrn, Query>)
      ensures this.queries == queries && visited == {} && sorted == []
    {
      this.queries, visited, sorted := queries, {}, [];
    }

    ghost predicate Valid()
      reads this
    {
      && Filed(queries)
      && DistinctEntries(queries, sorted)
      && VariantsFirst(queries, sorted)
      && (forall m :: m in Mrns(sorted) ==> m in visited)
    }

    /** Visited queries whose variants are still being worked on. */
    ghost function Pending(): set<Mrn>
      reads this
    {
      set m | m in visited && m in queries && m !in Mrns(sorted)
    }

    lemma NothingIsPending()
      requires Pending() == {}
      ensures AllEmitted(queries, visited, sorted)
    {
      forall m | m in visited && m in queries ensures m in Mrns(sorted) {
        assert m !in Pending();
      }
    }

    /** Appends the queries that become available from one query, variants first. */
    method SortDFS(mrn: Mrn)
      requires Valid()
      requires mrn in queries ==> AllReach(Variants(queries), Pending(), mrn)
      modifies this
      ensures Valid() && old(sorted) <= sorted && old(visited) <= visited
      ensures Pending() == old(Pending())
      ensures mrn in visited
      ensures ReachedFrom(Variants(queries), mrn, Mrns(sorted)[|old(sorted)|..])
      ensures old(mrn in visited || mrn !in queries) ==> sorted == old(sorted)
      ensures old(mrn !in visited && mrn in queries && forall v :: v in queries[mrn].variants && v in queries ==>
        v in visited)
        ==> sorted == old(sorted) + [queries[mrn]]
      decreases queries.Keys - visited, 1
    {
      ghost var g := Variants(queries);
      if mrn in visited {
        return;
      }
      visited := visited + {mrn};
      if mrn !in queries {
        return;
      }
      var q := queries[mrn];
      ReachesSelf(g, mrn);
      ghost var pending := old(Pending()) + {mrn};
      ghost var ready := forall v :: v in q.variants && v in queries ==> v in old(visited);
      for i := 0 to |q.variants|
        invariant Valid() && old(sorted) <= sorted && old(visited) + {mrn} <= visited
        invariant Pending() == pending
        invariant forall j :: 0 <= j < i ==> q.variants[j] in visited
        invariant ReachedFrom(g, mrn, Mrns(sorted)[|old(sorted)|..])
        invariant ready ==> sorted == old(sorted)
      {
        var variant := q.variants[i];
        ghost var before := sorted;
        if variant in queries {
          assert Edge(g, mrn, variant);
          AllReachSuccessor(g, pending, mrn, variant);
        }
        SortDFS(variant);
        ReachedThrough(g, mrn, variant, Mrns(before), Mrns(sorted), |old(sorted)|);
      }
      assert mrn in Pending();
      EmitAfterVariants(queries, visited, sorted, q, pending);
      sorted := sorted + [q];
    }
  }

  lemma EmitAfterVariants(queries: map<Mrn, Query>, visited: set<Mrn>, sorted: seq<Query>, q: Query, pending: set<Mrn>)
    requires DistinctEntries(queries, sorted) && VariantsFirst(queries, sorted)
    requires q.mrn in queries && queries[q.mrn] == q && q.mrn !in Mrns(sorted)
    requires AllReach(Variants(queries), pending, q.mrn)
    requires pending == set m | m in visited && m in queries && m !in Mrns(sorted)
    requires forall v :: v in q.variants ==> v in visited
    ensures DistinctEntries(queries, sorted + [q]) && VariantsFirst(queries, sorted + [q])
    ensures Mrns(sorted + [q]) == Mrns(sorted) + [q.mrn]
  {
    var s := sorted + [q];
    forall i | 0 <= i < |sorted| ensures s[i].mrn != q.mrn {
      assert Mrns(sorted)[i] == s[i].mrn;
    }
    SuccessorsFirstExtend(Variants(queries), Mrns(sorted), pending, q.mrn);
    assert Mrns(s) == Mrns(sorted) + [q.mrn];
  }

  /** The map from MRNs to the queries of a list; of two with the same MRN the later one counts. */
  function ByMrn(list: seq<Option<Query>>): (m: map<Mrn, Query>)
    ensures Filed(m)
  {
    if list == [] then map[]
    else
      var m := ByMrn(list[..|list| - 1]);
      match list[|list| - 1]
      case None => m
      case Some(q) => m[q.mrn := q]
  }

  /** Collects the queries of a list into a map. */
  method GatherQueries(list: seq<Option<Query>>) returns (queriesMap: map<Mrn, Query>)
    ensures queriesMap == ByMrn(list)
  {
    queriesMap := map[];
    for i := 0 to |list|
      invariant queriesMap == ByMrn(list[..i])
    {
      assert list[..i + 1][..i] == list[..i];
      if list[i].Some? {
        queriesMap := queriesMap[list[i].value.mrn := list[i].value];
      }
    }
    assert list[..|list|] == list;
  }

  /** A list in which all queries differ and variants already come first. */
  ghost predicate AlreadySorted(list: seq<Option<Query>>) {
    && (forall i :: 0 <= i < |list| ==> list[i].Some?)
    && (forall i, j :: 0 <= i < j < |list| ==> list[i].value.mrn != list[j].value.mrn)
    && (forall i, v :: 0 <= i < |list| && v in list[i].value.variants && v in ByMrn(list) ==>
          exists j :: 0 <= j < i && list[j].value.mrn == v)
  }

  function Values(list: seq<Option<Query>>): seq<Query>
    requires forall i :: 0 <= i < |list| ==> list[i].Some?
  {
    seq(|list|, i requires 0 <= i < |list| => list[i].value)
  }

  /** Position k of the list holds a query with this MRN. */
  predicate ListedAt(list: seq<Option<Query>>, k: int, m: Mrn) {
    0 <= k < |list| && list[k].Some? && list[k].value.mrn == m
  }

  /** A query reachable from one that is listed at or before position k. */
  ghost predicate WantedBy(list: seq<Option<Query>>, k: int, m: Mrn) {
    exists i, r :: i <= k && ListedAt(list, i, r) && Reaches(Variants(ByMrn(list)), r, m)
  }

  /** Only what a listed position asks for comes at or before the query listed there. */
  ghost predicate KeepsListOrder(list: seq<Option<Query>>, sorted: seq<Query>) {
    forall a, b, k {:trigger ListedAt(list, k, sorted[b].mrn), WantedBy(list, k, sorted[a].mrn)} ::
      0 <= a <= b < |sorted| && ListedAt(list, k, sorted[b].mrn) ==> WantedBy(list, k, sorted[a].mrn)
  }

  /** Sorts queries so that variants come first, following the order of the list: every query of
      the list appears once, variants precede the query unless they lead back to it, nothing
      overtakes a listed query unless an earlier position asks for it, and a list that is
      already sorted stays as it is. */
  method TopologicalSortQueries(list: seq<Option<Query>>) returns (sorted: seq<Query>)
    ensures DistinctEntries(ByMrn(list), sorted)
    ensures forall m :: m in ByMrn(list) ==> m in Mrns(sorted)
    ensures VariantsFirst(ByMrn(list), sorted)
    ensures KeepsListOrder(list, sorted)
    ensures AlreadySorted(list) ==> sorted == Values(list)
  {
    var queriesMap := GatherQueries(list);
    var sorter := new QuerySorter(queriesMap);
    for i := 0 to |list|
      invariant sorter.queries == queriesMap && fresh(sorter)
      invariant sorter.Valid() && sorter.Pending() == {}
      invariant SeededUpTo(list, i, sorter.visited, sorter.sorted)
      invariant AlreadySorted(list) ==> sorter.sorted == Values(list)[..i]
    {
      ghost var before, seen := sorter.sorted, sorter.visited;
      sorter.NothingIsPending();
      if list[i].Some? {
        ListedIsFiled(list, i);
        if AlreadySorted(list) {
          SortedListIsReady(list, i, sorter.visited);
        }
        sorter.SortDFS(list[i].value.mrn);
      }
      if AlreadySorted(list) {
        ValuesOneMore(list, i);
      }
      SeedOneMore(list, i, seen, before, sorter.visited, sorter.sorted);
    }
    sorted := sorter.sorted;
    sorter.NothingIsPending();
    AllSeeded(list, sorter.visited, sorted);
  }

  lemma ValuesOneMore(list: seq<Option<Query>>, i: nat)
    requires i < |list| && forall i :: 0 <= i < |list| ==> list[i].Some?
    ensures Values(list)[..i + 1] == Values(list)[..i] + [list[i].value]
  {
  }

  /** After the first n positions: what they list has been visited, and whatever has been emitted
      was wanted by one of them. */
  ghost predicate SeededUpTo(list: seq<Option<Query>>, n: nat, visited: set<Mrn>, sorted: seq<Query>) {
    SeedsVisited(list, n, visited) && SeedsWanted(list, n - 1, Mrns(sorted)) && KeepsListOrder(list, sorted)
  }

  ghost predicate SeedsVisited(list: seq<Option<Query>>, n: nat, visited: set<Mrn>) {
    forall k, m {:trigger ListedAt(list, k, m)} :: k < n && ListedAt(list, k, m) ==> m in visited
  }

  ghost predicate SeedsWanted(list: seq<Option<Query>>, k: int, mrns: seq<Mrn>) {
    forall m {:trigger WantedBy(list, k, m)} :: m in mrns ==> WantedBy(list, k, m)
  }

  lemma WantedLater(list: seq<Option<Query>>, k: int, k': int, m: Mrn)
    requires WantedBy(list, k, m) && k <= k'
    ensures WantedBy(list, k', m)
  {
  }

  lemma NewMrn(queries: map<Mrn, Query>, before: seq<Query>, sorted: seq<Query>, b: nat)
    requires before <= sorted && DistinctEntries(queries, sorted) && |before| <= b < |sorted|
    ensures sorted[b].mrn !in Mrns(before)
  {
    forall i | 0 <= i < |Mrns(before)| ensures Mrns(before)[i] != sorted[b].mrn {
      assert before[i] == sorted[i];
    }
  }

  /** What one more position adds is wanted by that position. */
  lemma SeedIsWanted(list: seq<Option<Query>>, n: nat, before: seq<Mrn>, after: seq<Mrn>)
    requires n < |list| && before <= after
    requires SeedsWanted(list, n - 1, before)
    requires after == before ||
      (list[n].Some? && ReachedFrom(Variants(ByMrn(list)), list[n].value.mrn, after[|before|..]))
    ensures SeedsWanted(list, n, after)
  {
    forall m | m in after ensures WantedBy(list, n, m) {
      assert after == before + after[|before|..];
      if m in before {
        assert WantedBy(list, n - 1, m);
        WantedLater(list, n - 1, n, m);
      } else {
        assert ListedAt(list, n, list[n].value.mrn);
      }
    }
  }

  lemma SeedKeepsOrder(
      list: seq<Option<Query>>, n: nat, seen: set<Mrn>, before: seq<Query>, sorted: seq<Query>, a: nat, b: nat, k: int)
    requires n < |list| && SeededUpTo(list, n, seen, before)
    requires before <= sorted && DistinctEntries(ByMrn(list), sorted)
    requires AllEmitted(ByMrn(list), seen, before)
    requires a <= b < |sorted| && ListedAt(list, k, sorted[b].mrn)
    requires WantedBy(list, n, sorted[a].mrn)
    ensures WantedBy(list, k, sorted[a].mrn)
  {
    if b < |before| {
      assert before[a] == sorted[a] && before[b] == sorted[b];
      assert ListedAt(list, k, before[b].mrn) ==> WantedBy(list, k, before[a].mrn);
    } else {
      NewMrn(ByMrn(list), before, sorted, b);
      assert k >= n;
      WantedLater(list, n, k, sorted[a].mrn);
    }
  }

  lemma SeedOneMore(
      list: seq<Option<Query>>, n: nat, seen: set<Mrn>, before: seq<Query>, visited: set<Mrn>, sorted: seq<Query>)
    requires n < |list| && SeededUpTo(list, n, seen, before)
    requires seen <= visited && before <= sorted && DistinctEntries(ByMrn(list), sorted)
    requires AllEmitted(ByMrn(list), seen, before)
    requires if list[n].Some?
      then list[n].value.mrn in visited && ReachedFrom(Variants(ByMrn(list)), list[n].value.mrn,
        Mrns(sorted)[|before|..])
      else sorted == before
    ensures SeededUpTo(list, n + 1, visited, sorted)
  {
    assert SeedsWanted(list, n, Mrns(sorted)) by {
      SeedIsWanted(list, n, Mrns(before), Mrns(sorted));
    }
    assert SeedsVisited(list, n + 1, visited) by {
      forall k, m | k < n + 1 && ListedAt(list, k, m) ensures m in visited {
      }
    }
    forall a, b, k | 0 <= a <= b < |sorted| && ListedAt(list, k, sorted[b].mrn)
      ensures WantedBy(list, k, sorted[a].mrn)
    {
      assert Mrns(sorted)[a] == sorted[a].mrn;
      assert WantedBy(list, n, sorted[a].mrn);
      SeedKeepsOrder(list, n, seen, before, sorted, a, b, k);
    }
  }

  lemma {:induction false} ListedIsFiled(list: seq<Option<Query>>, i: nat)
    requires i < |list| && list[i].Some?
    ensures list[i].value.mrn in ByMrn(list)
    ensures AlreadySorted(list) ==> ByMrn(list)[list[i].value.mrn] == list[i].value
  {
    FiledLast(list, i);
  }

  lemma {:induction false} FiledLast(list: seq<Option<Query>>, i: nat)
    requires i < |list| && list[i].Some?
    ensures list[i].value.mrn in ByMrn(list)
    ensures (forall j :: i < j < |list| && list[j].Some? ==> list[j].value.mrn != list[i].value.mrn) ==>
      ByMrn(list)[list[i].value.mrn] == list[i].value
  {
    if i < |list| - 1 {
      FiledLast(list[..|list| - 1], i);
    }
  }

  lemma {:induction false} FiledIsListed(list: seq<Option<Query>>, m: Mrn) returns (i: nat)
    requires m in ByMrn(list)
    ensures ListedAt(list, i, m)
  {
    var last := list[|list| - 1];
    if last.Some? && last.value.mrn == m {
      i := |list| - 1;
    } else {
      i := FiledIsListed(list[..|list| - 1], m);
    }
  }

  lemma AllSeeded(list: seq<Option<Query>>, visited: set<Mrn>, sorted: seq<Query>)
    requires SeededUpTo(list, |list|, visited, sorted)
    requires AllEmitted(ByMrn(list), visited, sorted)
    ensures forall m :: m in ByMrn(list) ==> m in Mrns(sorted)
  {
    forall m | m in ByMrn(list) ensures m in Mrns(sorted) {
      var i := FiledIsListed(list, m);
      assert ListedAt(list, i, m);
    }
  }

  lemma SortedListIsReady(list: seq<Option<Query>>, i: nat, visited: set<Mrn>)
    requires AlreadySorted(list) && i < |list| && SeedsVisited(list, i, visited)
    ensures forall v :: v in list[i].value.variants && v in ByMrn(list) ==> v in visited
  {
    forall v | v in list[i].value.variants && v in ByMrn(list) ensures v in visited {
      var j :| 0 <= j < i && list[j].value.mrn == v;
      assert ListedAt(list, j, v);
    }
  }

  /** Queries without variant cycles come out with every variant strictly before its query. */
  lemma AcyclicVariantsComeFirst(queries: map<Mrn, Query>, sorted: seq<Query>)
    requires Filed(queries) && DistinctEntries(queries, sorted) && VariantsFirst(queries, sorted)
    requires !HasCycle(Variants(queries))
    ensures forall i, v :: 0 <= i < |sorted| && v in sorted[i].variants && v in queries ==> v in Mrns(sorted[..i])
  {
    var mrns := Mrns(sorted);
    AcyclicIsOrdered(Variants(queries), mrns);
    forall i, v | 0 <= i < |sorted| && v in sorted[i].variants && v in queries ensures v in Mrns(sorted[..i]) {
      assert Edge(Variants(queries), mrns[i], v);
      assert mrns[..i] == Mrns(sorted[..i]);
    }
  }
}
