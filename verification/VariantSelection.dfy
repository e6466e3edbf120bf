/** Which code is run for a query: the first matching variant, recursively. */
module VariantSelection {
  import opened Wrappers
  import opened PolicyTypes
  import opened PolicyWindow
  import opened PolicyBundle
  import opened QueryTypes
  import opened JobGraph

  /** What the builder works from. The overrides and types are those gathered beforehand; nothing
      is assumed about them. */
  datatype Config = Config(
    bundle: Bundle, target: Target, bundleMrn: Mrn, disabledCode: CodeId,
    actions: map<Id, Action>, impacts: map<Id, Impact>, scorings: map<Mrn, ScoringSystem>, types: map<Mrn, QueryType>)
  {
    function ActionOf(id: Id): Action {
      if id in actions then actions[id] else Unspecified
    }

    function ImpactOf(id: Id): Option<Impact> {
      if id in impacts then Some(impacts[id]) else None
    }

    /** A query that was not collected counts as a check: the zero value of its type. */
    function TypeOf(m: Mrn): QueryType {
      if m in types then types[m] else Scoring
    }

    function ScoringOf(m: Mrn): ScoringSystem {
      if m in scorings then scorings[m] else ScoringUnspecified
    }

    predicate Accepts(filters: set<CodeId>) {
      Supports(filters, target)
    }
  }

  ghost predicate QueriesFiled(queries: map<Mrn, Mquery>) {
    forall m :: m in queries ==> queries[m].mrn == m
  }

  /** A query that cannot run is answered by the disabled query; only its filters matter. */
  predicate IsDisabled(c: Config, m: Mrn) {
    !CanRun(c.ActionOf(QueryMrn(m)))
  }

  /** The code that is run for a query, if any. */
  ghost function Select(c: Config, rank: Mrn -> nat, m: Mrn): (code: Option<CodeId>)
    requires VariantsDescend(c.bundle.queries, rank)
    ensures code.Some? ==> m in c.bundle.queries
    decreases Level(c.bundle.queries, rank, m), 0, 0
  {
    if m !in c.bundle.queries then None
    else
      var q := c.bundle.queries[m];
      if IsDisabled(c, m) then (if c.Accepts(q.filters) then Some(c.disabledCode) else None)
      else if q.variants != [] then SelectFirst(c, rank, q.variants)
      else if c.Accepts(q.filters) then Some(q.codeId) else None
  }

  /** The code of the first query in a list for which there is one. */
  ghost function SelectFirst(c: Config, rank: Mrn -> nat, list: seq<Mrn>): Option<CodeId>
    requires VariantsDescend(c.bundle.queries, rank)
    decreases ListLevel(c.bundle.queries, rank, list), 1, |list|
  {
    if list == [] then None
    else
      var front := SelectFirst(c, rank, list[..|list| - 1]);
      if front.Some? then front else Select(c, rank, list[|list| - 1])
  }

  /** The first query in a list for which there is code. */
  ghost function FirstMatch(c: Config, rank: Mrn -> nat, list: seq<Mrn>): (v: Mrn)
    requires VariantsDescend(c.bundle.queries, rank) && SelectFirst(c, rank, list).Some?
    ensures v in list && v in c.bundle.queries && Select(c, rank, v) == SelectFirst(c, rank, list)
  {
    if SelectFirst(c, rank, list[..|list| - 1]).Some? then FirstMatch(c, rank, list[..|list| - 1]) else list[|list| - 1]
  }

  lemma SelectOneMore(c: Config, rank: Mrn -> nat, list: seq<Mrn>, i: nat)
    requires VariantsDescend(c.bundle.queries, rank) && i < |list|
    ensures SelectFirst(c, rank, list[..i + 1]) ==
      if SelectFirst(c, rank, list[..i]).Some? then SelectFirst(c, rank, list[..i]) else Select(c, rank, list[i])
    ensures SelectFirst(c, rank, list[..i]).None? && Select(c, rank, list[i]).Some? ==>
      FirstMatch(c, rank, list[..i + 1]) == list[i]
  {
    assert list[..i + 1][..i] == list[..i];
  }

  /** The front of a list decides as soon as it has a match. */
  lemma {:induction false} FrontDecides(c: Config, rank: Mrn -> nat, list: seq<Mrn>, i: nat)
    requires VariantsDescend(c.bundle.queries, rank) && i <= |list| && SelectFirst(c, rank, list[..i]).Some?
    ensures SelectFirst(c, rank, list) == SelectFirst(c, rank, list[..i])
    ensures FirstMatch(c, rank, list) == FirstMatch(c, rank, list[..i])
    decreases |list|
  {
    if i < |list| {
      assert list[..|list| - 1][..i] == list[..i];
      FrontDecides(c, rank, list[..|list| - 1], i);
    } else {
      assert list[..i] == list;
    }
  }

  // ----- an independent account: the least path of choices -----

  /** The entry is deactivated or out of scope. */
  predicate IsStopped(c: Config, id: Id) {
    id in c.actions && (c.actions[id] == Deactivate || c.actions[id] == OutOfScope)
  }

  /** There is no filter, or the asset has one of them. */
  predicate IsSupported(c: Config, filters: set<CodeId>) {
    filters == {} || exists f :: f in filters && f in c.target.assetFilters
  }

  lemma AcceptsIff(c: Config, filters: set<CodeId>)
    ensures c.Accepts(filters) <==> IsSupported(c, filters)
  {
    if f :| f in filters && f in c.target.assetFilters {
      assert f in filters * c.target.assetFilters;
    }
    if f :| f in filters * c.target.assetFilters {
      assert f in filters;
    }
  }

  /** The code at the end of a path of variant numbers, if the path ends at something that runs. */
  ghost function Follow(c: Config, m: Mrn, path: seq<nat>): Option<CodeId>
    decreases |path|
  {
    if m !in c.bundle.queries then None
    else
      var q := c.bundle.queries[m];
      if IsStopped(c, QueryMrn(m)) then (if path == [] && IsSupported(c, q.filters) then Some(c.disabledCode) else None)
      else if q.variants == [] then (if path == [] && IsSupported(c, q.filters) then Some(q.codeId) else None)
      else if path == [] || path[0] >= |q.variants| then None
      else Follow(c, q.variants[path[0]], path[1..])
  }

  /** Lexicographic order of paths. */
  ghost predicate Before(a: seq<nat>, b: seq<nat>)
    decreases |a|
  {
    && b != []
    && (a == [] || a[0] < b[0] || (a[0] == b[0] && Before(a[1..], b[1..])))
  }

  ghost predicate IsLeast(c: Config, m: Mrn, path: seq<nat>) {
    Follow(c, m, path).Some? && forall p :: Before(p, path) ==> Follow(c, m, p).None?
  }

  lemma {:induction false} NoneSelectsNothing(c: Config, rank: Mrn -> nat, m: Mrn, path: seq<nat>)
    requires VariantsDescend(c.bundle.queries, rank) && Select(c, rank, m).None?
    ensures Follow(c, m, path).None?
    decreases |path|
  {
    if m in c.bundle.queries {
      AcceptsIff(c, c.bundle.queries[m].filters);
    }
    if m in c.bundle.queries && !IsDisabled(c, m) && c.bundle.queries[m].variants != [] {
      var variants := c.bundle.queries[m].variants;
      if path != [] && path[0] < |variants| {
        NoneInList(c, rank, variants, path[0]);
        NoneSelectsNothing(c, rank, variants[path[0]], path[1..]);
      }
    }
  }

  lemma {:induction false} NoneInList(c: Config, rank: Mrn -> nat, list: seq<Mrn>, i: nat)
    requires VariantsDescend(c.bundle.queries, rank) && i < |list| && SelectFirst(c, rank, list).None?
    ensures Select(c, rank, list[i]).None?
    decreases |list|
  {
    if i < |list| - 1 {
      NoneInList(c, rank, list[..|list| - 1], i);
    }
  }

  lemma {:induction false} FirstIndex(c: Config, rank: Mrn -> nat, list: seq<Mrn>) returns (i: nat)
    requires VariantsDescend(c.bundle.queries, rank) && SelectFirst(c, rank, list).Some?
    ensures i < |list| && Select(c, rank, list[i]) == SelectFirst(c, rank, list)
    ensures forall j :: 0 <= j < i ==> Select(c, rank, list[j]).None?
    decreases |list|
  {
    var front := list[..|list| - 1];
    if SelectFirst(c, rank, front).Some? {
      i := FirstIndex(c, rank, front);
      forall j | 0 <= j < i ensures Select(c, rank, list[j]).None? {
        assert front[j] == list[j];
      }
    } else {
      i := |list| - 1;
      forall j | 0 <= j < i ensures Select(c, rank, list[j]).None? {
        NoneInList(c, rank, front, j);
      }
    }
  }

  /** The selected code is the one at the end of the least path that leads to something that runs;
      without any such path nothing is selected. */
  lemma {:induction false} SelectsLeastPath(c: Config, rank: Mrn -> nat, m: Mrn) returns (path: seq<nat>)
    requires VariantsDescend(c.bundle.queries, rank)
    ensures Select(c, rank, m).Some? ==> IsLeast(c, m, path) && Follow(c, m, path) == Select(c, rank, m)
    ensures Select(c, rank, m).None? ==> forall p :: Follow(c, m, p).None?
    decreases Level(c.bundle.queries, rank, m)
  {
    path := [];
    if m in c.bundle.queries {
      AcceptsIff(c, c.bundle.queries[m].filters);
    }
    if Select(c, rank, m).None? {
      forall p ensures Follow(c, m, p).None? {
        NoneSelectsNothing(c, rank, m, p);
      }
    } else if !IsDisabled(c, m) && c.bundle.queries[m].variants != [] {
      var variants := c.bundle.queries[m].variants;
      var i := FirstIndex(c, rank, variants);
      var rest := SelectsLeastPath(c, rank, variants[i]);
      path := [i] + rest;
      assert path[1..] == rest;
      forall p | Before(p, path) ensures Follow(c, m, p).None? {
        if p != [] && p[0] < i {
          NoneSelectsNothing(c, rank, variants[p[0]], p[1..]);
        }
      }
    }
  }

  /** There is at most one least path, so what is selected does not depend on how ranks are chosen. */
  lemma {:induction false} LeastIsUnique(a: seq<nat>, b: seq<nat>)
    ensures a == b || Before(a, b) || Before(b, a)
    decreases |a|
  {
    if a != [] && b != [] && a[0] == b[0] {
      LeastIsUnique(a[1..], b[1..]);
      assert a == [a[0]] + a[1..] && b == [b[0]] + b[1..];
    }
  }

  lemma RankDoesNotMatter(c: Config, rank: Mrn -> nat, rank': Mrn -> nat, m: Mrn)
    requires VariantsDescend(c.bundle.queries, rank) && VariantsDescend(c.bundle.queries, rank')
    ensures Select(c, rank, m) == Select(c, rank', m)
  {
    var p := SelectsLeastPath(c, rank, m);
    var p' := SelectsLeastPath(c, rank', m);
    LeastIsUnique(p, p');
  }
}
