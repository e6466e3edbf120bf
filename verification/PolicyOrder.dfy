/** Listing the policies of a bundle after the policies they depend on. */
module PolicyOrder {
  import opened Wrappers
  import opened Digraph

  type Mrn = string

  /** A policy with the MRNs its groups refer to. */
  datatype Policy = Policy(mrn: Mrn, groups: seq<seq<Mrn>>)

  predicate Filed(bundle: map<Mrn, Policy>) {
    forall m :: m in bundle ==> bundle[m].mrn == m
  }

  function Flat(groups: seq<seq<Mrn>>): seq<Mrn> {
    if groups == [] then [] else Flat(groups[..|groups| - 1]) + groups[|groups| - 1]
  }

  function Dependencies(bundle: map<Mrn, Policy>): Graph<Mrn> {
    map m | m in bundle :: (set d | d in Flat(bundle[m].groups))
  }

  /** A policy depends on everything that one of its groups refers to. */
  lemma {:induction false} FlatIff(groups: seq<seq<Mrn>>, d: Mrn)
    ensures d in Flat(groups) <==> exists g :: g in groups && d in g
  {
    if groups != [] {
      FlatIff(groups[..|groups| - 1], d);
      assert groups == groups[..|groups| - 1] + [groups[|groups| - 1]];
    }
  }

  function Mrns(s: seq<Policy>): seq<Mrn> {
    seq(|s|, i requires 0 <= i < |s| => s[i].mrn)
  }

  ghost predicate Entries(bundle: map<Mrn, Policy>, s: seq<Policy>) {
    forall i :: 0 <= i < |s| ==> s[i].mrn in bundle && s[i] == bundle[s[i].mrn]
  }

  predicate HasEmptyRef(p: Policy) {
    "" in Flat(p.groups)
  }

  /** What has been listed so far: each policy once, after its dependencies unless they lead back
      to it, and none that refers to an empty MRN. */
  ghost predicate Listed(bundle: map<Mrn, Policy>, emitted: seq<Mrn>) {
    && (forall i, j :: 0 <= i < j < |emitted| ==> emitted[i] != emitted[j])
    && (forall m :: m in emitted ==> m in bundle && !HasEmptyRef(bundle[m]))
    && SuccessorsFirst(Dependencies(bundle), emitted)
  }

  lemma ListOneMore(bundle: map<Mrn, Policy>, emitted: seq<Mrn>, pending: set<Mrn>, p: Policy)
    requires Listed(bundle, emitted) && p.mrn in bundle && bundle[p.mrn] == p && p.mrn !in emitted && !HasEmptyRef(p)
    requires AllReach(Dependencies(bundle), pending, p.mrn)
    requires forall d :: d in Flat(p.groups) && d in bundle ==> d in emitted || d in pending
    ensures Listed(bundle, emitted + [p.mrn])
  {
    SuccessorsFirstExtend(Dependencies(bundle), emitted, pending, p.mrn);
  }

  lemma MrnsAppend(a: seq<Policy>, b: seq<Policy>)
    ensures Mrns(a + b) == Mrns(a) + Mrns(b)
  {
  }

  class PolicyIndexer {
    const bundle: map<Mrn, Policy>
    var indexer: set<Mrn>

    constructor (bundle: map<Mrn, Policy>)
      ensures this.bundle == bundle && indexer == {}
    {
      this.bundle, indexer := bundle, {};
    }

    /** Indexed policies that are still waiting for their dependencies. */
    ghost function Pending(emitted: seq<Mrn>): set<Mrn>
      reads this
    {
      set m | m in indexer && m !in emitted
    }

    ghost predicate Valid(emitted: seq<Mrn>)
      reads this
    {
      Filed(bundle) && indexer <= bundle.Keys && Listed(bundle, emitted) && forall m :: m in emitted ==> m in indexer
    }

    /** Lists a policy after the dependencies that have not been listed before. */
    method SortPolicies(p: Policy, ghost emitted: seq<Mrn>) returns (r: Result<seq<Policy>, string>)
      requires Valid(emitted) && p.mrn in bundle && bundle[p.mrn] == p && p.mrn !in indexer
      requires AllReach(Dependencies(bundle), Pending(emitted), p.mrn)
      modifies this
      ensures r.Ok? ==>
        && Valid(emitted + Mrns(r.value)) && Entries(bundle, r.value)
        && Pending(emitted + Mrns(r.value)) == old(Pending(emitted))
        && old(indexer) + {p.mrn} <= indexer
      ensures r.Err? ==> exists m :: m in bundle && HasEmptyRef(bundle[m])
      decreases bundle.Keys - indexer, 0
    {
      indexer := indexer + {p.mrn};
      ghost var pending := old(Pending(emitted)) + {p.mrn};
      ReachesSelf(Dependencies(bundle), p.mrn);
      assert Pending(emitted) == pending;
      var res := SortGroups(p, emitted);
      if res.Err? {
        return res;
      }
      ghost var out := emitted + Mrns(res.value);
      assert p.mrn in Pending(out);
      ListOneMore(bundle, out, pending, p);
      MrnsAppend(res.value, [p]);
      assert emitted + Mrns(res.value + [p]) == out + [p.mrn];
      return Ok(res.value + [p]);
    }

    /** Lists what the groups of a policy refer to. */
    method SortGroups(p: Policy, ghost emitted: seq<Mrn>) returns (r: Result<seq<Policy>, string>)
      requires Valid(emitted) && p.mrn in bundle && bundle[p.mrn] == p && p.mrn in indexer
      requires AllReach(Dependencies(bundle), Pending(emitted), p.mrn)
      modifies this
      ensures r.Ok? ==>
        && Valid(emitted + Mrns(r.value)) && Entries(bundle, r.value)
        && Pending(emitted + Mrns(r.value)) == old(Pending(emitted))
        && old(indexer) <= indexer && Handled(bundle, indexer, Flat(p.groups))
      ensures r.Err? ==> exists m :: m in bundle && HasEmptyRef(bundle[m])
      decreases bundle.Keys - indexer, 2
    {
      var res := [];
      ghost var out := emitted;
      for i := 0 to |p.groups|
        invariant out == emitted + Mrns(res) && Entries(bundle, res)
        invariant Valid(out) && Pending(out) == old(Pending(emitted)) && old(indexer) <= indexer
        invariant Handled(bundle, indexer, Flat(p.groups[..i]))
      {
        RefsInFlat(p.groups, i);
        FlatOneMore(p.groups, i);
        ghost var before := indexer;
        var dep := SortGroup(p, p.groups[i], out);
        if dep.Err? {
          return dep;
        }
        HandledMore(bundle, before, indexer, Flat(p.groups[..i]), p.groups[i]);
        OutAppend(emitted, res, dep.value);
        EntriesAppend(bundle, res, dep.value);
        res, out := res + dep.value, out + Mrns(dep.value);
      }
      assert p.groups[..|p.groups|] == p.groups;
      return Ok(res);
    }

    /** Lists what one group of a policy refers to. */
    method SortGroup(p: Policy, group: seq<Mrn>, ghost emitted: seq<Mrn>) returns (r: Result<seq<Policy>, string>)
      requires Valid(emitted) && p.mrn in bundle && bundle[p.mrn] == p && p.mrn in indexer
      requires AllReach(Dependencies(bundle), Pending(emitted), p.mrn)
      requires forall d :: d in group ==> d in Flat(p.groups)
      modifies this
      ensures r.Ok? ==>
        && Valid(emitted + Mrns(r.value)) && Entries(bundle, r.value)
        && Pending(emitted + Mrns(r.value)) == old(Pending(emitted))
        && old(indexer) <= indexer && Handled(bundle, indexer, group)
      ensures r.Err? ==> exists m :: m in bundle && HasEmptyRef(bundle[m])
      decreases bundle.Keys - indexer, 1
    {
      var res := [];
      ghost var out := emitted;
      for j := 0 to |group|
        invariant out == emitted + Mrns(res) && Entries(bundle, res)
        invariant Valid(out) && Pending(out) == old(Pending(emitted)) && old(indexer) <= indexer
        invariant Handled(bundle, indexer, group[..j])
      {
        var policy := group[j];
        ghost var before := indexer;
        if policy == "" {
          assert HasEmptyRef(bundle[p.mrn]);
          return Err("failed to sort policies: dependency MRN is empty");
        }
        if policy !in indexer && policy in bundle {
          AllReachSuccessor(Dependencies(bundle), Pending(out), p.mrn, policy);
          var dep := SortPolicies(bundle[policy], out);
          if dep.Err? {
            return dep;
          }
          OutAppend(emitted, res, dep.value);
          EntriesAppend(bundle, res, dep.value);
          res, out := res + dep.value, out + Mrns(dep.value);
        }
        HandledMore(bundle, before, indexer, group[..j], [policy]);
        assert group[..j + 1] == group[..j] + [policy];
      }
      assert group[..|group|] == group;
      return Ok(res);
    }
  }

  /** References that are neither empty nor to a policy of the bundle that is not indexed yet. */
  ghost predicate Handled(bundle: map<Mrn, Policy>, indexer: set<Mrn>, refs: seq<Mrn>) {
    forall d :: d in refs ==> d != "" && (d in bundle ==> d in indexer)
  }

  lemma HandledMore(bundle: map<Mrn, Policy>, before: set<Mrn>, indexer: set<Mrn>, a: seq<Mrn>, b: seq<Mrn>)
    requires Handled(bundle, before, a) && before <= indexer && Handled(bundle, indexer, b)
    ensures Handled(bundle, indexer, a + b)
  {
  }

  lemma FlatOneMore(groups: seq<seq<Mrn>>, i: nat)
    requires i < |groups|
    ensures Flat(groups[..i + 1]) == Flat(groups[..i]) + groups[i]
  {
    assert groups[..i + 1][..i] == groups[..i];
  }

  lemma OutAppend(emitted: seq<Mrn>, a: seq<Policy>, b: seq<Policy>)
    ensures emitted + Mrns(a + b) == emitted + Mrns(a) + Mrns(b)
  {
    MrnsAppend(a, b);
  }

  lemma EntriesAppend(bundle: map<Mrn, Policy>, a: seq<Policy>, b: seq<Policy>)
    requires Entries(bundle, a) && Entries(bundle, b)
    ensures Entries(bundle, a + b)
  {
  }

  lemma {:induction false} RefsInFlat(groups: seq<seq<Mrn>>, i: nat)
    requires i < |groups|
    ensures forall d :: d in groups[i] ==> d in Flat(groups)
  {
    if i < |groups| - 1 {
      RefsInFlat(groups[..|groups| - 1], i);
    }
  }

  /** Lists every policy of the bundle once, visiting them in whatever order the map yields:
      each comes after its dependencies within the bundle, except for those that depend on it in
      turn. It fails exactly when some policy refers to an empty MRN. */
  method PoliciesSortedByDependency(bundle: map<Mrn, Policy>) returns (r: Result<seq<Policy>, string>)
    requires Filed(bundle)
    ensures r.Err? <==> exists m :: m in bundle && HasEmptyRef(bundle[m])
    ensures r.Ok? ==>
      && Entries(bundle, r.value)
      && (forall i, j :: 0 <= i < j < |r.value| ==> Mrns(r.value)[i] != Mrns(r.value)[j])
      && (forall m :: m in bundle <==> m in Mrns(r.value))
      && SuccessorsFirst(Dependencies(bundle), Mrns(r.value))
  {
    var index := new PolicyIndexer(bundle);
    var res: seq<Policy> := [];
    var rest := bundle.Keys;
    while rest != {}
      invariant index.bundle == bundle && fresh(index) && rest <= bundle.Keys
      invariant index.Valid(Mrns(res)) && Entries(bundle, res) && index.Pending(Mrns(res)) == {}
      invariant forall m :: m in bundle && m !in rest ==> m in index.indexer
    {
      var m :| m in rest;
      rest := rest - {m};
      var policy := bundle[m];
      if policy.mrn !in index.indexer {
        var dep := index.SortPolicies(policy, Mrns(res));
        if dep.Err? {
          return dep;
        }
        MrnsAppend(res, dep.value);
        res := res + dep.value;
      }
    }
    forall m | m in bundle ensures m in Mrns(res) {
      assert m !in index.Pending(Mrns(res));
    }
    return Ok(res);
  }

  /** In a bundle without dependency cycles every policy is listed after all its dependencies. */
  lemma AcyclicDependenciesComeFirst(bundle: map<Mrn, Policy>, s: seq<Policy>)
    requires Filed(bundle) && Entries(bundle, s) && SuccessorsFirst(Dependencies(bundle), Mrns(s))
    requires forall i, j :: 0 <= i < j < |s| ==> Mrns(s)[i] != Mrns(s)[j]
    requires !HasCycle(Dependencies(bundle))
    ensures forall i, d :: 0 <= i < |s| && d in Flat(s[i].groups) && d in bundle ==> d in Mrns(s[..i])
  {
    AcyclicIsOrdered(Dependencies(bundle), Mrns(s));
    forall i, d | 0 <= i < |s| && d in Flat(s[i].groups) && d in bundle ensures d in Mrns(s[..i]) {
      assert Edge(Dependencies(bundle), Mrns(s)[i], d);
      assert Mrns(s)[..i] == Mrns(s[..i]);
    }
  }
}
