/** What active policies and frameworks bring into the graph, kind by kind. */
module GraphSources {
  import opened Wrappers
  import opened PolicyWindow
  import opened PolicyBundle
  import opened JobGraph
  import opened Digraph
  import opened Sequences
  import opened VariantSelection
  import opened GraphRules
  import opened GraphParts
  import opened PolicyRules
  import opened PolicyParts
  import opened FrameworkParts

  // ----- what an active policy brings, kind by kind -----

  /** The policy lists a query whose code is selected through q. */
  ghost predicate UsedBy(c: Config, rank: Mrn -> nat, p: Mrn, q: Mrn)
    requires VariantsDescend(c.bundle.queries, rank)
  {
    exists m, check :: ListsAs(c, p, m, check) && Select(c, rank, m).Some? && OnChain(c, rank, m, q)
  }

  /** The policy has a risk factor with this MRN, and with checks, that is added. */
  ghost predicate HasRisk(c: Config, p: Mrn, k: Mrn) {
    && p in c.bundle.policies
    && exists r :: r in c.bundle.policies[p].riskFactors && r.mrn == k && r.checks != [] && AddsRisk(c, r)
  }

  /** The policy has a risk factor with this MRN that takes up a check with this code. */
  ghost predicate RiskTakes(c: Config, p: Mrn, k: Mrn, code: CodeId) {
    && p in c.bundle.policies
    && exists r :: r in c.bundle.policies[p].riskFactors && r.mrn == k && RunsRisk(c, r) && Takes(c, r.checks, code)
  }

  /** What reports to an active policy. */
  ghost predicate PolicySource(c: Config, rank: Mrn -> nat, p: Mrn, a: Id)
    requires VariantsDescend(c.bundle.queries, rank)
  {
    match a
    case QueryMrn(q) => Select(c, rank, q).Some? && exists check :: ListsAs(c, p, q, check)
    case RiskMrn(k) => HasRisk(c, p, k)
    case PolicyMrn(q) => Edge(RunningPolicies(c), p, q) && Counts(c, q)
    case _ => false
  }

  lemma RiskBringsKinds(c: Config, p: Mrn, x: Part)
    requires p in c.bundle.policies
    ensures RisksBring(c, p, c.bundle.policies[p].riskFactors, x) ==>
      match x
      case NodePart(CodeNode(_)) => true
      case NodePart(RiskMrn(k)) => HasRisk(c, p, k)
      case EdgePart(CodeNode(code), RiskMrn(k)) => RiskTakes(c, p, k, code)
      case EdgePart(RiskMrn(k), PolicyMrn(t)) => t == p && HasRisk(c, p, k)
      case _ => false
  {
    if RisksBring(c, p, c.bundle.policies[p].riskFactors, x) {
      var r :| r in c.bundle.policies[p].riskFactors && PolicyRiskBrings(c, p, r, x);
    }
  }

  lemma HasRiskBrings(c: Config, p: Mrn, k: Mrn)
    requires HasRisk(c, p, k)
    ensures RisksBring(c, p, c.bundle.policies[p].riskFactors, NodePart(RiskMrn(k)))
    ensures RisksBring(c, p, c.bundle.policies[p].riskFactors, EdgePart(RiskMrn(k), PolicyMrn(p)))
  {
    var r :| r in c.bundle.policies[p].riskFactors && r.mrn == k && r.checks != [] && AddsRisk(c, r);
    assert PolicyRiskBrings(c, p, r, NodePart(RiskMrn(k)));
    assert PolicyRiskBrings(c, p, r, EdgePart(RiskMrn(k), PolicyMrn(p)));
  }

  lemma RiskTakesBrings(c: Config, p: Mrn, k: Mrn, code: CodeId)
    requires RiskTakes(c, p, k, code)
    ensures RisksBring(c, p, c.bundle.policies[p].riskFactors, EdgePart(CodeNode(code), RiskMrn(k)))
  {
    var r :| r in c.bundle.policies[p].riskFactors && r.mrn == k && RunsRisk(c, r) && Takes(c, r.checks, code);
    assert r.checks != [];
    assert ChecksBring(c, k, r.checks, EdgePart(CodeNode(code), RiskMrn(k)));
    assert PolicyRiskBrings(c, p, r, EdgePart(CodeNode(code), RiskMrn(k)));
  }

  /** The edges of a policy, by where they lead. */
  lemma EdgesOfPolicy(c: Config, rank: Mrn -> nat, p: Mrn, a: Id, b: Id)
    requires VariantsDescend(c.bundle.queries, rank) && p in c.bundle.policies
    ensures PolicyBrings(c, rank, p, EdgePart(a, b)) <==>
      match b
      case QueryMrn(q) => UsedBy(c, rank, p, q) && a == Feeder(c, rank, q)
      case RiskMrn(k) => a.CodeNode? && RiskTakes(c, p, k, a.code)
      case PolicyMrn(t) => t == p && PolicySource(c, rank, p, a)
      case _ => false
  {
    RiskBringsKinds(c, p, EdgePart(a, b));
    match b
    case QueryMrn(q) => QueryEdges(c, rank, p, a, q);
    case RiskMrn(k) =>
      if a.CodeNode? && RiskTakes(c, p, k, a.code) {
        RiskTakesBrings(c, p, k, a.code);
      }
    case PolicyMrn(t) => EdgesToPolicy(c, rank, p, a, t);
    case _ =>
  }

  lemma QueryEdges(c: Config, rank: Mrn -> nat, p: Mrn, a: Id, q: Mrn)
    requires VariantsDescend(c.bundle.queries, rank) && p in c.bundle.policies
    requires !RisksBring(c, p, c.bundle.policies[p].riskFactors, EdgePart(a, QueryMrn(q)))
    ensures PolicyBrings(c, rank, p, EdgePart(a, QueryMrn(q))) <==> UsedBy(c, rank, p, q) && a == Feeder(c, rank, q)
  {
    var x := EdgePart(a, QueryMrn(q));
    if PolicyBrings(c, rank, p, x) {
      var m, check :| ListsAs(c, p, m, check) && ReportBrings(c, rank, p, m, x);
    }
    if UsedBy(c, rank, p, q) && a == Feeder(c, rank, q) {
      var m, check :| ListsAs(c, p, m, check) && Select(c, rank, m).Some? && OnChain(c, rank, m, q);
      assert ReportBrings(c, rank, p, m, x);
    }
  }

  lemma EdgesToPolicy(c: Config, rank: Mrn -> nat, p: Mrn, a: Id, t: Mrn)
    requires VariantsDescend(c.bundle.queries, rank) && p in c.bundle.policies
    requires RisksBring(c, p, c.bundle.policies[p].riskFactors, EdgePart(a, PolicyMrn(t))) ==>
      t == p && a.RiskMrn? && HasRisk(c, p, a.mrn)
    ensures PolicyBrings(c, rank, p, EdgePart(a, PolicyMrn(t))) <==> t == p && PolicySource(c, rank, p, a)
  {
    var x := EdgePart(a, PolicyMrn(t));
    if PolicyBrings(c, rank, p, x) {
      if m, check :| ListsAs(c, p, m, check) && ReportBrings(c, rank, p, m, x) {
        assert a == QueryMrn(m);
      }
    }
    if t == p && PolicySource(c, rank, p, a) {
      match a
      case QueryMrn(q) => assert ReportBrings(c, rank, p, q, x);
      case RiskMrn(k) => HasRiskBrings(c, p, k);
      case PolicyMrn(q) =>
    }
  }

  /** The nodes of a policy other than code. */
  lemma NodesOfPolicy(c: Config, rank: Mrn -> nat, p: Mrn, id: Id)
    requires VariantsDescend(c.bundle.queries, rank) && p in c.bundle.policies && !id.CodeNode?
    ensures PolicyBrings(c, rank, p, NodePart(id)) <==>
      match id
      case QueryMrn(q) => UsedBy(c, rank, p, q)
      case RiskMrn(k) => HasRisk(c, p, k)
      case PolicyMrn(t) => t == p
      case _ => false
  {
    RiskBringsKinds(c, p, NodePart(id));
    if PolicyBrings(c, rank, p, NodePart(id)) {
      if m, check :| ListsAs(c, p, m, check) && ReportBrings(c, rank, p, m, NodePart(id)) {
        assert id.QueryMrn? && UsedBy(c, rank, p, id.mrn);
      }
    }
    if id.QueryMrn? && UsedBy(c, rank, p, id.mrn) {
      var m, check :| ListsAs(c, p, m, check) && Select(c, rank, m).Some? && OnChain(c, rank, m, id.mrn);
      assert ReportBrings(c, rank, p, m, NodePart(id));
    }
    if id.RiskMrn? && HasRisk(c, p, id.mrn) {
      HasRiskBrings(c, p, id.mrn);
    }
  }

  /** The policy lists a query that selects this code. */
  ghost predicate SelectsCode(c: Config, rank: Mrn -> nat, p: Mrn, code: CodeId)
    requires VariantsDescend(c.bundle.queries, rank)
  {
    exists m, check :: ListsAs(c, p, m, check) && Select(c, rank, m) == Some(code)
  }

  /** A risk factor of the policy takes up this code, for a check or, if its checks are in order,
      for a data query. */
  ghost predicate RiskRuns(c: Config, p: Mrn, code: CodeId) {
    && p in c.bundle.policies
    && exists r :: r in c.bundle.policies[p].riskFactors && r.checks != [] && RunsRisk(c, r) && TakesCode(c, r, code)
  }

  ghost predicate TakesCode(c: Config, r: RiskFactor, code: CodeId) {
    Takes(c, r.checks, code) || (NoneVaries(r.checks) && Takes(c, r.queries, code))
  }

  lemma RiskCodeIff(c: Config, p: Mrn, code: CodeId)
    requires p in c.bundle.policies
    ensures RisksBring(c, p, c.bundle.policies[p].riskFactors, NodePart(CodeNode(code))) <==> RiskRuns(c, p, code)
  {
    var x := NodePart(CodeNode(code));
    if RisksBring(c, p, c.bundle.policies[p].riskFactors, x) {
      var r :| r in c.bundle.policies[p].riskFactors && PolicyRiskBrings(c, p, r, x);
      assert TakesCode(c, r, code);
    }
    if RiskRuns(c, p, code) {
      var r :| r in c.bundle.policies[p].riskFactors && r.checks != [] && RunsRisk(c, r) && TakesCode(c, r, code);
      assert Takes(c, r.checks, code) ==> ChecksBring(c, r.mrn, r.checks, x);
      assert Takes(c, r.queries, code) ==> DataBrings(c, r.queries, x);
      assert PolicyRiskBrings(c, p, r, x);
    }
  }

  /** The code of a policy. */
  lemma CodeOfPolicy(c: Config, rank: Mrn -> nat, p: Mrn, code: CodeId)
    requires VariantsDescend(c.bundle.queries, rank) && p in c.bundle.policies
    ensures PolicyBrings(c, rank, p, NodePart(CodeNode(code))) <==>
      SelectsCode(c, rank, p, code) || RiskRuns(c, p, code)
  {
    var x := NodePart(CodeNode(code));
    RiskCodeIff(c, p, code);
    if PolicyBrings(c, rank, p, x) {
      if m, check :| ListsAs(c, p, m, check) && ReportBrings(c, rank, p, m, x) {
        assert SelectsCode(c, rank, p, code);
      }
    }
    if SelectsCode(c, rank, p, code) {
      var m, check :| ListsAs(c, p, m, check) && Select(c, rank, m) == Some(code);
      assert ReportBrings(c, rank, p, m, x);
    }
  }

  // ----- what active frameworks bring, kind by kind -----

  /** From a framework that can run to those it depends on. */
  function RunningFrameworks(c: Config): Graph<Mrn> {
    map f | f in c.bundle.frameworks ::
      if RunsFramework(c, f) then (set d | d in c.bundle.frameworks[f].dependencies) else {}
  }

  /** A framework that can run and is reached from that of the bundle through others that can. */
  ghost predicate FrameworkIsActive(c: Config, f: Mrn) {
    && c.bundleMrn in c.bundle.frameworks
    && IsRunningBelow(c, c.bundleMrn, f)
  }

  ghost predicate IsRunningBelow(c: Config, m: Mrn, f: Mrn) {
    f in c.bundle.frameworks && RunsFramework(c, f) && Reaches(RunningFrameworks(c), m, f)
  }

  lemma {:induction false} VisitedIff(c: Config, ranks: Ranks, m: Mrn, f: Mrn)
    requires WellFormed(c, ranks) && m in c.bundle.frameworks
    ensures f in Visits(c, ranks, m) <==> IsRunningBelow(c, m, f)
    decreases Level(c.bundle.frameworks, ranks.framework, m), 0
  {
    var g := RunningFrameworks(c);
    ReachesSelf(g, m);
    if RunsFramework(c, m) {
      var deps := c.bundle.frameworks[m].dependencies;
      DependenciesAreLower(c, ranks, m);
      AnyVisitedIff(c, ranks, deps, f);
      if IsRunningBelow(c, m, f) && f != m {
        var d := FirstEdge(g, m, f);
        assert IsRunningBelow(c, d, f);
      }
      if f in VisitsOfAll(c, ranks, deps) {
        var d :| d in deps && d in c.bundle.frameworks && IsRunningBelow(c, d, f);
        EdgeReaches(g, m, d);
        ReachesTransitive(g, m, d, f);
      }
    } else if IsRunningBelow(c, m, f) {
      var d := FirstEdge(g, m, f);
      assert false;
    }
  }

  lemma {:induction false} AnyVisitedIff(c: Config, ranks: Ranks, deps: seq<Mrn>, f: Mrn)
    requires WellFormed(c, ranks)
    ensures f in VisitsOfAll(c, ranks, deps) <==> exists d ::
      d in deps && d in c.bundle.frameworks && IsRunningBelow(c, d, f)
    decreases ListLevel(c.bundle.frameworks, ranks.framework, deps), 2, |deps|
  {
    if deps != [] {
      var front, last := deps[..|deps| - 1], deps[|deps| - 1];
      AnyVisitedIff(c, ranks, front, f);
      if last in c.bundle.frameworks {
        VisitedIff(c, ranks, last, f);
      }
      InFrontOrLast(deps);
    }
  }

  /** The framework maps the control, which can run, to the owner. */
  ghost predicate MapsTo(c: Config, f: Mrn, owner: Mrn, control: Control) {
    && f in c.bundle.frameworks && CanRun(c.ActionOf(ControlMrn(control.mrn)))
    && exists fmap :: fmap in c.bundle.frameworks[f].maps && fmap.owner == owner && control in fmap.controls
  }

  /** What reports to a framework, or to the policy it shares its MRN with, because of f. */
  ghost predicate SourceThrough(c: Config, f: Mrn, a: Id, b: Id) {
    || (exists owner, control :: MapsTo(c, f, owner, control) && FrameworkId(c,
      owner) == b && a == ControlMrn(control.mrn))
    || (f in c.bundle.frameworks && FrameworkId(c, f) == b && DependsOn(c, f, a))
  }

  ghost predicate DependsOn(c: Config, f: Mrn, a: Id)
    requires f in c.bundle.frameworks
  {
    exists d :: d in c.bundle.frameworks[f].dependencies && d in c.bundle.frameworks && RunsFramework(c, d)
      && a == FrameworkId(c, d)
  }

  ghost predicate FedThrough(c: Config, known: Known, f: Mrn, k: Mrn, a: Id) {
    exists owner, control :: MapsTo(c, f, owner, control) && control.mrn == k && Feeds(known, control, a)
  }

  lemma MapsBringIff(c: Config, known: Known, f: Mrn, x: Part)
    requires f in c.bundle.frameworks
    ensures MapsBring(c, known, c.bundle.frameworks[f].maps, x) <==>
      exists owner, control :: MapsTo(c, f, owner, control) && OwnedBrings(c, known, owner, control, x)
  {
    var maps := c.bundle.frameworks[f].maps;
    if MapsBring(c, known, maps, x) {
      var fmap :| fmap in maps && ListBrings(c, known, fmap.owner, fmap.controls, x);
      var control :| control in fmap.controls && OwnedBrings(c, known, fmap.owner, control, x);
      assert MapsTo(c, f, fmap.owner, control);
    }
    if owner, control :| MapsTo(c, f, owner, control) && OwnedBrings(c, known, owner, control, x) {
      var fmap :| fmap in maps && fmap.owner == owner && control in fmap.controls;
      assert ListBrings(c, known, owner, fmap.controls, x);
    }
  }

  lemma EdgesOfVisit(c: Config, known: Known, f: Mrn, a: Id, b: Id)
    requires f in c.bundle.frameworks
    ensures VisitBrings(c, known, f, EdgePart(a, b)) <==>
      if b.ControlMrn? then FedThrough(c, known, f, b.mrn, a) else SourceThrough(c, f, a, b)
  {
    MapsBringIff(c, known, f, EdgePart(a, b));
  }

  lemma NodesOfVisit(c: Config, known: Known, f: Mrn, id: Id)
    requires f in c.bundle.frameworks
    ensures VisitBrings(c, known, f, NodePart(id)) <==>
      id == FrameworkId(c, f) || (id.ControlMrn? && exists a :: FedThrough(c, known, f, id.mrn, a))
  {
    var x := NodePart(id);
    MapsBringIff(c, known, f, x);
    if id.ControlMrn? {
      if a :| FedThrough(c, known, f, id.mrn, a) {
        var owner, control :| MapsTo(c, f, owner, control) && control.mrn == id.mrn && Feeds(known, control, a);
        assert OwnedBrings(c, known, owner, control, x);
      }
      if owner, control :| MapsTo(c, f, owner, control) && OwnedBrings(c, known, owner, control, x) {
        var a :| Feeds(known, control, a);
        assert FedThrough(c, known, f, id.mrn, a);
      }
    }
  }
}
