/** What is collected from the nodes, whatever the order in which they were built. */
module CollectedJobs {
  import opened PolicyWindow
  import opened PolicyBundle
  import opened QueryTypes
  import opened JobGraph
  import opened ReportingJobs

  /** Nodes whose uuids cannot clash: filed by id, and at most one root. */
  ghost predicate Unambiguous(g: JobGraph) {
    Keyed(g) && forall a, b :: a in g.nodes && b in g.nodes && IsRoot(g.nodes[a]) && IsRoot(g.nodes[b]) ==> a == b
  }

  predicate IsRoot(n: Node) {
    n.PolicyNode? && n.isRoot
  }

  function UuidOf(checksum: Key -> Uuid, g: JobGraph, id: Id): Uuid
    requires id in g.nodes
  {
    checksum(KeyOf(g.nodes[id]))
  }

  lemma UuidsDiffer(checksum: Key -> Uuid, g: JobGraph, a: Id, b: Id)
    requires Injective(checksum) && Unambiguous(g) && a in g.nodes && b in g.nodes
    ensures UuidOf(checksum, g, a) == UuidOf(checksum, g, b) <==> a == b
  {
    assert UuidOf(checksum, g, a) == UuidOf(checksum, g, b) ==> KeyOf(g.nodes[a]) == KeyOf(g.nodes[b]);
  }

  ghost predicate InGraph(g: JobGraph, order: seq<Id>) {
    forall id :: id in order ==> id in g.nodes
  }

  // ----- jobs -----

  /** There is exactly one job for each of these nodes. */
  ghost predicate HeadsFor(checksum: Key -> Uuid, g: JobGraph, order: seq<Id>, heads: map<Uuid, JobHead>) {
    && InGraph(g, order)
    && (forall id :: id in order ==> IsHead(checksum, g, heads, id))
    && (forall u :: u in heads ==> exists id :: id in order && u == UuidOf(checksum, g, id))
  }

  predicate IsHead(checksum: Key -> Uuid, g: JobGraph, heads: map<Uuid, JobHead>, id: Id)
    requires id in g.nodes
  {
    UuidOf(checksum, g, id) in heads && heads[UuidOf(checksum, g, id)] == HeadOf(checksum, g.nodes[id])
  }

  lemma OneMoreHead(checksum: Key -> Uuid, g: JobGraph, order: seq<Id>, heads: map<Uuid, JobHead>, id: Id)
    requires Injective(checksum) && Unambiguous(g) && id in g.nodes && id !in order
    requires HeadsFor(checksum, g, order, heads)
    ensures HeadsFor(checksum, g, order + [id], WithHead(checksum, heads, g.nodes[id]))
  {
    var u, heads' := UuidOf(checksum, g, id), WithHead(checksum, heads, g.nodes[id]);
    HeadIsNew(checksum, g, order, heads, id);
    forall other | other in order + [id] ensures IsHead(checksum, g, heads', other) {
      if other != id {
        assert IsHead(checksum, g, heads, other);
      }
    }
    forall v | v in heads' ensures exists other :: other in order + [id] && v == UuidOf(checksum, g, other) {
      if v == u {
        assert id in order + [id];
      } else {
        var other :| other in order && v == UuidOf(checksum, g, other);
        assert other in order + [id];
      }
    }
  }

  lemma HeadIsNew(checksum: Key -> Uuid, g: JobGraph, order: seq<Id>, heads: map<Uuid, JobHead>, id: Id)
    requires Injective(checksum) && Unambiguous(g) && id in g.nodes && id !in order
    requires HeadsFor(checksum, g, order, heads)
    ensures forall other :: other in order ==> UuidOf(checksum, g, other) != UuidOf(checksum, g, id)
    ensures WithHead(checksum, heads, g.nodes[id]) ==
      heads[UuidOf(checksum, g, id) := HeadOf(checksum, g.nodes[id])]
  {
    forall other | other in order ensures UuidOf(checksum, g, other) != UuidOf(checksum, g, id) {
      UuidsDiffer(checksum, g, id, other);
    }
    assert UuidOf(checksum, g, id) !in heads;
  }

  lemma {:induction false} HeadsAreThoseOfNodes(checksum: Key -> Uuid, g: JobGraph, order: seq<Id>)
    requires Injective(checksum) && Unambiguous(g) && InGraph(g, order) && NoDuplicates(order)
    ensures HeadsFor(checksum, g, order, BuildAll(checksum, g, order).heads)
  {
    if order != [] {
      var front, last := order[..|order| - 1], order[|order| - 1];
      assert order == front + [last];
      HeadsAreThoseOfNodes(checksum, g, front);
      OneMoreHead(checksum, g, front, BuildAll(checksum, g, front).heads, last);
      PartsKeepHeads(checksum, BuildAll(checksum, g, front), g.nodes[last]);
    }
  }

  lemma PartsKeepHeads(checksum: Key -> Uuid, col: Collected, n: Node)
    ensures BuildNode(checksum, col, n).heads == WithHead(checksum, col.heads, n)
  {
  }

  lemma HeadsAreUnique(
    checksum: Key -> Uuid, g: JobGraph, a: seq<Id>, b: seq<Id>, x: map<Uuid, JobHead>, y: map<Uuid, JobHead>)
    requires HeadsFor(checksum, g, a, x) && HeadsFor(checksum, g, b, y) && SameMembers(a, b)
    ensures x == y
  {
    forall u ensures (u in x <==> u in y) && (u in x ==> x[u] == y[u]) {
      if u in x {
        var id :| id in a && u == UuidOf(checksum, g, id);
        assert IsHead(checksum, g, x, id) && IsHead(checksum, g, y, id);
      }
      if u in y {
        var id :| id in b && u == UuidOf(checksum, g, id);
        assert IsHead(checksum, g, x, id) && IsHead(checksum, g, y, id);
      }
    }
  }

  // ----- queries -----

  predicate IsCode(g: JobGraph, order: seq<Id>, code: CodeId) {
    exists id :: id in order && id in g.nodes && g.nodes[id] == ExecutionNode(code)
  }

  lemma {:induction false} QueriesAreTheCode(checksum: Key -> Uuid, g: JobGraph, order: seq<Id>, code: CodeId)
    requires InGraph(g, order)
    ensures code in BuildAll(checksum, g, order).queries <==> IsCode(g, order, code)
  {
    if order != [] {
      var front, last := order[..|order| - 1], order[|order| - 1];
      assert order == front + [last];
      QueriesAreTheCode(checksum, g, front, code);
    }
  }

  predicate IsScored(n: Node, code: CodeId) {
    n.QueryNode? && n.queryType != Data && n.selected == code
  }

  predicate SomeScored(g: JobGraph, order: seq<Id>, code: CodeId) {
    exists id :: id in order && id in g.nodes && IsScored(g.nodes[id], code)
  }

  /** A code has reporting queries exactly if a check selects it, and they are just the job of the
      code, however many checks select it. */
  lemma {:induction false} ReportingQueriesAreSingle(checksum: Key -> Uuid, g: JobGraph, order: seq<Id>, code: CodeId)
    requires InGraph(g, order)
    ensures var r := BuildAll(checksum, g, order).reportingQueries;
      && (code in r <==> SomeScored(g, order, code))
      && (code in r ==> r[code] == [checksum(CodeKey(code))])
  {
    if order != [] {
      var front, last := order[..|order| - 1], order[|order| - 1];
      assert order == front + [last];
      ReportingQueriesAreSingle(checksum, g, front, code);
    }
  }

  // ----- risk factors -----

  predicate IsRisk(g: JobGraph, order: seq<Id>, m: Mrn) {
    exists id :: id in order && id in g.nodes && g.nodes[id].RiskNode? && g.nodes[id].mrn == m
  }

  lemma {:induction false} RiskFactorsAreTheRisks(checksum: Key -> Uuid, g: JobGraph, order: seq<Id>, m: Mrn)
    requires InGraph(g, order)
    ensures m in BuildAll(checksum, g, order).riskFactors <==> IsRisk(g, order, m)
  {
    if order != [] {
      var front, last := order[..|order| - 1], order[|order| - 1];
      assert order == front + [last];
      RiskFactorsAreTheRisks(checksum, g, front, m);
    }
  }

  function CountRisk(riskMrns: map<Uuid, seq<Mrn>>, u: Uuid, m: Mrn): nat {
    if u in riskMrns then multiset(riskMrns[u])[m] else 0
  }

  lemma {:induction false} RiskMrnsOfCodes(
    checksum: Key -> Uuid, riskMrns: map<Uuid, seq<Mrn>>, risk: Mrn, codes: seq<CodeId>, code: CodeId, m: Mrn)
    requires Injective(checksum)
    ensures CountRisk(WithRiskMrns(checksum, riskMrns, risk, codes), checksum(CodeKey(code)), m) ==
      CountRisk(riskMrns, checksum(CodeKey(code)), m) + if m == risk then multiset(codes)[code] else 0
    ensures forall u :: u in WithRiskMrns(checksum, riskMrns, risk, codes) <==>
      u in riskMrns || exists c :: c in codes && u == checksum(CodeKey(c))
  {
    if codes != [] {
      var front, last := codes[..|codes| - 1], codes[|codes| - 1];
      assert codes == front + [last];
      RiskMrnsOfCodes(checksum, riskMrns, risk, front, code, m);
      assert checksum(CodeKey(code)) == checksum(CodeKey(last)) ==> CodeKey(code) == CodeKey(last);
    }
  }

  /** How often the node lists the risk factor under the code. */
  function Selections(n: Node, m: Mrn, code: CodeId): nat {
    if n.RiskNode? && n.mrn == m then multiset(n.selectedCodes)[code] else 0
  }

  function TotalSelections(g: JobGraph, order: seq<Id>, m: Mrn, code: CodeId): nat
    requires InGraph(g, order)
  {
    if RiskMrn(m) in order then Selections(g.nodes[RiskMrn(m)], m, code) else 0
  }

  ghost predicate SelectedByRisk(checksum: Key -> Uuid, n: Node, u: Uuid) {
    n.RiskNode? && exists code :: code in n.selectedCodes && u == checksum(CodeKey(code))
  }

  ghost predicate SelectedBySome(checksum: Key -> Uuid, g: JobGraph, order: seq<Id>, u: Uuid) {
    exists id :: id in order && id in g.nodes && SelectedByRisk(checksum, g.nodes[id], u)
  }

  /** Under the job of a code, each risk factor is listed as often as it selects the code. */
  lemma {:induction false} RiskMrnsAreSelections(
      checksum: Key -> Uuid, g: JobGraph, order: seq<Id>, m: Mrn, code: CodeId)
    requires Injective(checksum) && Keyed(g) && InGraph(g, order) && NoDuplicates(order)
    ensures CountRisk(BuildAll(checksum, g, order).riskMrns, checksum(CodeKey(code)), m) ==
      TotalSelections(g, order, m, code)
  {
    if order != [] {
      var front, last := order[..|order| - 1], order[|order| - 1];
      TotalOneMore(g, order, m, code);
      RiskMrnsAreSelections(checksum, g, front, m, code);
      OneMoreSelection(checksum, BuildAll(checksum, g, front), g.nodes[last], m, code);
    }
  }

  lemma TotalOneMore(g: JobGraph, order: seq<Id>, m: Mrn, code: CodeId)
    requires Keyed(g) && InGraph(g, order) && NoDuplicates(order) && order != []
    ensures var front, last := order[..|order| - 1], order[|order| - 1];
      && InGraph(g, front) && NoDuplicates(front)
      && TotalSelections(g, order, m, code) == TotalSelections(g, front, m, code) + Selections(g.nodes[last], m, code)
  {
    var last := order[|order| - 1];
    assert order == order[..|order| - 1] + [last];
    assert IdOf(g.nodes[last]) == last;
  }

  lemma OneMoreSelection(checksum: Key -> Uuid, col: Collected, n: Node, m: Mrn, code: CodeId)
    requires Injective(checksum)
    ensures CountRisk(BuildNode(checksum, col, n).riskMrns, checksum(CodeKey(code)), m) ==
      CountRisk(col.riskMrns, checksum(CodeKey(code)), m) + Selections(n, m, code)
  {
    if n.RiskNode? {
      RiskMrnsOfCodes(checksum, col.riskMrns, n.mrn, n.selectedCodes, code, m);
    }
  }

  lemma {:induction false} RiskMrnsKeys(checksum: Key -> Uuid, g: JobGraph, order: seq<Id>, u: Uuid)
    requires Injective(checksum) && InGraph(g, order)
    ensures u in BuildAll(checksum, g, order).riskMrns <==> SelectedBySome(checksum, g, order, u)
  {
    if order != [] {
      var front, last := order[..|order| - 1], order[|order| - 1];
      assert order == front + [last];
      RiskMrnsKeys(checksum, g, front, u);
      var n := g.nodes[last];
      if n.RiskNode? {
        RiskMrnsOfCodes(checksum, BuildAll(checksum, g, front).riskMrns, n.mrn, n.selectedCodes, "", "");
      }
    }
  }

  // ----- main results -----

  ghost predicate SameMembers(a: seq<Id>, b: seq<Id>) {
    forall id :: id in a <==> id in b
  }

  /** Building the same nodes in another order collects the same jobs, queries, reporting queries
      and risk factors, and lists the same risk factors, equally often, under each code. */
  lemma BuildOrderDoesNotMatter(checksum: Key -> Uuid, g: JobGraph, a: seq<Id>, b: seq<Id>, m: Mrn, code: CodeId)
    requires Injective(checksum) && Unambiguous(g) && InGraph(g, a) && NoDuplicates(a) && NoDuplicates(b)
    requires SameMembers(a, b)
    ensures var x, y := BuildAll(checksum, g, a), BuildAll(checksum, g, b);
      && x.heads == y.heads && x.queries == y.queries && x.reportingQueries == y.reportingQueries
      && x.riskFactors == y.riskFactors && x.riskMrns.Keys == y.riskMrns.Keys
      && CountRisk(x.riskMrns, checksum(CodeKey(code)), m) == CountRisk(y.riskMrns, checksum(CodeKey(code)), m)
  {
    HeadsAreThoseOfNodes(checksum, g, a);
    HeadsAreThoseOfNodes(checksum, g, b);
    HeadsAreUnique(checksum, g, a, b, BuildAll(checksum, g, a).heads, BuildAll(checksum, g, b).heads);
    RiskMrnsAreSelections(checksum, g, a, m, code);
    RiskMrnsAreSelections(checksum, g, b, m, code);
    SameReportingQueries(checksum, g, a, b);
    SameQueries(checksum, g, a, b);
    SameRisks(checksum, g, a, b);
  }

  lemma SameQueries(checksum: Key -> Uuid, g: JobGraph, a: seq<Id>, b: seq<Id>)
    requires InGraph(g, a) && SameMembers(a, b)
    ensures BuildAll(checksum, g, a).queries == BuildAll(checksum, g, b).queries
  {
    forall c ensures c in BuildAll(checksum, g, a).queries <==> c in BuildAll(checksum, g, b).queries {
      QueriesAreTheCode(checksum, g, a, c);
      QueriesAreTheCode(checksum, g, b, c);
    }
  }

  lemma SameRisks(checksum: Key -> Uuid, g: JobGraph, a: seq<Id>, b: seq<Id>)
    requires Injective(checksum) && InGraph(g, a) && SameMembers(a, b)
    ensures BuildAll(checksum, g, a).riskFactors == BuildAll(checksum, g, b).riskFactors
    ensures BuildAll(checksum, g, a).riskMrns.Keys == BuildAll(checksum, g, b).riskMrns.Keys
  {
    forall u ensures u in BuildAll(checksum, g, a).riskMrns <==> u in BuildAll(checksum, g, b).riskMrns {
      RiskMrnsKeys(checksum, g, a, u);
      RiskMrnsKeys(checksum, g, b, u);
    }
    forall r ensures r in BuildAll(checksum, g, a).riskFactors <==> r in BuildAll(checksum, g, b).riskFactors {
      RiskFactorsAreTheRisks(checksum, g, a, r);
      RiskFactorsAreTheRisks(checksum, g, b, r);
    }
  }

  lemma SameReportingQueries(checksum: Key -> Uuid, g: JobGraph, a: seq<Id>, b: seq<Id>)
    requires InGraph(g, a) && SameMembers(a, b)
    ensures BuildAll(checksum, g, a).reportingQueries == BuildAll(checksum, g, b).reportingQueries
  {
    var x, y := BuildAll(checksum, g, a).reportingQueries, BuildAll(checksum, g, b).reportingQueries;
    forall code ensures (code in x <==> code in y) && (code in x ==> x[code] == y[code]) {
      ReportingQueriesAreSingle(checksum, g, a, code);
      ReportingQueriesAreSingle(checksum, g, b, code);
    }
  }
}
