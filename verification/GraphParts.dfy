/** Exactly which nodes and edges queries and risk factors bring into the graph. */
module GraphParts {
  import opened Wrappers
  import opened PolicyTypes
  import opened PolicyWindow
  import opened PolicyBundle
  import opened JobGraph
  import opened Sequences
  import opened VariantSelection
  import opened GraphRules

  /** What a graph consists of. */
  datatype Part = NodePart(id: Id) | EdgePart(a: Id, b: Id)

  predicate Holds(g: JobGraph, x: Part) {
    match x
    case NodePart(id) => id in g.nodes
    case EdgePart(a, b) => HasEdge(g, a, b)
  }

  lemma NodeParts(g: JobGraph, n: Node, x: Part)
    ensures Holds(g.AddNode(n), x) <==> Holds(g, x) || x == NodePart(IdOf(n))
  {
    if x.EdgePart? {
      assert g.AddNode(n).To(x.a) == g.To(x.a);
    }
  }

  lemma EdgeParts(g: JobGraph, a: Id, b: Id, impact: Option<Impact>, x: Part)
    ensures Holds(g.AddEdge(a, b, impact), x) <==> Holds(g, x) || x == EdgePart(a, b)
  {
  }

  // ----- queries -----

  /** q is m itself or a variant selected on the way to the code of m. */
  ghost predicate OnChain(c: Config, rank: Mrn -> nat, m: Mrn, q: Mrn)
    requires VariantsDescend(c.bundle.queries, rank) && Select(c, rank, m).Some?
    ensures OnChain(c, rank, m, q) ==> Select(c, rank, q) == Select(c, rank, m)
    decreases Level(c.bundle.queries, rank, m)
  {
    q == m ||
    (!IsDisabled(c, m) && c.bundle.queries[m].variants != [] &&
     OnChain(c, rank, FirstMatch(c, rank, c.bundle.queries[m].variants), q))
  }

  /** A query brings its code and every query on the way to it, each with the edge that feeds it. */
  ghost predicate QueryBrings(c: Config, rank: Mrn -> nat, m: Mrn, x: Part)
    requires VariantsDescend(c.bundle.queries, rank) && Select(c, rank, m).Some?
  {
    || x == NodePart(CodeNode(Select(c, rank, m).value))
    || exists q :: OnChain(c, rank, m, q) && (x == NodePart(QueryMrn(q)) || x == EdgePart(Feeder(c, rank, q),
      QueryMrn(q)))
  }

  lemma QueryBringsUnfolds(c: Config, rank: Mrn -> nat, m: Mrn, x: Part)
    requires VariantsDescend(c.bundle.queries, rank) && Select(c, rank, m).Some?
    ensures var feeder := Feeder(c, rank, m);
      QueryBrings(c, rank, m, x) <==>
      || x == NodePart(QueryMrn(m)) || x == EdgePart(feeder, QueryMrn(m))
      || (if feeder.QueryMrn? then QueryBrings(c, rank, feeder.mrn, x) else x == NodePart(feeder))
  {
    assert OnChain(c, rank, m, m);
    var feeder := Feeder(c, rank, m);
    if feeder.QueryMrn? {
      forall q ensures OnChain(c, rank, m, q) <==> q == m || OnChain(c, rank, feeder.mrn, q) {
      }
    } else {
      forall q ensures OnChain(c, rank, m, q) <==> q == m {
      }
    }
  }

  /** A query is added on top of what feeds it: the variant it selects, or its code. */
  lemma SelectedUnfolds(c: Config, rank: Mrn -> nat, g: JobGraph, m: Mrn)
    requires Sound(c, rank, g) && Select(c, rank, m).Some?
    ensures var feeder, code := Feeder(c, rank, m), Select(c, rank, m).value;
      && (feeder.QueryMrn? ==>
          && Level(c.bundle.queries, rank, feeder.mrn) < Level(c.bundle.queries, rank, m)
          && Select(c, rank, feeder.mrn) == Some(code))
      && WithSelected(c, rank, g, m) == WithQuery(c,
          if feeder.QueryMrn? then WithSelected(c, rank, g, feeder.mrn) else g.AddNode(ExecutionNode(code)),
          m, code, feeder, QueryImpact(c, m))
  {
  }

  lemma {:induction false} SelectedParts(c: Config, rank: Mrn -> nat, g: JobGraph, m: Mrn, x: Part)
    requires Sound(c, rank, g) && Select(c, rank, m).Some?
    ensures Holds(WithSelected(c, rank, g, m), x) <==> Holds(g, x) || QueryBrings(c, rank, m, x)
    decreases Level(c.bundle.queries, rank, m)
  {
    SelectedUnfolds(c, rank, g, m);
    QueryBringsUnfolds(c, rank, m, x);
    var feeder, code := Feeder(c, rank, m), Select(c, rank, m).value;
    var g1 := g.AddNode(ExecutionNode(code));
    if feeder.QueryMrn? {
      SelectedParts(c, rank, g, feeder.mrn, x);
      g1 := WithSelected(c, rank, g, feeder.mrn);
    } else {
      NodeParts(g, ExecutionNode(code), x);
    }
    WithQueryParts(c, g1, m, code, feeder, QueryImpact(c, m), x);
  }

  lemma WithQueryParts(c: Config, g: JobGraph, m: Mrn, code: CodeId, feeder: Id, impact: Option<Impact>, x: Part)
    ensures Holds(WithQuery(c, g, m, code, feeder, impact), x) <==>
      Holds(g, x) || x == NodePart(QueryMrn(m)) || x == EdgePart(feeder, QueryMrn(m))
  {
    NodeParts(g, QueryNode(m, c.TypeOf(m), code), x);
    EdgeParts(g.AddNode(QueryNode(m, c.TypeOf(m), code)), feeder, QueryMrn(m), impact, x);
  }

  // ----- risk factors -----

  ghost predicate NoneVaries(list: seq<Mquery>) {
    forall q :: q in list ==> q.variants == []
  }

  /** An entry of the list has this code, is accepted, and comes before the first with variants. */
  ghost predicate Takes(c: Config, list: seq<Mquery>, code: CodeId) {
    exists i :: 0 <= i < |list| && NoneVaries(list[..i + 1]) && c.Accepts(list[i].filters) && list[i].codeId == code
  }

  lemma TakesOneMore(c: Config, list: seq<Mquery>, code: CodeId)
    requires list != []
    ensures var front, last := list[..|list| - 1], list[|list| - 1];
      && (NoneVaries(list) <==> NoneVaries(front) && last.variants == [])
      && (Takes(c, list, code) <==>
          Takes(c, front, code) || (NoneVaries(list) && c.Accepts(last.filters) && last.codeId == code))
  {
    var n := |list| - 1;
    InFrontOrLast(list);
    assert list[..n + 1] == list;
    if Takes(c, list[..n], code) {
      var i :| 0 <= i < n && NoneVaries(list[..n][..i + 1]) && c.Accepts(list[i].filters) && list[i].codeId == code;
      assert list[..n][..i + 1] == list[..i + 1];
    }
    if Takes(c, list, code) {
      var i :| 0 <= i < |list| && NoneVaries(list[..i + 1]) && c.Accepts(list[i].filters) && list[i].codeId == code;
      if i < n {
        assert list[..n][..i + 1] == list[..i + 1] && list[..n][i] == list[i];
      }
    }
  }

  /** Checks bring their code and its edge to the risk factor. */
  ghost predicate ChecksBring(c: Config, risk: Mrn, checks: seq<Mquery>, x: Part) {
    exists code :: Takes(c, checks, code) && (x == NodePart(CodeNode(code))
      || x == EdgePart(CodeNode(code), RiskMrn(risk)))
  }

  ghost predicate DataBrings(c: Config, queries: seq<Mquery>, x: Part) {
    exists code :: Takes(c, queries, code) && x == NodePart(CodeNode(code))
  }

  lemma ChecksBringOneMore(c: Config, risk: Mrn, checks: seq<Mquery>, x: Part)
    requires checks != []
    ensures var front, last := checks[..|checks| - 1], checks[|checks| - 1];
      ChecksBring(c, risk, checks, x) <==>
      || ChecksBring(c, risk, front, x)
      || (NoneVaries(checks) && c.Accepts(last.filters) &&
          (x == NodePart(CodeNode(last.codeId)) || x == EdgePart(CodeNode(last.codeId), RiskMrn(risk))))
  {
    forall code {
      TakesOneMore(c, checks, code);
    }
  }

  lemma DataBringsOneMore(c: Config, queries: seq<Mquery>, x: Part)
    requires queries != []
    ensures var front, last := queries[..|queries| - 1], queries[|queries| - 1];
      DataBrings(c, queries, x) <==>
      DataBrings(c, front, x) || (NoneVaries(queries) && c.Accepts(last.filters)
        && x == NodePart(CodeNode(last.codeId)))
  {
    forall code {
      TakesOneMore(c, queries, code);
    }
  }

  lemma {:induction false} RiskCheckCodes(c: Config, rank: Mrn -> nat, g: JobGraph, risk: Mrn, checks: seq<Mquery>)
    requires Sound(c, rank, g)
    ensures WithRiskChecks(c, rank, g, risk, checks).failed <==> !NoneVaries(checks)
    ensures forall code :: code in WithRiskChecks(c, rank, g, risk, checks).codes <==> Takes(c, checks, code)
  {
    if checks != [] {
      RiskCheckCodes(c, rank, g, risk, checks[..|checks| - 1]);
      forall code {
        TakesOneMore(c, checks, code);
      }
      InFrontOrLast(checks);
    }
  }

  lemma {:induction false} RiskCheckParts(
      c: Config, rank: Mrn -> nat, g: JobGraph, risk: Mrn, checks: seq<Mquery>, x: Part)
    requires Sound(c, rank, g)
    ensures Holds(WithRiskChecks(c, rank, g, risk, checks).graph, x) <==> Holds(g, x) || ChecksBring(c, risk, checks, x)
  {
    if checks != [] {
      var front, last := checks[..|checks| - 1], checks[|checks| - 1];
      RiskCheckParts(c, rank, g, risk, front, x);
      RiskCheckCodes(c, rank, g, risk, front);
      ChecksBringOneMore(c, risk, checks, x);
      InFrontOrLast(checks);
      var done := WithRiskChecks(c, rank, g, risk, front).graph;
      NodeParts(done, ExecutionNode(last.codeId), x);
      EdgeParts(done.AddNode(ExecutionNode(last.codeId)), CodeNode(last.codeId), RiskMrn(risk), Some(IGNORED_IMPACT),
        x);
    }
  }

  lemma {:induction false} RiskQueryCodes(c: Config, rank: Mrn -> nat, g: JobGraph, queries: seq<Mquery>)
    requires Sound(c, rank, g)
    ensures WithRiskQueries(c, rank, g, queries).failed <==> !NoneVaries(queries)
    ensures forall code :: code in WithRiskQueries(c, rank, g, queries).codes <==> Takes(c, queries, code)
  {
    if queries != [] {
      RiskQueryCodes(c, rank, g, queries[..|queries| - 1]);
      forall code {
        TakesOneMore(c, queries, code);
      }
      InFrontOrLast(queries);
    }
  }

  lemma {:induction false} RiskQueryParts(c: Config, rank: Mrn -> nat, g: JobGraph, queries: seq<Mquery>, x: Part)
    requires Sound(c, rank, g)
    ensures Holds(WithRiskQueries(c, rank, g, queries).graph, x) <==> Holds(g, x) || DataBrings(c, queries, x)
  {
    if queries != [] {
      var front, last := queries[..|queries| - 1], queries[|queries| - 1];
      RiskQueryParts(c, rank, g, front, x);
      RiskQueryCodes(c, rank, g, front);
      DataBringsOneMore(c, queries, x);
      InFrontOrLast(queries);
      NodeParts(WithRiskQueries(c, rank, g, front).graph, ExecutionNode(last.codeId), x);
    }
  }

  /** The risk factor runs, none of its checks and queries has variants, and it has code to run. */
  ghost predicate AddsRisk(c: Config, r: RiskFactor) {
    RunsRisk(c, r) && NoneVaries(r.checks) && NoneVaries(r.queries)
      && exists code :: Takes(c, r.checks + r.queries, code)
  }

  /** Code and edges come with a risk factor even if it is not added in the end. */
  ghost predicate RiskBrings(c: Config, r: RiskFactor, x: Part) {
    && RunsRisk(c, r)
    && (|| ChecksBring(c, r.mrn, r.checks, x)
        || (NoneVaries(r.checks) && DataBrings(c, r.queries, x))
        || (AddsRisk(c, r) && x == NodePart(RiskMrn(r.mrn))))
  }

  lemma TakesFromEither(c: Config, a: seq<Mquery>, b: seq<Mquery>, code: CodeId)
    requires NoneVaries(a) && NoneVaries(b)
    ensures Takes(c, a + b, code) <==> Takes(c, a, code) || Takes(c, b, code)
  {
    if Takes(c, a, code) {
      var i :| 0 <= i < |a| && c.Accepts(a[i].filters) && a[i].codeId == code;
      assert (a + b)[i] == a[i];
    }
    if Takes(c, b, code) {
      var i :| 0 <= i < |b| && c.Accepts(b[i].filters) && b[i].codeId == code;
      assert (a + b)[|a| + i] == b[i];
    }
    if Takes(c, a + b, code) {
      var i :| 0 <= i < |a + b| && c.Accepts((a + b)[i].filters) && (a + b)[i].codeId == code;
      if i < |a| {
        assert NoneVaries(a[..i + 1]);
      } else {
        assert NoneVaries(b[..i - |a| + 1]) && b[i - |a|] == (a + b)[i];
      }
    }
  }

  /** How adding a risk factor ends. */
  lemma RiskOutcome(c: Config, rank: Mrn -> nat, g: JobGraph, r: RiskFactor)
    requires Sound(c, rank, g)
    ensures WithRisk(c, rank, g, r).1 ==
      if RunsRisk(c, r) && !NoneVaries(r.checks) then Err(RISK_CHECK_ERROR)
      else if RunsRisk(c, r) && !NoneVaries(r.queries) then Err(RISK_QUERY_ERROR)
      else Ok(AddsRisk(c, r))
  {
    if RunsRisk(c, r) {
      RiskCheckCodes(c, rank, g, r.mrn, r.checks);
      var checks := WithRiskChecks(c, rank, g, r.mrn, r.checks);
      RiskQueryCodes(c, rank, checks.graph, r.queries);
      if NoneVaries(r.checks) && NoneVaries(r.queries) {
        AddsRiskIffCode(c, r, checks.codes, WithRiskQueries(c, rank, checks.graph, r.queries).codes);
      }
    }
  }

  /** What a risk factor adds to the graph. */
  lemma RiskParts(c: Config, rank: Mrn -> nat, g: JobGraph, r: RiskFactor, x: Part)
    requires Sound(c, rank, g)
    ensures Holds(WithRisk(c, rank, g, r).0, x) <==> Holds(g, x) || RiskBrings(c, r, x)
  {
    if RunsRisk(c, r) {
      RiskCheckParts(c, rank, g, r.mrn, r.checks, x);
      RiskCheckCodes(c, rank, g, r.mrn, r.checks);
      if NoneVaries(r.checks) {
        var checks := WithRiskChecks(c, rank, g, r.mrn, r.checks);
        RiskDataParts(c, rank, checks.graph, r.queries, RiskNode(r.mrn, checks.codes), AddsRisk(c, r), x);
        RiskLastStep(c, rank, g, r);
      }
    }
  }

  lemma RiskDataParts(c: Config, rank: Mrn -> nat, g: JobGraph, queries: seq<Mquery>, n: Node, added: bool, x: Part)
    requires Sound(c, rank, g)
    ensures var data := WithRiskQueries(c, rank, g, queries).graph;
      Holds(if added then data.AddNode(n) else data, x) <==>
      Holds(g, x) || DataBrings(c, queries, x) || (added && x == NodePart(IdOf(n)))
  {
    RiskQueryParts(c, rank, g, queries, x);
    NodeParts(WithRiskQueries(c, rank, g, queries).graph, n, x);
  }

  lemma RiskLastStep(c: Config, rank: Mrn -> nat, g: JobGraph, r: RiskFactor)
    requires Sound(c, rank, g) && RunsRisk(c, r) && NoneVaries(r.checks)
    ensures var checks := WithRiskChecks(c, rank, g, r.mrn, r.checks);
      var data := WithRiskQueries(c, rank, checks.graph, r.queries).graph;
      WithRisk(c, rank, g, r).0 == if AddsRisk(c, r) then data.AddNode(RiskNode(r.mrn, checks.codes)) else data
  {
    RiskOutcome(c, rank, g, r);
    RiskCheckCodes(c, rank, g, r.mrn, r.checks);
  }

  lemma AddsRiskIffCode(c: Config, r: RiskFactor, checkCodes: seq<CodeId>, dataCodes: seq<CodeId>)
    requires RunsRisk(c, r) && NoneVaries(r.checks) && NoneVaries(r.queries)
    requires forall code :: code in checkCodes <==> Takes(c, r.checks, code)
    requires forall code :: code in dataCodes <==> Takes(c, r.queries, code)
    ensures AddsRisk(c, r) <==> checkCodes != [] || dataCodes != []
  {
    forall code {
      TakesFromEither(c, r.checks, r.queries, code);
    }
    if checkCodes != [] {
      assert Takes(c, r.checks, checkCodes[0]);
    } else if dataCodes != [] {
      assert Takes(c, r.queries, dataCodes[0]);
    }
  }

  // ----- risk factors that fail -----

  /** Everything the checks and, if these are in order, the queries had taken up is there already. */
  ghost predicate TakenIsKnown(c: Config, g: JobGraph, r: RiskFactor) {
    && ChecksKnown(c, g, r.mrn, r.checks)
    && (NoneVaries(r.checks) ==> DataKnown(c, g, r.queries))
  }

  ghost predicate ChecksKnown(c: Config, g: JobGraph, risk: Mrn, checks: seq<Mquery>) {
    forall code :: Takes(c, checks, code) ==> CodeNode(code) in g.nodes && HasEdge(g, CodeNode(code), RiskMrn(risk))
  }

  ghost predicate DataKnown(c: Config, g: JobGraph, queries: seq<Mquery>) {
    forall code :: Takes(c, queries, code) ==> CodeNode(code) in g.nodes
  }

  /** A failing risk factor leaves the graph as it was exactly if all it had taken up by then was
      there before: the code of its checks with their edges to it and, if only a query is at fault,
      the code of its queries. */
  lemma FailedRiskIsUndoneIff(c: Config, rank: Mrn -> nat, g: JobGraph, r: RiskFactor)
    requires Sound(c, rank, g) && WithRisk(c, rank, g, r).1.Err?
    ensures WithRisk(c, rank, g, r).0 == g <==> TakenIsKnown(c, g, r)
  {
    RiskOutcome(c, rank, g, r);
    if WithRisk(c, rank, g, r).0 == g {
      UnchangedIsKnown(c, rank, g, r);
    }
    if TakenIsKnown(c, g, r) {
      RiskChecksUnchanged(c, rank, g, r.mrn, r.checks);
      RiskCheckCodes(c, rank, g, r.mrn, r.checks);
      if NoneVaries(r.checks) {
        RiskQueriesUnchanged(c, rank, g, r.queries);
      }
    }
  }

  lemma UnchangedIsKnown(c: Config, rank: Mrn -> nat, g: JobGraph, r: RiskFactor)
    requires Sound(c, rank, g) && RunsRisk(c, r) && WithRisk(c, rank, g, r).0 == g
    ensures TakenIsKnown(c, g, r)
  {
    forall code | Takes(c, r.checks, code) ensures CodeNode(code) in g.nodes
      && HasEdge(g, CodeNode(code), RiskMrn(r.mrn)) {
      RiskParts(c, rank, g, r, NodePart(CodeNode(code)));
      RiskParts(c, rank, g, r, EdgePart(CodeNode(code), RiskMrn(r.mrn)));
    }
    if NoneVaries(r.checks) {
      forall code | Takes(c, r.queries, code) ensures CodeNode(code) in g.nodes {
        RiskParts(c, rank, g, r, NodePart(CodeNode(code)));
      }
    }
  }

  lemma KnownCodeIsKept(c: Config, rank: Mrn -> nat, g: JobGraph, code: CodeId)
    requires Sound(c, rank, g) && CodeNode(code) in g.nodes
    ensures g.AddNode(ExecutionNode(code)) == g
  {
    assert NodeIsSound(c, rank, g, CodeNode(code)) && IdOf(g.nodes[CodeNode(code)]) == CodeNode(code);
  }

  lemma {:induction false} RiskChecksUnchanged(c: Config, rank: Mrn -> nat, g: JobGraph, risk: Mrn, checks: seq<Mquery>)
    requires Sound(c, rank, g)
    requires ChecksKnown(c, g, risk, checks)
    ensures WithRiskChecks(c, rank, g, risk, checks).graph == g
  {
    if checks != [] {
      var front, last := checks[..|checks| - 1], checks[|checks| - 1];
      forall code {
        TakesOneMore(c, checks, code);
      }
      RiskChecksUnchanged(c, rank, g, risk, front);
      RiskCheckCodes(c, rank, g, risk, front);
      if NoneVaries(checks) && c.Accepts(last.filters) {
        assert Takes(c, checks, last.codeId);
        KnownCodeIsKept(c, rank, g, last.codeId);
      }
      InFrontOrLast(checks);
    }
  }

  lemma {:induction false} RiskQueriesUnchanged(c: Config, rank: Mrn -> nat, g: JobGraph, queries: seq<Mquery>)
    requires Sound(c, rank, g)
    requires DataKnown(c, g, queries)
    ensures WithRiskQueries(c, rank, g, queries).graph == g
  {
    if queries != [] {
      var front, last := queries[..|queries| - 1], queries[|queries| - 1];
      forall code {
        TakesOneMore(c, queries, code);
      }
      RiskQueriesUnchanged(c, rank, g, front);
      RiskQueryCodes(c, rank, g, front);
      if NoneVaries(queries) && c.Accepts(last.filters) {
        assert Takes(c, queries, last.codeId);
        KnownCodeIsKept(c, rank, g, last.codeId);
      }
      InFrontOrLast(queries);
    }
  }

  /** The least failure that does not: a check that is taken up, then one with variants. */
  lemma FailedRiskLeavesCode(c: Config, rank: Mrn -> nat, g: JobGraph, r: RiskFactor, a: Mquery, b: Mquery)
    requires Sound(c, rank, g) && RunsRisk(c, r) && r.checks == [a, b]
    requires a.variants == [] && c.Accepts(a.filters) && b.variants != [] && CodeNode(a.codeId) !in g.nodes
    ensures WithRisk(c, rank, g, r).1 == Err(RISK_CHECK_ERROR) && WithRisk(c, rank, g, r).0 != g
  {
    assert b in r.checks;
    assert r.checks[..0 + 1] == [a] && r.checks[0] == a;
    assert Takes(c, r.checks, a.codeId);
    RiskOutcome(c, rank, g, r);
    FailedRiskIsUndoneIff(c, rank, g, r);
  }
}
