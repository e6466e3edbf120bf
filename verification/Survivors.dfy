/** What survives the pruning of a graph, and what the jobs of that look like, in terms of the bundle. */
module Survivors {
  import opened Wrappers
  import opened PolicyWindow
  import opened PolicyBundle
  import opened JobGraph
  import opened Digraph
  import opened VariantSelection
  import opened GraphRules
  import opened PolicyRules
  import opened GraphSources
  import opened PolicyCoverage
  import opened GraphContents
  import opened PlainTerms
  import opened NodeContents
  import opened GraphWalk

  /** Code, the policy of the bundle, and the spaces among the policies on chains. */
  ghost predicate IsAlwaysKept(c: Config, id: Id) {
    match id
    case CodeNode(_) => true
    case PolicyMrn(p) => IsOnChain(c, p) && (p == c.bundleMrn || "//captain.api.mondoo.app/spaces/" <= p)
    case _ => false
  }

  lemma KeptIff(c: Config, ranks: Ranks, id: Id)
    requires WellFormed(c, ranks) && c.bundleMrn in c.bundle.policies && id in WholeGraph(c, ranks).nodes
    ensures IsAlwaysKept(c, id) <==> !IsPrunable(WholeGraph(c, ranks).nodes[id])
  {
    assert NodeIsSound(c, ranks.query, WholeGraph(c, ranks), id);
    if id.PolicyMrn? {
      PolicyNodesAreActive(c, ranks, id.mrn);
      ActiveIff(c, ranks, id.mrn);
      NodesAreFilled(c, ranks, id);
    }
  }

  /** Something that is always kept leads to the node along edges. */
  ghost predicate Survives(c: Config, ranks: Ranks, id: Id)
    requires WellFormed(c, ranks) && c.bundleMrn in c.bundle.policies
  {
    var g := WholeGraph(c, ranks);
    id in g.nodes && exists n :: n in g.nodes && IsAlwaysKept(c, n) && Reaches(ReportEdges(g), n, id)
  }

  lemma SurvivesIff(c: Config, ranks: Ranks, id: Id)
    requires WellFormed(c, ranks) && c.bundleMrn in c.bundle.policies
    ensures Reached(WholeGraph(c, ranks), id) <==> Survives(c, ranks, id)
  {
    var g := WholeGraph(c, ranks);
    forall n | n in g.nodes ensures IsAlwaysKept(c, n) <==> !IsPrunable(g.nodes[n]) {
      KeptIff(c, ranks, n);
    }
  }

  lemma KeptSurvives(c: Config, ranks: Ranks, id: Id)
    requires WellFormed(c, ranks) && c.bundleMrn in c.bundle.policies
    requires IsAlwaysKept(c, id) && id in WholeGraph(c, ranks).nodes
    ensures Survives(c, ranks, id)
  {
    ReachesSelf(ReportEdges(WholeGraph(c, ranks)), id);
  }

  // ----- the code that is run -----

  /** The code at the end of the least path of variants from the query. */
  ghost predicate LeadsToCode(c: Config, x: Mrn, code: CodeId) {
    exists path :: IsLeast(c, x, path) && Follow(c, x, path) == Some(code)
  }

  lemma SelectIff(c: Config, ranks: Ranks, x: Mrn, code: CodeId)
    requires WellFormed(c, ranks)
    ensures Select(c, ranks.query, x) == Some(code) <==> LeadsToCode(c, x, code)
  {
    var least := SelectsLeastPath(c, ranks.query, x);
    if path :| IsLeast(c, x, path) && Follow(c, x, path) == Some(code) {
      LeastIsUnique(path, least);
    }
  }

  /** The policy offers a query that leads to this code. */
  ghost predicate OffersCode(c: Config, p: Mrn, code: CodeId) {
    exists x :: Offers(c, p, x) && LeadsToCode(c, x, code)
  }

  lemma OffersCodeIff(c: Config, ranks: Ranks, p: Mrn, code: CodeId)
    requires WellFormed(c, ranks)
    ensures SelectsCode(c, ranks.query, p, code) <==> OffersCode(c, p, code)
  {
    if x, check :| ListsAs(c, p, x, check) && Select(c, ranks.query, x) == Some(code) {
      OffersIff(c, p, x);
      SelectIff(c, ranks, x, code);
    }
    if x :| Offers(c, p, x) && LeadsToCode(c, x, code) {
      OffersIff(c, p, x);
      SelectIff(c, ranks, x, code);
    }
  }

  /** The risk factor is to be run on the asset, and takes up a check with this code or, if none of its
      checks has variants, a data query. */
  predicate RunsForRisk(c: Config, r: RiskFactor, code: CodeId) {
    && r.checks != [] && !IsStopped(c, RiskMrn(r.mrn)) && IsSupported(c, r.filters)
    && (|| TakesUp(c, r.checks, code)
        || ((forall q :: q in r.checks ==> q.variants == []) && TakesUp(c, r.queries, code)))
  }

  predicate HasRiskRunning(c: Config, p: Mrn, code: CodeId) {
    && p in c.bundle.policies
    && exists r :: r in c.bundle.policies[p].riskFactors && RunsForRisk(c, r, code)
  }

  lemma RiskRunsIff(c: Config, p: Mrn, code: CodeId)
    ensures RiskRuns(c, p, code) <==> HasRiskRunning(c, p, code)
  {
    if p in c.bundle.policies {
      forall r | r in c.bundle.policies[p].riskFactors
        ensures r.checks != [] && RunsRisk(c, r) && TakesCode(c, r, code) <==> RunsForRisk(c, r, code)
      {
        AcceptsIff(c, r.filters);
        TakesUpIff(c, r.checks, code);
        TakesUpIff(c, r.queries, code);
      }
    }
  }

  /** A policy on a chain offers a query that leads to this code, or has a risk factor that runs it. */
  ghost predicate IsRun(c: Config, code: CodeId) {
    exists p :: IsOnChain(c, p) && (OffersCode(c, p, code) || HasRiskRunning(c, p, code))
  }

  lemma IsRunIff(c: Config, ranks: Ranks, code: CodeId)
    requires WellFormed(c, ranks)
    ensures ActiveRuns(c, ranks.query, code) <==> IsRun(c, code)
  {
    forall p ensures IsActive(c, p) <==> IsOnChain(c, p) {
      ActiveIff(c, ranks, p);
    }
    forall p ensures SelectsCode(c, ranks.query, p, code) <==> OffersCode(c, p, code) {
      OffersCodeIff(c, ranks, p, code);
    }
    forall p ensures RiskRuns(c, p, code) <==> HasRiskRunning(c, p, code) {
      RiskRunsIff(c, p, code);
    }
  }

  lemma CodeInGraphIff(c: Config, ranks: Ranks, code: CodeId)
    requires WellFormed(c, ranks) && c.bundleMrn in c.bundle.policies
    ensures CodeNode(code) in WholeGraph(c, ranks).nodes <==> IsRun(c, code)
  {
    NodesIff(c, ranks, CodeNode(code));
    IsRunIff(c, ranks, code);
  }

  // ----- when a bundle cannot be resolved -----

  lemma RootIsOnChain(c: Config)
    ensures IsOnChain(c, c.bundleMrn) <==> Runs(c, c.bundleMrn)
  {
    if Runs(c, c.bundleMrn) {
      assert IsChain(c, [c.bundleMrn]);
    }
  }

  lemma ChainNeedsRoot(c: Config, p: Mrn)
    requires IsOnChain(c, p)
    ensures Runs(c, c.bundleMrn)
  {
  }

  /** If the policy of the bundle runs, its node survives; otherwise nothing does. */
  lemma RootSurvivesIff(c: Config, ranks: Ranks, id: Id)
    requires WellFormed(c, ranks) && c.bundleMrn in c.bundle.policies
    ensures Runs(c, c.bundleMrn) ==> Survives(c, ranks, PolicyMrn(c.bundleMrn))
    ensures Survives(c, ranks, id) ==> Runs(c, c.bundleMrn)
  {
    RootIsOnChain(c);
    if Runs(c, c.bundleMrn) {
      ActiveIff(c, ranks, c.bundleMrn);
      PolicyNodesAreActive(c, ranks, c.bundleMrn);
      KeptSurvives(c, ranks, PolicyMrn(c.bundleMrn));
    } else if Survives(c, ranks, id) {
      NothingIsKept(c, ranks);
    }
  }

  lemma NothingIsKept(c: Config, ranks: Ranks)
    requires WellFormed(c, ranks) && c.bundleMrn in c.bundle.policies && !Runs(c, c.bundleMrn)
    ensures forall n :: n in WholeGraph(c, ranks).nodes ==> !IsAlwaysKept(c, n)
  {
    forall n | n in WholeGraph(c, ranks).nodes ensures !IsAlwaysKept(c, n) {
      if n.CodeNode? {
        CodeInGraphIff(c, ranks, n.code);
      }
    }
  }

  /** Some code that is to be run does not compile. */
  ghost predicate RunsUncompiled(c: Config, compiles: set<CodeId>) {
    exists code :: IsRun(c, code) && code !in compiles
  }

  lemma RunningNeedsRoot(c: Config, compiles: set<CodeId>)
    requires RunsUncompiled(c, compiles)
    ensures Runs(c, c.bundleMrn)
  {
    var code :| IsRun(c, code) && code !in compiles;
    var p :| IsOnChain(c, p) && (OffersCode(c, p, code) || HasRiskRunning(c, p, code));
    ChainNeedsRoot(c, p);
  }

  lemma FailsIff(c: Config, ranks: Ranks, compiles: set<CodeId>)
    requires WellFormed(c, ranks) && c.bundleMrn in c.bundle.policies
    ensures var g := WholeGraph(c, ranks);
      (exists id :: Reached(g, id) && Fails(g, compiles, id)) <==> RunsUncompiled(c, compiles)
  {
    var g := WholeGraph(c, ranks);
    if id :| Reached(g, id) && Fails(g, compiles, id) {
      FailingIsRun(c, ranks, compiles, id);
    }
    if code :| IsRun(c, code) && code !in compiles {
      RunFails(c, ranks, compiles, code);
    }
  }

  lemma FailingIsRun(c: Config, ranks: Ranks, compiles: set<CodeId>, id: Id)
    requires WellFormed(c, ranks) && c.bundleMrn in c.bundle.policies && Fails(WholeGraph(c, ranks), compiles, id)
    ensures RunsUncompiled(c, compiles)
  {
    var code := WholeGraph(c, ranks).nodes[id].code;
    assert IdOf(WholeGraph(c, ranks).nodes[id]) == id;
    CodeInGraphIff(c, ranks, code);
  }

  lemma RunFails(c: Config, ranks: Ranks, compiles: set<CodeId>, code: CodeId)
    requires WellFormed(c, ranks) && c.bundleMrn in c.bundle.policies && IsRun(c, code) && code !in compiles
    ensures var g := WholeGraph(c, ranks); Reached(g, CodeNode(code)) && Fails(g, compiles, CodeNode(code))
  {
    var g := WholeGraph(c, ranks);
    CodeInGraphIff(c, ranks, code);
    KeptSurvives(c, ranks, CodeNode(code));
    SurvivesIff(c, ranks, CodeNode(code));
    CodeIsExecuted(c, ranks.query, g, code);
  }

  lemma CodeIsExecuted(c: Config, rank: Mrn -> nat, g: JobGraph, code: CodeId)
    requires Sound(c, rank, g) && CodeNode(code) in g.nodes
    ensures g.nodes[CodeNode(code)] == ExecutionNode(code)
  {
    assert IdOf(g.nodes[CodeNode(code)]) == CodeNode(code) && NodeIsSound(c, rank, g, CodeNode(code));
  }
}
