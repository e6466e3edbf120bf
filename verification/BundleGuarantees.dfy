/** What the jobs of a resolved bundle are, described by the bundle alone. */
module BundleGuarantees {
  import opened Wrappers
  import opened PolicyTypes
  import opened PolicyWindow
  import opened PolicyBundle
  import opened QueryTypes
  import opened JobGraph
  import opened Digraph
  import opened VariantSelection
  import opened PolicyRules
  import opened GraphRules
  import opened GraphContents
  import opened GraphImpacts
  import opened PolicyCoverage
  import opened PlainTerms
  import opened PlainImpacts
  import opened NodeContents
  import opened Survivors
  import opened ReportingJobs
  import opened CollectedJobs
  import opened GraphWalk
  import opened JobWiring
  import opened ResolverRun
  import opened ResolverGuarantees

  /** Of two nodes that survive, the job of b has that of a for a child exactly if a reports to b
      according to the bundle, and then with exactly the impact that follows from the bundle. */
  lemma ChildrenAreExact(
      c: Config, ranks: Ranks, checksum: Key -> Uuid, jobs: map<Uuid, ReportingJob>, a: Id, b: Id)
    requires WellFormed(c, ranks) && c.bundleMrn in c.bundle.policies
    requires IsResolved(checksum, WholeGraph(c, ranks), PolicyMrn(c.bundleMrn), jobs)
    requires Reached(WholeGraph(c, ranks), a) && Reached(WholeGraph(c, ranks), b)
    ensures var uuids := UuidsOf(checksum, WholeGraph(c, ranks));
      && uuids[b] in jobs
      && (uuids[a] in jobs[uuids[b]].childJobs <==>
          ReportsByPolicies(c, ranks.query, a, b) || ReportsByFrameworks(c, ranks, a, b))
      && (uuids[a] in jobs[uuids[b]].childJobs ==>
          jobs[uuids[b]].childJobs[uuids[a]] == ExpectedImpact(c, ranks, a, b))
  {
    var g := WholeGraph(c, ranks);
    var uuids := UuidsOf(checksum, g);
    var wires := JobWires(jobs, uuids);
    NotifyMirrorsChildren(g, uuids, wires, a, b);
    if uuids[a] in wires[b].childJobs {
      ImpactsIff(c, ranks, a, b, wires[b].childJobs[uuids[a]]);
    }
    if ReportsByPolicies(c, ranks.query, a, b) || ReportsByFrameworks(c, ranks, a, b) {
      ImpactsIff(c, ranks, a, b, ExpectedImpact(c, ranks, a, b));
      assert EdgeImpact(a, ExpectedImpact(c, ranks, a, b)) in g.From(b);
    }
  }

  // ----- which jobs there are, and what they look like -----

  /** The job of the policy of the bundle is found by its graph checksum, all others by their ids. */
  function UuidFor(c: Config, checksum: Key -> Uuid, id: Id): Uuid
    requires c.bundleMrn in c.bundle.policies
  {
    if id == PolicyMrn(c.bundleMrn) then checksum(RootKey(c.bundle.policies[c.bundleMrn].graphChecksum))
    else checksum(NodeKey(id))
  }

  /** A query is a check unless it was collected as a data query, alone or as well. */
  ghost function TypeFor(c: Config, id: Id): JobType {
    match id
    case CodeNode(_) => ExecutionQueryJob
    case QueryMrn(m) =>
      if m in c.types && c.types[m] == Data then DataQueryJob
      else if m in c.types && c.types[m] == Both then CheckAndDataQueryJob
      else CheckJob
    case PolicyMrn(p) => if IsOnChain(c, p) then PolicyJob else FrameworkJob
    case FrameworkMrn(_) => FrameworkJob
    case ControlMrn(_) => ControlJob
    case RiskMrn(_) => RiskFactorJob
  }

  /** Code and the policy of the bundle list no MRN, and only other policies on chains pass on a scoring
      system. */
  ghost predicate LooksLike(c: Config, checksum: Key -> Uuid, id: Id, job: ReportingJob)
    requires c.bundleMrn in c.bundle.policies
    reads job`qrId, job`scoring
  {
    && job.uuid == UuidFor(c, checksum, id) && job.jobType == TypeFor(c, id)
    && (if id == PolicyMrn(c.bundleMrn) then job.qrId == Root else job.qrId == OfNode(id))
    && (if id == PolicyMrn(c.bundleMrn) || id.CodeNode? then job.mrns == [] else job.mrns == [id])
    && job.scoring ==
      if id.PolicyMrn? && IsOnChain(c, id.mrn) && id.mrn != c.bundleMrn && id.mrn in c.scorings then c.scorings[id.mrn]
      else ScoringUnspecified
  }

  lemma UuidIs(c: Config, ranks: Ranks, checksum: Key -> Uuid, id: Id)
    requires WellFormed(c, ranks) && c.bundleMrn in c.bundle.policies && Survives(c, ranks, id)
    ensures id in UuidsOf(checksum, WholeGraph(c, ranks))
    ensures UuidsOf(checksum, WholeGraph(c, ranks))[id] == UuidFor(c, checksum, id)
  {
    SurvivesIff(c, ranks, id);
    SurvivorIsOfItsKind(c, ranks, id);
    HeadIs(c, checksum, id, WholeGraph(c, ranks).nodes[id]);
  }

  /** The node is of the kind of its id, and says what the bundle does. */
  ghost predicate IsOfItsKind(c: Config, id: Id, n: Node) {
    && IdOf(n) == id
    && match id
       case CodeNode(_) => n.ExecutionNode?
       case QueryMrn(m) => n.QueryNode? && n.queryType == if m in c.types then c.types[m] else Scoring
       case PolicyMrn(p) => if IsOnChain(c, p) then IsPolicyNode(c, p, n) else n.FrameworkNode? && p != c.bundleMrn
       case FrameworkMrn(_) => n.FrameworkNode?
       case ControlMrn(_) => n.ControlNode?
       case RiskMrn(_) => n.RiskNode?
  }

  lemma SurvivorIsOfItsKind(c: Config, ranks: Ranks, id: Id)
    requires WellFormed(c, ranks) && c.bundleMrn in c.bundle.policies && Survives(c, ranks, id)
    ensures IsOfItsKind(c, id, WholeGraph(c, ranks).nodes[id])
  {
    var g := WholeGraph(c, ranks);
    RootSurvivesIff(c, ranks, id);
    RootIsOnChain(c);
    NodesAreFilled(c, ranks, id);
    assert IdOf(g.nodes[id]) == id && NodeIsSound(c, ranks.query, g, id);
    if id.PolicyMrn? {
      PolicyNodesAreActive(c, ranks, id.mrn);
      ActiveIff(c, ranks, id.mrn);
    }
  }

  lemma HeadIs(c: Config, checksum: Key -> Uuid, id: Id, n: Node)
    requires c.bundleMrn in c.bundle.policies && IsOfItsKind(c, id, n)
    ensures checksum(KeyOf(n)) == UuidFor(c, checksum, id)
    ensures HeadOf(checksum, n).uuid == UuidFor(c, checksum, id) && HeadOf(checksum, n).jobType == TypeFor(c, id)
    ensures HeadOf(checksum, n).mrns == if id == PolicyMrn(c.bundleMrn) || id.CodeNode? then [] else [id]
    ensures HeadOf(checksum, n).scoring ==
      if id.PolicyMrn? && IsOnChain(c, id.mrn) && id.mrn != c.bundleMrn && id.mrn in c.scorings then c.scorings[id.mrn]
      else ScoringUnspecified
  {
  }

  /** Every node that survives has the job described here. */
  lemma SurvivorHasJob(c: Config, ranks: Ranks, checksum: Key -> Uuid, jobs: map<Uuid, ReportingJob>, id: Id)
    requires WellFormed(c, ranks) && c.bundleMrn in c.bundle.policies && Survives(c, ranks, id)
    requires IsResolved(checksum, WholeGraph(c, ranks), PolicyMrn(c.bundleMrn), jobs)
    ensures UuidFor(c, checksum, id) in jobs && LooksLike(c, checksum, id, jobs[UuidFor(c, checksum, id)])
  {
    var g := WholeGraph(c, ranks);
    UuidIs(c, ranks, checksum, id);
    SurvivorIsOfItsKind(c, ranks, id);
    HeadIs(c, checksum, id, g.nodes[id]);
    assert HasHead(checksum, g, UuidsOf(checksum, g), jobs, Some(PolicyMrn(c.bundleMrn)), id);
  }

  /** There is no other job. */
  lemma JobsAreOfSurvivors(c: Config, ranks: Ranks, checksum: Key -> Uuid, jobs: map<Uuid, ReportingJob>, u: Uuid)
    returns (id: Id)
    requires WellFormed(c, ranks) && c.bundleMrn in c.bundle.policies && u in jobs
    requires IsResolved(checksum, WholeGraph(c, ranks), PolicyMrn(c.bundleMrn), jobs)
    ensures Survives(c, ranks, id) && u == UuidFor(c, checksum, id)
  {
    id := JobOfNode(checksum, WholeGraph(c, ranks), PolicyMrn(c.bundleMrn), jobs, u);
    SurvivesIff(c, ranks, id);
    UuidIs(c, ranks, checksum, id);
  }

  /** In every result there is the job of the policy of the bundle, of every space on a chain, and of all
      code that is to be run. */
  lemma KeptHaveJobs(c: Config, ranks: Ranks, checksum: Key -> Uuid, jobs: map<Uuid, ReportingJob>, id: Id)
    requires WellFormed(c, ranks) && c.bundleMrn in c.bundle.policies && IsAlwaysKept(c, id)
    requires IsResolved(checksum, WholeGraph(c, ranks), PolicyMrn(c.bundleMrn), jobs)
    requires id.CodeNode? ==> IsRun(c, id.code)
    ensures UuidFor(c, checksum, id) in jobs && LooksLike(c, checksum, id, jobs[UuidFor(c, checksum, id)])
  {
    if id.CodeNode? {
      CodeInGraphIff(c, ranks, id.code);
    } else {
      ActiveIff(c, ranks, id.mrn);
      PolicyNodesAreActive(c, ranks, id.mrn);
    }
    KeptSurvives(c, ranks, id);
    SurvivorHasJob(c, ranks, checksum, jobs, id);
  }

  /** From every job, children of children lead to the job of code that is to be run, of the policy of the
      bundle, or of a space on a chain. */
  lemma JobsLeadToKept(c: Config, ranks: Ranks, checksum: Key -> Uuid, jobs: map<Uuid, ReportingJob>, u: Uuid)
    returns (n: Id)
    requires WellFormed(c, ranks) && c.bundleMrn in c.bundle.policies && u in jobs
    requires IsResolved(checksum, WholeGraph(c, ranks), PolicyMrn(c.bundleMrn), jobs)
    ensures IsAlwaysKept(c, n) && (n.CodeNode? ==> IsRun(c, n.code))
    ensures UuidFor(c, checksum, n) in jobs && Reaches(ChildEdges(jobs), u, UuidFor(c, checksum, n))
  {
    var g := WholeGraph(c, ranks);
    SurvivorsLeadToNonPrunable(checksum, g, PolicyMrn(c.bundleMrn), jobs, u);
    n :| n in UuidsOf(checksum, g) && !IsPrunable(g.nodes[n]) && Reaches(ChildEdges(jobs), u, UuidsOf(checksum, g)[n]);
    KeptIff(c, ranks, n);
    KeptSurvives(c, ranks, n);
    SurvivorHasJob(c, ranks, checksum, jobs, n);
    UuidIs(c, ranks, checksum, n);
    if n.CodeNode? {
      CodeInGraphIff(c, ranks, n.code);
    }
  }

  /** Children are what the edges say, and with the impacts of these. */
  lemma ChildrenAreEdges(
      c: Config, ranks: Ranks, checksum: Key -> Uuid, jobs: map<Uuid, ReportingJob>, a: Id, b: Id)
    requires WellFormed(c, ranks) && c.bundleMrn in c.bundle.policies
    requires IsResolved(checksum, WholeGraph(c, ranks), PolicyMrn(c.bundleMrn), jobs)
    requires Survives(c, ranks, a) && Survives(c, ranks, b)
    ensures UuidFor(c, checksum, b) in jobs
    ensures var g, children := WholeGraph(c, ranks), jobs[UuidFor(c, checksum, b)].childJobs;
      && (UuidFor(c, checksum, a) in children <==> HasEdge(g, a, b))
      && (UuidFor(c, checksum, a) in children ==> EdgeImpact(a, children[UuidFor(c, checksum, a)]) in g.From(b))
  {
    var g := WholeGraph(c, ranks);
    var uuids := UuidsOf(checksum, g);
    UuidIs(c, ranks, checksum, a);
    UuidIs(c, ranks, checksum, b);
    NotifyMirrorsChildren(g, uuids, JobWires(jobs, uuids), a, b);
  }

  /** The job of a policy on a chain has the job of a query for a child exactly if it offers the query and
      there is code for that; and then it is told exactly the value of the impact of a check that is not to be
      ignored, and to ignore everything else. */
  lemma QueryChildrenArePlain(
      c: Config, ranks: Ranks, checksum: Key -> Uuid, jobs: map<Uuid, ReportingJob>, x: Mrn, p: Mrn)
    requires WellFormed(c, ranks) && c.bundleMrn in c.bundle.policies
    requires IsResolved(checksum, WholeGraph(c, ranks), PolicyMrn(c.bundleMrn), jobs)
    requires Survives(c, ranks, QueryMrn(x)) && Survives(c, ranks, PolicyMrn(p))
    ensures UuidFor(c, checksum, PolicyMrn(p)) in jobs
    ensures var u, children := UuidFor(c, checksum, QueryMrn(x)), jobs[UuidFor(c, checksum, PolicyMrn(p))].childJobs;
      && (u in children <==> IsOnChain(c, p) && Offers(c, p, x) && HasCode(c, x))
      && (u in children ==>
          if OffersCheckFirst(c, p, x) && !IsToIgnore(c, QueryMrn(x)) then IsValueOf(c, QueryMrn(x), children[u])
          else SaysIgnored(children[u]))
  {
    ChildrenAreEdges(c, ranks, checksum, jobs, QueryMrn(x), PolicyMrn(p));
    QueryReportsPlainly(c, ranks, x, p);
    var u, children := UuidFor(c, checksum, QueryMrn(x)), jobs[UuidFor(c, checksum, PolicyMrn(p))].childJobs;
    if u in children {
      CheckTellsValue(c, ranks, p, x, EdgeImpact(QueryMrn(x), children[u]));
    }
  }

  // ----- what else is collected -----

  lemma CollectedOrder(c: Config, ranks: Ranks, checksum: Key -> Uuid, rp: ResolvedPolicy) returns (order: seq<Id>)
    requires WellFormed(c, ranks) && c.bundleMrn in c.bundle.policies
    requires IsCollected(checksum, WholeGraph(c, ranks), rp)
    ensures InGraph(WholeGraph(c, ranks), order) && NoDuplicates(order)
    ensures rp.Content() == BuildAll(checksum, WholeGraph(c, ranks), order)
    ensures forall id :: id in order <==> Survives(c, ranks, id)
  {
    var g := WholeGraph(c, ranks);
    order :| IsOrder(g, rp.visited, order) && (forall id :: id in order <==> Reached(g, id))
      && rp.Content() == BuildAll(checksum, g, order);
    forall id ensures Reached(g, id) <==> Survives(c, ranks, id) {
      SurvivesIff(c, ranks, id);
    }
  }

  /** Exactly the code that is to be run is executed. */
  lemma QueriesAreRun(c: Config, ranks: Ranks, checksum: Key -> Uuid, rp: ResolvedPolicy, code: CodeId)
    requires WellFormed(c, ranks) && c.bundleMrn in c.bundle.policies
    requires IsCollected(checksum, WholeGraph(c, ranks), rp)
    ensures code in rp.queries <==> IsRun(c, code)
  {
    var order := CollectedOrder(c, ranks, checksum, rp);
    QueriesAreTheCode(checksum, WholeGraph(c, ranks), order, code);
    BuiltCodeIsRun(c, ranks, order, code);
  }

  lemma BuiltCodeIsRun(c: Config, ranks: Ranks, order: seq<Id>, code: CodeId)
    requires WellFormed(c, ranks) && c.bundleMrn in c.bundle.policies
    requires forall id :: id in order <==> Survives(c, ranks, id)
    ensures IsCode(WholeGraph(c, ranks), order, code) <==> IsRun(c, code)
  {
    var g := WholeGraph(c, ranks);
    CodeInGraphIff(c, ranks, code);
    if id :| id in order && id in g.nodes && g.nodes[id] == ExecutionNode(code) {
      assert IdOf(g.nodes[id]) == id;
    }
    if IsRun(c, code) {
      KeptSurvives(c, ranks, CodeNode(code));
      CodeIsExecuted(c, ranks.query, g, code);
    }
  }

  /** A query that survives, that was not collected as a data query alone, and that leads to the code. */
  ghost predicate IsReported(c: Config, ranks: Ranks, code: CodeId)
    requires WellFormed(c, ranks) && c.bundleMrn in c.bundle.policies
  {
    exists m :: Survives(c, ranks, QueryMrn(m)) && !(m in c.types && c.types[m] == Data) && LeadsToCode(c, m, code)
  }

  /** Exactly for such code there are reporting queries, namely its own job. */
  lemma ReportingQueriesArePlain(
      c: Config, ranks: Ranks, checksum: Key -> Uuid, rp: ResolvedPolicy, code: CodeId)
    requires WellFormed(c, ranks) && c.bundleMrn in c.bundle.policies
    requires IsCollected(checksum, WholeGraph(c, ranks), rp)
    ensures code in rp.reportingQueries <==> IsReported(c, ranks, code)
    ensures code in rp.reportingQueries ==> rp.reportingQueries[code] == [UuidFor(c, checksum, CodeNode(code))]
  {
    var order := CollectedOrder(c, ranks, checksum, rp);
    ReportingQueriesAreSingle(checksum, WholeGraph(c, ranks), order, code);
    SomeScoredIff(c, ranks, order, code);
  }

  lemma SomeScoredIff(c: Config, ranks: Ranks, order: seq<Id>, code: CodeId)
    requires WellFormed(c, ranks) && c.bundleMrn in c.bundle.policies
    requires forall id :: id in order <==> Survives(c, ranks, id)
    ensures SomeScored(WholeGraph(c, ranks), order, code) <==> IsReported(c, ranks, code)
  {
    var g := WholeGraph(c, ranks);
    if id :| id in order && id in g.nodes && IsScored(g.nodes[id], code) {
      ScoredIsReported(c, ranks, id, code);
    }
    if m :| Survives(c, ranks, QueryMrn(m)) && !(m in c.types && c.types[m] == Data) && LeadsToCode(c, m, code) {
      ScoredIff(c, ranks, m, code);
    }
  }

  lemma ScoredIsReported(c: Config, ranks: Ranks, id: Id, code: CodeId)
    requires WellFormed(c, ranks) && c.bundleMrn in c.bundle.policies && Survives(c, ranks, id)
    requires IsScored(WholeGraph(c, ranks).nodes[id], code)
    ensures IsReported(c, ranks, code)
  {
    assert IdOf(WholeGraph(c, ranks).nodes[id]) == id;
    ScoredIff(c, ranks, id.mrn, code);
  }

  lemma ScoredIff(c: Config, ranks: Ranks, m: Mrn, code: CodeId)
    requires WellFormed(c, ranks) && c.bundleMrn in c.bundle.policies && QueryMrn(m) in WholeGraph(c, ranks).nodes
    ensures IsScored(WholeGraph(c, ranks).nodes[QueryMrn(m)], code) <==>
      !(m in c.types && c.types[m] == Data) && LeadsToCode(c, m, code)
  {
    QueryNodeSelects(c, ranks.query, WholeGraph(c, ranks), m);
    assert NodeIsSound(c, ranks.query, WholeGraph(c, ranks), QueryMrn(m));
    SelectIff(c, ranks, m, code);
  }

  /** The checks, meant for the asset, of a risk factor with this MRN that counts run this code so often. */
  ghost predicate RunForRiskTimes(c: Config, k: Mrn, code: CodeId, times: nat) {
    exists p, r :: HasCounting(c, p, r) && r.mrn == k && multiset(CodesOf(c, r.checks))[code] == times
  }

  /** Exactly the risk factors that survive are listed, and under code as often as the checks of one that
      counts run it. */
  lemma RiskFactorsArePlain(
      c: Config, ranks: Ranks, checksum: Key -> Uuid, rp: ResolvedPolicy, k: Mrn, code: CodeId)
    requires WellFormed(c, ranks) && c.bundleMrn in c.bundle.policies && Injective(checksum)
    requires IsCollected(checksum, WholeGraph(c, ranks), rp)
    ensures k in rp.riskFactors <==> Survives(c, ranks, RiskMrn(k))
    ensures var times := CountRisk(rp.riskMrns, UuidFor(c, checksum, CodeNode(code)), k);
      if k in rp.riskFactors then RunForRiskTimes(c, k, code, times) else times == 0
  {
    var g := WholeGraph(c, ranks);
    var order := CollectedOrder(c, ranks, checksum, rp);
    RiskFactorsAreTheRisks(checksum, g, order, k);
    ListedRiskIff(c, ranks, order, k);
    RiskMrnsAreSelections(checksum, g, order, k, code);
    if RiskMrn(k) in order {
      SelectionsAreCounted(c, ranks, k, code);
    }
  }

  lemma ListedRiskIff(c: Config, ranks: Ranks, order: seq<Id>, k: Mrn)
    requires WellFormed(c, ranks) && c.bundleMrn in c.bundle.policies && InGraph(WholeGraph(c, ranks), order)
    ensures IsRisk(WholeGraph(c, ranks), order, k) <==> RiskMrn(k) in order
  {
    var g := WholeGraph(c, ranks);
    if id :| id in order && id in g.nodes && g.nodes[id].RiskNode? && g.nodes[id].mrn == k {
      assert IdOf(g.nodes[id]) == id;
    }
    if RiskMrn(k) in order {
      NodesAreFilled(c, ranks, RiskMrn(k));
    }
  }

  lemma SelectionsAreCounted(c: Config, ranks: Ranks, k: Mrn, code: CodeId)
    requires WellFormed(c, ranks) && c.bundleMrn in c.bundle.policies && RiskMrn(k) in WholeGraph(c, ranks).nodes
    ensures RunForRiskTimes(c, k, code, Selections(WholeGraph(c, ranks).nodes[RiskMrn(k)], k, code))
  {
    NodesAreFilled(c, ranks, RiskMrn(k));
  }
}
