/** Resolving a bundle: building the graph, walking it, and wiring the jobs. */
module ResolverRun {
  import opened Wrappers
  import opened PolicyWindow
  import opened PolicyBundle
  import opened JobGraph
  import opened VariantSelection
  import opened GraphRules
  import opened PolicyRules
  import opened PlainTerms
  import opened Survivors
  import opened GraphBuilder
  import opened ReportingJobs
  import opened CollectedJobs
  import opened GraphWalk
  import opened JobWiring
  import opened JobConnector

  /** The nodes that survive, with the uuids of their jobs. */
  ghost function UuidsOf(checksum: Key -> Uuid, g: JobGraph): Uuids {
    map id | id in g.nodes && Reached(g, id) :: UuidOf(checksum, g, id)
  }

  lemma SoundIsUnambiguous(c: Config, rank: Mrn -> nat, g: JobGraph)
    requires Sound(c, rank, g)
    ensures Unambiguous(g)
  {
    forall a, b | a in g.nodes && b in g.nodes && IsRoot(g.nodes[a]) && IsRoot(g.nodes[b]) ensures a == b {
      assert NodeIsSound(c, rank, g, a) && NodeIsSound(c, rank, g, b);
    }
  }

  lemma UuidsAreDistinct(checksum: Key -> Uuid, g: JobGraph)
    requires Injective(checksum) && Unambiguous(g)
    ensures Distinct(UuidsOf(checksum, g))
  {
    var uuids := UuidsOf(checksum, g);
    forall a, b | a in uuids && b in uuids && uuids[a] == uuids[b] ensures a == b {
      UuidsDiffer(checksum, g, a, b);
    }
  }

  ghost predicate IsNodeJob(checksum: Key -> Uuid, g: JobGraph, uuids: Uuids, jobs: map<Uuid, ReportingJob>, id: Id)
    requires id in uuids
    reads jobs.Values
  {
    id in g.nodes && uuids[id] in jobs && IsUnwired(jobs[uuids[id]], uuids[id], HeadOf(checksum, g.nodes[id]))
  }

  /** There is one unwired job for every node with a uuid, and no other. */
  ghost predicate NodeJobs(checksum: Key -> Uuid, g: JobGraph, uuids: Uuids, jobs: map<Uuid, ReportingJob>)
    reads jobs.Values
  {
    && jobs.Keys == uuids.Values
    && (forall id {:trigger IsNodeJob(checksum, g, uuids, jobs, id)} :: id in uuids ==>
      IsNodeJob(checksum, g, uuids, jobs, id))
  }

  lemma WalkedJobs(rp: ResolvedPolicy, order: seq<Id>)
    requires Injective(rp.checksum) && Unambiguous(rp.g)
    requires rp.Walked(order) && forall id :: id in rp.visited <==> Reached(rp.g, id)
    ensures NodeJobs(rp.checksum, rp.g, UuidsOf(rp.checksum, rp.g), rp.jobs)
  {
    var g, uuids := rp.g, UuidsOf(rp.checksum, rp.g);
    HeadsAreThoseOfNodes(rp.checksum, g, order);
    forall id | id in uuids ensures IsNodeJob(rp.checksum, g, uuids, rp.jobs, id) {
      assert id in order && IsHead(rp.checksum, g, rp.heads, id);
    }
    forall u | u in rp.jobs ensures u in uuids.Values {
      var id :| id in order && u == UuidOf(rp.checksum, g, id);
      assert id in uuids && uuids[id] == u;
    }
    forall u | u in uuids.Values ensures u in rp.jobs {
      var id :| id in uuids && uuids[id] == u;
      assert IsNodeJob(rp.checksum, g, uuids, rp.jobs, id);
    }
  }

  lemma QrIdsDiffer(checksum: Key -> Uuid, g: JobGraph, uuids: Uuids, jobs: map<Uuid, ReportingJob>)
    requires NodeJobs(checksum, g, uuids, jobs) && Keyed(g)
    ensures !SameQrId(jobs)
  {
    forall u, v | u in jobs && v in jobs && u != v ensures jobs[u].qrId != jobs[v].qrId {
      var a :| a in uuids && uuids[a] == u;
      var b :| b in uuids && uuids[b] == v;
      assert IsNodeJob(checksum, g, uuids, jobs, a) && IsNodeJob(checksum, g, uuids, jobs, b);
      assert jobs[u].qrId == OfNode(a) && jobs[v].qrId == OfNode(b);
    }
  }

  ghost predicate IndexesNode(jobs: map<Uuid, ReportingJob>, byQrId: map<QrId, ReportingJob>, uuids: Uuids, id: Id)
    requires id in uuids
  {
    uuids[id] in jobs && OfNode(id) in byQrId && byQrId[OfNode(id)] == jobs[uuids[id]]
  }

  ghost predicate IndexesNodes(jobs: map<Uuid, ReportingJob>, byQrId: map<QrId, ReportingJob>, uuids: Uuids) {
    && (forall q :: q in byQrId ==> q.OfNode? && q.id in uuids)
    && (forall id {:trigger IndexesNode(jobs, byQrId, uuids, id)} :: id in uuids ==>
      IndexesNode(jobs, byQrId, uuids, id))
  }

  lemma IndexFindsNodes(
    checksum: Key -> Uuid, g: JobGraph, uuids: Uuids, jobs: map<Uuid, ReportingJob>, byQrId: map<QrId, ReportingJob>)
    requires NodeJobs(checksum, g, uuids, jobs) && Keyed(g) && IsIndexOf(jobs, byQrId)
    ensures IndexesNodes(jobs, byQrId, uuids)
  {
    forall id | id in uuids ensures IndexesNode(jobs, byQrId, uuids, id) {
      assert IsNodeJob(checksum, g, uuids, jobs, id);
      assert jobs[uuids[id]].qrId == OfNode(id);
    }
    forall q | q in byQrId ensures q.OfNode? && q.id in uuids {
      var u :| u in jobs && byQrId[q] == jobs[u] && jobs[u].qrId == q;
      var id :| id in uuids && uuids[id] == u;
      assert IsNodeJob(checksum, g, uuids, jobs, id);
    }
  }

  lemma IndexIsReady(
    checksum: Key -> Uuid, g: JobGraph, uuids: Uuids, jobs: map<Uuid, ReportingJob>, byQrId: map<QrId, ReportingJob>)
    requires NodeJobs(checksum, g, uuids, jobs) && Keyed(g) && IndexesNodes(jobs, byQrId, uuids)
    ensures Indexed(byQrId, uuids) && WiresOf(byQrId, uuids) == Unwired(uuids)
  {
    forall id | id in uuids
      ensures OfNode(id) in byQrId && byQrId[OfNode(id)].qrId == OfNode(id) && byQrId[OfNode(id)].uuid == uuids[id]
      ensures LinksOf(byQrId[OfNode(id)]) == Links(map[], [])
    {
      assert IndexesNode(jobs, byQrId, uuids, id) && IsNodeJob(checksum, g, uuids, jobs, id);
    }
  }

  /** Filing by qr id never meets the same id twice. */
  method Index(jobs: map<Uuid, ReportingJob>, ghost checksum: Key -> Uuid, ghost g: JobGraph, ghost uuids: Uuids)
    returns (r: Result<map<QrId, ReportingJob>, string>)
    requires NodeJobs(checksum, g, uuids, jobs) && Keyed(g)
    ensures r.Ok? && IndexesNodes(jobs, r.value, uuids) && Indexed(r.value, uuids)
    ensures WiresOf(r.value, uuids) == Unwired(uuids)
  {
    r := ByQrId(jobs);
    QrIdsDiffer(checksum, g, uuids, jobs);
    IndexFindsNodes(checksum, g, uuids, jobs, r.value);
    IndexIsReady(checksum, g, uuids, jobs, r.value);
  }

  lemma IndexAddsNothing(uuids: Uuids, jobs: map<Uuid, ReportingJob>, byQrId: map<QrId, ReportingJob>)
    requires IndexesNodes(jobs, byQrId, uuids)
    ensures byQrId.Values <= jobs.Values
  {
    forall job | job in byQrId.Values ensures job in jobs.Values {
      var q :| q in byQrId && byQrId[q] == job;
      assert IndexesNode(jobs, byQrId, uuids, q.id);
    }
  }

  // ----- the finished jobs -----

  ghost predicate HasHead(
      checksum: Key -> Uuid, g: JobGraph, uuids: Uuids, jobs: map<Uuid, ReportingJob>, root: Option<Id>, id: Id)
    requires id in uuids
    reads jobs.Values`qrId, jobs.Values`scoring
  {
    && id in g.nodes && uuids[id] in jobs && jobs[uuids[id]].uuid == uuids[id]
    && jobs[uuids[id]].Head() == HeadOf(checksum, g.nodes[id]).(qrId := if root == Some(id) then Root else OfNode(id))
  }

  /** Every node with a uuid has its job; the one of the root, if it is set, is called root. */
  ghost predicate HaveHeads(
      checksum: Key -> Uuid, g: JobGraph, uuids: Uuids, jobs: map<Uuid, ReportingJob>, root: Option<Id>)
    reads jobs.Values`qrId, jobs.Values`scoring
  {
    && jobs.Keys == uuids.Values
    && (forall id {:trigger HasHead(checksum, g, uuids, jobs, root, id)} :: id in uuids ==>
      HasHead(checksum, g, uuids, jobs, root, id))
  }

  lemma NodeJobsHaveHeads(checksum: Key -> Uuid, g: JobGraph, uuids: Uuids, jobs: map<Uuid, ReportingJob>)
    requires NodeJobs(checksum, g, uuids, jobs) && Keyed(g)
    ensures HaveHeads(checksum, g, uuids, jobs, None)
  {
    forall id | id in uuids ensures HasHead(checksum, g, uuids, jobs, None, id) {
      assert IsNodeJob(checksum, g, uuids, jobs, id);
    }
  }

  /** Calls the job of the root root, so that other bundles can use it too. */
  method RenameRoot(jobs: map<Uuid, ReportingJob>, job: ReportingJob, ghost root: Id,
                    ghost checksum: Key -> Uuid, ghost g: JobGraph, ghost uuids: Uuids)
    requires root in uuids && uuids[root] in jobs && job == jobs[uuids[root]]
    requires HaveHeads(checksum, g, uuids, jobs, None) && Distinct(uuids) && AreWired(g, uuids, jobs)
    modifies job`qrId
    ensures HaveHeads(checksum, g, uuids, jobs, Some(root)) && AreWired(g, uuids, jobs)
  {
    job.qrId := Root;
    forall id | id in uuids ensures HasHead(checksum, g, uuids, jobs, Some(root), id) {
      assert old(HasHead(checksum, g, uuids, jobs, None, id));
      assert old(HasHead(checksum, g, uuids, jobs, None, root));
      assert id != root ==> jobs[uuids[id]] != job;
    }
  }

  ghost predicate IsFresh(job: ReportingJob)
    reads job`qrId, job`childJobs, job`notify, job`checksum
  {
    job.checksum == ChecksumOf(job.uuid, job.qrId, job.childJobs, job.notify)
  }

  /** The checksum of one job; those that are up to date stay so. */
  method RefreshOne(job: ReportingJob, ghost done: set<ReportingJob>)
    requires forall other :: other in done ==> IsFresh(other)
    modifies job`checksum
    ensures IsFresh(job) && forall other :: other in done ==> IsFresh(other)
  {
    job.RefreshChecksum();
    assert IsFresh(job);
    forall other | other in done ensures IsFresh(other) {
      assert other != job ==> old(IsFresh(other));
    }
  }

  method RefreshAll(jobs: map<Uuid, ReportingJob>)
    modifies jobs.Values`checksum
    ensures forall u {:trigger IsFresh(jobs[u])} :: u in jobs ==> IsFresh(jobs[u])
  {
    var remaining := jobs.Keys;
    ghost var done: set<ReportingJob> := {};
    while remaining != {}
      invariant remaining <= jobs.Keys
      invariant forall job :: job in done ==> IsFresh(job)
      invariant forall u :: u in jobs && u !in remaining ==> jobs[u] in done
      decreases |remaining|
    {
      var u :| u in remaining;
      RefreshOne(jobs[u], done);
      done := done + {jobs[u]};
      remaining := remaining - {u};
    }
  }

  ghost function JobWires(jobs: map<Uuid, ReportingJob>, uuids: Uuids): Wires
    requires forall id :: id in uuids ==> uuids[id] in jobs
    reads jobs.Values`childJobs, jobs.Values`notify
  {
    map id | id in uuids :: LinksOf(jobs[uuids[id]])
  }

  lemma SameWires(jobs: map<Uuid, ReportingJob>, byQrId: map<QrId, ReportingJob>, uuids: Uuids)
    requires IndexesNodes(jobs, byQrId, uuids)
    ensures forall id :: id in uuids ==> uuids[id] in jobs && OfNode(id) in byQrId
    ensures JobWires(jobs, uuids) == WiresOf(byQrId, uuids)
  {
    forall id | id in uuids ensures uuids[id] in jobs && OfNode(id) in byQrId && byQrId[OfNode(id)] == jobs[uuids[id]] {
      assert IndexesNode(jobs, byQrId, uuids, id);
    }
  }

  // ----- the result -----

  datatype BuildError = DoesNotCompile | SameQrIdTwice | NoMatchingPolicy

  /** Exactly the nodes with uuids have jobs, these are wired along the edges of the graph, and
      their checksums are up to date. */
  ghost predicate AreFinished(checksum: Key -> Uuid, g: JobGraph, uuids: Uuids, root: Id, jobs: map<Uuid, ReportingJob>)
    reads jobs.Values
  {
    && HaveHeads(checksum, g, uuids, jobs, Some(root))
    && AreWired(g, uuids, jobs)
    && (forall u {:trigger IsFresh(jobs[u])} :: u in jobs ==> IsFresh(jobs[u]))
  }

  ghost predicate AreWired(g: JobGraph, uuids: Uuids, jobs: map<Uuid, ReportingJob>)
    reads jobs.Values`childJobs, jobs.Values`notify
  {
    (forall id :: id in uuids ==> uuids[id] in jobs) && FullyWired(g, uuids, JobWires(jobs, uuids))
  }

  /** A resolved graph: this is so for the nodes that survive. */
  ghost predicate IsResolved(checksum: Key -> Uuid, g: JobGraph, root: Id, jobs: map<Uuid, ReportingJob>)
    reads jobs.Values
  {
    AreFinished(checksum, g, UuidsOf(checksum, g), root, jobs)
  }

  /** Files the jobs under their qr ids and connects them. */
  method ConnectPhase(jobs: map<Uuid, ReportingJob>, g: JobGraph, ghost checksum: Key -> Uuid, ghost uuids: Uuids)
    returns (r: Result<map<QrId, ReportingJob>, string>)
    requires NodeJobs(checksum, g, uuids, jobs) && Distinct(uuids) && Keyed(g) && Mirrored(g)
    modifies jobs.Values`notify, jobs.Values`childJobs
    ensures r.Ok? && IndexesNodes(jobs, r.value, uuids)
    ensures HaveHeads(checksum, g, uuids, jobs, None)
    ensures AreWired(g, uuids, jobs)
  {
    NodeJobsHaveHeads(checksum, g, uuids, jobs);
    r := Index(jobs, checksum, g, uuids);
    IndexAddsNothing(uuids, jobs, r.value);
    ConnectIndexed(jobs, r.value, g, checksum, uuids);
  }

  method ConnectIndexed(jobs: map<Uuid, ReportingJob>, byQrId: map<QrId, ReportingJob>, g: JobGraph,
                        ghost checksum: Key -> Uuid, ghost uuids: Uuids)
    requires IndexesNodes(jobs, byQrId, uuids) && Indexed(byQrId, uuids) && WiresOf(byQrId, uuids) == Unwired(uuids)
    requires Distinct(uuids) && Mirrored(g) && HaveHeads(checksum, g, uuids, jobs, None)
    modifies byQrId.Values`notify, byQrId.Values`childJobs
    ensures HaveHeads(checksum, g, uuids, jobs, None) && AreWired(g, uuids, jobs)
  {
    ConnectAll(byQrId, g, uuids);
    SameWires(jobs, byQrId, uuids);
  }

  /** Renames the root and computes the checksums. */
  method FinishPhase(jobs: map<Uuid, ReportingJob>, job: ReportingJob, ghost root: Id,
                     ghost checksum: Key -> Uuid, ghost g: JobGraph, ghost uuids: Uuids)
    requires root in uuids && uuids[root] in jobs && job == jobs[uuids[root]]
    requires HaveHeads(checksum, g, uuids, jobs, None) && Distinct(uuids) && AreWired(g, uuids, jobs)
    modifies jobs.Values`qrId, jobs.Values`checksum
    ensures AreFinished(checksum, g, uuids, root, jobs)
  {
    RenameRoot(jobs, job, root, checksum, g, uuids);
    RefreshPhase(jobs, Some(root), checksum, g, uuids);
  }

  method RefreshPhase(jobs: map<Uuid, ReportingJob>, ghost root: Option<Id>,
                      ghost checksum: Key -> Uuid, ghost g: JobGraph, ghost uuids: Uuids)
    requires HaveHeads(checksum, g, uuids, jobs, root) && AreWired(g, uuids, jobs)
    modifies jobs.Values`checksum
    ensures HaveHeads(checksum, g, uuids, jobs, root) && AreWired(g, uuids, jobs)
    ensures forall u {:trigger IsFresh(jobs[u])} :: u in jobs ==> IsFresh(jobs[u])
  {
    RefreshAll(jobs);
  }

  /** Wires the jobs of the nodes with uuids; only the root can be missing. */
  method WireJobs(jobs: map<Uuid, ReportingJob>, g: JobGraph, root: Id, ghost checksum: Key -> Uuid, ghost uuids: Uuids)
    returns (err: Option<BuildError>)
    requires Distinct(uuids) && Keyed(g) && Mirrored(g) && NodeJobs(checksum, g, uuids, jobs)
    modifies jobs.Values`notify, jobs.Values`childJobs, jobs.Values`qrId, jobs.Values`checksum
    ensures err == if root in uuids then None else Some(NoMatchingPolicy)
    ensures err.None? ==> AreFinished(checksum, g, uuids, root, jobs)
  {
    var index := ConnectPhase(jobs, g, checksum, uuids);
    if index.Err? {
      return Some(SameQrIdTwice);
    }
    if OfNode(root) !in index.value {
      assert root in uuids ==> IndexesNode(jobs, index.value, uuids, root);
      return Some(NoMatchingPolicy);
    }
    assert IndexesNode(jobs, index.value, uuids, root);
    FinishPhase(jobs, index.value[OfNode(root)], root, checksum, g, uuids);
    return None;
  }

  /** It fails exactly if code that survives does not compile or the root does not survive, and
      never because two jobs have the same qr id. */
  ghost function ExpectedError(g: JobGraph, compiles: set<CodeId>, root: Id): Option<BuildError> {
    if exists id :: Reached(g, id) && Fails(g, compiles, id) then Some(DoesNotCompile)
    else if !Reached(g, root) then Some(NoMatchingPolicy)
    else None
  }

  method StartWalk(g: JobGraph, checksum: Key -> Uuid, compiles: set<CodeId>) returns (rp: ResolvedPolicy)
    ensures fresh(rp) && rp.g == g && rp.checksum == checksum && rp.compiles == compiles
    ensures rp.visited == {} && rp.made == {} && rp.Walked([])
  {
    rp := new ResolvedPolicy(g, checksum, compiles);
    NothingBuilt(g, checksum, compiles);
  }

  method WalkReady(rp: ResolvedPolicy) returns (ok: bool)
    requires Injective(rp.checksum) && Unambiguous(rp.g) && rp.visited == {} && rp.Walked([])
    modifies rp, rp.made
    ensures ok <==> !exists id :: Reached(rp.g, id) && Fails(rp.g, rp.compiles, id)
    ensures ok ==> IsCollected(rp.checksum, rp.g, rp) && fresh(rp.jobs.Values - old(rp.made))
    ensures ok ==> NodeJobs(rp.checksum, rp.g, UuidsOf(rp.checksum, rp.g), rp.jobs)
  {
    ghost var order;
    ok, order := rp.WalkAll();
    if ok {
      WalkIsReady(rp, order);
    }
  }

  /** Walks a graph; the jobs of what survives are there, not yet wired, and all of them new. */
  method WalkPhase(g: JobGraph, checksum: Key -> Uuid, compiles: set<CodeId>)
    returns (r: Result<ResolvedPolicy, BuildError>)
    requires Injective(checksum) && Unambiguous(g)
    ensures r.Err? <==> exists id :: Reached(g, id) && Fails(g, compiles, id)
    ensures r.Err? ==> r.error == DoesNotCompile
    ensures r.Ok? ==> IsCollected(checksum, g, r.value) && fresh(r.value.jobs.Values)
    ensures r.Ok? ==> NodeJobs(checksum, g, UuidsOf(checksum, g), r.value.jobs)
  {
    var rp := StartWalk(g, checksum, compiles);
    var ok := WalkReady(rp);
    if !ok {
      return Err(DoesNotCompile);
    }
    return Ok(rp);
  }

  /** Walks a graph and wires the jobs of what survives. */
  method ResolveGraph(
      g: JobGraph, root: Id, checksum: Key -> Uuid, compiles: set<CodeId>)
    returns (r: Result<ResolvedPolicy, BuildError>)
    requires Injective(checksum) && Unambiguous(g) && Mirrored(g)
    ensures ExpectedError(g, compiles, root) == if r.Err? then Some(r.error) else None
    ensures r.Ok? ==> IsResolved(checksum, g, root, r.value.jobs) && IsCollected(checksum, g, r.value)
  {
    var rp :- WalkPhase(g, checksum, compiles);
    UuidsAreDistinct(checksum, g);
    var err := WireJobs(rp.jobs, g, root, checksum, UuidsOf(checksum, g));
    if err.Some? {
      return Err(err.value);
    }
    return Ok(rp);
  }

  /** In terms of the bundle: it fails exactly if its policy does not run, or if some code that is to be
      run does not compile. */
  lemma ErrorIff(c: Config, ranks: Ranks, compiles: set<CodeId>)
    requires WellFormed(c, ranks) && c.bundleMrn in c.bundle.policies
    ensures ExpectedError(WholeGraph(c, ranks), compiles, PolicyMrn(c.bundleMrn)) ==
      if !Runs(c, c.bundleMrn) then Some(NoMatchingPolicy)
      else if RunsUncompiled(c, compiles) then Some(DoesNotCompile)
      else None
  {
    var root := PolicyMrn(c.bundleMrn);
    FailsIff(c, ranks, compiles);
    SurvivesIff(c, ranks, root);
    RootSurvivesIff(c, ranks, root);
    if RunsUncompiled(c, compiles) {
      RunningNeedsRoot(c, compiles);
    }
  }

  /** Resolves a bundle. */
  method BuildResolvedPolicy(c: Config, checksum: Key -> Uuid, compiles: set<CodeId>, ghost ranks: Ranks)
    returns (r: Result<ResolvedPolicy, BuildError>)
    requires WellFormed(c, ranks) && c.bundleMrn in c.bundle.policies && Injective(checksum)
    ensures var g, root := WholeGraph(c, ranks), PolicyMrn(c.bundleMrn);
      match r
      case Err(e) => ExpectedError(g, compiles, root) == Some(e)
      case Ok(rp) =>
        && ExpectedError(g, compiles, root) == None
        && IsResolved(checksum, g, root, rp.jobs) && IsCollected(checksum, g, rp)
    ensures r.Ok? <==> Runs(c, c.bundleMrn) && !RunsUncompiled(c, compiles)
    ensures r.Err? ==> r.error == if Runs(c, c.bundleMrn) then DoesNotCompile else NoMatchingPolicy
  {
    var builder := new ResolvedPolicyBuilder(c, ranks);
    builder.Build();
    var g := builder.G();
    SoundIsUnambiguous(c, ranks.query, g);
    r := ResolveGraph(g, PolicyMrn(c.bundleMrn), checksum, compiles);
    ErrorIff(c, ranks, compiles);
  }

  /** Everything besides the jobs is what building the surviving nodes, in some order, collects. */
  ghost predicate IsCollected(checksum: Key -> Uuid, g: JobGraph, rp: ResolvedPolicy)
    reads rp
  {
    exists order :: IsOrder(g, rp.visited, order) && (forall id :: id in order <==> Reached(g, id))
      && rp.Content() == BuildAll(checksum, g, order)
  }

  /** After a complete walk the jobs are there, not yet wired, and the rest is collected. */
  lemma WalkIsReady(rp: ResolvedPolicy, order: seq<Id>)
    requires Injective(rp.checksum) && Unambiguous(rp.g)
    requires rp.Walked(order) && forall id :: id in rp.visited <==> Reached(rp.g, id)
    ensures IsCollected(rp.checksum, rp.g, rp) && rp.jobs.Values <= rp.made
    ensures NodeJobs(rp.checksum, rp.g, UuidsOf(rp.checksum, rp.g), rp.jobs)
  {
    WalkIsCollected(rp, order);
    WalkedJobs(rp, order);
    JobsAreMade(rp);
  }

  lemma WalkIsCollected(rp: ResolvedPolicy, order: seq<Id>)
    requires rp.Walked(order) && forall id :: id in rp.visited <==> Reached(rp.g, id)
    ensures IsCollected(rp.checksum, rp.g, rp)
  {
  }

  lemma NothingBuilt(g: JobGraph, checksum: Key -> Uuid, compiles: set<CodeId>)
    ensures HaveBuilt(g, checksum, compiles, {}, NOTHING_COLLECTED, [])
  {
  }

  lemma JobsAreMade(rp: ResolvedPolicy)
    requires rp.Filed()
    ensures rp.jobs.Values <= rp.made
  {
  }
}
