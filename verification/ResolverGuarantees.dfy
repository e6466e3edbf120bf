/** What holds of every resolved policy, whatever order maps were iterated in. */
module ResolverGuarantees {
  import opened Wrappers
  import opened PolicyWindow
  import opened PolicyBundle
  import opened JobGraph
  import opened VariantSelection
  import opened GraphRules
  import opened ReportingJobs
  import opened CollectedJobs
  import opened GraphWalk
  import opened JobWiring
  import opened JobValidation
  import opened ResolverRun
  import opened Digraph

  lemma JobOfNode(checksum: Key -> Uuid, g: JobGraph, root: Id, jobs: map<Uuid, ReportingJob>, u: Uuid) returns (id: Id)
    requires IsResolved(checksum, g, root, jobs) && u in jobs
    ensures id in UuidsOf(checksum, g) && UuidsOf(checksum, g)[id] == u
    ensures HasHead(checksum, g, UuidsOf(checksum, g), jobs, Some(root), id)
  {
    var uuids := UuidsOf(checksum, g);
    assert u in uuids.Values;
    id :| id in uuids && uuids[id] == u;
  }

  /** Two resolutions of a graph have the same jobs, with the same children and impacts, notifying
      the same jobs, each once, and therefore with the same checksums. */
  lemma JobsDoNotDependOnOrder(
      checksum: Key -> Uuid, g: JobGraph, root: Id, a: map<Uuid, ReportingJob>, b: map<Uuid, ReportingJob>, u: Uuid)
    requires Mirrored(g) && IsResolved(checksum, g, root, a) && IsResolved(checksum, g, root, b)
    ensures u in a <==> u in b
    ensures u in a ==> a[u].Head() == b[u].Head() && a[u].childJobs == b[u].childJobs
    ensures u in a ==>
      NoDuplicates(a[u].notify) && NoDuplicates(b[u].notify) && multiset(a[u].notify) == multiset(b[u].notify)
    ensures u in a ==> a[u].checksum == b[u].checksum
  {
    var uuids := UuidsOf(checksum, g);
    if u in a {
      var id := JobOfNode(checksum, g, root, a, u);
      assert HasHead(checksum, g, uuids, b, Some(root), id);
      WiringIsUnique(g, uuids, JobWires(a, uuids), JobWires(b, uuids), id);
      assert IsFresh(a[u]) && IsFresh(b[u]);
      ChecksumForgetsOrder(u, a[u].qrId, a[u].childJobs, a[u].notify, b[u].notify);
    }
  }

  /** A job is notified exactly by its children. */
  lemma NotifyIffChild(checksum: Key -> Uuid, g: JobGraph, root: Id, jobs: map<Uuid, ReportingJob>, u: Uuid, v: Uuid)
    requires IsResolved(checksum, g, root, jobs) && u in jobs && v in jobs
    ensures v in jobs[u].notify <==> u in jobs[v].childJobs
  {
    var uuids := UuidsOf(checksum, g);
    var c := JobOfNode(checksum, g, root, jobs, u);
    var p := JobOfNode(checksum, g, root, jobs, v);
    NotifyMirrorsChildren(g, uuids, JobWires(jobs, uuids), c, p);
  }

  /** All jobs refer to jobs, so the result passes its own consistency check. */
  lemma ResolvedIsWellWired(checksum: Key -> Uuid, g: JobGraph, root: Id, jobs: map<Uuid, ReportingJob>)
    requires IsResolved(checksum, g, root, jobs)
    ensures WellWired(jobs)
  {
    var uuids := UuidsOf(checksum, g);
    var w := JobWires(jobs, uuids);
    var done :| AllEdges(g, uuids, done) && WiredFor(g, uuids, done, w);
    forall u | u in jobs ensures KnowsAll(jobs, u) {
      var id := JobOfNode(checksum, g, root, jobs, u);
      assert LinksAre(g, uuids, done, id, w[id]);
    }
  }

  // ----- every surviving job leads to what is executed -----

  /** From a job to its children. */
  ghost function ChildEdges(jobs: map<Uuid, ReportingJob>): Graph<Uuid>
    reads jobs.Values
  {
    map u | u in jobs :: jobs[u].childJobs.Keys
  }

  ghost predicate EdgeBack(h: Graph<Uuid>, q: seq<Uuid>, k: nat)
    requires k < |q| - 1
  {
    Edge(h, q[k + 1], q[k])
  }

  /** Following edges backwards from any place of a list to its start. */
  lemma {:induction false} ReachesStart(h: Graph<Uuid>, q: seq<Uuid>, i: nat)
    requires i < |q| && forall k :: 0 <= k < |q| - 1 ==> EdgeBack(h, q, k)
    ensures Reaches(h, q[i], q[0])
  {
    if i == 0 {
      ReachesSelf(h, q[0]);
    } else {
      ReachesStart(h, q, i - 1);
      assert EdgeBack(h, q, i - 1);
      EdgeReaches(h, q[i], q[i - 1]);
      ReachesTransitive(h, q[i], q[i - 1], q[0]);
    }
  }

  lemma WalkBack(checksum: Key -> Uuid, g: JobGraph, root: Id, jobs: map<Uuid, ReportingJob>, p: seq<Id>)
    requires Mirrored(g) && IsResolved(checksum, g, root, jobs)
    requires p != [] && IsWalk(ReportEdges(g), p) && forall id :: id in p ==> id in UuidsOf(checksum, g)
    ensures Reaches(ChildEdges(jobs), UuidsOf(checksum, g)[p[|p| - 1]], UuidsOf(checksum, g)[p[0]])
  {
    var q := UuidsAlong(UuidsOf(checksum, g), p);
    forall k | 0 <= k < |q| - 1 ensures EdgeBack(ChildEdges(jobs), q, k) {
      StepBack(checksum, g, root, jobs, p, k);
    }
    ReachesStart(ChildEdges(jobs), q, |q| - 1);
  }

  function UuidsAlong(uuids: Uuids, p: seq<Id>): (q: seq<Uuid>)
    requires forall id :: id in p ==> id in uuids
    ensures |q| == |p| && forall i :: 0 <= i < |p| ==> q[i] == uuids[p[i]]
  {
    seq(|p|, i requires 0 <= i < |p| => uuids[p[i]])
  }

  lemma StepBack(
      checksum: Key -> Uuid, g: JobGraph, root: Id, jobs: map<Uuid, ReportingJob>, p: seq<Id>, k: nat)
    requires Mirrored(g) && IsResolved(checksum, g, root, jobs)
    requires IsWalk(ReportEdges(g), p) && (forall id :: id in p ==> id in UuidsOf(checksum, g)) && k < |p| - 1
    ensures EdgeBack(ChildEdges(jobs), UuidsAlong(UuidsOf(checksum, g), p), k)
  {
    assert Edge(ReportEdges(g), p[k], p[k + 1]);
    EdgeIsChild(checksum, g, root, jobs, p[k], p[k + 1]);
  }

  lemma EdgeIsChild(checksum: Key -> Uuid, g: JobGraph, root: Id, jobs: map<Uuid, ReportingJob>, child: Id, parent: Id)
    requires Mirrored(g) && IsResolved(checksum, g, root, jobs)
    requires child in UuidsOf(checksum, g) && parent in UuidsOf(checksum, g) && Edge(ReportEdges(g), child, parent)
    ensures Edge(ChildEdges(jobs), UuidsOf(checksum, g)[parent], UuidsOf(checksum, g)[child])
  {
    var uuids := UuidsOf(checksum, g);
    assert HasHead(checksum, g, uuids, jobs, Some(root), child)
      && HasHead(checksum, g, uuids, jobs, Some(root), parent);
    assert g.HasSource(parent, child);
    NotifyMirrorsChildren(g, uuids, JobWires(jobs, uuids), child, parent);
  }

  lemma {:induction false} WalkIsReached(g: JobGraph, p: seq<Id>, i: nat)
    requires p != [] && IsWalk(ReportEdges(g), p) && i < |p|
    requires p[0] in g.nodes && !IsPrunable(g.nodes[p[0]])
    ensures Reached(g, p[i])
  {
    if i == 0 {
      ReachesSelf(ReportEdges(g), p[0]);
    } else {
      WalkIsReached(g, p, i - 1);
      var n :| n in g.nodes && !IsPrunable(g.nodes[n]) && Reaches(ReportEdges(g), n, p[i - 1]);
      assert Edge(ReportEdges(g), p[i - 1], p[i - 1 + 1]);
      ReachesOneMore(ReportEdges(g), n, p[i - 1], p[i]);
    }
  }

  /** Children of children lead from every job to the job of a node that cannot be pruned. */
  lemma SurvivorsLeadToNonPrunable(checksum: Key -> Uuid, g: JobGraph, root: Id, jobs: map<Uuid, ReportingJob>, u: Uuid)
    requires Mirrored(g) && IsResolved(checksum, g, root, jobs) && u in jobs
    ensures exists n :: n in UuidsOf(checksum, g) && !IsPrunable(g.nodes[n]) && Reaches(ChildEdges(jobs), u,
      UuidsOf(checksum, g)[n])
  {
    var id := JobOfNode(checksum, g, root, jobs, u);
    var n :| n in g.nodes && !IsPrunable(g.nodes[n]) && Reaches(ReportEdges(g), n, id);
    var p :| WalkFromTo(ReportEdges(g), p, n, id);
    forall m | m in p ensures m in UuidsOf(checksum, g) {
      var i :| 0 <= i < |p| && p[i] == m;
      WalkIsReached(g, p, i);
    }
    WalkBack(checksum, g, root, jobs, p);
  }

  // ----- references between the parts of the result -----

  /** Code is never pruned. */
  lemma CodeSurvives(c: Config, rank: Mrn -> nat, g: JobGraph, code: CodeId)
    requires Sound(c, rank, g) && CodeNode(code) in g.nodes
    ensures g.nodes[CodeNode(code)] == ExecutionNode(code) && Reached(g, CodeNode(code))
  {
    assert NodeIsSound(c, rank, g, CodeNode(code));
    ReachesSelf(ReportEdges(g), CodeNode(code));
  }

  /** Every code with reporting queries is executed, and what is listed for it is its own job. */
  lemma ReportingQueriesAreExecuted(
      c: Config, rank: Mrn -> nat, checksum: Key -> Uuid, g: JobGraph, root: Id, rp: ResolvedPolicy, code: CodeId)
    requires Sound(c, rank, g) && IsResolved(checksum, g, root, rp.jobs) && IsCollected(checksum, g, rp)
    requires code in rp.reportingQueries
    ensures code in rp.queries
    ensures rp.reportingQueries[code] == [checksum(CodeKey(code))] && checksum(CodeKey(code)) in rp.jobs
  {
    var order :| IsOrder(g, rp.visited, order) && (forall id :: id in order <==> Reached(g, id))
      && rp.Content() == BuildAll(checksum, g, order);
    ReportingQueriesAreSingle(checksum, g, order, code);
    var id :| id in order && id in g.nodes && IsScored(g.nodes[id], code);
    assert NodeIsSound(c, rank, g, id);
    CodeSurvives(c, rank, g, code);
    QueriesAreTheCode(checksum, g, order, code);
    CodeHasJob(checksum, g, root, rp.jobs, code);
  }

  lemma CodeHasJob(checksum: Key -> Uuid, g: JobGraph, root: Id, jobs: map<Uuid, ReportingJob>, code: CodeId)
    requires IsResolved(checksum, g, root, jobs) && Reached(g, CodeNode(code))
    requires g.nodes[CodeNode(code)] == ExecutionNode(code)
    ensures checksum(CodeKey(code)) in jobs
  {
    var uuids := UuidsOf(checksum, g);
    assert HasHead(checksum, g, uuids, jobs, Some(root), CodeNode(code));
  }

  /** Risk factors are listed under jobs that exist. */
  lemma RiskMrnsAreJobs(
      c: Config, rank: Mrn -> nat, checksum: Key -> Uuid, g: JobGraph, root: Id, rp: ResolvedPolicy, u: Uuid)
    requires Injective(checksum) && Sound(c, rank, g) && IsResolved(checksum, g, root, rp.jobs)
    requires IsCollected(checksum, g, rp)
    requires u in rp.riskMrns
    ensures u in rp.jobs
  {
    var order :| IsOrder(g, rp.visited, order) && (forall id :: id in order <==> Reached(g, id))
      && rp.Content() == BuildAll(checksum, g, order);
    RiskMrnsKeys(checksum, g, order, u);
    var id :| id in order && id in g.nodes && SelectedByRisk(checksum, g.nodes[id], u);
    var code :| code in g.nodes[id].selectedCodes && u == checksum(CodeKey(code));
    assert NodeIsSound(c, rank, g, id);
    CodeSurvives(c, rank, g, code);
    CodeHasJob(checksum, g, root, rp.jobs, code);
  }
}
