/** Connecting the reporting jobs along the edges of the graph, and checking the result. */
module JobConnector {
  import opened Wrappers
  import opened PolicyTypes
  import opened JobGraph
  import opened ReportingJobs
  import opened JobWiring

  // ----- jobs by what scores are stored under -----

  ghost predicate SameQrId(jobs: map<Uuid, ReportingJob>)
    reads jobs.Values
  {
    exists u, v :: u in jobs && v in jobs && u != v && jobs[u].qrId == jobs[v].qrId
  }

  ghost predicate IsIndexOf(jobs: map<Uuid, ReportingJob>, byQrId: map<QrId, ReportingJob>)
    reads jobs.Values
  {
    && (forall u {:trigger jobs[u]} :: u in jobs ==> jobs[u].qrId in byQrId && byQrId[jobs[u].qrId] == jobs[u])
    && (forall q {:trigger byQrId[q]} :: q in byQrId ==>
      exists u :: u in jobs && byQrId[q] == jobs[u] && jobs[u].qrId == q)
  }

  /** Files the jobs under their ids; there must not be two jobs for one id. */
  method ByQrId(jobs: map<Uuid, ReportingJob>) returns (r: Result<map<QrId, ReportingJob>, string>)
    ensures r.Err? <==> SameQrId(jobs)
    ensures r.Ok? ==> IsIndexOf(jobs, r.value)
  {
    var byQrId: map<QrId, ReportingJob> := map[];
    var remaining := jobs.Keys;
    while remaining != {}
      invariant remaining <= jobs.Keys
      invariant forall u :: u in jobs && u !in remaining ==> jobs[u].qrId in byQrId && byQrId[jobs[u].qrId] == jobs[u]
      invariant forall q :: q in byQrId ==> exists u ::
        u in jobs && u !in remaining && byQrId[q] == jobs[u] && jobs[u].qrId == q
      invariant forall u, v :: u in jobs && v in jobs && u !in remaining && v !in remaining && u != v ==>
        jobs[u].qrId != jobs[v].qrId
      decreases |remaining|
    {
      var u :| u in remaining;
      if jobs[u].qrId in byQrId {
        return Err("multiple reporting jobs with the same qr id");
      }
      byQrId := byQrId[jobs[u].qrId := jobs[u]];
      remaining := remaining - {u};
    }
    return Ok(byQrId);
  }

  // ----- connecting -----

  /** The jobs of these nodes. */
  ghost predicate Indexed(jobs: map<QrId, ReportingJob>, uuids: Uuids)
    reads jobs.Values`qrId
  {
    && (forall q :: q in jobs ==> q.OfNode? && q.id in uuids)
    && (forall id :: id in uuids ==>
          OfNode(id) in jobs && jobs[OfNode(id)].qrId == OfNode(id) && jobs[OfNode(id)].uuid == uuids[id])
  }

  ghost function WiresOf(jobs: map<QrId, ReportingJob>, uuids: Uuids): Wires
    requires forall id :: id in uuids ==> OfNode(id) in jobs
    reads jobs.Values`childJobs, jobs.Values`notify
  {
    map id | id in uuids :: LinksOf(jobs[OfNode(id)])
  }

  function LinksOf(job: ReportingJob): Links
    reads job`childJobs, job`notify
  {
    Links(job.childJobs, job.notify)
  }

  method LinkJobs(jobs: map<QrId, ReportingJob>, child: Id, parent: Id, impact: Option<Impact>, ghost uuids: Uuids)
    returns (already: bool)
    requires Indexed(jobs, uuids) && child in uuids && parent in uuids
    modifies jobs.Values`notify, jobs.Values`childJobs
    ensures already <==> uuids[parent] in old(jobs[OfNode(child)].notify)
    ensures WiresOf(jobs, uuids) == Link(old(WiresOf(jobs, uuids)), uuids, child, parent, impact)
  {
    ghost var w := Link(WiresOf(jobs, uuids), uuids, child, parent, impact);
    var c, p := jobs[OfNode(child)], jobs[OfNode(parent)];
    already := ReportingJob.Connect(c, p, impact);
    forall id | id in uuids ensures LinksOf(jobs[OfNode(id)]) == w[id] {
      var job := jobs[OfNode(id)];
      assert job.qrId == OfNode(id) && c.qrId == OfNode(child) && p.qrId == OfNode(parent);
      assert id != child ==> job != c;
      assert id != parent ==> job != p;
    }
  }

  /** Connects two jobs; they were never connected before. */
  method ConnectJobs(jobs: map<QrId, ReportingJob>, child: Id, parent: Id, impact: Option<Impact>,
                     ghost g: JobGraph, ghost uuids: Uuids, ghost done: Edges)
    requires Indexed(jobs, uuids) && Distinct(uuids) && child in uuids && parent in uuids
    requires WiredFor(g, uuids, done, WiresOf(jobs, uuids))
    requires (child, parent) !in done && EdgeImpact(child, impact) in g.From(parent)
    modifies jobs.Values`notify, jobs.Values`childJobs
    ensures WiredFor(g, uuids, done + {(child, parent)}, WiresOf(jobs, uuids))
  {
    LinkKeepsWired(g, uuids, done, WiresOf(jobs, uuids), child, parent, impact);
    var already := LinkJobs(jobs, child, parent, impact, uuids);
    assert !already;
  }

  /** The edge from child to parent is one of the first k. */
  ghost predicate IsSourceBefore(g: JobGraph, parent: Id, child: Id, k: int) {
    exists i :: 0 <= i < k && i < |g.From(parent)| && g.From(parent)[i].edge == child
  }

  /** Connected so far: all edges to some parents, and the first k edges to another one. */
  ghost predicate DoneSoFar(g: JobGraph, uuids: Uuids, done: Edges, parents: set<Id>, parent: Id, k: int) {
    forall c, p :: c in uuids && p in uuids ==>
      ((c, p) in done <==> (p in parents && g.HasSource(p, c)) || (p == parent && IsSourceBefore(g, p, c, k)))
  }

  lemma OneMoreEdge(g: JobGraph, uuids: Uuids, done: Edges, parents: set<Id>, parent: Id, k: nat)
    requires DoneSoFar(g, uuids, done, parents, parent, k) && parent !in parents && k < |g.From(parent)|
    requires DistinctSources(g.From(parent))
    ensures var child := g.From(parent)[k].edge;
      if parent in uuids && child in uuids then
        (child, parent) !in done && DoneSoFar(g, uuids, done + {(child, parent)}, parents, parent, k + 1)
      else DoneSoFar(g, uuids, done, parents, parent, k + 1)
  {
    var child := g.From(parent)[k].edge;
    forall c ensures IsSourceBefore(g, parent, c, k + 1) <==> IsSourceBefore(g, parent, c, k) || c == child {
      if IsSourceBefore(g, parent, c, k) {
        var i :| 0 <= i < k && i < |g.From(parent)| && g.From(parent)[i].edge == c;
      }
      assert g.From(parent)[k].edge == child;
    }
    assert !IsSourceBefore(g, parent, child, k);
  }

  /** Connected so far: all edges to some parents. */
  ghost predicate ParentsDone(g: JobGraph, uuids: Uuids, done: Edges, parents: set<Id>) {
    forall c, p :: c in uuids && p in uuids ==> ((c, p) in done <==> p in parents && g.HasSource(p, c))
  }

  lemma StartParent(g: JobGraph, uuids: Uuids, done: Edges, parents: set<Id>, parent: Id)
    requires ParentsDone(g, uuids, done, parents)
    ensures DoneSoFar(g, uuids, done, parents, parent, 0)
  {
    assert forall c :: !IsSourceBefore(g, parent, c, 0);
  }

  lemma FinishParent(g: JobGraph, uuids: Uuids, done: Edges, parents: set<Id>, parent: Id)
    requires DoneSoFar(g, uuids, done, parents, parent, |g.From(parent)|)
    ensures ParentsDone(g, uuids, done, parents + {parent})
  {
    forall c ensures g.HasSource(parent, c) <==> IsSourceBefore(g, parent, c, |g.From(parent)|) {
      if g.HasSource(parent, c) {
        var i :| 0 <= i < |g.From(parent)| && g.From(parent)[i].edge == c;
      }
    }
  }

  lemma AllDone(g: JobGraph, uuids: Uuids, done: Edges)
    requires ParentsDone(g, uuids, done, g.from.Keys)
    ensures AllEdges(g, uuids, done)
  {
  }

  /** Connects the nodes of one edge if both of them have jobs. */
  method ConnectEdge(jobs: map<QrId, ReportingJob>, parent: Id, edge: EdgeImpact,
                     ghost g: JobGraph, ghost uuids: Uuids, ghost done: Edges, ghost parents: set<Id>, ghost k: nat)
    returns (ghost done': Edges)
    requires Indexed(jobs, uuids) && Distinct(uuids) && Mirrored(g)
    requires WiredFor(g, uuids, done, WiresOf(jobs, uuids))
    requires parent !in parents && DoneSoFar(g, uuids, done, parents, parent, k)
    requires k < |g.From(parent)| && edge == g.From(parent)[k]
    modifies jobs.Values`notify, jobs.Values`childJobs
    ensures WiredFor(g, uuids, done', WiresOf(jobs, uuids)) && DoneSoFar(g, uuids, done', parents, parent, k + 1)
  {
    done' := done;
    OneMoreEdge(g, uuids, done, parents, parent, k);
    if OfNode(parent) in jobs && OfNode(edge.edge) in jobs {
      assert edge in g.From(parent);
      ConnectJobs(jobs, edge.edge, parent, edge.impact, g, uuids, done);
      done' := done + {(edge.edge, parent)};
    }
  }

  /** Connects a parent to those of its children that have jobs. */
  method ConnectChildren(jobs: map<QrId, ReportingJob>, parent: Id, edges: seq<EdgeImpact>,
                         ghost g: JobGraph, ghost uuids: Uuids, ghost done: Edges, ghost parents: set<Id>)
    returns (ghost done': Edges)
    requires Indexed(jobs, uuids) && Distinct(uuids) && Mirrored(g) && edges == g.From(parent)
    requires WiredFor(g, uuids, done, WiresOf(jobs, uuids))
    requires parent !in parents && ParentsDone(g, uuids, done, parents)
    modifies jobs.Values`notify, jobs.Values`childJobs
    ensures Indexed(jobs, uuids) && WiredFor(g, uuids, done', WiresOf(jobs, uuids))
    ensures ParentsDone(g, uuids, done', parents + {parent})
  {
    done' := done;
    StartParent(g, uuids, done, parents, parent);
    for i := 0 to |edges|
      invariant WiredFor(g, uuids, done', WiresOf(jobs, uuids)) && DoneSoFar(g, uuids, done', parents, parent, i)
    {
      done' := ConnectEdge(jobs, parent, edges[i], g, uuids, done', parents, i);
    }
    FinishParent(g, uuids, done', parents, parent);
  }

  /** Connects all jobs along the edges of the graph, parent by parent in any order. */
  method ConnectAll(jobs: map<QrId, ReportingJob>, g: JobGraph, ghost uuids: Uuids)
    requires Indexed(jobs, uuids) && Distinct(uuids) && Mirrored(g)
    requires WiresOf(jobs, uuids) == Unwired(uuids)
    modifies jobs.Values`notify, jobs.Values`childJobs
    ensures FullyWired(g, uuids, WiresOf(jobs, uuids))
  {
    ghost var done: Edges, parents: set<Id> := {}, {};
    UnwiredIsWired(g, uuids);
    var remaining := g.from.Keys;
    while remaining != {}
      invariant parents == g.from.Keys - remaining && remaining <= g.from.Keys
      invariant Indexed(jobs, uuids)
      invariant WiredFor(g, uuids, done, WiresOf(jobs, uuids)) && ParentsDone(g, uuids, done, parents)
      decreases |remaining|
    {
      var parent :| parent in remaining;
      done := ConnectChildren(jobs, parent, g.from[parent], g, uuids, done, parents);
      parents := parents + {parent};
      remaining := remaining - {parent};
    }
    AllDone(g, uuids, done);
  }
}
