/** Walking the graph from its non-prunable nodes and building what is reached. */
module GraphWalk {
  import opened PolicyTypes
  import opened PolicyWindow
  import opened PolicyBundle
  import opened QueryTypes
  import opened JobGraph
  import opened Digraph
  import opened ReportingJobs

  /** The successors of everything visited have been visited, except for what is pending. */
  ghost predicate SuccessorsSeen(g: JobGraph, visited: set<Id>, pending: set<Id>) {
    forall a, b {:trigger Edge(ReportEdges(g), a, b)} :: a in visited && a !in pending && Edge(ReportEdges(g), a, b) ==>
      b in visited
  }

  ghost predicate IsOrder(g: JobGraph, visited: set<Id>, order: seq<Id>) {
    && NoDuplicates(order)
    && (forall id :: id in visited <==> id in order)
    && (forall id :: id in order ==> id in g.nodes)
  }

  /** The code of this node cannot be compiled. */
  predicate Fails(g: JobGraph, compiles: set<CodeId>, id: Id) {
    id in g.nodes && g.nodes[id].ExecutionNode? && g.nodes[id].code !in compiles
  }

  ghost predicate FailsAhead(g: JobGraph, compiles: set<CodeId>, id: Id) {
    exists f :: Fails(g, compiles, f) && Reaches(ReportEdges(g), id, f)
  }

  lemma FailsAheadOfEdge(g: JobGraph, compiles: set<CodeId>, a: Id, b: Id)
    requires Edge(ReportEdges(g), a, b) && FailsAhead(g, compiles, b)
    ensures FailsAhead(g, compiles, a)
  {
    var f :| Fails(g, compiles, f) && Reaches(ReportEdges(g), b, f);
    EdgeReaches(ReportEdges(g), a, b);
    ReachesTransitive(ReportEdges(g), a, b, f);
  }

  ghost predicate NoneFails(g: JobGraph, compiles: set<CodeId>, order: seq<Id>) {
    forall id {:trigger Fails(g, compiles, id)} :: id in order ==> !Fails(g, compiles, id)
  }

  lemma StartNode(
    g: JobGraph, checksum: Key -> Uuid, compiles: set<CodeId>, visited: set<Id>, content: Collected, order: seq<Id>,
    pending: set<Id>, id: Id)
    requires id in g.nodes && id !in visited && HaveBuilt(g, checksum, compiles, visited, content, order)
    requires SuccessorsSeen(g, visited, pending)
    ensures SuccessorsSeen(g, visited + {id}, pending + {id})
    ensures if Fails(g, compiles, id) then FailsAhead(g, compiles, id)
      else HaveBuilt(g, checksum, compiles, visited + {id}, BuildNode(checksum, content, g.nodes[id]), order + [id])
  {
    ReachesSelf(ReportEdges(g), id);
    BuildOneMore(checksum, g, order, id);
  }

  lemma FinishNode(g: JobGraph, visited: set<Id>, pending: set<Id>, id: Id)
    requires SuccessorsSeen(g, visited, pending + {id})
    requires forall j :: 0 <= j < |g.To(id)| && g.To(id)[j] in g.nodes ==> g.To(id)[j] in visited
    ensures SuccessorsSeen(g, visited, pending)
  {
    forall b | Edge(ReportEdges(g), id, b) ensures b in visited {
      var j :| 0 <= j < |g.To(id)| && g.To(id)[j] == b;
    }
  }

  lemma NothingReached(g: JobGraph, id: Id, order: seq<Id>)
    ensures ReachedFrom(ReportEdges(g), id, order[|order|..])
  {
  }

  lemma ReachedFromStart(g: JobGraph, id: Id, order: seq<Id>, order': seq<Id>)
    requires order + [id] <= order' && ReachedFrom(ReportEdges(g), id, order'[|order| + 1..])
    ensures order <= order' && ReachedFrom(ReportEdges(g), id, order'[|order|..])
  {
    ReachesSelf(ReportEdges(g), id);
    assert order'[|order|..] == [id] + order'[|order| + 1..];
  }

  /** The nodes visited are those built, in this order, and all their code compiles. */
  ghost predicate HaveBuilt(
    g: JobGraph, checksum: Key -> Uuid, compiles: set<CodeId>, visited: set<Id>, content: Collected, order: seq<Id>)
  {
    && IsOrder(g, visited, order)
    && content == BuildAll(checksum, g, order)
    && NoneFails(g, compiles, order)
  }

  /** A node survives if some non-prunable node leads to it along reporting edges. */
  ghost predicate Reached(g: JobGraph, id: Id) {
    id in g.nodes && exists n :: n in g.nodes && !IsPrunable(g.nodes[n]) && Reaches(ReportEdges(g), n, id)
  }

  ghost predicate OnlyReached(g: JobGraph, order: seq<Id>) {
    forall id {:trigger Reached(g, id)} :: id in order ==> Reached(g, id)
  }

  lemma FailureIsReached(g: JobGraph, compiles: set<CodeId>, n: Id)
    requires n in g.nodes && !IsPrunable(g.nodes[n]) && FailsAhead(g, compiles, n)
    ensures exists id :: Reached(g, id) && Fails(g, compiles, id)
  {
    var f :| Fails(g, compiles, f) && Reaches(ReportEdges(g), n, f);
    assert Reached(g, f);
  }

  lemma WalkReaches(g: JobGraph, n: Id, before: seq<Id>, order: seq<Id>)
    requires n in g.nodes && !IsPrunable(g.nodes[n]) && OnlyReached(g, before) && before <= order
    requires ReachedFrom(ReportEdges(g), n, order[|before|..]) && forall id :: id in order ==> id in g.nodes
    ensures OnlyReached(g, order)
  {
    assert order == before + order[|before|..];
  }

  lemma AllIsReached(g: JobGraph, compiles: set<CodeId>, visited: set<Id>, order: seq<Id>, nonPrunables: set<Id>)
    requires IsOrder(g, visited, order) && SuccessorsSeen(g, visited, {}) && OnlyReached(g, order)
    requires NoneFails(g, compiles, order)
    requires nonPrunables == (set n | n in g.nodes && !IsPrunable(g.nodes[n])) && nonPrunables <= visited
    ensures forall id :: id in visited <==> Reached(g, id)
    ensures forall id :: Reached(g, id) ==> !Fails(g, compiles, id)
  {
    forall id | Reached(g, id) ensures id in visited {
      var n :| n in g.nodes && !IsPrunable(g.nodes[n]) && Reaches(ReportEdges(g), n, id);
      ClosedContainsReachable(ReportEdges(g), visited, n, id);
    }
  }

  ghost predicate IsUnwired(job: ReportingJob, u: Uuid, head: JobHead)
    reads job
  {
    job.uuid == u && job.Head() == head && job.childJobs == map[] && job.notify == []
  }

  class ResolvedPolicy {
    const g: JobGraph
    const checksum: Key -> Uuid
    const compiles: set<CodeId>
    var visited: set<Id>
    var jobs: map<Uuid, ReportingJob>
    var queries: set<CodeId>
    var reportingQueries: map<CodeId, seq<Uuid>>
    var riskMrns: map<Uuid, seq<Mrn>>
    var riskFactors: set<Mrn>
    ghost var heads: map<Uuid, JobHead>
    ghost var made: set<ReportingJob>

    /** Jobs are filed under their uuids and not wired yet; heads is what they look like, made the
        objects. */
    ghost predicate Filed()
      reads this`jobs, this`heads, this`made, made
    {
      && heads.Keys == jobs.Keys
      && (forall u {:trigger jobs[u]} :: u in jobs ==> jobs[u] in made && IsUnwired(jobs[u], u, heads[u]))
    }

    ghost function Content(): Collected
      reads this`heads, this`queries, this`reportingQueries, this`riskMrns, this`riskFactors
    {
      Collected(heads, queries, reportingQueries, riskMrns, riskFactors)
    }

    constructor (g: JobGraph, checksum: Key -> Uuid, compiles: set<CodeId>)
      ensures this.g == g && this.checksum == checksum && this.compiles == compiles && visited == {} && jobs == map[]
      ensures Filed() && Content() == NOTHING_COLLECTED && made == {}
    {
      this.g, this.checksum, this.compiles := g, checksum, compiles;
      visited, jobs, queries, reportingQueries, riskMrns, riskFactors := {}, map[], {}, map[], map[], {};
      heads, made := map[], {};
    }

    /** The job with a uuid; it is created if there is none. */
    method AddReportingJob(n: Node) returns (job: ReportingJob)
      requires Filed()
      modifies this`jobs, this`heads, this`made
      ensures Filed() && checksum(KeyOf(n)) in jobs && job == jobs[checksum(KeyOf(n))] && job.uuid == checksum(KeyOf(n))
      ensures fresh(made - old(made))
      ensures heads == if checksum(KeyOf(n)) in old(heads) then old(heads)
        else old(heads)[checksum(KeyOf(n)) := HeadOf(checksum, n).(scoring := ScoringUnspecified)]
    {
      var u := checksum(KeyOf(n));
      if u !in jobs {
        job := new ReportingJob(u, OfNode(IdOf(n)), TypeOfJob(n), MrnsOfJob(n));
        jobs := jobs[u := job];
        heads, made := heads[u := job.Head()], made + {job};
      }
      job := jobs[u];
    }

    method AddHead(n: Node)
      requires Filed()
      modifies this`jobs, this`heads, this`made, made
      ensures Filed() && heads == WithHead(checksum, old(heads), n)
      ensures fresh(made - old(made))
    {
      var job := AddReportingJob(n);
      if n.PolicyNode? && !n.isRoot {
        SetScoring(job, n.scoring);
      }
    }

    method SetScoring(job: ReportingJob, scoring: ScoringSystem)
      requires Filed() && job.uuid in jobs && jobs[job.uuid] == job
      modifies this`heads, job`scoring
      ensures Filed() && heads == old(heads)[job.uuid := old(heads)[job.uuid].(scoring := scoring)]
    {
      job.scoring := scoring;
      heads := heads[job.uuid := heads[job.uuid].(scoring := scoring)];
    }

    method AddReportingQuery(code: CodeId)
      modifies this`reportingQueries
      ensures reportingQueries == WithReportingQuery(old(reportingQueries), code, checksum(CodeKey(code)))
    {
      if code !in reportingQueries {
        reportingQueries := reportingQueries[code := []];
      }
      if checksum(CodeKey(code)) !in reportingQueries[code] {
        reportingQueries := reportingQueries[code := reportingQueries[code] + [checksum(CodeKey(code))]];
      }
    }

    method AddRiskMrns(risk: Mrn, codes: seq<CodeId>)
      modifies this`riskMrns
      ensures riskMrns == WithRiskMrns(checksum, old(riskMrns), risk, codes)
    {
      for i := 0 to |codes|
        invariant riskMrns == WithRiskMrns(checksum, old(riskMrns), risk, codes[..i])
      {
        assert codes[..i + 1][..i] == codes[..i];
        var u := checksum(CodeKey(codes[i]));
        if u !in riskMrns {
          riskMrns := riskMrns[u := []];
        }
        riskMrns := riskMrns[u := riskMrns[u] + [risk]];
      }
      assert codes[..|codes|] == codes;
    }

    /** Builds a node; only code that does not compile is an error. */
    method Build(n: Node) returns (ok: bool)
      requires Filed()
      modifies this`jobs, this`heads, this`made, this`queries, this`reportingQueries, this`riskMrns, this`riskFactors,
        made
      ensures Filed() && ok == (n.ExecutionNode? ==> n.code in compiles)
      ensures ok ==> Content() == BuildNode(checksum, old(Content()), n)
      ensures fresh(made - old(made))
    {
      if n.ExecutionNode? && n.code !in compiles {
        return false;
      }
      AddHead(n);
      BuildParts(n);
      return true;
    }

    method BuildParts(n: Node)
      modifies this`queries, this`reportingQueries, this`riskMrns, this`riskFactors
      ensures Content() == WithParts(checksum, old(Content()), n)
    {
      match n {
        case QueryNode(_, queryType, selected) =>
          if queryType == Scoring || queryType == Both {
            AddReportingQuery(selected);
          }
        case ExecutionNode(code) =>
          queries := queries + {code};
        case RiskNode(m, codes) =>
          riskFactors := riskFactors + {m};
          AddRiskMrns(m, codes);
        case _ =>
      }
    }

    /** What the walk keeps. */
    ghost predicate Walked(order: seq<Id>)
      reads this, made
    {
      Filed() && HaveBuilt(g, checksum, compiles, visited, Content(), order)
    }

    /** Marks a node as visited and builds it. */
    method Visit(id: Id, ghost pending: set<Id>, ghost order: seq<Id>) returns (ok: bool)
      requires id in g.nodes && id !in visited && Walked(order) && SuccessorsSeen(g, visited, pending)
      modifies this, made
      ensures ok ==> Walked(order + [id]) && visited == old(visited) + {id} && SuccessorsSeen(g, visited,
        pending + {id})
      ensures !ok ==> FailsAhead(g, compiles, id)
      ensures fresh(made - old(made))
    {
      StartNode(g, checksum, compiles, visited, Content(), order, pending, id);
      visited := visited + {id};
      ok := Build(g.nodes[id]);
    }

    /** Builds a node, unless it has been visited, and everything that it reports to. */
    method Walk(id: Id, ghost pending: set<Id>, ghost order: seq<Id>) returns (ok: bool, ghost order': seq<Id>)
      requires id in g.nodes && Walked(order) && SuccessorsSeen(g, visited, pending)
      modifies this, made
      ensures ok ==> Walked(order') && SuccessorsSeen(g, visited, pending) && order <= order'
      ensures ok ==> old(visited) + {id} <= visited && ReachedFrom(ReportEdges(g), id, order'[|order|..])
      ensures !ok ==> FailsAhead(g, compiles, id)
      ensures fresh(made - old(made))
      decreases g.nodes.Keys - visited, 2
    {
      if id in visited {
        NothingReached(g, id, order);
        return true, order;
      }
      ok := Visit(id, pending, order);
      if !ok {
        return false, order;
      }
      ok, order' := WalkEdges(id, pending, order + [id]);
      if ok {
        ReachedFromStart(g, id, order, order');
      }
    }

    method WalkEdges(id: Id, ghost pending: set<Id>, ghost order: seq<Id>) returns (ok: bool, ghost order': seq<Id>)
      requires id in g.nodes && Walked(order) && SuccessorsSeen(g, visited, pending + {id}) && id in visited
      modifies this, made
      ensures ok ==> Walked(order') && SuccessorsSeen(g, visited, pending) && order <= order'
      ensures ok ==> old(visited) <= visited && ReachedFrom(ReportEdges(g), id, order'[|order|..])
      ensures !ok ==> FailsAhead(g, compiles, id)
      ensures fresh(made - old(made))
      decreases g.nodes.Keys - visited, 4
    {
      order' := order;
      var edges := g.To(id);
      NothingReached(g, id, order);
      for i := 0 to |edges|
        invariant Walked(order') && SuccessorsSeen(g, visited, pending + {id}) && order <= order'
        invariant old(visited) <= visited && ReachedFrom(ReportEdges(g), id, order'[|order|..])
        invariant forall j :: 0 <= j < i && edges[j] in g.nodes ==> edges[j] in visited
        invariant fresh(made - old(made))
      {
        ok, order' := WalkEdge(id, edges[i], pending + {id}, |order|, order');
        if !ok {
          return;
        }
      }
      ok := true;
      FinishNode(g, visited, pending, id);
    }

    method WalkEdge(id: Id, edge: Id, ghost pending: set<Id>, ghost first: nat, ghost order: seq<Id>)
      returns (ok: bool, ghost order': seq<Id>)
      requires id in g.nodes && edge in g.To(id) && Walked(order) && SuccessorsSeen(g, visited, pending)
      requires first <= |order| && ReachedFrom(ReportEdges(g), id, order[first..])
      modifies this, made
      ensures ok ==> Walked(order') && SuccessorsSeen(g, visited, pending) && order <= order'
      ensures ok ==> old(visited) <= visited && ReachedFrom(ReportEdges(g), id, order'[first..])
      ensures ok && edge in g.nodes ==> edge in visited
      ensures !ok ==> FailsAhead(g, compiles, id)
      ensures fresh(made - old(made))
      decreases g.nodes.Keys - visited, 3
    {
      if edge !in g.nodes {
        return true, order;
      }
      assert Edge(ReportEdges(g), id, edge);
      ok, order' := Walk(edge, pending, order);
      if ok {
        ReachedThrough(ReportEdges(g), id, edge, order, order', first);
      } else {
        FailsAheadOfEdge(g, compiles, id, edge);
      }
    }

    /** Walks from all non-prunable nodes, in any order. The nodes built are exactly those reached,
        each of them once; it fails exactly if code of a reached node does not compile. */
    method WalkAll() returns (ok: bool, ghost order: seq<Id>)
      requires visited == {} && Walked([])
      modifies this, made
      ensures ok <==> forall id :: Reached(g, id) ==> !Fails(g, compiles, id)
      ensures ok ==> Walked(order) && forall id :: id in visited <==> Reached(g, id)
      ensures fresh(made - old(made))
    {
      order := [];
      var nonPrunables := set n | n in g.nodes && !IsPrunable(g.nodes[n]);
      var remaining := nonPrunables;
      while remaining != {}
        invariant remaining <= nonPrunables
        invariant Walked(order) && SuccessorsSeen(g, visited, {})
        invariant forall n :: n in nonPrunables && n !in remaining ==> n in visited
        invariant OnlyReached(g, order)
        invariant fresh(made - old(made))
        decreases |remaining|
      {
        var n :| n in remaining;
        ghost var before := order;
        ok, order := Walk(n, {}, before);
        if !ok {
          FailureIsReached(g, compiles, n);
          return;
        }
        WalkReaches(g, n, before, order);
        remaining := remaining - {n};
      }
      AllIsReached(g, compiles, visited, order, nonPrunables);
      ok := true;
    }
  }
}
