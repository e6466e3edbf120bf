/** The graph of a bundle, described by the bundle alone: exactly which nodes and edges it has. */
module GraphContents {
  import opened Wrappers
  import opened PolicyWindow
  import opened PolicyBundle
  import opened JobGraph
  import opened Digraph
  import opened VariantSelection
  import opened GraphRules
  import opened GraphParts
  import opened PolicyRules
  import opened PolicyParts
  import opened FrameworkParts
  import opened GraphSources

  /** An active policy lists a query whose code is selected through q. */
  ghost predicate IsUsed(c: Config, rank: Mrn -> nat, q: Mrn)
    requires VariantsDescend(c.bundle.queries, rank)
  {
    exists p :: IsActive(c, p) && UsedBy(c, rank, p, q)
  }

  /** What controls go by when the policies have been added. */
  ghost function KnownAtFirst(c: Config, rank: Mrn -> nat): Known
    requires VariantsDescend(c.bundle.queries, rank)
  {
    Known(
      iset q: Mrn, code: CodeId | IsUsed(c, rank, q) && Select(c, rank, q) == Some(code) :: (q, code),
      iset p: Mrn | IsActive(c, p))
  }

  ghost predicate ActiveBring(c: Config, rank: Mrn -> nat, x: Part)
    requires VariantsDescend(c.bundle.queries, rank)
  {
    exists p :: IsActive(c, p) && PolicyBrings(c, rank, p, x)
  }

  ghost predicate FrameworksBring(c: Config, ranks: Ranks, x: Part)
    requires WellFormed(c, ranks)
  {
    && c.bundleMrn in c.bundle.frameworks
    && VisitsBring(c, KnownAtFirst(c, ranks.query), Visits(c, ranks, c.bundleMrn), x)
  }

  lemma QueriesBrought(c: Config, rank: Mrn -> nat, q: Mrn)
    requires VariantsDescend(c.bundle.queries, rank)
    ensures ActiveBring(c, rank, NodePart(QueryMrn(q))) <==> IsUsed(c, rank, q)
  {
    forall p | p in c.bundle.policies ensures PolicyBrings(c, rank, p, NodePart(QueryMrn(q))) <==>
      UsedBy(c, rank, p, q) {
      NodesOfPolicy(c, rank, p, QueryMrn(q));
    }
  }

  lemma PoliciesBrought(c: Config, rank: Mrn -> nat, p: Mrn)
    requires VariantsDescend(c.bundle.queries, rank)
    ensures ActiveBring(c, rank, NodePart(PolicyMrn(p))) <==> IsActive(c, p)
  {
    forall p' | p' in c.bundle.policies ensures PolicyBrings(c, rank, p', NodePart(PolicyMrn(p))) <==> p' == p {
      NodesOfPolicy(c, rank, p', PolicyMrn(p));
    }
  }

  lemma StartParts(c: Config, ranks: Ranks, x: Part)
    requires WellFormed(c, ranks) && c.bundleMrn in c.bundle.policies
    requires Sound(c, ranks.query, EMPTY_GRAPH) && Reaches(RunningPolicies(c), c.bundleMrn, c.bundleMrn)
    ensures Holds(WithPolicy(c, ranks, EMPTY_GRAPH, c.bundleMrn).0, x) <==> ActiveBring(c, ranks.query, x)
  {
    PolicyBringsReached(c, ranks, EMPTY_GRAPH, c.bundleMrn, x);
  }

  lemma QueryNodeSelects(c: Config, rank: Mrn -> nat, g: JobGraph, q: Mrn)
    requires Sound(c, rank, g) && QueryMrn(q) in g.nodes
    ensures IsQuery(g, q) && Select(c, rank, q) == Some(g.nodes[QueryMrn(q)].selected)
  {
    assert NodeIsSound(c, rank, g, QueryMrn(q)) && IdOf(g.nodes[QueryMrn(q)]) == QueryMrn(q);
  }

  lemma StartKnown(c: Config, ranks: Ranks)
    requires WellFormed(c, ranks) && c.bundleMrn in c.bundle.policies
    requires Sound(c, ranks.query, EMPTY_GRAPH) && Reaches(RunningPolicies(c), c.bundleMrn, c.bundleMrn)
    ensures Knows(WithPolicy(c, ranks, EMPTY_GRAPH, c.bundleMrn).0, KnownAtFirst(c, ranks.query))
  {
    var g, rank := WithPolicy(c, ranks, EMPTY_GRAPH, c.bundleMrn).0, ranks.query;
    forall q ensures IsQuery(g, q) <==> IsUsed(c, rank, q) {
      StartParts(c, ranks, NodePart(QueryMrn(q)));
      QueriesBrought(c, rank, q);
      if QueryMrn(q) in g.nodes {
        QueryNodeSelects(c, rank, g, q);
      }
    }
    forall q | IsQuery(g, q) ensures Select(c, rank, q) == Some(g.nodes[QueryMrn(q)].selected) {
      QueryNodeSelects(c, rank, g, q);
    }
    forall p ensures PolicyMrn(p) in g.nodes <==> IsActive(c, p) {
      StartParts(c, ranks, NodePart(PolicyMrn(p)));
      PoliciesBrought(c, rank, p);
    }
    KnownIs(c, rank, g);
  }

  lemma KnownIs(c: Config, rank: Mrn -> nat, g: JobGraph)
    requires VariantsDescend(c.bundle.queries, rank)
    requires forall q :: IsQuery(g, q) <==> IsUsed(c, rank, q)
    requires forall q :: IsQuery(g, q) ==> Select(c, rank, q) == Some(g.nodes[QueryMrn(q)].selected)
    requires forall p :: PolicyMrn(p) in g.nodes <==> IsActive(c, p)
    ensures Knows(g, KnownAtFirst(c, rank))
  {
    var a, b := KnownOf(g), KnownAtFirst(c, rank);
    assert forall q, code :: (q, code) in a.code <==> (q, code) in b.code;
    assert a.code == b.code;
    assert a.policies == b.policies;
  }

  /** The graph of a bundle consists of exactly what its active policies bring, and of what the
      frameworks bring as they are visited. */
  lemma GraphIsExact(c: Config, ranks: Ranks, x: Part)
    requires WellFormed(c, ranks) && c.bundleMrn in c.bundle.policies
    ensures Holds(WholeGraph(c, ranks), x) <==> ActiveBring(c, ranks.query, x) || FrameworksBring(c, ranks, x)
  {
    EmptyIsSound(c, ranks.query);
    ReachesSelf(RunningPolicies(c), c.bundleMrn);
    StartParts(c, ranks, x);
    StartKnown(c, ranks);
    if c.bundleMrn in c.bundle.frameworks {
      var g := WithPolicy(c, ranks, EMPTY_GRAPH, c.bundleMrn).0;
      FrameworkBrings(c, ranks, g, c.bundleMrn, KnownAtFirst(c, ranks.query), x);
    }
  }

  // ----- what reports to what -----

  ghost predicate ActiveSourceThrough(c: Config, a: Id, b: Id) {
    exists f :: FrameworkIsActive(c, f) && SourceThrough(c, f, a, b)
  }

  ghost predicate IsMapped(c: Config, control: Control) {
    exists f, owner :: FrameworkIsActive(c, f) && MapsTo(c, f, owner, control)
  }

  /** A framework with the MRN of this policy is visited no later than one that maps the control. */
  ghost predicate VisitedBy(c: Config, ranks: Ranks, p: Mrn, control: Control)
    requires WellFormed(c, ranks)
  {
    && p in c.bundle.policies && c.bundleMrn in c.bundle.frameworks
    && exists i, owner :: 0 <= i < |Visits(c, ranks, c.bundleMrn)| && MapsTo(c, Visits(c, ranks, c.bundleMrn)[i],
      owner, control)
         && p in Visits(c, ranks, c.bundleMrn)[..i + 1]
  }

  ghost predicate IsCodeOf(c: Config, rank: Mrn -> nat, q: Mrn, code: CodeId)
    requires VariantsDescend(c.bundle.queries, rank)
  {
    IsUsed(c, rank, q) && Select(c, rank, q) == Some(code)
  }

  /** What reports to a control: the code of its queries that are used, its sub-controls, and its
      policies that are active or doubled by a framework that was visited by then. */
  ghost predicate FeedsMapped(c: Config, ranks: Ranks, control: Control, a: Id)
    requires WellFormed(c, ranks)
  {
    match a
    case CodeNode(code) => exists q :: (q in control.checks || q in control.queries) && IsCodeOf(c, ranks.query, q,
      code)
    case ControlMrn(k) => k in control.controls
    case PolicyMrn(p) => p in control.policies && (IsActive(c, p) || VisitedBy(c, ranks, p, control))
    case _ => false
  }

  ghost predicate ControlSource(c: Config, ranks: Ranks, k: Mrn, a: Id)
    requires WellFormed(c, ranks)
  {
    exists control :: IsMapped(c, control) && control.mrn == k && FeedsMapped(c, ranks, control, a)
  }

  ghost predicate ActiveRiskTakes(c: Config, k: Mrn, code: CodeId) {
    exists p :: IsActive(c, p) && RiskTakes(c, p, k, code)
  }

  /** What reports to what because of policies, by where it leads. */
  ghost predicate ReportsByPolicies(c: Config, rank: Mrn -> nat, a: Id, b: Id)
    requires VariantsDescend(c.bundle.queries, rank)
  {
    match b
    case QueryMrn(q) => IsUsed(c, rank, q) && a == Feeder(c, rank, q)
    case RiskMrn(k) => a.CodeNode? && ActiveRiskTakes(c, k, a.code)
    case PolicyMrn(p) => IsActive(c, p) && PolicySource(c, rank, p, a)
    case _ => false
  }

  /** What reports to what because of frameworks. */
  ghost predicate ReportsByFrameworks(c: Config, ranks: Ranks, a: Id, b: Id)
    requires WellFormed(c, ranks)
  {
    if b.ControlMrn? then ControlSource(c, ranks, b.mrn, a) else ActiveSourceThrough(c, a, b)
  }

  ghost predicate FedAt(c: Config, ranks: Ranks, i: nat, k: Mrn, a: Id)
    requires WellFormed(c, ranks) && c.bundleMrn in c.bundle.frameworks && i < |Visits(c, ranks, c.bundleMrn)|
  {
    var visits := Visits(c, ranks, c.bundleMrn);
    FedThrough(c, After(c, KnownAtFirst(c, ranks.query), visits[..i + 1]), visits[i], k, a)
  }

  ghost predicate FeedsAfter(c: Config, rank: Mrn -> nat, visits: seq<Mrn>, control: Control, a: Id)
    requires VariantsDescend(c.bundle.queries, rank)
  {
    match a
    case CodeNode(code) => exists q :: (q in control.checks || q in control.queries) && IsCodeOf(c, rank, q, code)
    case ControlMrn(k) => k in control.controls
    case PolicyMrn(p) => p in control.policies && (IsActive(c, p) || (p in visits && p in c.bundle.policies))
    case _ => false
  }

  lemma FeedsIff(c: Config, rank: Mrn -> nat, visits: seq<Mrn>, control: Control, a: Id)
    requires VariantsDescend(c.bundle.queries, rank)
    ensures Feeds(After(c, KnownAtFirst(c, rank), visits), control, a) <==> FeedsAfter(c, rank, visits, control, a)
  {
    var known := After(c, KnownAtFirst(c, rank), visits);
    if a.CodeNode? {
      forall q ensures (q, a.code) in known.code <==> IsCodeOf(c, rank, q, a.code) {
      }
    }
  }

  lemma FedIsSource(c: Config, ranks: Ranks, i: nat, k: Mrn, a: Id)
    requires WellFormed(c, ranks) && c.bundleMrn in c.bundle.frameworks
    requires i < |Visits(c, ranks, c.bundleMrn)| && FedAt(c, ranks, i, k, a)
    ensures ControlSource(c, ranks, k, a)
  {
    var visits := Visits(c, ranks, c.bundleMrn);
    var known := After(c, KnownAtFirst(c, ranks.query), visits[..i + 1]);
    var owner, control :| MapsTo(c, visits[i], owner, control) && control.mrn == k && Feeds(known, control, a);
    FeedsIff(c, ranks.query, visits[..i + 1], control, a);
    VisitedIff(c, ranks, c.bundleMrn, visits[i]);
    assert IsMapped(c, control) && FeedsMapped(c, ranks, control, a);
  }

  lemma SourceIsFed(c: Config, ranks: Ranks, k: Mrn, a: Id) returns (i: nat)
    requires WellFormed(c, ranks) && c.bundleMrn in c.bundle.frameworks && ControlSource(c, ranks, k, a)
    ensures i < |Visits(c, ranks, c.bundleMrn)| && FedAt(c, ranks, i, k, a)
  {
    var control :| IsMapped(c, control) && control.mrn == k && FeedsMapped(c, ranks, control, a);
    var owner;
    i, owner := MappedAt(c, ranks, control, a);
    FeedsIff(c, ranks.query, Visits(c, ranks, c.bundleMrn)[..i + 1], control, a);
  }

  /** A visit at which the source is there, if it ever is. */
  lemma MappedAt(c: Config, ranks: Ranks, control: Control, a: Id) returns (i: nat, owner: Mrn)
    requires WellFormed(c, ranks) && c.bundleMrn in c.bundle.frameworks
    requires IsMapped(c, control) && FeedsMapped(c, ranks, control, a)
    ensures i < |Visits(c, ranks, c.bundleMrn)| && MapsTo(c, Visits(c, ranks, c.bundleMrn)[i], owner, control)
    ensures FeedsAfter(c, ranks.query, Visits(c, ranks, c.bundleMrn)[..i + 1], control, a)
  {
    var visits := Visits(c, ranks, c.bundleMrn);
    if a.PolicyMrn? && VisitedBy(c, ranks, a.mrn, control) {
      i, owner :| 0 <= i < |visits| && MapsTo(c, visits[i], owner, control) && a.mrn in visits[..i + 1];
    } else {
      var f;
      f, owner :| FrameworkIsActive(c, f) && MapsTo(c, f, owner, control);
      VisitedIff(c, ranks, c.bundleMrn, f);
      i :| 0 <= i < |visits| && visits[i] == f;
    }
  }

  // ----- main results -----

  lemma ActiveEdges(c: Config, rank: Mrn -> nat, a: Id, b: Id)
    requires VariantsDescend(c.bundle.queries, rank)
    ensures ActiveBring(c, rank, EdgePart(a, b)) <==> ReportsByPolicies(c, rank, a, b)
  {
    forall p | p in c.bundle.policies {
      EdgesOfPolicy(c, rank, p, a, b);
    }
  }

  lemma EdgesAt(c: Config, ranks: Ranks, i: nat, a: Id, b: Id)
    requires WellFormed(c, ranks) && c.bundleMrn in c.bundle.frameworks && i < |Visits(c, ranks, c.bundleMrn)|
    ensures var visits := Visits(c, ranks, c.bundleMrn);
      && FrameworkIsActive(c, visits[i])
      && (VisitBringsAt(c, KnownAtFirst(c, ranks.query), visits, i, EdgePart(a, b)) <==>
          if b.ControlMrn? then FedAt(c, ranks, i, b.mrn, a) else SourceThrough(c, visits[i], a, b))
  {
    var visits := Visits(c, ranks, c.bundleMrn);
    EdgesOfVisit(c, After(c, KnownAtFirst(c, ranks.query), visits[..i + 1]), visits[i], a, b);
    VisitedIff(c, ranks, c.bundleMrn, visits[i]);
  }

  lemma FrameworkEdges(c: Config, ranks: Ranks, a: Id, b: Id)
    requires WellFormed(c, ranks)
    ensures FrameworksBring(c, ranks, EdgePart(a, b)) <==> ReportsByFrameworks(c, ranks, a, b)
  {
    if c.bundleMrn in c.bundle.frameworks {
      var visits, known := Visits(c, ranks, c.bundleMrn), KnownAtFirst(c, ranks.query);
      if FrameworksBring(c, ranks, EdgePart(a, b)) {
        var i :| 0 <= i < |visits| && VisitBringsAt(c, known, visits, i, EdgePart(a, b));
        EdgesAt(c, ranks, i, a, b);
        if b.ControlMrn? {
          FedIsSource(c, ranks, i, b.mrn, a);
        }
      }
      if ReportsByFrameworks(c, ranks, a, b) {
        var i := EdgeComes(c, ranks, a, b);
        EdgesAt(c, ranks, i, a, b);
      }
    }
  }

  /** A visit that brings the edge. */
  lemma EdgeComes(c: Config, ranks: Ranks, a: Id, b: Id) returns (i: nat)
    requires WellFormed(c, ranks) && c.bundleMrn in c.bundle.frameworks && ReportsByFrameworks(c, ranks, a, b)
    ensures i < |Visits(c, ranks, c.bundleMrn)|
    ensures if b.ControlMrn? then FedAt(c, ranks, i, b.mrn, a) else SourceThrough(c, Visits(c, ranks, c.bundleMrn)[i],
      a, b)
  {
    if b.ControlMrn? {
      i := SourceIsFed(c, ranks, b.mrn, a);
    } else {
      var f :| FrameworkIsActive(c, f) && SourceThrough(c, f, a, b);
      VisitedIff(c, ranks, c.bundleMrn, f);
      i :| 0 <= i < |Visits(c, ranks, c.bundleMrn)| && Visits(c, ranks, c.bundleMrn)[i] == f;
    }
  }

  /** In the graph of a bundle a reports to b exactly if the bundle says so, whatever the order in
      which it is traversed. */
  lemma EdgesIff(c: Config, ranks: Ranks, a: Id, b: Id)
    requires WellFormed(c, ranks) && c.bundleMrn in c.bundle.policies
    ensures HasEdge(WholeGraph(c, ranks), a, b) <==>
      ReportsByPolicies(c, ranks.query, a, b) || ReportsByFrameworks(c, ranks, a, b)
  {
    GraphIsExact(c, ranks, EdgePart(a, b));
    ActiveEdges(c, ranks.query, a, b);
    FrameworkEdges(c, ranks, a, b);
  }

  /** The nodes because of policies. */
  ghost predicate IncludedByPolicies(c: Config, rank: Mrn -> nat, id: Id)
    requires VariantsDescend(c.bundle.queries, rank)
  {
    match id
    case CodeNode(code) => ActiveRuns(c, rank, code)
    case QueryMrn(q) => IsUsed(c, rank, q)
    case RiskMrn(k) => ActiveHasRisk(c, k)
    case PolicyMrn(p) => IsActive(c, p)
    case _ => false
  }

  /** The nodes because of frameworks: their own, and those of controls that something feeds. */
  ghost predicate IncludedByFrameworks(c: Config, ranks: Ranks, id: Id)
    requires WellFormed(c, ranks)
  {
    if id.ControlMrn? then exists a :: ControlSource(c, ranks, id.mrn, a)
    else exists f :: FrameworkIsActive(c, f) && id == FrameworkId(c, f)
  }

  ghost predicate ActiveRuns(c: Config, rank: Mrn -> nat, code: CodeId)
    requires VariantsDescend(c.bundle.queries, rank)
  {
    exists p :: IsActive(c, p) && (SelectsCode(c, rank, p, code) || RiskRuns(c, p, code))
  }

  ghost predicate ActiveHasRisk(c: Config, k: Mrn) {
    exists p :: IsActive(c, p) && HasRisk(c, p, k)
  }

  lemma ActiveNodes(c: Config, rank: Mrn -> nat, id: Id)
    requires VariantsDescend(c.bundle.queries, rank)
    ensures ActiveBring(c, rank, NodePart(id)) <==> IncludedByPolicies(c, rank, id)
  {
    if id.CodeNode? {
      forall p | p in c.bundle.policies {
        CodeOfPolicy(c, rank, p, id.code);
      }
    } else {
      forall p | p in c.bundle.policies {
        NodesOfPolicy(c, rank, p, id);
      }
    }
  }

  lemma NodesAt(c: Config, ranks: Ranks, i: nat, id: Id)
    requires WellFormed(c, ranks) && c.bundleMrn in c.bundle.frameworks && i < |Visits(c, ranks, c.bundleMrn)|
    ensures var visits := Visits(c, ranks, c.bundleMrn);
      && FrameworkIsActive(c, visits[i])
      && (VisitBringsAt(c, KnownAtFirst(c, ranks.query), visits, i, NodePart(id)) <==>
          if id.ControlMrn? then exists a :: FedAt(c, ranks, i, id.mrn, a) else id == FrameworkId(c, visits[i]))
  {
    var visits := Visits(c, ranks, c.bundleMrn);
    var known := After(c, KnownAtFirst(c, ranks.query), visits[..i + 1]);
    NodesOfVisit(c, known, visits[i], id);
    VisitedIff(c, ranks, c.bundleMrn, visits[i]);
    if id.ControlMrn? {
      forall a ensures FedAt(c, ranks, i, id.mrn, a) <==> FedThrough(c, known, visits[i], id.mrn, a) {
      }
    }
  }

  lemma FrameworkNodes(c: Config, ranks: Ranks, id: Id)
    requires WellFormed(c, ranks)
    ensures FrameworksBring(c, ranks, NodePart(id)) <==> IncludedByFrameworks(c, ranks, id)
  {
    if c.bundleMrn in c.bundle.frameworks {
      var visits, known := Visits(c, ranks, c.bundleMrn), KnownAtFirst(c, ranks.query);
      if FrameworksBring(c, ranks, NodePart(id)) {
        var i :| 0 <= i < |visits| && VisitBringsAt(c, known, visits, i, NodePart(id));
        NodesAt(c, ranks, i, id);
        if id.ControlMrn? {
          var a :| FedAt(c, ranks, i, id.mrn, a);
          FedIsSource(c, ranks, i, id.mrn, a);
        }
      }
      if IncludedByFrameworks(c, ranks, id) {
        var i := NodeComes(c, ranks, id);
        NodesAt(c, ranks, i, id);
      }
    }
  }

  /** A visit that brings the node. */
  lemma NodeComes(c: Config, ranks: Ranks, id: Id) returns (i: nat)
    requires WellFormed(c, ranks) && c.bundleMrn in c.bundle.frameworks && IncludedByFrameworks(c, ranks, id)
    ensures i < |Visits(c, ranks, c.bundleMrn)|
    ensures if id.ControlMrn? then exists a :: FedAt(c, ranks, i, id.mrn, a) else id == FrameworkId(c,
      Visits(c, ranks, c.bundleMrn)[i])
  {
    if id.ControlMrn? {
      var a :| ControlSource(c, ranks, id.mrn, a);
      i := SourceIsFed(c, ranks, id.mrn, a);
    } else {
      var f :| FrameworkIsActive(c, f) && id == FrameworkId(c, f);
      VisitedIff(c, ranks, c.bundleMrn, f);
      i :| 0 <= i < |Visits(c, ranks, c.bundleMrn)| && Visits(c, ranks, c.bundleMrn)[i] == f;
    }
  }

  /** The nodes of the graph are exactly those that the bundle calls for. */
  lemma NodesIff(c: Config, ranks: Ranks, id: Id)
    requires WellFormed(c, ranks) && c.bundleMrn in c.bundle.policies
    ensures id in WholeGraph(c, ranks).nodes <==>
      IncludedByPolicies(c, ranks.query, id) || IncludedByFrameworks(c, ranks, id)
  {
    GraphIsExact(c, ranks, NodePart(id));
    ActiveNodes(c, ranks.query, id);
    FrameworkNodes(c, ranks, id);
  }
}
