/** The graph that the resolver builds before it emits reporting jobs: nodes by id, and edges in
    both directions. */
module JobGraph {
  import opened Wrappers
  import opened PolicyTypes
  import opened PolicyWindow
  import opened PolicyBundle
  import opened QueryTypes
  import opened Digraph

  /** Ids of different kinds never coincide. */
  datatype Id =
    | CodeNode(code: CodeId) | QueryMrn(mrn: Mrn) | PolicyMrn(mrn: Mrn) | ControlMrn(mrn: Mrn) | RiskMrn(mrn: Mrn)
    | FrameworkMrn(mrn: Mrn)

  datatype Node =
    | PolicyNode(mrn: Mrn, graphChecksum: string, scoring: ScoringSystem, isRoot: bool)
    | QueryNode(mrn: Mrn, queryType: QueryType, selected: CodeId)
    | ExecutionNode(code: CodeId)
    | FrameworkNode(id: Id)
    | ControlNode(mrn: Mrn)
    | RiskNode(mrn: Mrn, selectedCodes: seq<CodeId>)

  function IdOf(n: Node): Id {
    match n
    case PolicyNode(mrn, _, _, _) => PolicyMrn(mrn)
    case QueryNode(mrn, _, _) => QueryMrn(mrn)
    case ExecutionNode(code) => CodeNode(code)
    case FrameworkNode(id) => id
    case ControlNode(mrn) => ControlMrn(mrn)
    case RiskNode(mrn, _) => RiskMrn(mrn)
  }

  /** Nodes that are in the result no matter what: the root, spaces, and whatever is executed. */
  predicate IsPrunable(n: Node) {
    match n
    case PolicyNode(mrn, _, _, isRoot) => !isRoot && !("//captain.api.mondoo.app/spaces/" <= mrn)
    case ExecutionNode(_) => false
    case _ => true
  }

  datatype EdgeImpact = EdgeImpact(edge: Id, impact: Option<Impact>)

  datatype JobGraph = JobGraph(nodes: map<Id, Node>, to: map<Id, seq<Id>>, from: map<Id, seq<EdgeImpact>>) {

    function To(a: Id): seq<Id> {
      if a in to then to[a] else []
    }

    function From(b: Id): seq<EdgeImpact> {
      if b in from then from[b] else []
    }

    function AddNode(n: Node): JobGraph {
      this.(nodes := nodes[IdOf(n) := n])
    }

    /** An edge that exists keeps its impact. */
    function AddEdge(a: Id, b: Id, impact: Option<Impact>): JobGraph {
      if b in To(a) then this
      else JobGraph(nodes, to[a := To(a) + [b]], from[b := From(b) + [EdgeImpact(a, impact)]])
    }

    predicate HasSource(b: Id, a: Id) {
      exists i :: 0 <= i < |From(b)| && From(b)[i].edge == a
    }
  }

  const EMPTY_GRAPH := JobGraph(map[], map[], map[])

  predicate NoDuplicates<T(==)>(s: seq<T>) {
    forall i, j :: 0 <= i < j < |s| ==> s[i] != s[j]
  }

  predicate DistinctSources(edges: seq<EdgeImpact>) {
    forall i, j :: 0 <= i < j < |edges| ==> edges[i].edge != edges[j].edge
  }

  /** Both directions hold the same edges, each of them once. */
  ghost predicate Mirrored(g: JobGraph) {
    && (forall a, b :: b in g.To(a) <==> g.HasSource(b, a))
    && (forall a :: NoDuplicates(g.To(a)))
    && (forall b :: DistinctSources(g.From(b)))
  }

  ghost predicate Keyed(g: JobGraph) {
    forall id :: id in g.nodes ==> IdOf(g.nodes[id]) == id
  }

  lemma AddEdgeSources(g: JobGraph, a: Id, b: Id, impact: Option<Impact>, a': Id, b': Id)
    requires b !in g.To(a)
    ensures g.AddEdge(a, b, impact).HasSource(b', a') <==> g.HasSource(b', a') || (a' == a && b' == b)
  {
    var h, n := g.AddEdge(a, b, impact), |g.From(b)|;
    if b' != b {
      assert h.From(b') == g.From(b');
    } else {
      assert h.From(b) == g.From(b) + [EdgeImpact(a, impact)];
      if g.HasSource(b, a') {
        var i :| 0 <= i < n && g.From(b)[i].edge == a';
        assert h.From(b)[i].edge == a';
      }
      if h.HasSource(b, a') && a' != a {
        var i :| 0 <= i < n + 1 && h.From(b)[i].edge == a';
        assert g.From(b)[i].edge == a';
      }
      assert h.From(b)[n].edge == a;
    }
  }

  /** Adding an edge keeps both directions converse to each other and free of duplicates. */
  lemma AddEdgeMirrored(g: JobGraph, a: Id, b: Id, impact: Option<Impact>)
    requires Mirrored(g)
    ensures Mirrored(g.AddEdge(a, b, impact))
  {
    if b !in g.To(a) {
      var h := g.AddEdge(a, b, impact);
      forall a', b' ensures b' in h.To(a') <==> h.HasSource(b', a') {
        AddEdgeSources(g, a, b, impact, a', b');
        assert b' in g.To(a') <==> g.HasSource(b', a');
      }
      assert !g.HasSource(b, a);
      forall b' ensures DistinctSources(h.From(b')) {
        assert DistinctSources(g.From(b'));
        forall i, j | 0 <= i < j < |h.From(b')| ensures h.From(b')[i].edge != h.From(b')[j].edge {
          if b' == b && j == |g.From(b)| {
            assert h.From(b)[i] == g.From(b)[i];
          }
        }
      }
      forall a' ensures NoDuplicates(h.To(a')) {
        assert NoDuplicates(g.To(a'));
      }
    }
  }

  /** The impact of an edge is that of its first insertion. */
  lemma FirstImpactWins(g: JobGraph, a: Id, b: Id, impact: Option<Impact>, a': Id, b': Id, other: Option<Impact>)
    requires EdgeImpact(a', other) in g.From(b')
    ensures EdgeImpact(a', other) in g.AddEdge(a, b, impact).From(b')
  {
  }

  /** The reporting edges between nodes that exist. */
  function ReportEdges(g: JobGraph): Graph<Id> {
    map a | a in g.nodes :: (set b | b in g.To(a))
  }
}
