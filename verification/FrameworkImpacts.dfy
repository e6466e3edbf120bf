/** What the edges into frameworks and controls say. */
module FrameworkImpacts {
  import opened Wrappers
  import opened PolicyTypes
  import opened PolicyBundle
  import opened JobGraph
  import opened Sequences
  import opened VariantSelection
  import opened GraphRules
  import opened GraphParts
  import opened PolicyRules
  import opened FrameworkParts
  import opened GraphSources
  import opened GraphContents
  import opened PolicyImpacts

  // ----- edges from dependencies -----

  /** What a framework is told by its dependencies: they are ignored where a policy that is active
      takes its place. */
  ghost function DependencyImpact(c: Config, t: Mrn): Option<Impact> {
    if IsActive(c, t) then Some(IGNORED_IMPACT) else None
  }

  /** If there is an edge from a to the framework then it says what it should. */
  ghost predicate IsTold(c: Config, g: JobGraph, t: Mrn, a: Id) {
    forall i {:trigger Carries(g, FrameworkId(c, t), EdgeImpact(a, i))} ::
      Carries(g, FrameworkId(c, t), EdgeImpact(a, i)) ==> i == DependencyImpact(c, t)
  }

  /** If a is one of these dependencies then its edge is in place. */
  ghost predicate AreLinked(c: Config, g: JobGraph, t: Mrn, deps: seq<Mrn>, a: Id) {
    forall d :: d in deps && d in c.bundle.frameworks && RunsFramework(c, d) && FrameworkId(c, d) == a ==>
      HasEdge(g, a, FrameworkId(c, t))
  }

  /** The framework has no node yet, is an active policy, or has been visited. */
  ghost predicate IsSettled(c: Config, g: JobGraph, t: Mrn, a: Id)
    requires t in c.bundle.frameworks
  {
    FrameworkId(c, t) in g.nodes ==> IsActive(c, t) || AreLinked(c, g, t, c.bundle.frameworks[t].dependencies, a)
  }

  /** What holds when the framework m is added and t, which may be the same, has the source a. */
  ghost predicate MayVisit(c: Config, ranks: Ranks, g: JobGraph, level: nat, t: Mrn, a: Id)
    requires t in c.bundle.frameworks
  {
    && IsTold(c, g, t, a)
    && (IsActive(c, t) ==> FrameworkId(c, t) in g.nodes)
    && (Level(c.bundle.frameworks, ranks.framework, t) <= level ==> IsSettled(c, g, t, a))
  }

  /** If t has got its node, then it has been visited. */
  ghost predicate IsVisited(c: Config, g: JobGraph, h: JobGraph, t: Mrn, a: Id)
    requires t in c.bundle.frameworks
  {
    FrameworkId(c, t) in h.nodes && FrameworkId(c, t) !in g.nodes ==>
      AreLinked(c, h, t, c.bundle.frameworks[t].dependencies, a)
  }

  lemma EdgeStays(g: JobGraph, h: JobGraph, a: Id, b: Id)
    requires Mirrored(g) && Mirrored(h) && KeepsEdges(g, h) && HasEdge(g, a, b)
    ensures HasEdge(h, a, b)
  {
    assert g.HasSource(b, a);
    var i :| 0 <= i < |g.From(b)| && g.From(b)[i].edge == a;
    assert Carries(g, b, g.From(b)[i]);
    CarriedIsEdge(h, b, g.From(b)[i]);
  }

  lemma LinksStay(c: Config, rank: Mrn -> nat, g: JobGraph, h: JobGraph, t: Mrn, deps: seq<Mrn>, a: Id)
    requires Sound(c, rank, g) && Extends(c, rank, g, h) && AreLinked(c, g, t, deps, a)
    ensures AreLinked(c, h, t, deps, a)
  {
    if HasEdge(g, a, FrameworkId(c, t)) {
      EdgeStays(g, h, a, FrameworkId(c, t));
    }
  }

  lemma NothingNewIsTold(c: Config, rank: Mrn -> nat, g: JobGraph, h: JobGraph, t: Mrn, a: Id)
    requires Sound(c, rank, g) && Extends(c, rank, g, h) && IsTold(c, g, t, a)
    requires HasEdge(h, a, FrameworkId(c, t)) ==> HasEdge(g, a, FrameworkId(c, t))
    ensures IsTold(c, h, t, a)
  {
    forall i | Carries(h, FrameworkId(c, t), EdgeImpact(a, i)) ensures i == DependencyImpact(c, t) {
      CarriedIsEdge(h, FrameworkId(c, t), EdgeImpact(a, i));
      OldEdgeKeepsImpact(g, h, FrameworkId(c, t), EdgeImpact(a, i));
    }
  }

  /** The maps of a framework bring no edges from frameworks or policies into frameworks. */
  lemma MapsTellNothing(c: Config, ranks: Ranks, g: JobGraph, m: Mrn, t: Mrn, a: Id)
    requires WellFormed(c, ranks) && Sound(c, ranks.query, g) && m in c.bundle.frameworks && !a.ControlMrn?
    requires IsTold(c, g, t, a)
    ensures var h := WithMaps(c, ranks.query, g, c.bundle.frameworks[m].maps);
      IsTold(c, h, t, a) && (FrameworkId(c, t) in h.nodes <==> FrameworkId(c, t) in g.nodes)
  {
    MapsBringControls(c, ranks, g, m, EdgePart(a, FrameworkId(c, t)));
    MapsBringControls(c, ranks, g, m, NodePart(FrameworkId(c, t)));
    NothingNewIsTold(c, ranks.query, g, WithMaps(c, ranks.query, g, c.bundle.frameworks[m].maps), t, a);
  }

  /** Whatever the maps of a framework bring is a control or an edge from or into one. */
  lemma MapsBringControls(c: Config, ranks: Ranks, g: JobGraph, m: Mrn, x: Part)
    requires WellFormed(c, ranks) && Sound(c, ranks.query, g) && m in c.bundle.frameworks
    requires match x case NodePart(id) => !id.ControlMrn? case EdgePart(a, b) => !a.ControlMrn? && !b.ControlMrn?
    ensures Holds(WithMaps(c, ranks.query, g, c.bundle.frameworks[m].maps), x) <==> Holds(g, x)
  {
    MapsParts(c, ranks.query, g, c.bundle.frameworks[m].maps, KnownOf(g), x);
    OnlyControlsBrought(c, KnownOf(g), m, x);
  }

  lemma OnlyControlsBrought(c: Config, known: Known, m: Mrn, x: Part)
    requires m in c.bundle.frameworks
    requires match x case NodePart(id) => !id.ControlMrn? case EdgePart(a, b) => !a.ControlMrn? && !b.ControlMrn?
    ensures !MapsBring(c, known, c.bundle.frameworks[m].maps, x)
  {
    MapsBringIff(c, known, m, x);
  }

  lemma LinkIsTold(c: Config, g: JobGraph, id: Id, impact: Option<Impact>, d: Mrn, t: Mrn, a: Id)
    requires IsTold(c, g, t, a)
    requires id == FrameworkId(c, t) && a == FrameworkId(c, d) && !HasEdge(g, a, id) ==>
      impact == DependencyImpact(c, t)
    ensures IsTold(c, g.AddEdge(FrameworkId(c, d), id, impact), t, a)
  {
    var h, b, e := g.AddEdge(FrameworkId(c, d), id, impact), FrameworkId(c, t), EdgeImpact(FrameworkId(c, d), impact);
    forall i | Carries(h, b, EdgeImpact(a, i)) ensures i == DependencyImpact(c, t) {
      assert Carries(g, b, EdgeImpact(a, i)) ||
        (h.From(b) == g.From(b) + [e] && id == b && !HasEdge(g, FrameworkId(c, d), id));
    }
  }

  /** The edges that the dependencies of m bring say the right thing, or are there already. */
  ghost predicate LinksAreRight(
      c: Config, g: JobGraph, m: Mrn, impact: Option<Impact>, deps: seq<Mrn>, t: Mrn, a: Id) {
    m == t ==> impact == DependencyImpact(c, t) || AreLinked(c, g, t, deps, a)
  }

  lemma {:induction false} FrameworkTells(c: Config, ranks: Ranks, g: JobGraph, m: Mrn, t: Mrn, a: Id)
    requires WellFormed(c, ranks) && Sound(c, ranks.query, g) && m in c.bundle.frameworks && t in c.bundle.frameworks
    requires !a.ControlMrn? && MayVisit(c, ranks, g, Level(c.bundle.frameworks, ranks.framework, m), t, a)
    ensures var h := WithFramework(c, ranks, g, m);
      IsTold(c, h, t, a) && IsVisited(c, g, h, t, a)
    decreases Level(c.bundle.frameworks, ranks.framework, m), 0, 0
  {
    if RunsFramework(c, m) {
      var id := FrameworkId(c, m);
      var impact := if id in g.nodes then Some(IGNORED_IMPACT) else None;
      var g1 := if id in g.nodes then g else g.AddNode(FrameworkNode(id));
      AddNodeKeepsSound(c, ranks.query, g, FrameworkNode(id));
      BodyTells(c, ranks, g, g1, m, impact, t, a);
    }
  }

  lemma BodyTells(
      c: Config, ranks: Ranks, g: JobGraph, g1: JobGraph, m: Mrn, impact: Option<Impact>, t: Mrn, a: Id)
    requires WellFormed(c, ranks) && Sound(c, ranks.query, g) && m in c.bundle.frameworks && t in c.bundle.frameworks
    requires !a.ControlMrn? && MayVisit(c, ranks, g, Level(c.bundle.frameworks, ranks.framework, m), t, a)
    requires impact == if FrameworkId(c, m) in g.nodes then Some(IGNORED_IMPACT) else None
    requires g1 == if FrameworkId(c, m) in g.nodes then g else g.AddNode(FrameworkNode(FrameworkId(c, m)))
    requires Sound(c, ranks.query, g1)
    ensures var h := WithFrameworkParts(c, ranks, g1, m, impact);
      IsTold(c, h, t, a) && IsVisited(c, g, h, t, a)
    decreases Level(c.bundle.frameworks, ranks.framework, m) - 1, 2, 0
  {
    var rank, f := ranks.query, c.bundle.frameworks[m];
    var bound := Level(c.bundle.frameworks, ranks.framework, m) - 1;
    var gm := WithMaps(c, rank, g1, f.maps);
    DependenciesAreLower(c, ranks, m);
    FrameworkBody(c, ranks, g1, m, impact, bound);
    StartsTelling(c, ranks, g, g1, gm, m, impact, t, a);
    DependenciesTell(c, ranks, gm, m, impact, f.dependencies, bound, t, a);
  }

  /** The node and the maps of a framework leave things ready for its dependencies. */
  lemma StartsTelling(
      c: Config, ranks: Ranks, g: JobGraph, g1: JobGraph, gm: JobGraph, m: Mrn, impact: Option<Impact>, t: Mrn, a: Id)
    requires WellFormed(c, ranks) && Sound(c, ranks.query, g) && m in c.bundle.frameworks && t in c.bundle.frameworks
    requires !a.ControlMrn? && MayVisit(c, ranks, g, Level(c.bundle.frameworks, ranks.framework, m), t, a)
    requires impact == if FrameworkId(c, m) in g.nodes then Some(IGNORED_IMPACT) else None
    requires g1 == if FrameworkId(c, m) in g.nodes then g else g.AddNode(FrameworkNode(FrameworkId(c, m)))
    requires Sound(c, ranks.query, g1) && gm == WithMaps(c, ranks.query, g1, c.bundle.frameworks[m].maps)
    ensures MayVisit(c, ranks, gm, Level(c.bundle.frameworks, ranks.framework, m) - 1, t, a)
    ensures LinksAreRight(c, gm, m, impact, c.bundle.frameworks[m].dependencies, t, a)
    ensures FrameworkId(c, t) in gm.nodes ==> t == m || FrameworkId(c, t) in g.nodes
  {
    var rank, deps := ranks.query, c.bundle.frameworks[t].dependencies;
    NodeTellsNothing(c, g, g1, m, t, a);
    MapsTellNothing(c, ranks, g1, m, t, a);
    AddNodeKeepsSound(c, rank, g, FrameworkNode(FrameworkId(c, m)));
    ExtendsTwice(c, rank, g, g1, gm);
    if AreLinked(c, g, t, deps, a) {
      LinksStay(c, rank, g, gm, t, deps, a);
    }
  }

  lemma NodeTellsNothing(c: Config, g: JobGraph, g1: JobGraph, m: Mrn, t: Mrn, a: Id)
    requires g1 == if FrameworkId(c, m) in g.nodes then g else g.AddNode(FrameworkNode(FrameworkId(c, m)))
    requires IsTold(c, g, t, a)
    ensures IsTold(c, g1, t, a) && (FrameworkId(c, t) in g1.nodes <==> t == m || FrameworkId(c, t) in g.nodes)
  {
    assert g1.From(FrameworkId(c, t)) == g.From(FrameworkId(c, t));
    forall i | Carries(g1, FrameworkId(c, t), EdgeImpact(a, i))
      ensures Carries(g, FrameworkId(c, t), EdgeImpact(a, i))
    {
    }
  }

  lemma {:induction false} DependenciesTell(
      c: Config, ranks: Ranks, g: JobGraph, m: Mrn, impact: Option<Impact>, deps: seq<Mrn>, bound: nat, t: Mrn, a: Id)
    requires WellFormed(c, ranks) && Sound(c, ranks.query, g) && IsPlain(impact) && t in c.bundle.frameworks
    requires ListLevel(c.bundle.frameworks, ranks.framework, deps) <= bound
    requires !a.ControlMrn? && MayVisit(c, ranks, g, bound, t, a) && LinksAreRight(c, g, m, impact, deps, t, a)
    ensures var h := WithDependencies(c, ranks, g, FrameworkId(c, m), impact, deps, bound);
      IsTold(c, h, t, a) && IsVisited(c, g, h, t, a) && (m == t ==> AreLinked(c, h, t, deps, a))
    decreases bound, 1, |deps|
  {
    if deps != [] {
      var front, last := deps[..|deps| - 1], deps[|deps| - 1];
      FrontIsRight(c, g, m, impact, deps, t, a);
      DependenciesTell(c, ranks, g, m, impact, front, bound, t, a);
      var h1 := WithDependencies(c, ranks, g, FrameworkId(c, m), impact, front, bound);
      StaysReady(c, ranks, g, h1, m, impact, deps, bound, t, a);
      DependencyTells(c, ranks, h1, m, impact, last, bound, t, a);
      var h := WithDependency(c, ranks, h1, FrameworkId(c, m), impact, last, bound);
      BothTold(c, ranks.query, g, h1, h, m, deps, t, a);
    }
  }

  lemma FrontIsRight(c: Config, g: JobGraph, m: Mrn, impact: Option<Impact>, deps: seq<Mrn>, t: Mrn, a: Id)
    requires deps != [] && LinksAreRight(c, g, m, impact, deps, t, a)
    ensures LinksAreRight(c, g, m, impact, deps[..|deps| - 1], t, a)
  {
  }

  lemma BothTold(
      c: Config, rank: Mrn -> nat, g: JobGraph, h1: JobGraph, h: JobGraph, m: Mrn, deps: seq<Mrn>, t: Mrn, a: Id)
    requires t in c.bundle.frameworks && Sound(c, rank, h1) && Extends(c, rank, h1, h) && deps != []
    requires IsVisited(c, g, h1, t, a) && IsVisited(c, h1, h, t, a)
    requires m == t ==> AreLinked(c, h1, t, deps[..|deps| - 1], a) && AreLinked(c, h, t, [deps[|deps| - 1]], a)
    ensures IsVisited(c, g, h, t, a) && (m == t ==> AreLinked(c, h, t, deps, a))
  {
    var own := c.bundle.frameworks[t].dependencies;
    if AreLinked(c, h1, t, own, a) {
      LinksStay(c, rank, h1, h, t, own, a);
    }
    if m == t {
      LinksStay(c, rank, h1, h, t, deps[..|deps| - 1], a);
      InFrontOrLast(deps);
    }
  }

  lemma StaysReady(
      c: Config, ranks: Ranks, g: JobGraph, h: JobGraph, m: Mrn, impact: Option<Impact>, deps: seq<Mrn>,
      bound: nat, t: Mrn, a: Id)
    requires t in c.bundle.frameworks && Sound(c, ranks.query, g) && Extends(c, ranks.query, g, h) && deps != []
    requires MayVisit(c, ranks, g, bound, t, a) && LinksAreRight(c, g, m, impact, deps, t, a)
    requires IsTold(c, h, t, a) && IsVisited(c, g, h, t, a)
    ensures MayVisit(c, ranks, h, bound, t, a) && LinksAreRight(c, h, m, impact, [deps[|deps| - 1]], t, a)
  {
    var own := c.bundle.frameworks[t].dependencies;
    if AreLinked(c, g, t, own, a) {
      LinksStay(c, ranks.query, g, h, t, own, a);
    }
    if AreLinked(c, g, t, deps, a) {
      LinksStay(c, ranks.query, g, h, t, deps, a);
    }
  }

  lemma DependencyTells(
      c: Config, ranks: Ranks, g: JobGraph, m: Mrn, impact: Option<Impact>, d: Mrn, bound: nat, t: Mrn, a: Id)
    requires WellFormed(c, ranks) && Sound(c, ranks.query, g) && IsPlain(impact) && t in c.bundle.frameworks
    requires Level(c.bundle.frameworks, ranks.framework, d) <= bound
    requires !a.ControlMrn? && MayVisit(c, ranks, g, bound, t, a) && LinksAreRight(c, g, m, impact, [d], t, a)
    ensures var h := WithDependency(c, ranks, g, FrameworkId(c, m), impact, d, bound);
      IsTold(c, h, t, a) && IsVisited(c, g, h, t, a) && (m == t ==> AreLinked(c, h, t, [d], a))
    decreases bound, 1, 0
  {
    if d in c.bundle.frameworks {
      FrameworkTells(c, ranks, g, d, t, a);
      if RunsFramework(c, d) {
        LinkTells(c, ranks.query, g, WithFramework(c, ranks, g, d), m, impact, d, t, a);
      }
    }
  }

  lemma LinkTells(
      c: Config, rank: Mrn -> nat, g: JobGraph, g1: JobGraph, m: Mrn, impact: Option<Impact>, d: Mrn, t: Mrn, a: Id)
    requires t in c.bundle.frameworks && d in c.bundle.frameworks && RunsFramework(c, d) && IsPlain(impact)
    requires Sound(c, rank, g) && Extends(c, rank, g, g1) && LinksAreRight(c, g, m, impact, [d], t, a)
    requires IsTold(c, g1, t, a) && IsVisited(c, g, g1, t, a)
    ensures var h := g1.AddEdge(FrameworkId(c, d), FrameworkId(c, m), impact);
      IsTold(c, h, t, a) && IsVisited(c, g, h, t, a) && (m == t ==> AreLinked(c, h, t, [d], a))
  {
    LinkIsRight(c, rank, g, g1, m, impact, d, t, a);
    LinkIsTold(c, g1, FrameworkId(c, m), impact, d, t, a);
    AddEdgeKeepsSound(c, rank, g1, FrameworkId(c, d), FrameworkId(c, m), impact);
    LinkKeepsVisited(c, rank, g, g1, g1.AddEdge(FrameworkId(c, d), FrameworkId(c, m), impact), t, a);
  }

  lemma LinkIsRight(
      c: Config, rank: Mrn -> nat, g: JobGraph, g1: JobGraph, m: Mrn, impact: Option<Impact>, d: Mrn, t: Mrn, a: Id)
    requires d in c.bundle.frameworks && RunsFramework(c, d)
    requires Sound(c, rank, g) && Extends(c, rank, g, g1) && LinksAreRight(c, g, m, impact, [d], t, a)
    ensures m == t && a == FrameworkId(c, d) && !HasEdge(g1, a, FrameworkId(c, m)) ==> impact == DependencyImpact(c, t)
  {
    if m == t && AreLinked(c, g, t, [d], a) && a == FrameworkId(c, d) {
      assert d in [d];
      EdgeStays(g, g1, a, FrameworkId(c, m));
    }
  }

  lemma LinkKeepsVisited(c: Config, rank: Mrn -> nat, g: JobGraph, g1: JobGraph, h: JobGraph, t: Mrn, a: Id)
    requires t in c.bundle.frameworks && Sound(c, rank, g1) && Extends(c, rank, g1, h) && h.nodes == g1.nodes
    requires IsVisited(c, g, g1, t, a)
    ensures IsVisited(c, g, h, t, a)
  {
    var deps := c.bundle.frameworks[t].dependencies;
    if AreLinked(c, g1, t, deps, a) {
      LinksStay(c, rank, g1, h, t, deps, a);
    }
  }

  /** Between frameworks whose edges do not come from policies: dependencies tell nothing, unless
      their framework is an active policy, which ignores them. */
  lemma DependencyImpactIsExact(c: Config, ranks: Ranks, t: Mrn, e: EdgeImpact)
    requires WellFormed(c, ranks) && c.bundleMrn in c.bundle.policies && t in c.bundle.frameworks
    requires e in WholeGraph(c, ranks).From(FrameworkId(c, t)) && !e.edge.ControlMrn?
    requires !ReportsByPolicies(c, ranks.query, e.edge, FrameworkId(c, t))
    ensures e.impact == DependencyImpact(c, t)
  {
    var a, b := e.edge, FrameworkId(c, t);
    var g := PoliciesAlone(c, ranks, a, b);
    NothingIsTold(c, ranks.query, g, t, a);
    assert Carries(WholeGraph(c, ranks), b, EdgeImpact(a, e.impact));
    if c.bundleMrn in c.bundle.frameworks {
      FrameworkTells(c, ranks, g, c.bundleMrn, t, a);
    }
  }

  lemma NothingIsTold(c: Config, rank: Mrn -> nat, g: JobGraph, t: Mrn, a: Id)
    requires Sound(c, rank, g) && !HasEdge(g, a, FrameworkId(c, t))
    ensures IsTold(c, g, t, a)
  {
    forall i ensures !Carries(g, FrameworkId(c, t), EdgeImpact(a, i)) {
      if Carries(g, FrameworkId(c, t), EdgeImpact(a, i)) {
        CarriedIsEdge(g, FrameworkId(c, t), EdgeImpact(a, i));
      }
    }
  }
}
