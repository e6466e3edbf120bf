/** Exactly which nodes and edges controls and frameworks bring into the graph. */
module FrameworkParts {
  import opened Wrappers
  import opened PolicyTypes
  import opened PolicyWindow
  import opened PolicyBundle
  import opened JobGraph
  import opened Sequences
  import opened VariantSelection
  import opened GraphRules
  import opened GraphParts
  import opened PolicyRules

  /** What controls go by: the queries of the graph with the code they select, and the MRNs of
      policies that have a node. */
  datatype Known = Known(code: iset<(Mrn, CodeId)>, policies: iset<Mrn>)

  ghost function KnownOf(g: JobGraph): Known {
    Known(
      iset q: Mrn, code: CodeId | IsQuery(g, q) && g.nodes[QueryMrn(q)].selected == code :: (q, code),
      iset p: Mrn | PolicyMrn(p) in g.nodes)
  }

  /** A framework that shares the MRN of a policy makes it known when it is visited. */
  ghost function After(c: Config, known: Known, visits: seq<Mrn>): Known {
    known.(policies := known.policies + iset f: Mrn | f in visits && f in c.bundle.policies)
  }

  lemma AfterNothing(c: Config, known: Known)
    ensures After(c, known, []) == known
  {
  }

  lemma AfterBoth(c: Config, known: Known, a: seq<Mrn>, b: seq<Mrn>)
    ensures After(c, known, a + b) == After(c, After(c, known, a), b)
  {
  }

  ghost predicate Knows(g: JobGraph, known: Known) {
    KnownOf(g) == known
  }

  lemma KnownAfterNode(c: Config, g: JobGraph, known: Known, m: Mrn)
    requires FrameworkId(c, m) !in g.nodes && Knows(g, known)
    ensures Knows(g.AddNode(FrameworkNode(FrameworkId(c, m))), After(c, known, [m]))
  {
  }

  lemma KnownAfterAgain(c: Config, g: JobGraph, known: Known, m: Mrn)
    requires FrameworkId(c, m) in g.nodes && Knows(g, known)
    ensures After(c, known, [m]) == known
  {
  }

  lemma KnownAfterControl(g: JobGraph, known: Known, m: Mrn)
    requires Knows(g, known)
    ensures Knows(g.AddNode(ControlNode(m)), known)
  {
  }

  lemma SameNodesSameKnown(g: JobGraph, h: JobGraph, known: Known)
    requires g.nodes == h.nodes && Knows(g, known)
    ensures Knows(h, known)
  {
  }

  // ----- controls -----

  ghost predicate Runs(known: Known, list: seq<Mrn>, code: CodeId) {
    exists q :: q in list && (q, code) in known.code
  }

  /** What reports to a control: the code of its checks and data queries that are in the graph, its
      policies that have a node, and all of its sub-controls. */
  ghost predicate Feeds(known: Known, control: Control, a: Id) {
    match a
    case CodeNode(code) => Runs(known, control.checks, code) || Runs(known, control.queries, code)
    case PolicyMrn(p) => p in control.policies && p in known.policies
    case ControlMrn(k) => k in control.controls
    case _ => false
  }

  /** A control has a node if anything feeds it. */
  ghost predicate ControlBrings(known: Known, control: Control, x: Part) {
    exists a :: Feeds(known, control, a)
      && (x == NodePart(ControlMrn(control.mrn)) || x == EdgePart(a, ControlMrn(control.mrn)))
  }

  ghost predicate CodeBrings(known: Known, list: seq<Mrn>, control: Mrn, x: Part) {
    exists code :: Runs(known, list, code) && x == EdgePart(CodeNode(code), ControlMrn(control))
  }

  ghost predicate AnyRuns(known: Known, list: seq<Mrn>) {
    exists code :: Runs(known, list, code)
  }

  ghost predicate PoliciesBring(known: Known, list: seq<Mrn>, control: Mrn, x: Part) {
    exists p :: p in list && p in known.policies && x == EdgePart(PolicyMrn(p), ControlMrn(control))
  }

  ghost predicate AnyKnown(known: Known, list: seq<Mrn>) {
    exists p :: p in list && p in known.policies
  }

  ghost predicate ControlsBring(list: seq<Mrn>, control: Mrn, x: Part) {
    exists k :: k in list && x == EdgePart(ControlMrn(k), ControlMrn(control))
  }

  lemma CodeOneMore(known: Known, list: seq<Mrn>, control: Mrn, x: Part)
    requires list != []
    ensures var front, last := list[..|list| - 1], list[|list| - 1];
      && (CodeBrings(known, list, control, x) <==>
          CodeBrings(known, front, control, x) || CodeBrings(known, [last], control, x))
      && (AnyRuns(known, list) <==> AnyRuns(known, front) || AnyRuns(known, [last]))
  {
    InFrontOrLast(list);
    var front, last := list[..|list| - 1], list[|list| - 1];
    forall code ensures Runs(known, list, code) <==> Runs(known, front, code) || Runs(known, [last], code) {
    }
    if AnyRuns(known, front) {
      var code :| Runs(known, front, code);
      assert Runs(known, list, code);
    }
    if AnyRuns(known, [last]) {
      var code :| Runs(known, [last], code);
      assert Runs(known, list, code);
    }
  }

  /** At most one code runs for a query. */
  lemma CodeOfOne(g: JobGraph, known: Known, q: Mrn, control: Mrn, x: Part)
    requires Knows(g, known)
    ensures AnyRuns(known, [q]) <==> IsQuery(g, q)
    ensures CodeBrings(known, [q], control, x) <==>
      IsQuery(g, q) && x == EdgePart(CodeNode(g.nodes[QueryMrn(q)].selected), ControlMrn(control))
  {
    if IsQuery(g, q) {
      var code := g.nodes[QueryMrn(q)].selected;
      assert (q, code) in known.code;
      assert Runs(known, [q], code);
    }
  }

  lemma PoliciesOneMore(known: Known, list: seq<Mrn>, control: Mrn, x: Part)
    requires list != []
    ensures var front, last := list[..|list| - 1], list[|list| - 1];
      && (PoliciesBring(known, list, control, x) <==>
          || PoliciesBring(known, front, control, x)
          || (last in known.policies && x == EdgePart(PolicyMrn(last), ControlMrn(control))))
      && (AnyKnown(known, list) <==> AnyKnown(known, front) || last in known.policies)
  {
    InFrontOrLast(list);
  }

  lemma {:induction false} ControlQueriesParts(
    c: Config, rank: Mrn -> nat, g: JobGraph, control: Mrn, list: seq<Mrn>, ignored: bool, known: Known, x: Part)
    requires Sound(c, rank, g) && Knows(g, known)
    ensures var res := WithControlQueries(c, rank, g, control, list, ignored);
      && (Holds(res.0, x) <==> Holds(g, x) || CodeBrings(known, list, control, x))
      && res.1 == AnyRuns(known, list) && Knows(res.0, known)
  {
    if list == [] {
    } else {
      var front, last := list[..|list| - 1], list[|list| - 1];
      ControlQueriesParts(c, rank, g, control, front, ignored, known, x);
      CodeOneMore(known, list, control, x);
      CodeOfOne(g, known, last, control, x);
      var done := WithControlQueries(c, rank, g, control, front, ignored).0;
      SameNodesSameKnown(g, WithControlQueries(c, rank, g, control, list, ignored).0, known);
      if IsQuery(done, last) {
        EdgeParts(done, CodeNode(done.nodes[QueryMrn(last)].selected), ControlMrn(control),
          if ignored then Some(IGNORED_IMPACT) else ActionToImpact(c, QueryMrn(last)), x);
      }
    }
  }

  lemma {:induction false} ControlPoliciesParts(
    c: Config, rank: Mrn -> nat, g: JobGraph, control: Mrn, list: seq<Mrn>, known: Known, x: Part)
    requires Sound(c, rank, g) && Knows(g, known)
    ensures var res := WithControlPolicies(c, rank, g, control, list);
      && (Holds(res.0, x) <==> Holds(g, x) || PoliciesBring(known, list, control, x))
      && res.1 == AnyKnown(known, list) && Knows(res.0, known)
  {
    if list == [] {
    } else {
      var front, last := list[..|list| - 1], list[|list| - 1];
      ControlPoliciesParts(c, rank, g, control, front, known, x);
      PoliciesOneMore(known, list, control, x);
      SameNodesSameKnown(g, WithControlPolicies(c, rank, g, control, list).0, known);
      EdgeParts(WithControlPolicies(c, rank, g, control, front).0, PolicyMrn(last), ControlMrn(control),
        ActionToImpact(c, PolicyMrn(last)), x);
    }
  }

  lemma {:induction false} ControlControlsParts(
    c: Config, rank: Mrn -> nat, g: JobGraph, control: Mrn, list: seq<Mrn>, known: Known, x: Part)
    requires Sound(c, rank, g) && Knows(g, known)
    ensures Holds(WithControlControls(c, rank, g, control, list), x) <==> Holds(g, x) || ControlsBring(list, control, x)
    ensures Knows(WithControlControls(c, rank, g, control, list), known)
  {
    SameNodesSameKnown(g, WithControlControls(c, rank, g, control, list), known);
    if list != [] {
      var front, last := list[..|list| - 1], list[|list| - 1];
      ControlControlsParts(c, rank, g, control, front, known, x);
      InFrontOrLast(list);
      EdgeParts(WithControlControls(c, rank, g, control, front), ControlMrn(last), ControlMrn(control),
        ActionToImpact(c, ControlMrn(last)), x);
    }
  }

  ghost predicate FedBrings(known: Known, control: Control, x: Part) {
    || CodeBrings(known, control.checks, control.mrn, x) || CodeBrings(known, control.queries, control.mrn, x)
    || PoliciesBring(known, control.policies, control.mrn, x) || ControlsBring(control.controls, control.mrn, x)
  }

  ghost predicate IsFed(known: Known, control: Control) {
    || AnyRuns(known, control.checks) || AnyRuns(known, control.queries)
    || AnyKnown(known, control.policies) || control.controls != []
  }

  lemma ControlEdgesParts(c: Config, rank: Mrn -> nat, g: JobGraph, control: Control, known: Known, x: Part)
    requires Sound(c, rank, g) && Knows(g, known)
    ensures var fed := WithControlEdges(c, rank, g, control);
      && (Holds(fed.0, x) <==> Holds(g, x) || FedBrings(known, control, x))
      && fed.1 == IsFed(known, control) && Knows(fed.0, known)
  {
    var m := control.mrn;
    ControlQueriesParts(c, rank, g, m, control.checks, false, known, x);
    var checks := WithControlQueries(c, rank, g, m, control.checks, false).0;
    ControlQueriesParts(c, rank, checks, m, control.queries, true, known, x);
    var queries := WithControlQueries(c, rank, checks, m, control.queries, true).0;
    ControlPoliciesParts(c, rank, queries, m, control.policies, known, x);
    ControlControlsParts(c, rank, WithControlPolicies(c, rank, queries, m, control.policies).0, m, control.controls,
      known, x);
  }

  /** What a control adds to the graph. */
  lemma ControlParts(c: Config, rank: Mrn -> nat, g: JobGraph, control: Control, known: Known, x: Part)
    requires Sound(c, rank, g) && Knows(g, known)
    ensures Holds(WithControl(c, rank, g, control), x) <==> Holds(g, x) || ControlBrings(known, control, x)
    ensures Knows(WithControl(c, rank, g, control), known)
  {
    ControlEdgesParts(c, rank, g, control, known, x);
    var fed := WithControlEdges(c, rank, g, control).0;
    KnownAfterControl(fed, known, control.mrn);
    NodeParts(fed, ControlNode(control.mrn), x);
    ControlBringsUnfolds(known, control, x);
  }

  lemma ControlBringsUnfolds(known: Known, control: Control, x: Part)
    ensures ControlBrings(known, control, x) <==>
      FedBrings(known, control, x) || (IsFed(known, control) && x == NodePart(ControlMrn(control.mrn)))
  {
    if x.EdgePart? {
      assert ControlBrings(known, control, x) <==> Feeds(known, control, x.a) && x.b == ControlMrn(control.mrn);
    } else {
      FedIffAny(known, control);
    }
  }

  lemma FedIffAny(known: Known, control: Control)
    ensures (exists a :: Feeds(known, control, a)) <==> IsFed(known, control)
  {
    forall code ensures Feeds(known, control, CodeNode(code)) <==>
      Runs(known, control.checks, code) || Runs(known, control.queries, code)
    {
    }
    forall p ensures Feeds(known, control, PolicyMrn(p)) <==> p in control.policies && p in known.policies {
    }
    if control.controls != [] {
      assert Feeds(known, control, ControlMrn(control.controls[0]));
    }
  }

  // ----- frameworks -----

  /** A control that runs, with its edge to the owner that a framework maps it to. */
  ghost predicate OwnedBrings(c: Config, known: Known, owner: Mrn, control: Control, x: Part) {
    && CanRun(c.ActionOf(ControlMrn(control.mrn)))
    && (ControlBrings(known, control, x) || x == EdgePart(ControlMrn(control.mrn), FrameworkId(c, owner)))
  }

  ghost predicate ListBrings(c: Config, known: Known, owner: Mrn, controls: seq<Control>, x: Part) {
    exists control :: control in controls && OwnedBrings(c, known, owner, control, x)
  }

  ghost predicate MapsBring(c: Config, known: Known, maps: seq<FrameworkMap>, x: Part) {
    exists fmap :: fmap in maps && ListBrings(c, known, fmap.owner, fmap.controls, x)
  }

  /** The edges from the dependencies in the bundle that can run. */
  ghost predicate DependenciesBring(c: Config, id: Id, deps: seq<Mrn>, x: Part) {
    exists d :: d in deps && DependencyBrings(c, id, d, x)
  }

  ghost predicate DependencyBrings(c: Config, id: Id, d: Mrn, x: Part) {
    d in c.bundle.frameworks && RunsFramework(c, d) && x == EdgePart(FrameworkId(c, d), id)
  }

  /** What one visit of a framework brings, apart from the visits of its dependencies. */
  ghost predicate VisitBrings(c: Config, known: Known, f: Mrn, x: Part)
    requires f in c.bundle.frameworks
  {
    || x == NodePart(FrameworkId(c, f))
    || MapsBring(c, known, c.bundle.frameworks[f].maps, x)
    || DependenciesBring(c, FrameworkId(c, f), c.bundle.frameworks[f].dependencies, x)
  }

  /** The frameworks in the order they are visited in: each that can run before its dependencies,
      once for every way that leads to it. */
  ghost function Visits(c: Config, ranks: Ranks, f: Mrn): (visits: seq<Mrn>)
    requires WellFormed(c, ranks) && f in c.bundle.frameworks
    ensures forall v :: v in visits ==> v in c.bundle.frameworks
    decreases Level(c.bundle.frameworks, ranks.framework, f), 0
  {
    if !RunsFramework(c, f) then []
    else
      DependenciesAreLower(c, ranks, f);
      [f] + VisitsOfAll(c, ranks, c.bundle.frameworks[f].dependencies)
  }

  ghost function VisitsOfAll(c: Config, ranks: Ranks, deps: seq<Mrn>): (visits: seq<Mrn>)
    requires WellFormed(c, ranks)
    ensures forall v :: v in visits ==> v in c.bundle.frameworks
    decreases ListLevel(c.bundle.frameworks, ranks.framework, deps), 2, |deps|
  {
    if deps == [] then []
    else
      var last := deps[|deps| - 1];
      VisitsOfAll(c, ranks, deps[..|deps| - 1]) + VisitsOfOne(c, ranks, last)
  }

  ghost function VisitsOfOne(c: Config, ranks: Ranks, dep: Mrn): (visits: seq<Mrn>)
    requires WellFormed(c, ranks)
    ensures forall v :: v in visits ==> v in c.bundle.frameworks
    decreases Level(c.bundle.frameworks, ranks.framework, dep), 1
  {
    if dep in c.bundle.frameworks then Visits(c, ranks, dep) else []
  }

  /** Each visit goes by what is known by then. */
  ghost predicate VisitBringsAt(c: Config, known: Known, visits: seq<Mrn>, i: nat, x: Part)
    requires i < |visits| && visits[i] in c.bundle.frameworks
  {
    VisitBrings(c, After(c, known, visits[..i + 1]), visits[i], x)
  }

  ghost predicate VisitsBring(c: Config, known: Known, visits: seq<Mrn>, x: Part)
    requires forall v :: v in visits ==> v in c.bundle.frameworks
  {
    exists i :: 0 <= i < |visits| && VisitBringsAt(c, known, visits, i, x)
  }

  lemma VisitAtEither(c: Config, known: Known, a: seq<Mrn>, b: seq<Mrn>, i: nat, x: Part)
    requires i < |a + b| && (a + b)[i] in c.bundle.frameworks
    ensures VisitBringsAt(c, known, a + b, i, x) <==>
      if i < |a| then VisitBringsAt(c, known, a, i, x) else VisitBringsAt(c, After(c, known, a), b, i - |a|, x)
  {
    if i < |a| {
      assert (a + b)[..i + 1] == a[..i + 1];
    } else {
      var k := i - |a|;
      assert (a + b)[..i + 1] == a + b[..k + 1];
      AfterBoth(c, known, a, b[..k + 1]);
    }
  }

  lemma VisitsBringBoth(c: Config, known: Known, a: seq<Mrn>, b: seq<Mrn>, x: Part)
    requires forall v :: v in a + b ==> v in c.bundle.frameworks
    ensures (forall v :: v in a ==> v in c.bundle.frameworks) && (forall v :: v in b ==> v in c.bundle.frameworks)
    ensures VisitsBring(c, known, a + b, x) <==> VisitsBring(c, known, a, x) || VisitsBring(c, After(c, known, a), b, x)
  {
    forall i: nat | i < |a + b|
      ensures VisitBringsAt(c, known, a + b, i, x) <==>
        if i < |a| then VisitBringsAt(c, known, a, i, x) else VisitBringsAt(c, After(c, known, a), b, i - |a|, x)
    {
      VisitAtEither(c, known, a, b, i, x);
    }
    if VisitsBring(c, known, a, x) {
      var i :| 0 <= i < |a| && VisitBringsAt(c, known, a, i, x);
      assert VisitBringsAt(c, known, a + b, i, x);
    }
    if VisitsBring(c, After(c, known, a), b, x) {
      var i :| 0 <= i < |b| && VisitBringsAt(c, After(c, known, a), b, i, x);
      assert VisitBringsAt(c, known, a + b, |a| + i, x);
    }
  }

  lemma OwnedOneParts(c: Config, rank: Mrn -> nat, g: JobGraph, owner: Mrn, control: Control, known: Known, x: Part)
    requires Sound(c, rank, g) && Knows(g, known)
    ensures var h := WithOwned(c, rank, g, owner, control);
      (Holds(h, x) <==> Holds(g, x) || OwnedBrings(c, known, owner, control, x)) && Knows(h, known)
  {
    var id := ControlMrn(control.mrn);
    if CanRun(c.ActionOf(id)) {
      ControlParts(c, rank, g, control, known, x);
      var g1 := WithControl(c, rank, g, control);
      EdgeParts(g1, id, FrameworkId(c, owner), ActionToImpact(c, id), x);
      SameNodesSameKnown(g1, WithOwned(c, rank, g, owner, control), known);
    }
  }

  lemma {:induction false} OwnedParts(
      c: Config, rank: Mrn -> nat, g: JobGraph, owner: Mrn, controls: seq<Control>, known: Known, x: Part)
    requires Sound(c, rank, g) && Knows(g, known)
    ensures var h := WithOwnedControls(c, rank, g, owner, controls);
      (Holds(h, x) <==> Holds(g, x) || ListBrings(c, known, owner, controls, x)) && Knows(h, known)
  {
    if controls != [] {
      var front, last := controls[..|controls| - 1], controls[|controls| - 1];
      OwnedParts(c, rank, g, owner, front, known, x);
      OwnedOneParts(c, rank, WithOwnedControls(c, rank, g, owner, front), owner, last, known, x);
      ListBringsOneMore(c, known, owner, controls, x);
    }
  }

  lemma ListBringsOneMore(c: Config, known: Known, owner: Mrn, controls: seq<Control>, x: Part)
    requires controls != []
    ensures ListBrings(c, known, owner, controls, x) <==>
      || ListBrings(c, known, owner, controls[..|controls| - 1], x)
      || OwnedBrings(c, known, owner, controls[|controls| - 1], x)
  {
    InFrontOrLast(controls);
  }

  lemma {:induction false} MapsParts(
      c: Config, rank: Mrn -> nat, g: JobGraph, maps: seq<FrameworkMap>, known: Known, x: Part)
    requires Sound(c, rank, g) && Knows(g, known)
    ensures var h := WithMaps(c, rank, g, maps);
      (Holds(h, x) <==> Holds(g, x) || MapsBring(c, known, maps, x)) && Knows(h, known)
  {
    if maps != [] {
      var front, last := maps[..|maps| - 1], maps[|maps| - 1];
      MapsParts(c, rank, g, front, known, x);
      InFrontOrLast(maps);
      OwnedParts(c, rank, WithMaps(c, rank, g, front), last.owner, last.controls, known, x);
    }
  }

  /** What a framework adds to the graph. */
  lemma {:induction false} FrameworkBrings(c: Config, ranks: Ranks, g: JobGraph, m: Mrn, known: Known, x: Part)
    requires WellFormed(c, ranks) && Sound(c, ranks.query, g) && m in c.bundle.frameworks && Knows(g, known)
    ensures var h, visits := WithFramework(c, ranks, g, m), Visits(c, ranks, m);
      (Holds(h, x) <==> Holds(g, x) || VisitsBring(c, known, visits, x)) && Knows(h, After(c, known, visits))
    decreases Level(c.bundle.frameworks, ranks.framework, m), 0, 0
  {
    if !RunsFramework(c, m) {
      AfterNothing(c, known);
    } else {
      var impact := if FrameworkId(c, m) in g.nodes then Some(IGNORED_IMPACT) else None;
      var g1 := StartFramework(c, ranks, g, m, impact, known, x);
      FrameworkBodyParts(c, ranks, g1, m, impact, After(c, known, [m]), x);
      VisitsUnfold(c, ranks, known, m, x);
    }
  }

  lemma VisitsUnfold(c: Config, ranks: Ranks, known: Known, m: Mrn, x: Part)
    requires WellFormed(c, ranks) && m in c.bundle.frameworks && RunsFramework(c, m)
    ensures var below, start := VisitsOfAll(c, ranks, c.bundle.frameworks[m].dependencies), After(c, known, [m]);
      && (VisitsBring(c, known, Visits(c, ranks, m), x) <==>
        VisitBrings(c, start, m, x) || VisitsBring(c, start, below, x))
      && After(c, known, Visits(c, ranks, m)) == After(c, start, below)
  {
    var below := VisitsOfAll(c, ranks, c.bundle.frameworks[m].dependencies);
    AfterBoth(c, known, [m], below);
    VisitsBringBoth(c, known, [m], below, x);
    VisitsBringOne(c, known, m, x);
  }

  lemma VisitsBringOne(c: Config, known: Known, m: Mrn, x: Part)
    requires m in c.bundle.frameworks
    ensures VisitsBring(c, known, [m], x) <==> VisitBrings(c, After(c, known, [m]), m, x)
  {
    assert [m][..0 + 1] == [m];
    assert VisitBringsAt(c, known, [m], 0, x) <==> VisitBrings(c, After(c, known, [m]), m, x);
  }

  lemma StartFramework(c: Config, ranks: Ranks, g: JobGraph, m: Mrn, impact: Option<Impact>, known: Known, x: Part)
    returns (g1: JobGraph)
    requires WellFormed(c, ranks) && Sound(c, ranks.query, g) && m in c.bundle.frameworks && RunsFramework(c, m)
    requires Knows(g, known) && impact == if FrameworkId(c, m) in g.nodes then Some(IGNORED_IMPACT) else None
    ensures Sound(c, ranks.query, g1) && WithFramework(c, ranks, g, m) == WithFrameworkParts(c, ranks, g1, m, impact)
    ensures Holds(g1, x) <==> Holds(g, x) || x == NodePart(FrameworkId(c, m))
    ensures Knows(g1, After(c, known, [m]))
  {
    var n := FrameworkNode(FrameworkId(c, m));
    if n.id in g.nodes {
      g1 := g;
      KnownAfterAgain(c, g, known, m);
    } else {
      g1 := g.AddNode(n);
      KnownAfterNode(c, g, known, m);
      NodeParts(g, n, x);
      AddNodeKeepsSound(c, ranks.query, g, n);
    }
  }

  lemma FrameworkBodyParts(c: Config, ranks: Ranks, g: JobGraph, m: Mrn, impact: Option<Impact>, known: Known, x: Part)
    requires WellFormed(c, ranks) && Sound(c, ranks.query, g) && m in c.bundle.frameworks && IsPlain(impact)
    requires Knows(g, known)
    ensures var f, h := c.bundle.frameworks[m], WithFrameworkParts(c, ranks, g, m, impact);
      && (Holds(h, x) <==>
          || Holds(g, x) || MapsBring(c, known, f.maps, x)
          || VisitsBring(c, known, VisitsOfAll(c, ranks, f.dependencies), x)
          || DependenciesBring(c, FrameworkId(c, m), f.dependencies, x))
      && Knows(h, After(c, known, VisitsOfAll(c, ranks, f.dependencies)))
    decreases Level(c.bundle.frameworks, ranks.framework, m) - 1, 2, 0
  {
    var f := c.bundle.frameworks[m];
    MapsParts(c, ranks.query, g, f.maps, known, x);
    var bound := Level(c.bundle.frameworks, ranks.framework, m) - 1;
    DependenciesAreLower(c, ranks, m);
    FrameworkBody(c, ranks, g, m, impact, bound);
    DependenciesParts(c, ranks, WithMaps(c, ranks.query, g, f.maps), FrameworkId(c, m), impact, f.dependencies, bound,
      known, x);
  }

  lemma {:induction false} DependenciesParts(
    c: Config, ranks: Ranks, g: JobGraph, id: Id, impact: Option<Impact>, deps: seq<Mrn>, bound: nat, known: Known,
      x: Part)
    requires WellFormed(c, ranks) && Sound(c, ranks.query, g) && (id.FrameworkMrn? || id.PolicyMrn?) && IsPlain(impact)
    requires ListLevel(c.bundle.frameworks, ranks.framework, deps) <= bound && Knows(g, known)
    ensures var h, visits := WithDependencies(c, ranks, g, id, impact, deps, bound), VisitsOfAll(c, ranks, deps);
      && (Holds(h, x) <==> Holds(g, x) || VisitsBring(c, known, visits, x) || DependenciesBring(c, id, deps, x))
      && Knows(h, After(c, known, visits))
    decreases bound, 1, |deps|
  {
    if deps == [] {
      AfterNothing(c, known);
    } else {
      var front, last := deps[..|deps| - 1], deps[|deps| - 1];
      DependenciesParts(c, ranks, g, id, impact, front, bound, known, x);
      var before := VisitsOfAll(c, ranks, front);
      var done := WithDependencies(c, ranks, g, id, impact, front, bound);
      DependencyParts(c, ranks, done, id, impact, last, bound, After(c, known, before), x);
      AfterBoth(c, known, before, VisitsOfOne(c, ranks, last));
      VisitsBringBoth(c, known, before, VisitsOfOne(c, ranks, last), x);
      DependenciesOneMore(c, id, deps, x);
    }
  }

  lemma DependenciesOneMore(c: Config, id: Id, deps: seq<Mrn>, x: Part)
    requires deps != []
    ensures DependenciesBring(c, id, deps, x) <==>
      DependenciesBring(c, id, deps[..|deps| - 1], x) || DependencyBrings(c, id, deps[|deps| - 1], x)
  {
    InFrontOrLast(deps);
  }

  lemma DependencyParts(
    c: Config, ranks: Ranks, g: JobGraph, id: Id, impact: Option<Impact>, dep: Mrn, bound: nat, known: Known, x: Part)
    requires WellFormed(c, ranks) && Sound(c, ranks.query, g) && (id.FrameworkMrn? || id.PolicyMrn?) && IsPlain(impact)
    requires Level(c.bundle.frameworks, ranks.framework, dep) <= bound && Knows(g, known)
    ensures var h, visits := WithDependency(c, ranks, g, id, impact, dep, bound), VisitsOfOne(c, ranks, dep);
      && (Holds(h, x) <==> Holds(g, x) || VisitsBring(c, known, visits, x) || DependencyBrings(c, id, dep, x))
      && Knows(h, After(c, known, visits))
    decreases bound, 1, 0
  {
    if dep in c.bundle.frameworks {
      FrameworkBrings(c, ranks, g, dep, known, x);
      DependencyStep(c, ranks, g, id, impact, dep, bound, After(c, known, Visits(c, ranks, dep)), x);
    } else {
      AfterNothing(c, known);
    }
  }

  lemma DependencyStep(
    c: Config, ranks: Ranks, g: JobGraph, id: Id, impact: Option<Impact>, dep: Mrn, bound: nat, known: Known, x: Part)
    requires WellFormed(c, ranks) && Sound(c, ranks.query, g) && (id.FrameworkMrn? || id.PolicyMrn?) && IsPlain(impact)
    requires Level(c.bundle.frameworks, ranks.framework, dep) <= bound && dep in c.bundle.frameworks
    requires Knows(WithFramework(c, ranks, g, dep), known)
    ensures var h := WithDependency(c, ranks, g, id, impact, dep, bound);
      && (Holds(h, x) <==> Holds(WithFramework(c, ranks, g, dep), x) || DependencyBrings(c, id, dep, x))
      && Knows(h, known)
  {
    var g1, h := WithFramework(c, ranks, g, dep), WithDependency(c, ranks, g, id, impact, dep, bound);
    EdgeParts(g1, FrameworkId(c, dep), id, impact, x);
    SameNodesSameKnown(g1, h, known);
  }
}
