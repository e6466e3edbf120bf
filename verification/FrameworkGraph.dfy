/** The resolved framework: which checks, policies and controls report into which controls and
    frameworks, and the order in which they are processed. */
module FrameworkGraph {
  import opened Digraph
  import opened Ordering

  type Mrn = string

  datatype ControlMap = ControlMap(mrn: Mrn, checks: seq<Mrn>, policies: seq<Mrn>, controls: seq<Mrn>,
    queries: seq<Mrn>)

  /** A framework with the controls of its maps and the frameworks it depends on. */
  datatype Framework = Framework(mrn: Mrn, frameworkMaps: seq<seq<ControlMap>>, dependencies: seq<Mrn>)

  datatype NodeType = FrameworkNode | ControlNode | PolicyNode | CheckNode | QueryNode

  datatype Node = Node(mrn: Mrn, typ: NodeType)

  /** A link from a reporting child into its parent. */
  datatype Link = Link(parent: Mrn, child: Mrn)

  function LinksTo(parent: Mrn, children: seq<Mrn>): set<Link> {
    set c | c in children :: Link(parent, c)
  }

  /** The nodes at the ends of these links. */
  function EndsTo(parent: Node, children: seq<Mrn>, typ: NodeType): set<Node> {
    if children == [] then {} else {parent} + set c | c in children :: Node(c, typ)
  }

  lemma LinksToOneMore(parent: Node, children: seq<Mrn>, typ: NodeType, i: nat)
    requires i < |children|
    ensures LinksTo(parent.mrn, children[..i + 1]) ==
      LinksTo(parent.mrn, children[..i]) + {Link(parent.mrn, children[i])}
    ensures EndsTo(parent, children[..i + 1], typ) ==
      EndsTo(parent, children[..i], typ) + {parent, Node(children[i], typ)}
  {
    assert children[..i + 1] == children[..i] + [children[i]];
  }

  function ControlLinks(c: ControlMap): set<Link> {
    LinksTo(c.mrn, c.checks) + LinksTo(c.mrn, c.policies) + LinksTo(c.mrn, c.controls) + LinksTo(c.mrn, c.queries)
  }

  function ControlEnds(c: ControlMap): set<Node> {
    var node := Node(c.mrn, ControlNode);
    EndsTo(node, c.checks, CheckNode) + EndsTo(node, c.policies, PolicyNode) + EndsTo(node, c.controls, ControlNode)
    + EndsTo(node, c.queries, QueryNode)
  }

  function MapLinks(framework: Mrn, controls: seq<ControlMap>): set<Link> {
    if controls == [] then {}
    else
      var last := controls[|controls| - 1];
      MapLinks(framework, controls[..|controls| - 1]) + {Link(framework, last.mrn)} + ControlLinks(last)
  }

  function MapEnds(framework: Node, controls: seq<ControlMap>): set<Node> {
    if controls == [] then {}
    else
      var last := controls[|controls| - 1];
      MapEnds(framework, controls[..|controls| - 1]) + {framework, Node(last.mrn, ControlNode)} + ControlEnds(last)
  }

  function MapsLinks(framework: Mrn, maps: seq<seq<ControlMap>>): set<Link> {
    if maps == [] then {}
    else MapsLinks(framework, maps[..|maps| - 1]) + MapLinks(framework, maps[|maps| - 1])
  }

  function MapsEnds(framework: Node, maps: seq<seq<ControlMap>>): set<Node> {
    if maps == [] then {}
    else MapsEnds(framework, maps[..|maps| - 1]) + MapEnds(framework, maps[|maps| - 1])
  }

  /** Everything one framework links. */
  function FrameworkLinks(f: Framework): set<Link> {
    MapsLinks(f.mrn, f.frameworkMaps) + LinksTo(f.mrn, f.dependencies)
  }

  function FrameworkEnds(f: Framework): set<Node> {
    var node := Node(f.mrn, FrameworkNode);
    MapsEnds(node, f.frameworkMaps) + EndsTo(node, f.dependencies, FrameworkNode)
  }

  // ----- the same in terms of the framework alone -----

  /** One of the maps of the framework has this control. */
  predicate HasControl(f: Framework, c: ControlMap) {
    exists list :: list in f.frameworkMaps && c in list
  }

  /** The framework says that the child reports to the parent: a control or another framework to itself, or
      what a control of its maps lists to that control. */
  ghost predicate Says(f: Framework, parent: Mrn, child: Mrn) {
    || (parent == f.mrn && child in f.dependencies)
    || exists c :: HasControl(f, c) &&
         (|| (parent == f.mrn && child == c.mrn)
          || (parent == c.mrn && child in c.checks + c.policies + c.controls + c.queries))
  }

  /** The framework mentions the MRN as one of this type. */
  ghost predicate Mentions(f: Framework, m: Mrn, typ: NodeType) {
    match typ
    case FrameworkNode => m in f.dependencies || (m == f.mrn && (f.dependencies != [] || exists c :: HasControl(f, c)))
    case ControlNode => exists c :: HasControl(f, c) && (m == c.mrn || m in c.controls)
    case PolicyNode => exists c :: HasControl(f, c) && m in c.policies
    case CheckNode => exists c :: HasControl(f, c) && m in c.checks
    case QueryNode => exists c :: HasControl(f, c) && m in c.queries
  }

  ghost predicate ControlSays(framework: Mrn, c: ControlMap, parent: Mrn, child: Mrn) {
    || (parent == framework && child == c.mrn)
    || (parent == c.mrn && child in c.checks + c.policies + c.controls + c.queries)
  }

  lemma {:induction false} MapLinksIff(framework: Mrn, controls: seq<ControlMap>, l: Link)
    ensures l in MapLinks(framework, controls) <==>
      exists c :: c in controls && ControlSays(framework, c, l.parent, l.child)
  {
    if controls != [] {
      var front, last := controls[..|controls| - 1], controls[|controls| - 1];
      MapLinksIff(framework, front, l);
      assert controls == front + [last];
      assert l in {Link(framework, last.mrn)} + ControlLinks(last) <==> ControlSays(framework, last, l.parent, l.child);
    }
  }

  lemma {:induction false} MapsLinksIff(framework: Mrn, maps: seq<seq<ControlMap>>, l: Link)
    ensures l in MapsLinks(framework, maps) <==>
      exists list, c :: list in maps && c in list && ControlSays(framework, c, l.parent, l.child)
  {
    if maps != [] {
      var front, last := maps[..|maps| - 1], maps[|maps| - 1];
      MapsLinksIff(framework, front, l);
      MapLinksIff(framework, last, l);
      assert maps == front + [last];
    }
  }

  lemma LinksIff(f: Framework, l: Link)
    ensures l in FrameworkLinks(f) <==> Says(f, l.parent, l.child)
  {
    MapsLinksIff(f.mrn, f.frameworkMaps, l);
    if list, c :| list in f.frameworkMaps && c in list && ControlSays(f.mrn, c, l.parent, l.child) {
      assert HasControl(f, c);
    }
    if c :| HasControl(f, c) && ControlSays(f.mrn, c, l.parent, l.child) {
      var list :| list in f.frameworkMaps && c in list;
    }
  }

  /** What a control adds to the nodes. */
  predicate ControlMentions(framework: Node, c: ControlMap, n: Node) {
    || n == framework
    || match n.typ
       case FrameworkNode => false
       case ControlNode => n.mrn == c.mrn || n.mrn in c.controls
       case PolicyNode => n.mrn in c.policies
       case CheckNode => n.mrn in c.checks
       case QueryNode => n.mrn in c.queries
  }

  lemma EndsToIff(parent: Node, children: seq<Mrn>, typ: NodeType, n: Node)
    ensures n in EndsTo(parent, children, typ) <==>
      children != [] && (n == parent || (n.typ == typ && n.mrn in children))
  {
    assert n == Node(n.mrn, n.typ);
  }

  lemma ControlEndsIff(framework: Node, c: ControlMap, n: Node)
    ensures n in {framework, Node(c.mrn, ControlNode)} + ControlEnds(c) <==> ControlMentions(framework, c, n)
  {
    var node := Node(c.mrn, ControlNode);
    EndsToIff(node, c.checks, CheckNode, n);
    EndsToIff(node, c.policies, PolicyNode, n);
    EndsToIff(node, c.controls, ControlNode, n);
    EndsToIff(node, c.queries, QueryNode, n);
  }

  lemma {:induction false} MapEndsIff(framework: Node, controls: seq<ControlMap>, n: Node)
    ensures n in MapEnds(framework, controls) <==> exists c :: c in controls && ControlMentions(framework, c, n)
  {
    if controls != [] {
      var front, last := controls[..|controls| - 1], controls[|controls| - 1];
      MapEndsIff(framework, front, n);
      assert controls == front + [last];
      ControlEndsIff(framework, last, n);
    }
  }

  lemma {:induction false} MapsEndsIff(framework: Node, maps: seq<seq<ControlMap>>, n: Node)
    ensures n in MapsEnds(framework, maps) <==>
      exists list, c :: list in maps && c in list && ControlMentions(framework, c, n)
  {
    if maps != [] {
      var front, last := maps[..|maps| - 1], maps[|maps| - 1];
      MapsEndsIff(framework, front, n);
      MapEndsIff(framework, last, n);
      assert maps == front + [last];
    }
  }

  lemma EndsIff(f: Framework, n: Node)
    ensures n in FrameworkEnds(f) <==> Mentions(f, n.mrn, n.typ)
  {
    var node := Node(f.mrn, FrameworkNode);
    MapsEndsIff(node, f.frameworkMaps, n);
    if list, c :| list in f.frameworkMaps && c in list && ControlMentions(node, c, n) {
      assert HasControl(f, c);
    }
    if c :| HasControl(f, c) && ControlMentions(node, c, n) {
      var list :| list in f.frameworkMaps && c in list;
    }
  }

  type References = map<Mrn, set<Mrn>>

  function Members(r: References, m: Mrn): set<Mrn> {
    if m in r then r[m] else {}
  }

  /** Targets and sources agree with each other, and with what was linked, on one pair. */
  ghost predicate Mirrored(targets: References, sources: References, links: set<Link>, l: Link) {
    && (l.parent in Members(targets, l.child) <==> l in links)
    && (l.child in Members(sources, l.parent) <==> l in links)
  }

  /** Targets and sources are converses that say exactly what was linked. */
  ghost predicate AllMirrored(targets: References, sources: References, links: set<Link>) {
    forall l :: Mirrored(targets, sources, links, l)
  }

  /** The nodes are exactly the end points of links. */
  ghost predicate AreEndPoints(nodes: map<Mrn, Node>, links: set<Link>) {
    && (forall l :: l in links ==> l.parent in nodes && l.child in nodes)
    && (forall m :: m in nodes ==> nodes[m].mrn == m && IsEndPoint(m, links))
  }

  ghost predicate IsEndPoint(m: Mrn, links: set<Link>) {
    exists l :: l in links && (m == l.parent || m == l.child)
  }

  function WithMember(r: References, m: Mrn, x: Mrn): References {
    r[m := Members(r, m) + {x}]
  }

  lemma LinkMirrors(targets: References, sources: References, links: set<Link>, p: Mrn, c: Mrn)
    requires AllMirrored(targets, sources, links)
    ensures AllMirrored(WithMember(targets, c, p), WithMember(sources, p, c), links + {Link(p, c)})
  {
    forall l ensures Mirrored(WithMember(targets, c, p), WithMember(sources, p, c), links + {Link(p, c)}, l) {
      assert Mirrored(targets, sources, links, l);
    }
  }

  lemma LinkEndPoints(nodes: map<Mrn, Node>, links: set<Link>, parent: Node, child: Node)
    requires AreEndPoints(nodes, links)
    ensures AreEndPoints(nodes[parent.mrn := parent][child.mrn := child], links + {Link(parent.mrn, child.mrn)})
  {
    var links' := links + {Link(parent.mrn, child.mrn)};
    assert Link(parent.mrn, child.mrn) in links';
    forall m | m in nodes ensures IsEndPoint(m, links') {
      assert IsEndPoint(m, links);
      var l :| l in links && (m == l.parent || m == l.child);
      assert l in links';
    }
  }

  method AddReference(references: References, m: Mrn, x: Mrn) returns (r: References)
    ensures r == WithMember(references, m, x)
  {
    r := references;
    if m !in r {
      r := r[m := {}];
    }
    r := r[m := r[m] + {x}];
  }

  class ResolvedFramework {
    var reportTargets: References
    var reportSources: References
    var nodes: map<Mrn, Node>
    ghost var links: set<Link>
    ghost var ends: set<Node>

    ghost predicate Valid()
      reads this
    {
      && AllMirrored(reportTargets, reportSources, links) && AreEndPoints(nodes, links)
      && (forall m :: m in nodes ==> nodes[m] in ends)
    }

    constructor ()
      ensures Valid() && links == {} && ends == {}
    {
      reportTargets, reportSources, nodes, links, ends := map[], map[], map[], {}, {};
    }

    method AddReportLink(parent: Node, child: Node)
      requires Valid()
      modifies this
      ensures Valid() && links == old(links) + {Link(parent.mrn, child.mrn)} && ends == old(ends) + {parent, child}
    {
      LinkEndPoints(nodes, links, parent, child);
      LinkMirrors(reportTargets, reportSources, links, parent.mrn, child.mrn);
      var targets := AddReference(reportTargets, child.mrn, parent.mrn);
      var sources := AddReference(reportSources, parent.mrn, child.mrn);
      nodes := nodes[parent.mrn := parent];
      nodes := nodes[child.mrn := child];
      reportTargets := targets;
      reportSources := sources;
      links, ends := links + {Link(parent.mrn, child.mrn)}, ends + {parent, child};
    }

    method LinkAll(parent: Node, children: seq<Mrn>, typ: NodeType)
      requires Valid()
      modifies this
      ensures Valid() && links == old(links) + LinksTo(parent.mrn, children)
      ensures ends == old(ends) + EndsTo(parent, children, typ)
    {
      for i := 0 to |children|
        invariant Valid() && links == old(links) + LinksTo(parent.mrn, children[..i])
        invariant ends == old(ends) + EndsTo(parent, children[..i], typ)
      {
        AddReportLink(parent, Node(children[i], typ));
        LinksToOneMore(parent, children, typ, i);
      }
      assert children[..|children|] == children;
    }

    method AddControl(control: ControlMap)
      requires Valid()
      modifies this
      ensures Valid() && links == old(links) + ControlLinks(control) && ends == old(ends) + ControlEnds(control)
    {
      var node := Node(control.mrn, ControlNode);
      LinkAll(node, control.checks, CheckNode);
      LinkAll(node, control.policies, PolicyNode);
      LinkAll(node, control.controls, ControlNode);
      LinkAll(node, control.queries, QueryNode);
    }

    /** The graph along which reports travel. */
    function ReportGraph(): Graph<Mrn>
      reads this
    {
      map m | m in nodes :: Members(reportTargets, m)
    }

    /** All nodes, each before everything it reports to, except for targets that report back to it. */
    method TopologicalSort() returns (sorted: array<Mrn>)
      requires Valid()
      ensures fresh(sorted)
      ensures forall i, j :: 0 <= i < j < sorted.Length ==> sorted[i] != sorted[j]
      ensures forall m :: m in nodes <==> m in sorted[..]
      ensures TargetsLater(ReportGraph(), sorted[..])
    {
      var names := SortedKeys(nodes.Keys);
      TargetsAreNodes(reportTargets, reportSources, nodes, links);
      var post := VisitAll(ReportGraph(), names);
      sorted := new Mrn[|post|](i requires 0 <= i < |post| => post[i]);
      assert sorted[..] == post;
      Reverse(sorted);
      ReversedIsTargetsLater(ReportGraph(), post);
      assert sorted[..] == Reversed(post);
      forall i, j | 0 <= i < j < sorted.Length ensures sorted[i] != sorted[j] {
        assert sorted[i] == Reversed(post)[i] && sorted[j] == Reversed(post)[j];
      }
    }
  }

  /** The keys of a map, sorted. */
  method SortedKeys(keys: set<Mrn>) returns (list: seq<Mrn>)
    ensures Sorted(CompareStrings, list)
    ensures forall m :: m in keys <==> m in list
  {
    var unsorted := [];
    var rest := keys;
    while rest != {}
      invariant rest <= keys && forall m :: m in keys - rest <==> m in unsorted
    {
      var m :| m in rest;
      rest, unsorted := rest - {m}, unsorted + [m];
    }
    StringsAreOrdered();
    SortIsSorted(CompareStrings, unsorted);
    SortPermutes(CompareStrings, unsorted);
    list := Sort(CompareStrings, unsorted);
    forall m ensures m in unsorted <==> m in list {
      assert m in multiset(unsorted) <==> m in multiset(list);
    }
  }

  /** Nothing reports to a node that does not exist. */
  lemma TargetsAreNodes(targets: References, sources: References, nodes: map<Mrn, Node>, links: set<Link>)
    requires AllMirrored(targets, sources, links) && AreEndPoints(nodes, links)
    ensures forall m :: m in nodes ==> Members(targets, m) <= nodes.Keys
  {
    forall m, t | m in nodes && t in Members(targets, m) ensures t in nodes {
      assert Mirrored(targets, sources, links, Link(t, m));
    }
  }

  /** Visits the given nodes in order, and with them everything they report to. */
  method VisitAll(graph: Graph<Mrn>, names: seq<Mrn>) returns (post: seq<Mrn>)
    requires forall m :: m in graph <==> m in names
    requires forall m :: m in graph ==> graph[m] <= graph.Keys
    ensures forall i, j :: 0 <= i < j < |post| ==> post[i] != post[j]
    ensures forall m :: m in graph <==> m in post
    ensures SuccessorsFirst(graph, post)
  {
    var visitor := new ReportVisitor(graph);
    for i := 0 to |names|
      invariant fresh(visitor) && visitor.graph == graph && visitor.Valid() && visitor.Pending() == {}
      invariant forall j :: 0 <= j < i ==> names[j] in visitor.visited
    {
      visitor.Visit(names[i]);
    }
    post := visitor.sorted;
    forall m | m in graph ensures m in post {
      assert m !in visitor.Pending();
    }
  }

  ghost predicate SomeSays(frameworks: map<Mrn, Framework>, done: set<Mrn>, parent: Mrn, child: Mrn) {
    exists m :: m in frameworks && m in done && Says(frameworks[m], parent, child)
  }

  ghost predicate SomeMentions(frameworks: map<Mrn, Framework>, done: set<Mrn>, m: Mrn, typ: NodeType) {
    exists f :: f in frameworks && f in done && Mentions(frameworks[f], m, typ)
  }

  /** What is linked so far is what these frameworks say. */
  ghost predicate HasLinked(frameworks: map<Mrn, Framework>, done: set<Mrn>, links: set<Link>, ends: set<Node>) {
    && (forall l :: l in links <==> SomeSays(frameworks, done, l.parent, l.child))
    && (forall n :: n in ends <==> SomeMentions(frameworks, done, n.mrn, n.typ))
  }

  lemma LinkedOneMore(
    frameworks: map<Mrn, Framework>, done: set<Mrn>, m: Mrn, links: set<Link>, ends: set<Node>)
    requires m in frameworks && HasLinked(frameworks, done, links, ends)
    ensures HasLinked(
      frameworks, done + {m}, links + FrameworkLinks(frameworks[m]), ends + FrameworkEnds(frameworks[m]))
  {
    forall l
      ensures l in links + FrameworkLinks(frameworks[m]) <==> SomeSays(frameworks, done + {m}, l.parent, l.child)
    {
      LinksIff(frameworks[m], l);
      if SomeSays(frameworks, done, l.parent, l.child) {
        var n :| n in frameworks && n in done && Says(frameworks[n], l.parent, l.child);
        assert n in done + {m};
      }
      assert m in done + {m};
    }
    forall n
      ensures n in ends + FrameworkEnds(frameworks[m]) <==> SomeMentions(frameworks, done + {m}, n.mrn, n.typ)
    {
      EndsIff(frameworks[m], n);
      if SomeMentions(frameworks, done, n.mrn, n.typ) {
        var f :| f in frameworks && f in done && Mentions(frameworks[f], n.mrn, n.typ);
        assert f in done + {m};
      }
      assert m in done + {m};
    }
  }

  /** Links everything that the given frameworks say, in whatever order the map yields them: something reports
      to something else exactly if a framework says so, and every node is of a type that it is mentioned as. */
  method ResolveFramework(frameworks: map<Mrn, Framework>) returns (res: ResolvedFramework)
    ensures fresh(res) && res.Valid()
    ensures forall p, c :: p in Members(res.reportTargets, c) <==> SomeSays(frameworks, frameworks.Keys, p, c)
    ensures forall p, c :: c in Members(res.reportSources, p) <==> SomeSays(frameworks, frameworks.Keys, p, c)
    ensures forall m :: m in res.nodes <==>
      exists p, c :: SomeSays(frameworks, frameworks.Keys, p, c) && (m == p || m == c)
    ensures forall m :: m in res.nodes ==>
      res.nodes[m].mrn == m && SomeMentions(frameworks, frameworks.Keys, m, res.nodes[m].typ)
  {
    res := new ResolvedFramework();
    var rest := frameworks.Keys;
    while rest != {}
      invariant fresh(res) && res.Valid() && rest <= frameworks.Keys
      invariant HasLinked(frameworks, frameworks.Keys - rest, res.links, res.ends)
    {
      var m :| m in rest;
      LinkedOneMore(frameworks, frameworks.Keys - rest, m, res.links, res.ends);
      assert frameworks.Keys - rest + {m} == frameworks.Keys - (rest - {m});
      rest := rest - {m};
      AddFramework(res, frameworks[m]);
    }
    assert frameworks.Keys - rest == frameworks.Keys;
    LinkedAreSaid(frameworks, res.reportTargets, res.reportSources, res.nodes, res.links, res.ends);
  }

  lemma LinkedAreSaid(
    frameworks: map<Mrn, Framework>, targets: References, sources: References, nodes: map<Mrn, Node>,
    links: set<Link>, ends: set<Node>)
    requires HasLinked(frameworks, frameworks.Keys, links, ends)
    requires AllMirrored(targets, sources, links) && AreEndPoints(nodes, links)
    ensures forall p, c :: p in Members(targets, c) <==> SomeSays(frameworks, frameworks.Keys, p, c)
    ensures forall p, c :: c in Members(sources, p) <==> SomeSays(frameworks, frameworks.Keys, p, c)
    ensures forall m :: m in nodes <==> exists p, c :: SomeSays(frameworks, frameworks.Keys, p, c) && (m == p || m == c)
  {
    forall p, c
      ensures p in Members(targets, c) <==> SomeSays(frameworks, frameworks.Keys, p, c)
      ensures c in Members(sources, p) <==> SomeSays(frameworks, frameworks.Keys, p, c)
    {
      assert Mirrored(targets, sources, links, Link(p, c));
    }
    forall m
      ensures m in nodes <==> exists p, c :: SomeSays(frameworks, frameworks.Keys, p, c) && (m == p || m == c)
    {
      if m in nodes {
        assert IsEndPoint(m, links);
        var l :| l in links && (m == l.parent || m == l.child);
        assert SomeSays(frameworks, frameworks.Keys, l.parent, l.child);
      }
      if p, c :| SomeSays(frameworks, frameworks.Keys, p, c) && (m == p || m == c) {
        assert Link(p, c) in links;
      }
    }
  }

  method AddControls(res: ResolvedFramework, node: Node, controls: seq<ControlMap>)
    requires res.Valid()
    modifies res
    ensures res.Valid() && res.links == old(res.links) + MapLinks(node.mrn, controls)
    ensures res.ends == old(res.ends) + MapEnds(node, controls)
  {
    for j := 0 to |controls|
      invariant res.Valid() && res.links == old(res.links) + MapLinks(node.mrn, controls[..j])
      invariant res.ends == old(res.ends) + MapEnds(node, controls[..j])
    {
      MapLinksOneMore(node, controls, j);
      res.AddReportLink(node, Node(controls[j].mrn, ControlNode));
      res.AddControl(controls[j]);
    }
    assert controls[..|controls|] == controls;
  }

  lemma MapLinksOneMore(framework: Node, controls: seq<ControlMap>, i: nat)
    requires i < |controls|
    ensures MapLinks(framework.mrn, controls[..i + 1]) ==
      MapLinks(framework.mrn, controls[..i]) + {Link(framework.mrn, controls[i].mrn)} + ControlLinks(controls[i])
    ensures MapEnds(framework, controls[..i + 1]) ==
      MapEnds(framework, controls[..i]) + {framework, Node(controls[i].mrn, ControlNode)} + ControlEnds(controls[i])
  {
    assert controls[..i + 1][..i] == controls[..i];
  }

  method AddMaps(res: ResolvedFramework, node: Node, maps: seq<seq<ControlMap>>)
    requires res.Valid()
    modifies res
    ensures res.Valid() && res.links == old(res.links) + MapsLinks(node.mrn, maps)
    ensures res.ends == old(res.ends) + MapsEnds(node, maps)
  {
    for i := 0 to |maps|
      invariant res.Valid() && res.links == old(res.links) + MapsLinks(node.mrn, maps[..i])
      invariant res.ends == old(res.ends) + MapsEnds(node, maps[..i])
    {
      AddControls(res, node, maps[i]);
      assert maps[..i + 1][..i] == maps[..i];
    }
    assert maps[..|maps|] == maps;
  }

  method AddFramework(res: ResolvedFramework, framework: Framework)
    requires res.Valid()
    modifies res
    ensures res.Valid() && res.links == old(res.links) + FrameworkLinks(framework)
    ensures res.ends == old(res.ends) + FrameworkEnds(framework)
  {
    var node := Node(framework.mrn, FrameworkNode);
    AddMaps(res, node, framework.frameworkMaps);
    res.LinkAll(node, framework.dependencies, FrameworkNode);
  }

  class ReportVisitor {
    const graph: Graph<Mrn>
    var visited: set<Mrn>
    var sorted: seq<Mrn>

    constructor (graph: Graph<Mrn>)
      ensures this.graph == graph && visited == {} && sorted == []
    {
      this.graph, visited, sorted := graph, {}, [];
    }

    ghost predicate Valid()
      reads this
    {
      && visited <= graph.Keys
      && (forall i, j :: 0 <= i < j < |sorted| ==> sorted[i] != sorted[j])
      && (forall m :: m in sorted ==> m in visited)
      && SuccessorsFirst(graph, sorted)
    }

    ghost function Pending(): set<Mrn>
      reads this
    {
      set m | m in visited && m !in sorted
    }

    /** Appends a node after everything it reports to, taking the targets in arbitrary order. */
    method Visit(node: Mrn)
      requires Valid() && node in graph && forall m :: m in graph ==> graph[m] <= graph.Keys
      requires AllReach(graph, Pending(), node)
      modifies this
      ensures Valid() && old(visited) + {node} <= visited
      ensures Pending() == old(Pending())
      decreases graph.Keys - visited
    {
      if node in visited {
        return;
      }
      visited := visited + {node};
      ghost var pending := old(Pending()) + {node};
      ReachesSelf(graph, node);
      var rest := graph[node];
      while rest != {}
        invariant Valid() && rest <= graph[node] && old(visited) + {node} <= visited
        invariant Pending() == pending
        invariant forall t :: t in graph[node] && t !in rest ==> t in visited
      {
        var child :| child in rest;
        rest := rest - {child};
        AllReachSuccessor(graph, pending, node, child);
        Visit(child);
      }
      assert node in Pending();
      SuccessorsFirstExtend(graph, sorted, pending, node);
      sorted := sorted + [node];
    }
  }

  // ----- reversal -----

  function Reversed(s: seq<Mrn>): (r: seq<Mrn>)
    ensures |r| == |s| && forall i :: 0 <= i < |s| ==> r[i] == s[|s| - 1 - i]
  {
    seq(|s|, i requires 0 <= i < |s| => s[|s| - 1 - i])
  }

  /** Reverses in place by swapping from the middle outwards. */
  method Reverse(a: array<Mrn>)
    modifies a
    ensures a[..] == Reversed(old(a[..]))
  {
    ghost var s := a[..];
    var n := a.Length;
    var i := n / 2 - 1;
    forall k | i < k < n - 1 - i ensures a[k] == s[n - 1 - k] {
      assert n - 1 - k == k;
    }
    while i >= 0
      invariant -1 <= i && 2 * i + 1 < n
      invariant forall k :: i < k < n - 1 - i ==> a[k] == s[n - 1 - k]
      invariant forall k :: 0 <= k <= i ==> a[k] == s[k]
      invariant forall k :: n - 1 - i <= k < n ==> a[k] == s[k]
    {
      var opp := n - 1 - i;
      assert a[opp] == s[opp];
      a[i], a[opp] := a[opp], a[i];
      i := i - 1;
    }
  }

  /** Every node comes before its targets, except for targets that lead back to it. */
  ghost predicate TargetsLater(g: Graph<Mrn>, s: seq<Mrn>) {
    forall i, t :: 0 <= i < |s| && Edge(g, s[i], t) ==> t in s[i + 1..] || Reaches(g, t, s[i])
  }

  lemma ReversedIsTargetsLater(g: Graph<Mrn>, post: seq<Mrn>)
    requires SuccessorsFirst(g, post)
    ensures TargetsLater(g, Reversed(post))
    ensures forall m :: m in Reversed(post) <==> m in post
  {
    var s := Reversed(post);
    forall m | m in post ensures m in s {
      var i :| 0 <= i < |post| && post[i] == m;
      assert s[|post| - 1 - i] == m;
    }
    forall i, t | 0 <= i < |s| && Edge(g, s[i], t) ensures t in s[i + 1..] || Reaches(g, t, s[i]) {
      var j := |post| - 1 - i;
      if t in post[..j] {
        var k :| 0 <= k < j && post[..j][k] == t;
        assert s[i + 1..][|post| - 1 - k - (i + 1)] == t;
      }
    }
  }

  /** Without reporting cycles, every node comes strictly before all of its targets. */
  lemma AcyclicTargetsComeLater(g: Graph<Mrn>, s: seq<Mrn>)
    requires TargetsLater(g, s) && !HasCycle(g)
    ensures forall i, t :: 0 <= i < |s| && Edge(g, s[i], t) ==> t in s[i + 1..]
  {
    forall i, t | 0 <= i < |s| && Edge(g, s[i], t) ensures t in s[i + 1..] {
      if Reaches(g, t, s[i]) {
        assert OnCycle(g, s[i]);
      }
    }
  }
}
