/** Connecting reporting jobs: what the edges of the graph become, in whatever order they are
    looked at. */
module JobWiring {
  import opened Wrappers
  import opened PolicyTypes
  import opened JobGraph
  import opened ReportingJobs

  /** The links of a job to its children and to the jobs it notifies. */
  datatype Links = Links(childJobs: map<Uuid, Option<Impact>>, notify: seq<Uuid>)

  type Wires = map<Id, Links>

  /** The nodes that have jobs, with their uuids. */
  type Uuids = map<Id, Uuid>

  ghost predicate Distinct(uuids: Uuids) {
    forall a, b :: a in uuids && b in uuids && uuids[a] == uuids[b] ==> a == b
  }

  function Unwired(uuids: Uuids): Wires {
    map id | id in uuids :: Links(map[], [])
  }

  /** One connection, in both directions; a job may be its own child. */
  function Link(w: Wires, uuids: Uuids, child: Id, parent: Id, impact: Option<Impact>): Wires
    requires w.Keys == uuids.Keys && child in uuids && parent in uuids
  {
    var w1 := w[child := w[child].(notify := w[child].notify + [uuids[parent]])];
    w1[parent := w1[parent].(childJobs := w1[parent].childJobs[uuids[child] := impact])]
  }

  // ----- what has been connected -----

  /** The edges connected so far, as pairs of child and parent. */
  type Edges = set<(Id, Id)>

  ghost predicate ChildIs(g: JobGraph, done: Edges, id: Id, childJobs: map<Uuid, Option<Impact>>, c: Id, u: Uuid) {
    && (u in childJobs <==> (c, id) in done)
    && (u in childJobs ==> EdgeImpact(c, childJobs[u]) in g.From(id))
  }

  ghost predicate ChildrenAre(g: JobGraph, uuids: Uuids, done: Edges, id: Id, childJobs: map<Uuid, Option<Impact>>) {
    && childJobs.Keys <= uuids.Values
    && (forall c {:trigger ChildIs(g, done, id, childJobs, c, uuids[c])} :: c in uuids ==>
         ChildIs(g, done, id, childJobs, c, uuids[c]))
  }

  ghost predicate NotifyIs(done: Edges, id: Id, notify: seq<Uuid>, p: Id, u: Uuid) {
    u in notify <==> (id, p) in done
  }

  ghost predicate NotifiesAre(uuids: Uuids, done: Edges, id: Id, notify: seq<Uuid>) {
    && NoDuplicates(notify)
    && (forall u :: u in notify ==> u in uuids.Values)
    && (forall p {:trigger NotifyIs(done, id, notify, p, uuids[p])} :: p in uuids ==>
      NotifyIs(done, id, notify, p, uuids[p]))
  }

  ghost predicate LinksAre(g: JobGraph, uuids: Uuids, done: Edges, id: Id, links: Links) {
    ChildrenAre(g, uuids, done, id, links.childJobs) && NotifiesAre(uuids, done, id, links.notify)
  }

  ghost predicate WiredFor(g: JobGraph, uuids: Uuids, done: Edges, w: Wires) {
    && w.Keys == uuids.Keys
    && (forall id {:trigger LinksAre(g, uuids, done, id, w[id])} :: id in uuids ==> LinksAre(g, uuids, done, id, w[id]))
  }

  lemma UnwiredIsWired(g: JobGraph, uuids: Uuids)
    ensures WiredFor(g, uuids, {}, Unwired(uuids))
  {
  }

  lemma LinkKeepsChildren(
      g: JobGraph, uuids: Uuids, done: Edges, w: Wires, child: Id, parent: Id, impact: Option<Impact>, id: Id)
    requires w.Keys == uuids.Keys && Distinct(uuids) && child in uuids && parent in uuids && id in uuids
    requires LinksAre(g, uuids, done, id, w[id]) && EdgeImpact(child, impact) in g.From(parent)
    ensures ChildrenAre(g, uuids, done + {(child, parent)}, id, Link(w, uuids, child, parent, impact)[id].childJobs)
  {
    var before := w[id].childJobs;
    assert ChildrenAre(g, uuids, done, id, before);
    var after := Link(w, uuids, child, parent, impact)[id].childJobs;
    assert after == if id == parent then before[uuids[child] := impact] else before;
    forall c | c in uuids ensures ChildIs(g, done + {(child, parent)}, id, after, c, uuids[c]) {
      assert ChildIs(g, done, id, before, c, uuids[c]);
    }
  }

  lemma LinkKeepsNotifies(
      g: JobGraph, uuids: Uuids, done: Edges, w: Wires, child: Id, parent: Id, impact: Option<Impact>, id: Id)
    requires w.Keys == uuids.Keys && Distinct(uuids) && child in uuids && parent in uuids && id in uuids
    requires LinksAre(g, uuids, done, id, w[id]) && (child, parent) !in done
    ensures NotifiesAre(uuids, done + {(child, parent)}, id, Link(w, uuids, child, parent, impact)[id].notify)
  {
    var before := w[id].notify;
    assert NotifiesAre(uuids, done, id, before);
    var after := Link(w, uuids, child, parent, impact)[id].notify;
    assert after == if id == child then before + [uuids[parent]] else before;
    assert NotifyIs(done, id, before, parent, uuids[parent]);
    forall p | p in uuids ensures NotifyIs(done + {(child, parent)}, id, after, p, uuids[p]) {
      assert NotifyIs(done, id, before, p, uuids[p]);
    }
  }

  /** Connecting a further edge; the jobs were not connected that way before. */
  lemma LinkKeepsWired(g: JobGraph, uuids: Uuids, done: Edges, w: Wires, child: Id, parent: Id, impact: Option<Impact>)
    requires WiredFor(g, uuids, done, w) && Distinct(uuids) && child in uuids && parent in uuids
    requires (child, parent) !in done && EdgeImpact(child, impact) in g.From(parent)
    ensures WiredFor(g, uuids, done + {(child, parent)}, Link(w, uuids, child, parent, impact))
    ensures uuids[parent] !in w[child].notify
  {
    assert uuids[parent] !in w[child].notify by {
      assert LinksAre(g, uuids, done, child, w[child]) && NotifyIs(done, child, w[child].notify, parent, uuids[parent]);
    }
    var w', done' := Link(w, uuids, child, parent, impact), done + {(child, parent)};
    forall id | id in uuids ensures LinksAre(g, uuids, done', id, w'[id]) {
      LinkKeepsLinks(g, uuids, done, w, child, parent, impact, id);
    }
  }

  lemma LinkKeepsLinks(
      g: JobGraph, uuids: Uuids, done: Edges, w: Wires, child: Id, parent: Id, impact: Option<Impact>, id: Id)
    requires WiredFor(g, uuids, done, w) && Distinct(uuids) && child in uuids && parent in uuids && id in uuids
    requires (child, parent) !in done && EdgeImpact(child, impact) in g.From(parent)
    ensures LinksAre(g, uuids, done + {(child, parent)}, id, Link(w, uuids, child, parent, impact)[id])
  {
    assert LinksAre(g, uuids, done, id, w[id]);
    LinkKeepsChildren(g, uuids, done, w, child, parent, impact, id);
    LinkKeepsNotifies(g, uuids, done, w, child, parent, impact, id);
  }

  // ----- the finished wiring -----

  /** All edges between nodes that have jobs. */
  ghost predicate AllEdges(g: JobGraph, uuids: Uuids, done: Edges) {
    forall c, p :: c in uuids && p in uuids ==> ((c, p) in done <==> g.HasSource(p, c))
  }

  ghost predicate FullyWired(g: JobGraph, uuids: Uuids, w: Wires) {
    exists done :: AllEdges(g, uuids, done) && WiredFor(g, uuids, done, w)
  }

  /** A job notifies another one exactly if it is among the children of that one, which is exactly
      if the graph has the edge. */
  lemma NotifyMirrorsChildren(g: JobGraph, uuids: Uuids, w: Wires, c: Id, p: Id)
    requires FullyWired(g, uuids, w) && c in uuids && p in uuids
    ensures p in w && c in w
    ensures uuids[p] in w[c].notify <==> uuids[c] in w[p].childJobs
    ensures uuids[c] in w[p].childJobs <==> g.HasSource(p, c)
    ensures uuids[c] in w[p].childJobs ==> EdgeImpact(c, w[p].childJobs[uuids[c]]) in g.From(p)
  {
    var done :| AllEdges(g, uuids, done) && WiredFor(g, uuids, done, w);
    assert LinksAre(g, uuids, done, p, w[p]) && LinksAre(g, uuids, done, c, w[c]);
    assert ChildIs(g, done, p, w[p].childJobs, c, uuids[c]) && NotifyIs(done, c, w[c].notify, p, uuids[p]);
    assert (c, p) in done <==> g.HasSource(p, c);
  }

  lemma ImpactIsUnique(g: JobGraph, b: Id, a: Id, x: Option<Impact>, y: Option<Impact>)
    requires DistinctSources(g.From(b)) && EdgeImpact(a, x) in g.From(b) && EdgeImpact(a, y) in g.From(b)
    ensures x == y
  {
    var i :| 0 <= i < |g.From(b)| && g.From(b)[i] == EdgeImpact(a, x);
    var j :| 0 <= j < |g.From(b)| && g.From(b)[j] == EdgeImpact(a, y);
    assert i == j;
  }

  /** In whatever order the edges are connected, the children of a job and their impacts are the
      same, and so are the jobs it notifies, each of them once. */
  lemma WiringIsUnique(g: JobGraph, uuids: Uuids, v: Wires, w: Wires, id: Id)
    requires Mirrored(g) && FullyWired(g, uuids, v) && FullyWired(g, uuids, w) && id in uuids
    ensures id in v && id in w && v[id].childJobs == w[id].childJobs
    ensures NoDuplicates(v[id].notify) && NoDuplicates(w[id].notify)
    ensures multiset(v[id].notify) == multiset(w[id].notify)
  {
    SameChildren(g, uuids, v, w, id);
    SameNotifies(g, uuids, v, w, id);
    SameDistinctMembers(v[id].notify, w[id].notify);
  }

  lemma SameChildren(g: JobGraph, uuids: Uuids, v: Wires, w: Wires, id: Id)
    requires Mirrored(g) && FullyWired(g, uuids, v) && FullyWired(g, uuids, w) && id in uuids
    ensures id in v && id in w && v[id].childJobs == w[id].childJobs
  {
    var a :| AllEdges(g, uuids, a) && WiredFor(g, uuids, a, v);
    var b :| AllEdges(g, uuids, b) && WiredFor(g, uuids, b, w);
    assert LinksAre(g, uuids, a, id, v[id]) && LinksAre(g, uuids, b, id, w[id]);
    forall u | u in v[id].childJobs || u in w[id].childJobs ensures SameAt(v[id].childJobs, w[id].childJobs, u) {
      var c :| c in uuids && uuids[c] == u;
      SameChild(g, uuids, a, b, id, v[id].childJobs, w[id].childJobs, c);
    }
    SameEverywhere(v[id].childJobs, w[id].childJobs);
  }

  lemma SameEverywhere(x: map<Uuid, Option<Impact>>, y: map<Uuid, Option<Impact>>)
    requires forall u :: u in x || u in y ==> SameAt(x, y, u)
    ensures x == y
  {
    assert x.Keys == y.Keys by {
      forall u ensures u in x <==> u in y {
        if u in x || u in y {
          assert SameAt(x, y, u);
        }
      }
    }
    forall u | u in x ensures x[u] == y[u] {
      assert SameAt(x, y, u);
    }
  }

  lemma SameChild(
    g: JobGraph, uuids: Uuids, a: Edges, b: Edges, id: Id, x: map<Uuid, Option<Impact>>, y: map<Uuid, Option<Impact>>,
      c: Id)
    requires Mirrored(g) && AllEdges(g, uuids, a) && AllEdges(g, uuids, b) && id in uuids && c in uuids
    requires ChildrenAre(g, uuids, a, id, x) && ChildrenAre(g, uuids, b, id, y)
    ensures SameAt(x, y, uuids[c])
  {
    assert ChildIs(g, a, id, x, c, uuids[c]) && ChildIs(g, b, id, y, c, uuids[c]);
    assert (c, id) in a <==> (c, id) in b;
    assert DistinctSources(g.From(id));
    if uuids[c] in x {
      ImpactIsUnique(g, id, c, x[uuids[c]], y[uuids[c]]);
    }
  }

  predicate SameAt(x: map<Uuid, Option<Impact>>, y: map<Uuid, Option<Impact>>, u: Uuid) {
    (u in x <==> u in y) && (u in x ==> x[u] == y[u])
  }

  lemma SameNotifies(g: JobGraph, uuids: Uuids, v: Wires, w: Wires, id: Id)
    requires FullyWired(g, uuids, v) && FullyWired(g, uuids, w) && id in uuids
    ensures id in v && id in w
    ensures NoDuplicates(v[id].notify) && NoDuplicates(w[id].notify)
    ensures forall u :: u in v[id].notify <==> u in w[id].notify
  {
    var a :| AllEdges(g, uuids, a) && WiredFor(g, uuids, a, v);
    var b :| AllEdges(g, uuids, b) && WiredFor(g, uuids, b, w);
    assert LinksAre(g, uuids, a, id, v[id]) && LinksAre(g, uuids, b, id, w[id]);
    forall u ensures u in v[id].notify <==> u in w[id].notify {
      if u in uuids.Values {
        var p :| p in uuids && uuids[p] == u;
        assert NotifyIs(a, id, v[id].notify, p, u) && NotifyIs(b, id, w[id].notify, p, u);
        assert (id, p) in a <==> (id, p) in b;
      }
    }
  }

  lemma {:induction false} CountInDistinct<T>(s: seq<T>, x: T)
    requires NoDuplicates(s)
    ensures multiset(s)[x] == if x in s then 1 else 0
  {
    if s != [] {
      var front, last := s[..|s| - 1], s[|s| - 1];
      assert s == front + [last];
      CountInDistinct(front, x);
    }
  }

  lemma SameDistinctMembers<T>(a: seq<T>, b: seq<T>)
    requires NoDuplicates(a) && NoDuplicates(b) && forall x :: x in a <==> x in b
    ensures multiset(a) == multiset(b)
  {
    forall x ensures multiset(a)[x] == multiset(b)[x] {
      CountInDistinct(a, x);
      CountInDistinct(b, x);
    }
  }
}
