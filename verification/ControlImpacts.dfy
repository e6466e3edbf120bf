/** What controls are told by code: where several of their queries run the same code, the first one
    decides. */
module ControlImpacts {
  import opened Wrappers
  import opened PolicyTypes
  import opened PolicyWindow
  import opened PolicyBundle
  import opened JobGraph
  import opened VariantSelection
  import opened GraphRules
  import opened GraphParts
  import opened PolicyRules
  import opened FrameworkParts
  import opened GraphContents
  import opened PolicyImpacts
  import opened FrameworkImpacts

  /** A query as a control lists it: data queries are ignored. */
  datatype Listing = Listing(query: Mrn, isData: bool)

  function ListingImpact(c: Config, l: Listing): Option<Impact> {
    if l.isData then Some(IGNORED_IMPACT) else ActionToImpact(c, QueryMrn(l.query))
  }

  type Codes = iset<(Mrn, CodeId)>

  /** What the first listing that runs this code says, if there is one. */
  ghost function FirstSays(c: Config, codes: Codes, log: seq<Listing>, code: CodeId): Option<Option<Impact>> {
    if log == [] then None
    else
      var front, last := FirstSays(c, codes, log[..|log| - 1], code), log[|log| - 1];
      if front.Some? then front
      else if (last.query, code) in codes then Some(ListingImpact(c, last)) else None
  }

  lemma {:induction false} FirstSaysIff(c: Config, codes: Codes, log: seq<Listing>, code: CodeId, i: Option<Impact>)
    ensures FirstSays(c, codes, log, code) == Some(i) <==>
      exists n :: 0 <= n < |log| && (log[n].query, code) in codes && i == ListingImpact(c, log[n])
        && forall j :: 0 <= j < n ==> (log[j].query, code) !in codes
    ensures FirstSays(c, codes, log, code).None? <==> forall j :: 0 <= j < |log| ==> (log[j].query, code) !in codes
  {
    if log != [] {
      FirstSaysIff(c, codes, log[..|log| - 1], code, i);
    }
  }

  /** An edge from the code to the control says what the first listing with that code says, and there
      is one if there is such a listing. */
  ghost predicate Follows(c: Config, g: JobGraph, codes: Codes, log: seq<Listing>, code: CodeId, k: Mrn) {
    && (forall i {:trigger Carries(g, ControlMrn(k), EdgeImpact(CodeNode(code), i))} ::
          Carries(g, ControlMrn(k), EdgeImpact(CodeNode(code), i)) ==> FirstSays(c, codes, log, code) == Some(i))
    && (FirstSays(c, codes, log, code).Some? ==> HasEdge(g, CodeNode(code), ControlMrn(k)))
  }

  // ----- the listings of a control, in the order in which they are visited -----

  function Listings(list: seq<Mrn>, isData: bool): (r: seq<Listing>)
    ensures |r| == |list|
  {
    seq(|list|, i requires 0 <= i < |list| => Listing(list[i], isData))
  }

  /** What this record lists for the control k. */
  function OwnListings(c: Config, k: Mrn, control: Control): seq<Listing> {
    if control.mrn == k && CanRun(c.ActionOf(ControlMrn(k))) then
      Listings(control.checks, false) + Listings(control.queries, true)
    else []
  }

  function ListListings(c: Config, k: Mrn, controls: seq<Control>): seq<Listing> {
    if controls == [] then []
    else ListListings(c, k, controls[..|controls| - 1]) + OwnListings(c, k, controls[|controls| - 1])
  }

  function MapListings(c: Config, k: Mrn, maps: seq<FrameworkMap>): seq<Listing> {
    if maps == [] then []
    else MapListings(c, k, maps[..|maps| - 1]) + ListListings(c, k, maps[|maps| - 1].controls)
  }

  predicate AreFrameworks(c: Config, visits: seq<Mrn>) {
    forall v :: v in visits ==> v in c.bundle.frameworks
  }

  function VisitListings(c: Config, k: Mrn, visits: seq<Mrn>): seq<Listing>
    requires AreFrameworks(c, visits)
  {
    if visits == [] then []
    else
      VisitListings(c, k, visits[..|visits| - 1]) + MapListings(c, k, c.bundle.frameworks[visits[|visits| - 1]].maps)
  }

  // ----- one more edge -----

  lemma OtherEdgeFollows(
      c: Config, g: JobGraph, a: Id, b: Id, impact: Option<Impact>, codes: Codes, log: seq<Listing>,
      code: CodeId, k: Mrn)
    requires Follows(c, g, codes, log, code, k) && (a != CodeNode(code) || b != ControlMrn(k))
    ensures Follows(c, g.AddEdge(a, b, impact), codes, log, code, k)
  {
    var h := g.AddEdge(a, b, impact);
    forall i | Carries(h, ControlMrn(k), EdgeImpact(CodeNode(code), i))
      ensures Carries(g, ControlMrn(k), EdgeImpact(CodeNode(code), i))
    {
    }
  }

  lemma FirstOneMore(c: Config, codes: Codes, log: seq<Listing>, l: Listing, code: CodeId)
    ensures FirstSays(c, codes, log + [l], code) ==
      var front := FirstSays(c, codes, log, code);
      if front.Some? then front else if (l.query, code) in codes then Some(ListingImpact(c, l)) else None
  {
    assert (log + [l])[..|log|] == log;
  }

  /** A listing whose query is in the graph brings the edge from its code. */
  lemma ListingFollows(
      c: Config, g: JobGraph, m: Mrn, l: Listing, known: Known, log: seq<Listing>, code: CodeId, k: Mrn)
    requires Knows(g, known) && Follows(c, g, known.code, log, code, k)
    ensures IsQuery(g, l.query) && m == k ==>
      Follows(c, g.AddEdge(CodeNode(g.nodes[QueryMrn(l.query)].selected), ControlMrn(m), ListingImpact(c, l)),
        known.code, log + [l], code, k)
    ensures !IsQuery(g, l.query) ==> Follows(c, g, known.code, log + [l], code, k)
  {
    FirstOneMore(c, known.code, log, l, code);
    assert (l.query, code) in known.code <==> IsQuery(g, l.query) && g.nodes[QueryMrn(l.query)].selected == code;
    if IsQuery(g, l.query) && m == k {
      var selected := g.nodes[QueryMrn(l.query)].selected;
      NewEdgeFollows(c, g, selected, l, known.code, log, code, k);
    }
  }

  lemma NewEdgeFollows(
      c: Config, g: JobGraph, selected: CodeId, l: Listing, codes: Codes, log: seq<Listing>, code: CodeId, k: Mrn)
    requires Follows(c, g, codes, log, code, k) && ((l.query, code) in codes <==> selected == code)
    ensures Follows(c, g.AddEdge(CodeNode(selected), ControlMrn(k), ListingImpact(c, l)), codes, log + [l], code, k)
  {
    var h := g.AddEdge(CodeNode(selected), ControlMrn(k), ListingImpact(c, l));
    FirstOneMore(c, codes, log, l, code);
    forall i | Carries(h, ControlMrn(k), EdgeImpact(CodeNode(code), i))
      ensures FirstSays(c, codes, log + [l], code) == Some(i)
    {
      if !Carries(g, ControlMrn(k), EdgeImpact(CodeNode(code), i)) {
        assert selected == code && i == ListingImpact(c, l) && !HasEdge(g, CodeNode(code), ControlMrn(k));
      }
    }
  }

  lemma NothingNewFollows(
      c: Config, rank: Mrn -> nat, g: JobGraph, h: JobGraph, codes: Codes, log: seq<Listing>, code: CodeId, k: Mrn)
    requires Sound(c, rank, g) && Extends(c, rank, g, h) && Follows(c, g, codes, log, code, k)
    requires HasEdge(h, CodeNode(code), ControlMrn(k)) ==> HasEdge(g, CodeNode(code), ControlMrn(k))
    ensures Follows(c, h, codes, log, code, k)
  {
    var a, b := CodeNode(code), ControlMrn(k);
    forall i | Carries(h, b, EdgeImpact(a, i)) ensures Carries(g, b, EdgeImpact(a, i)) {
      CarriedIsEdge(h, b, EdgeImpact(a, i));
      OldEdgeKeepsImpact(g, h, b, EdgeImpact(a, i));
    }
    if HasEdge(g, a, b) {
      EdgeStays(g, h, a, b);
    }
  }

  // ----- controls -----

  /** The log with these listings added, if they belong to the control in question. */
  function Logged(log: seq<Listing>, belongs: bool, more: seq<Listing>): seq<Listing> {
    if belongs then log + more else log
  }

  lemma LoggedOneMore(log: seq<Listing>, list: seq<Mrn>, isData: bool)
    requires list != []
    ensures log + Listings(list, isData) ==
      log + Listings(list[..|list| - 1], isData) + [Listing(list[|list| - 1], isData)]
  {
  }

  lemma {:induction false} ControlQueriesFollow(
      c: Config, rank: Mrn -> nat, g: JobGraph, m: Mrn, list: seq<Mrn>, isData: bool, known: Known,
      log: seq<Listing>, code: CodeId, k: Mrn)
    requires Sound(c, rank, g) && Knows(g, known) && Follows(c, g, known.code, log, code, k)
    ensures var h := WithControlQueries(c, rank, g, m, list, isData).0;
      Knows(h, known) && Follows(c, h, known.code, Logged(log, m == k, Listings(list, isData)), code, k)
  {
    if list == [] {
      assert log + Listings(list, isData) == log;
    } else {
      var front, l := list[..|list| - 1], Listing(list[|list| - 1], isData);
      ControlQueriesFollow(c, rank, g, m, front, isData, known, log, code, k);
      var done := WithControlQueries(c, rank, g, m, front, isData).0;
      var logged := Logged(log, m == k, Listings(front, isData));
      SameNodesSameKnown(g, WithControlQueries(c, rank, g, m, list, isData).0, known);
      LoggedOneMore(log, list, isData);
      ListingFollows(c, done, m, l, known, logged, code, k);
      if IsQuery(done, l.query) && m != k {
        OtherEdgeFollows(c, done, CodeNode(done.nodes[QueryMrn(l.query)].selected), ControlMrn(m), ListingImpact(c, l),
          known.code, logged, code, k);
      }
    }
  }

  /** Policies and sub-controls bring no edges from code. */
  lemma ControlRestFollows(
      c: Config, rank: Mrn -> nat, g: JobGraph, control: Control, known: Known, log: seq<Listing>, code: CodeId, k: Mrn)
    requires Sound(c, rank, g) && Knows(g, known) && Follows(c, g, known.code, log, code, k)
    ensures var g1 := WithControlPolicies(c, rank, g, control.mrn, control.policies).0;
      var h := WithControlControls(c, rank, g1, control.mrn, control.controls);
      Knows(h, known) && Follows(c, h, known.code, log, code, k)
  {
    var x := EdgePart(CodeNode(code), ControlMrn(k));
    var g1 := WithControlPolicies(c, rank, g, control.mrn, control.policies).0;
    var h := WithControlControls(c, rank, g1, control.mrn, control.controls);
    ControlPoliciesParts(c, rank, g, control.mrn, control.policies, known, x);
    NothingNewFollows(c, rank, g, g1, known.code, log, code, k);
    ControlControlsParts(c, rank, g1, control.mrn, control.controls, known, x);
    NothingNewFollows(c, rank, g1, h, known.code, log, code, k);
  }

  lemma ControlFollows(
      c: Config, rank: Mrn -> nat, g: JobGraph, control: Control, known: Known, log: seq<Listing>, code: CodeId, k: Mrn)
    requires Sound(c, rank, g) && Knows(g, known) && Follows(c, g, known.code, log, code, k)
    ensures var h := WithControl(c, rank, g, control);
      && Knows(h, known)
      && Follows(c, h, known.code,
           Logged(log, control.mrn == k, Listings(control.checks, false) + Listings(control.queries, true)), code, k)
  {
    var m, mine := control.mrn, control.mrn == k;
    ControlQueriesFollow(c, rank, g, m, control.checks, false, known, log, code, k);
    var checks, log1 := WithControlQueries(c, rank, g, m, control.checks, false).0,
      Logged(log, mine, Listings(control.checks, false));
    ControlQueriesFollow(c, rank, checks, m, control.queries, true, known, log1, code, k);
    var queries, log2 := WithControlQueries(c, rank, checks, m, control.queries, true).0,
      Logged(log1, mine, Listings(control.queries, true));
    ControlRestFollows(c, rank, queries, control, known, log2, code, k);
    assert log2 == Logged(log, mine, Listings(control.checks, false) + Listings(control.queries, true));
    var fed := WithControlEdges(c, rank, g, control).0;
    KnownAfterControl(fed, known, m);
    NodeFollows(c, fed, ControlNode(m), known.code, log2, code, k);
  }

  lemma NodeFollows(c: Config, g: JobGraph, n: Node, codes: Codes, log: seq<Listing>, code: CodeId, k: Mrn)
    requires Follows(c, g, codes, log, code, k)
    ensures Follows(c, g.AddNode(n), codes, log, code, k)
  {
    var h := g.AddNode(n);
    assert h.From(ControlMrn(k)) == g.From(ControlMrn(k)) && h.To(CodeNode(code)) == g.To(CodeNode(code));
    forall i | Carries(h, ControlMrn(k), EdgeImpact(CodeNode(code), i))
      ensures Carries(g, ControlMrn(k), EdgeImpact(CodeNode(code), i))
    {
    }
  }

  // ----- frameworks -----

  ghost predicate Keeps(c: Config, g: JobGraph, known: Known, log: seq<Listing>, code: CodeId, k: Mrn) {
    Knows(g, known) && Follows(c, g, known.code, log, code, k)
  }

  lemma LinkFollows(
      c: Config, g: JobGraph, a: Id, b: Id, impact: Option<Impact>, known: Known, log: seq<Listing>,
      code: CodeId, k: Mrn)
    requires Keeps(c, g, known, log, code, k) && !b.ControlMrn?
    ensures Keeps(c, g.AddEdge(a, b, impact), known, log, code, k)
  {
    SameNodesSameKnown(g, g.AddEdge(a, b, impact), known);
    OtherEdgeFollows(c, g, a, b, impact, known.code, log, code, k);
  }

  lemma OwnLogged(c: Config, log: seq<Listing>, control: Control, k: Mrn)
    ensures log + OwnListings(c, k, control) ==
      if CanRun(c.ActionOf(ControlMrn(control.mrn))) then
        Logged(log, control.mrn == k, Listings(control.checks, false) + Listings(control.queries, true))
      else log
  {
  }

  lemma OwnedFollows(
      c: Config, rank: Mrn -> nat, g: JobGraph, owner: Mrn, control: Control, known: Known, log: seq<Listing>,
      code: CodeId, k: Mrn)
    requires Sound(c, rank, g) && Keeps(c, g, known, log, code, k)
    ensures Keeps(c, WithOwned(c, rank, g, owner, control), known, log + OwnListings(c, k, control), code, k)
  {
    var id := ControlMrn(control.mrn);
    OwnLogged(c, log, control, k);
    if CanRun(c.ActionOf(id)) {
      ControlFollows(c, rank, g, control, known, log, code, k);
      LinkFollows(c, WithControl(c, rank, g, control), id, FrameworkId(c, owner), ActionToImpact(c, id), known,
        log + OwnListings(c, k, control), code, k);
    }
  }

  lemma ListListingsOneMore(c: Config, k: Mrn, controls: seq<Control>, log: seq<Listing>)
    requires controls != []
    ensures log + ListListings(c, k, controls) ==
      log + ListListings(c, k, controls[..|controls| - 1]) + OwnListings(c, k, controls[|controls| - 1])
  {
  }

  lemma MapListingsOneMore(c: Config, k: Mrn, maps: seq<FrameworkMap>, log: seq<Listing>)
    requires maps != []
    ensures log + MapListings(c, k, maps) ==
      log + MapListings(c, k, maps[..|maps| - 1]) + ListListings(c, k, maps[|maps| - 1].controls)
  {
  }

  lemma {:induction false} OwnedControlsFollow(
      c: Config, rank: Mrn -> nat, g: JobGraph, owner: Mrn, controls: seq<Control>, known: Known, log: seq<Listing>,
      code: CodeId, k: Mrn)
    requires Sound(c, rank, g) && Keeps(c, g, known, log, code, k)
    ensures Keeps(c, WithOwnedControls(c, rank, g, owner, controls), known, log + ListListings(c, k, controls), code, k)
  {
    if controls == [] {
      assert log + [] == log;
    } else {
      var front, last := controls[..|controls| - 1], controls[|controls| - 1];
      OwnedControlsFollow(c, rank, g, owner, front, known, log, code, k);
      ListListingsOneMore(c, k, controls, log);
      OwnedFollows(c, rank, WithOwnedControls(c, rank, g, owner, front), owner, last, known,
        log + ListListings(c, k, front), code, k);
    }
  }

  lemma {:induction false} MapsFollow(
      c: Config, rank: Mrn -> nat, g: JobGraph, maps: seq<FrameworkMap>, known: Known, log: seq<Listing>,
      code: CodeId, k: Mrn)
    requires Sound(c, rank, g) && Keeps(c, g, known, log, code, k)
    ensures Keeps(c, WithMaps(c, rank, g, maps), known, log + MapListings(c, k, maps), code, k)
  {
    if maps == [] {
      assert log + [] == log;
    } else {
      var front, last := maps[..|maps| - 1], maps[|maps| - 1];
      MapsFollow(c, rank, g, front, known, log, code, k);
      MapListingsOneMore(c, k, maps, log);
      OwnedControlsFollow(c, rank, WithMaps(c, rank, g, front), last.owner, last.controls, known,
        log + MapListings(c, k, front), code, k);
    }
  }

  lemma VisitListingsOneMore(c: Config, k: Mrn, visits: seq<Mrn>, m: Mrn)
    requires AreFrameworks(c, visits) && m in c.bundle.frameworks
    ensures AreFrameworks(c, visits + [m])
    ensures VisitListings(c, k, visits + [m]) ==
      VisitListings(c, k, visits) + MapListings(c, k, c.bundle.frameworks[m].maps)
  {
    assert (visits + [m])[..|visits|] == visits;
  }

  lemma OneMoreToBoth(a: seq<Mrn>, b: seq<Mrn>, x: seq<Listing>, y: seq<Listing>, z: seq<Listing>)
    requires b != []
    ensures a + b == a + b[..|b| - 1] + [b[|b| - 1]] && x + (y + z) == x + y + z
  {
  }

  lemma {:induction false} VisitListingsBoth(c: Config, k: Mrn, a: seq<Mrn>, b: seq<Mrn>)
    requires AreFrameworks(c, a) && AreFrameworks(c, b)
    ensures AreFrameworks(c, a + b) && VisitListings(c, k, a + b) == VisitListings(c, k, a) + VisitListings(c, k, b)
    decreases |b|
  {
    if b == [] {
      assert a + b == a;
    } else {
      var front, last := b[..|b| - 1], b[|b| - 1];
      assert last in b;
      VisitListingsBoth(c, k, a, front);
      VisitListingsOneMore(c, k, a + front, last);
      OneMoreToBoth(a, b, VisitListings(c, k, a), VisitListings(c, k, front),
        MapListings(c, k, c.bundle.frameworks[last].maps));
    }
  }

  lemma VisitListingsOne(c: Config, k: Mrn, m: Mrn)
    requires m in c.bundle.frameworks
    ensures VisitListings(c, k, [m]) == MapListings(c, k, c.bundle.frameworks[m].maps)
  {
    assert [m][..0] == [];
  }

  /** What the visits of a framework add to the log. */
  lemma {:induction false} FrameworkFollows(
      c: Config, ranks: Ranks, g: JobGraph, m: Mrn, known: Known, log: seq<Listing>, code: CodeId, k: Mrn)
    requires WellFormed(c, ranks) && Sound(c, ranks.query, g) && m in c.bundle.frameworks
    requires Keeps(c, g, known, log, code, k)
    ensures var visits := Visits(c, ranks, m);
      Keeps(c, WithFramework(c, ranks, g, m), After(c, known, visits), log + VisitListings(c, k, visits), code, k)
    decreases Level(c.bundle.frameworks, ranks.framework, m), 0, 0
  {
    if !RunsFramework(c, m) {
      AfterNothing(c, known);
      assert log + [] == log;
    } else {
      var impact := if FrameworkId(c, m) in g.nodes then Some(IGNORED_IMPACT) else None;
      var g1 := StartFollows(c, ranks.query, g, m, known, log, code, k);
      BodyFollows(c, ranks, g1, m, impact, After(c, known, [m]), log, code, k);
      VisitsLogged(c, ranks, known, log, m, k);
    }
  }

  lemma StartFollows(
      c: Config, rank: Mrn -> nat, g: JobGraph, m: Mrn, known: Known, log: seq<Listing>, code: CodeId, k: Mrn)
    returns (g1: JobGraph)
    requires Sound(c, rank, g) && Keeps(c, g, known, log, code, k)
    ensures g1 == if FrameworkId(c, m) in g.nodes then g else g.AddNode(FrameworkNode(FrameworkId(c, m)))
    ensures Sound(c, rank, g1) && Keeps(c, g1, After(c, known, [m]), log, code, k)
  {
    var n := FrameworkNode(FrameworkId(c, m));
    if n.id in g.nodes {
      g1 := g;
      KnownAfterAgain(c, g, known, m);
    } else {
      g1 := g.AddNode(n);
      KnownAfterNode(c, g, known, m);
      NodeFollows(c, g, n, known.code, log, code, k);
      AddNodeKeepsSound(c, rank, g, n);
    }
  }

  lemma VisitsLogged(c: Config, ranks: Ranks, known: Known, log: seq<Listing>, m: Mrn, k: Mrn)
    requires WellFormed(c, ranks) && m in c.bundle.frameworks && RunsFramework(c, m)
    ensures var f, visits := c.bundle.frameworks[m], Visits(c, ranks, m);
      && After(c, known, visits) == After(c, After(c, known, [m]), VisitsOfAll(c, ranks, f.dependencies))
      && log + VisitListings(c, k, visits) ==
           log + MapListings(c, k, f.maps) + VisitListings(c, k, VisitsOfAll(c, ranks, f.dependencies))
  {
    var below := VisitsOfAll(c, ranks, c.bundle.frameworks[m].dependencies);
    AfterBoth(c, known, [m], below);
    VisitListingsBoth(c, k, [m], below);
    VisitListingsOne(c, k, m);
  }

  lemma BodyFollows(
      c: Config, ranks: Ranks, g: JobGraph, m: Mrn, impact: Option<Impact>, known: Known, log: seq<Listing>,
      code: CodeId, k: Mrn)
    requires WellFormed(c, ranks) && Sound(c, ranks.query, g) && m in c.bundle.frameworks && IsPlain(impact)
    requires Keeps(c, g, known, log, code, k)
    ensures var f := c.bundle.frameworks[m];
      var visits := VisitsOfAll(c, ranks, f.dependencies);
      Keeps(c, WithFrameworkParts(c, ranks, g, m, impact), After(c, known, visits),
        log + MapListings(c, k, f.maps) + VisitListings(c, k, visits), code, k)
    decreases Level(c.bundle.frameworks, ranks.framework, m) - 1, 2, 0
  {
    var f, bound := c.bundle.frameworks[m], Level(c.bundle.frameworks, ranks.framework, m) - 1;
    DependenciesAreLower(c, ranks, m);
    FrameworkBody(c, ranks, g, m, impact, bound);
    MapsFollow(c, ranks.query, g, f.maps, known, log, code, k);
    DependenciesFollow(c, ranks, WithMaps(c, ranks.query, g, f.maps), FrameworkId(c, m), impact, f.dependencies, bound,
      known, log + MapListings(c, k, f.maps), code, k);
  }

  lemma {:induction false} DependenciesFollow(
      c: Config, ranks: Ranks, g: JobGraph, id: Id, impact: Option<Impact>, deps: seq<Mrn>, bound: nat, known: Known,
      log: seq<Listing>, code: CodeId, k: Mrn)
    requires WellFormed(c, ranks) && Sound(c, ranks.query, g) && (id.FrameworkMrn? || id.PolicyMrn?) && IsPlain(impact)
    requires ListLevel(c.bundle.frameworks, ranks.framework, deps) <= bound && Keeps(c, g, known, log, code, k)
    ensures var visits := VisitsOfAll(c, ranks, deps);
      Keeps(c, WithDependencies(c, ranks, g, id, impact, deps, bound), After(c, known, visits),
        log + VisitListings(c, k, visits), code, k)
    decreases bound, 1, |deps|
  {
    if deps == [] {
      AfterNothing(c, known);
      assert log + [] == log;
    } else {
      var front, last := deps[..|deps| - 1], deps[|deps| - 1];
      DependenciesFollow(c, ranks, g, id, impact, front, bound, known, log, code, k);
      var before := VisitsOfAll(c, ranks, front);
      DependencyFollows(c, ranks, WithDependencies(c, ranks, g, id, impact, front, bound), id, impact, last, bound,
        After(c, known, before), log + VisitListings(c, k, before), code, k);
      OneMoreLogged(c, ranks, deps, known, log, k);
    }
  }

  lemma OneMoreLogged(c: Config, ranks: Ranks, deps: seq<Mrn>, known: Known, log: seq<Listing>, k: Mrn)
    requires WellFormed(c, ranks) && deps != []
    ensures var before, last := VisitsOfAll(c, ranks, deps[..|deps| - 1]), VisitsOfOne(c, ranks, deps[|deps| - 1]);
      && After(c, known, VisitsOfAll(c, ranks, deps)) == After(c, After(c, known, before), last)
      && log + VisitListings(c, k, VisitsOfAll(c, ranks, deps)) ==
           log + VisitListings(c, k, before) + VisitListings(c, k, last)
  {
    var before, last := VisitsOfAll(c, ranks, deps[..|deps| - 1]), VisitsOfOne(c, ranks, deps[|deps| - 1]);
    AfterBoth(c, known, before, last);
    VisitListingsBoth(c, k, before, last);
  }

  lemma DependencyFollows(
      c: Config, ranks: Ranks, g: JobGraph, id: Id, impact: Option<Impact>, dep: Mrn, bound: nat, known: Known,
      log: seq<Listing>, code: CodeId, k: Mrn)
    requires WellFormed(c, ranks) && Sound(c, ranks.query, g) && (id.FrameworkMrn? || id.PolicyMrn?) && IsPlain(impact)
    requires Level(c.bundle.frameworks, ranks.framework, dep) <= bound && Keeps(c, g, known, log, code, k)
    ensures var visits := VisitsOfOne(c, ranks, dep);
      Keeps(c, WithDependency(c, ranks, g, id, impact, dep, bound), After(c, known, visits),
        log + VisitListings(c, k, visits), code, k)
    decreases bound, 1, 0
  {
    if dep in c.bundle.frameworks {
      FrameworkFollows(c, ranks, g, dep, known, log, code, k);
      var g1, visits := WithFramework(c, ranks, g, dep), Visits(c, ranks, dep);
      LinkFollows(c, g1, FrameworkId(c, dep), id, impact, After(c, known, visits), log + VisitListings(c, k, visits),
        code, k);
    } else {
      AfterNothing(c, known);
      assert log + [] == log;
    }
  }

  // ----- the whole graph -----

  /** Everything that is listed for a control, in the order in which frameworks are visited. */
  ghost function ControlLog(c: Config, ranks: Ranks, k: Mrn): seq<Listing>
    requires WellFormed(c, ranks)
  {
    if c.bundleMrn in c.bundle.frameworks then VisitListings(c, k, Visits(c, ranks, c.bundleMrn)) else []
  }

  lemma NothingFollows(c: Config, rank: Mrn -> nat, g: JobGraph, codes: Codes, code: CodeId, k: Mrn)
    requires Sound(c, rank, g) && !HasEdge(g, CodeNode(code), ControlMrn(k))
    ensures Follows(c, g, codes, [], code, k)
  {
    forall i ensures !Carries(g, ControlMrn(k), EdgeImpact(CodeNode(code), i)) {
      if Carries(g, ControlMrn(k), EdgeImpact(CodeNode(code), i)) {
        CarriedIsEdge(g, ControlMrn(k), EdgeImpact(CodeNode(code), i));
      }
    }
  }

  /** Code tells a control what the first query says that is listed for the control and runs the
      code; checks say whether they are ignored, data queries that they are. */
  lemma CodeImpactIsExact(c: Config, ranks: Ranks, code: CodeId, k: Mrn, impact: Option<Impact>)
    requires WellFormed(c, ranks) && c.bundleMrn in c.bundle.policies
    requires EdgeImpact(CodeNode(code), impact) in WholeGraph(c, ranks).From(ControlMrn(k))
    ensures FirstSays(c, KnownAtFirst(c, ranks.query).code, ControlLog(c, ranks, k), code) == Some(impact)
  {
    var rank, known := ranks.query, KnownAtFirst(c, ranks.query);
    var g := PoliciesAlone(c, ranks, CodeNode(code), ControlMrn(k));
    NothingFollows(c, rank, g, known.code, code, k);
    assert Carries(WholeGraph(c, ranks), ControlMrn(k), EdgeImpact(CodeNode(code), impact));
    if c.bundleMrn in c.bundle.frameworks {
      FrameworkFollows(c, ranks, g, c.bundleMrn, known, [], code, k);
      assert [] + ControlLog(c, ranks, k) == ControlLog(c, ranks, k);
    }
  }
}
