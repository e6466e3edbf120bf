/** Incremental policy checksums. A checksum is the sequence of things added to it: equal terms
    have equal checksums under any hash function. */
module PolicyChecksums {
  import opened Wrappers
  import opened PolicyTypes
  import opened Ordering
  import opened PolicyWindow
  import opened Sequences

  type Mrn = string

  datatype Fast =
    | New | AddText(base: Fast, text: string) | AddNumber(base: Fast, number: int) | AddSum(base: Fast, sum: Fast)

  /** The execution and the content checksum, which are always computed side by side. */
  datatype Sums = Sums(execution: Fast, content: Fast) {
    function Add(other: Sums): Sums {
      Sums(AddSum(execution, other.execution), AddSum(content, other.content))
    }
  }

  function FoldSums(sums: seq<Sums>): Sums {
    if sums == [] then Sums(New, New) else FoldSums(sums[..|sums| - 1]).Add(sums[|sums| - 1])
  }

  datatype PolicyRef = PolicyRef(mrn: Mrn, action: Action)

  /** A group: the policies it refers to, and the checksums of its remaining content, which fail
      if one of its checks or queries has none. */
  datatype Group = Group(
    availability: Availability, groupType: GroupType, policies: seq<PolicyRef>, body: Result<Sums, string>)

  /** A policy with the checksums of its own fields and of its risk factors, which may fail; a
      checksum that is not set is None. */
  datatype Policy = Policy(
    mrn: Mrn, groups: seq<Group>, own: Sums, risks: Result<Sums, string>,
    localExecution: Option<Fast>, localContent: Option<Fast>, graphExecution: Option<Fast>, graphContent: Option<Fast>)
  {
    predicate HasLocal() { localExecution.Some? && localContent.Some? }

    predicate HasGraph() { graphExecution.Some? && graphContent.Some? }

    function Local(): Sums
      requires HasLocal()
    {
      Sums(localExecution.value, localContent.value)
    }

    function Graph(): Sums
      requires HasGraph()
    {
      Sums(graphExecution.value, graphContent.value)
    }

    function WithGraph(sums: Sums): Policy {
      this.(graphExecution := Some(sums.execution), graphContent := Some(sums.content))
    }

    /** InvalidateGraphChecksums. */
    function WithoutGraph(): Policy {
      this.(graphExecution := None, graphContent := None)
    }
  }

  // ----- the children of a policy, in checksum order -----

  function CompareRefs(a: PolicyRef, b: PolicyRef): int {
    CompareStrings(a.mrn, b.mrn)
  }

  function RefMrns(refs: seq<PolicyRef>): seq<Mrn> {
    seq(|refs|, i requires 0 <= i < |refs| => refs[i].mrn)
  }

  function SortRefs(refs: seq<PolicyRef>): seq<PolicyRef> {
    Sort(CompareRefs, refs)
  }

  function Children(groups: seq<Group>): seq<Mrn> {
    if groups == [] then []
    else Children(groups[..|groups| - 1]) + Sort(CompareStrings, RefMrns(groups[|groups| - 1].policies))
  }

  lemma {:induction false} InsertByMrn(x: PolicyRef, refs: seq<PolicyRef>)
    ensures RefMrns(Insert(CompareRefs, x, refs)) == Insert(CompareStrings, x.mrn, RefMrns(refs))
  {
    if refs != [] && CompareRefs(x, refs[0]) > 0 {
      InsertByMrn(x, refs[1..]);
      assert RefMrns(refs)[1..] == RefMrns(refs[1..]);
    }
  }

  /** Sorting the references by MRN, as the full computation does, and sorting their MRNs, as the
      fast one does, lists the children in the same order. */
  lemma {:induction false} SortByMrn(refs: seq<PolicyRef>)
    ensures RefMrns(SortRefs(refs)) == Sort(CompareStrings, RefMrns(refs))
  {
    if refs != [] {
      SortByMrn(refs[1..]);
      assert RefMrns(refs)[1..] == RefMrns(refs[1..]);
      InsertByMrn(refs[0], Sort(CompareRefs, refs[1..]));
    }
  }

  lemma SortByMrnAgain(refs: seq<PolicyRef>)
    ensures Sort(CompareStrings, RefMrns(SortRefs(refs))) == Sort(CompareStrings, RefMrns(refs))
  {
    SortByMrn(refs);
    StringsAreOrdered();
    SortIsSorted(CompareStrings, RefMrns(refs));
    SortOfSorted(CompareStrings, Sort(CompareStrings, RefMrns(refs)));
  }

  /** The groups with the first n of them sorted in place. */
  function SortGroups(groups: seq<Group>, n: nat): (r: seq<Group>)
    requires n <= |groups|
    ensures |r| == |groups|
  {
    seq(|groups|, i requires 0 <= i < |groups| =>
      if i < n then groups[i].(policies := SortRefs(groups[i].policies)) else groups[i])
  }

  lemma {:induction false} SortedGroupsHaveSameChildren(groups: seq<Group>, n: nat)
    requires n <= |groups|
    ensures Children(SortGroups(groups, n)) == Children(groups)
  {
    if groups != [] {
      var front, last := groups[..|groups| - 1], groups[|groups| - 1];
      var k := if n < |groups| then n else n - 1;
      SortedGroupsHaveSameChildren(front, k);
      assert SortGroups(groups, n)[..|groups| - 1] == SortGroups(front, k);
      SortByMrnAgain(last.policies);
    }
  }

  // ----- local checksums -----

  function GroupTypeNumber(t: GroupType): int {
    match t
    case Uncategorized => 0 case Chapter => 1 case Import => 2 case Override => 3
    case Ignored => 4 case Disable => 5 case Properties => 6 case OutOfScopeGroup => 7
  }

  function ReviewNumber(s: ReviewStatus): int {
    match s
    case NotReviewed => 0 case Approved => 1 case Rejected => 2 case PendingExtension => 3
  }

  function AddRefs(base: Fast, refs: seq<PolicyRef>): Fast {
    if refs == [] then base
    else
      var last := refs[|refs| - 1];
      AddNumber(AddText(AddRefs(base, refs[..|refs| - 1]), last.mrn), ActionNumber(last.action))
  }

  function DateNumber(d: Option<int>): int {
    if d.Some? then d.value else 0
  }

  function AddDates(base: Fast, a: Availability): Fast {
    AddNumber(AddNumber(AddNumber(AddNumber(base, a.startDate), a.endDate),
      if a.valid.Some? then DateNumber(a.valid.value.from) else 0),
      if a.valid.Some? then DateNumber(a.valid.value.until) else 0)
  }

  function AddGroup(base: Sums, g: Group): Sums
    requires g.body.Ok?
  {
    var execution := AddRefs(
      AddNumber(AddNumber(base.execution, GroupTypeNumber(g.groupType)), ReviewNumber(g.availability.reviewStatus)),
      SortRefs(g.policies));
    Sums(AddDates(AddSum(execution, g.body.value.execution), g.availability),
      AddSum(base.content, g.body.value.content))
  }

  function AddGroups(base: Sums, groups: seq<Group>): Sums
    requires forall g :: g in groups ==> g.body.Ok?
  {
    if groups == [] then base
    else AddGroup(AddGroups(base, groups[..|groups| - 1]), groups[|groups| - 1])
  }

  function Availabilities(groups: seq<Group>): (r: seq<Availability>)
    ensures |r| == |groups|
  {
    seq(|groups|, i requires 0 <= i < |groups| => groups[i].availability)
  }

  /** The recalculation time of a single policy. */
  function Window(p: Policy, now: int): Option<int> {
    EarliestOf(AllDates(Availabilities(p.groups)), now)
  }

  /** The local checksums: everything in the policy itself, including its recalculation time. */
  function LocalSums(p: Policy, now: int): Sums
    requires HasContent(p)
  {
    FinishSums(AddGroups(StartSums(p, Window(p, now)), p.groups), p.risks.value)
  }

  /** None of the checksums that are computed elsewhere failed. */
  predicate HasContent(p: Policy) {
    p.risks.Ok? && forall g :: g in p.groups ==> g.body.Ok?
  }

  /** The content checksum takes in the execution checksum. */
  function FinishSums(groups: Sums, risks: Sums): Sums {
    var execution := AddSum(groups.execution, risks.execution);
    Sums(execution, AddSum(execution, AddSum(groups.content, risks.content)))
  }

  // ----- graph checksums -----

  type World = map<Mrn, Policy>

  ghost predicate AllHaveGraph(world: World, children: seq<Mrn>) {
    forall c :: c in children ==> c in world && world[c].HasGraph()
  }

  function ChildSums(world: World, children: seq<Mrn>): (r: seq<Sums>)
    requires AllHaveGraph(world, children)
    ensures |r| == |children|
  {
    seq(|children|, i requires 0 <= i < |children| => assert children[i] in children; world[children[i]].Graph())
  }

  /** The graph checksums of a policy are the fold of those of its children and its own local ones. */
  ghost predicate UpToDate(world: World, m: Mrn) {
    && m in world && world[m].HasLocal() && world[m].HasGraph()
    && AllHaveGraph(world, Children(world[m].groups))
    && world[m].Graph() == FoldSums(ChildSums(world, Children(world[m].groups))).Add(world[m].Local())
  }

  /** Whatever is cached is up to date. */
  ghost predicate Consistent(world: World) {
    forall m :: m in world && world[m].HasGraph() ==> UpToDate(world, m)
  }

  ghost predicate AllUpToDate(world: World) {
    forall m :: m in world ==> UpToDate(world, m)
  }

  predicate Filed(world: World) {
    forall m :: m in world ==> world[m].mrn == m
  }

  /** References lead to policies of lower rank, so there are no circular dependencies. */
  ghost predicate Ranked(world: World, rank: Mrn -> nat) {
    forall m, c :: m in world && c in Children(world[m].groups) ==> rank(c) < rank(m)
  }

  /** What one policy may become while another one is updated: nothing but its checksums and the
      order of references within its groups changes. */
  ghost predicate SameContent(a: Policy, b: Policy) {
    && a.mrn == b.mrn && a.own == b.own && a.risks == b.risks
    && Children(a.groups) == Children(b.groups) && Availabilities(a.groups) == Availabilities(b.groups)
  }

  predicate SameLocal(a: Policy, b: Policy) {
    a.localExecution == b.localExecution && a.localContent == b.localContent
  }

  /** What updating m may do to a policy p: content and local checksums that are set stay; unless
      p is m itself, it is not touched at all if its graph checksums were set or its rank is not
      below that of m; and graph checksums that have become available are up to date. */
  ghost predicate Change(before: World, after: World, m: Mrn, rank: Mrn -> nat, p: Mrn)
    requires p in before && p in after
  {
    && SameContent(before[p], after[p])
    && (before[p].HasLocal() ==> SameLocal(before[p], after[p]))
    && (p != m && (before[p].HasGraph() || rank(p) >= rank(m)) ==> after[p] == before[p])
    && (p != m && !before[p].HasGraph() && after[p].HasGraph() ==> UpToDate(after, p))
  }

  ghost predicate Updated(before: World, after: World, m: Mrn, rank: Mrn -> nat) {
    && before.Keys == after.Keys
    && (forall p :: p in before ==> Change(before, after, m, rank, p))
  }

  function Sooner(a: Option<int>, b: Option<int>): Option<int> {
    if b.Some? && (a.None? || b.value < a.value) then b else a
  }

  /** The earliest recalculation time of a policy and those of its children that are considered. */
  function WindowWith(world: World, at: Option<int>, children: seq<Mrn>, skipped: set<Mrn>, now: int): Option<int>
    requires forall c :: c in children ==> c in world
  {
    if children == [] then at
    else
      var rest := WindowWith(world, at, children[..|children| - 1], skipped, now);
      var c := children[|children| - 1];
      if c in skipped then rest else Sooner(rest, Window(world[c], now))
  }

  // ----- lemmas about folds and updates -----

  lemma OneMoreChild(world: World, children: seq<Mrn>, c: Mrn)
    requires AllHaveGraph(world, children) && c in world && world[c].HasGraph()
    ensures AllHaveGraph(world, children + [c])
    ensures FoldSums(ChildSums(world, children + [c])) == FoldSums(ChildSums(world, children)).Add(world[c].Graph())
  {
    var sums := ChildSums(world, children + [c]);
    assert sums[..|children|] == ChildSums(world, children);
  }

  lemma OneMoreWindow(world: World, at: Option<int>, children: seq<Mrn>, c: Mrn, skipped: set<Mrn>, now: int)
    requires c in world && forall c :: c in children ==> c in world
    ensures WindowWith(world, at, children + [c], skipped, now) ==
      if c in skipped then WindowWith(world, at, children, skipped, now)
      else Sooner(WindowWith(world, at, children, skipped, now), Window(world[c], now))
  {
    assert (children + [c])[..|children|] == children;
  }

  lemma {:induction false} SameWindows(
      a: World, b: World, at: Option<int>, children: seq<Mrn>, skipped: set<Mrn>, now: int)
    requires forall c :: c in children ==>
      c in a && c in b && Availabilities(a[c].groups) == Availabilities(b[c].groups)
    ensures WindowWith(a, at, children, skipped, now) == WindowWith(b, at, children, skipped, now)
  {
    if children != [] {
      SameWindows(a, b, at, children[..|children| - 1], skipped, now);
    }
  }

  lemma OneMoreGroup(groups: seq<Group>, i: nat)
    requires i < |groups|
    ensures Children(groups[..i + 1]) == Children(groups[..i]) + Sort(CompareStrings, RefMrns(groups[i].policies))
  {
    assert groups[..i + 1][..i] == groups[..i];
  }

  lemma SameChildSums(a: World, b: World, children: seq<Mrn>)
    requires AllHaveGraph(a, children)
    requires forall c :: c in children ==> c in b && b[c] == a[c]
    ensures AllHaveGraph(b, children) && ChildSums(b, children) == ChildSums(a, children)
  {
    forall i | 0 <= i < |children| ensures b[children[i]] == a[children[i]] {
      assert children[i] in children;
    }
  }

  /** A policy stays up to date when neither it nor any of its children changes. */
  lemma StaysUpToDate(a: World, b: World, p: Mrn)
    requires UpToDate(a, p) && p in b && b[p] == a[p]
    requires forall c :: c in Children(a[p].groups) ==> c in b && b[c] == a[c]
    ensures UpToDate(b, p)
  {
    SameChildSums(a, b, Children(a[p].groups));
  }

  lemma UpdatesCompose(w0: World, w1: World, w2: World, m: Mrn, c: Mrn, rank: Mrn -> nat)
    requires Updated(w0, w1, m, rank) && Updated(w1, w2, c, rank)
    requires m in w0 && c in w1 && rank(c) < rank(m) && !w1[c].HasGraph() && (w2[c].HasGraph() ==> UpToDate(w2, c))
    ensures Updated(w0, w2, m, rank) && w2[m] == w1[m]
    ensures forall p :: p in w1 && w1[p].HasGraph() ==> w2[p] == w1[p]
  {
    forall p | p in w1 && w1[p].HasGraph() ensures w2[p] == w1[p] {
      assert Change(w1, w2, c, rank, p);
    }
    forall p | p in w0 ensures Change(w0, w2, m, rank, p) {
      assert Change(w0, w1, m, rank, p) && Change(w1, w2, c, rank, p);
      if p != m && !w0[p].HasGraph() && w1[p].HasGraph() {
        StaysUpToDate(w1, w2, p);
      }
    }
    assert Change(w1, w2, c, rank, m);
  }

  lemma NotAChild(world: World, p: Mrn, c: Mrn, rank: Mrn -> nat)
    requires Ranked(world, rank) && p in world && rank(p) <= rank(c)
    ensures c !in Children(world[p].groups)
  {
  }

  /** Replacing m itself does not disturb the others: none that has become available uses it. */
  lemma ReplaceSelf(w0: World, w1: World, m: Mrn, q: Policy, rank: Mrn -> nat, p: Mrn)
    requires Ranked(w0, rank) && Updated(w0, w1, m, rank) && m in w0 && p in w0 && p != m
    ensures Change(w0, w1[m := q], m, rank, p)
  {
    assert Change(w0, w1, m, rank, p);
    if !w0[p].HasGraph() && w1[p].HasGraph() {
      NotAChild(w0, p, m, rank);
      StaysUpToDate(w1, w1[m := q], p);
    }
  }

  lemma UpdateSelf(w0: World, w1: World, m: Mrn, q: Policy, rank: Mrn -> nat)
    requires Ranked(w0, rank) && Updated(w0, w1, m, rank) && m in w0
    requires SameContent(w0[m], q) && q.HasLocal() && (w0[m].HasLocal() ==> SameLocal(w0[m], q))
    requires AllHaveGraph(w1, Children(q.groups)) && q.HasGraph()
    requires q.Graph() == FoldSums(ChildSums(w1, Children(q.groups))).Add(q.Local())
    ensures Updated(w0, w1[m := q], m, rank) && UpToDate(w1[m := q], m)
  {
    NotAChild(w0, m, m, rank);
    SameChildSums(w1, w1[m := q], Children(q.groups));
    forall p | p in w0 ensures Change(w0, w1[m := q], m, rank, p) {
      if p != m {
        ReplaceSelf(w0, w1, m, q, rank, p);
      }
    }
  }

  lemma StaysRanked(before: World, after: World, m: Mrn, rank: Mrn -> nat)
    requires Ranked(before, rank) && Filed(before) && Updated(before, after, m, rank)
    ensures Ranked(after, rank) && Filed(after)
  {
    forall p, c | p in after && c in Children(after[p].groups) ensures rank(c) < rank(p) {
      assert Change(before, after, m, rank, p);
    }
  }

  // ----- the computations -----

  /** What the full computation makes of a policy. */
  function Complete(world: World, p: Policy, now: int): Policy
    requires HasContent(p)
    requires AllHaveGraph(world, Children(p.groups))
  {
    var local := LocalSums(p, now);
    p.(groups := SortGroups(p.groups, |p.groups|), localExecution := Some(local.execution),
      localContent := Some(local.content))
      .WithGraph(FoldSums(ChildSums(world, Children(p.groups))).Add(local))
  }

  /** What the loop over the children of a group keeps: the execution checksum of the policy, the
      checksums of its graph and the recalculation time. */
  datatype Folded = Folded(execution: Fast, graph: Sums, at: Option<int>) {
    function Add(ref: PolicyRef, sums: Sums, ra: Option<int>): Folded {
      Folded(AddNumber(AddText(execution, ref.mrn), ActionNumber(ref.action)), graph.Add(sums), Sooner(at, ra))
    }
  }

  predicate IsStored(world: World, stored: set<Mrn>, ref: PolicyRef) {
    ref.mrn in stored && ref.mrn in world && world[ref.mrn].HasGraph()
  }

  ghost predicate IsFold(
    world: World, own: Option<int>, now: int, before: seq<Mrn>, refs: seq<PolicyRef>, execution: Fast, f: Folded)
  {
    var children := before + RefMrns(refs);
    && AllHaveGraph(world, children)
    && f.execution == AddRefs(execution, refs)
    && f.graph == FoldSums(ChildSums(world, children))
    && f.at == WindowWith(world, own, children, {}, now)
  }

  lemma FoldOneMore(
    world: World, own: Option<int>, now: int, before: seq<Mrn>, refs: seq<PolicyRef>, ref: PolicyRef,
    execution: Fast, f: Folded)
    requires IsFold(world, own, now, before, refs, execution, f)
    requires ref.mrn in world && world[ref.mrn].HasGraph()
    ensures IsFold(world, own, now, before, refs + [ref], execution,
      f.Add(ref, world[ref.mrn].Graph(), Window(world[ref.mrn], now)))
  {
    var children := before + RefMrns(refs);
    assert before + RefMrns(refs + [ref]) == children + [ref.mrn];
    assert (refs + [ref])[..|refs|] == refs;
    OneMoreWindow(world, own, children, ref.mrn, {}, now);
    OneMoreChild(world, children, ref.mrn);
  }

  /** Graph checksums and dates agree: all that one policy uses of another one. */
  ghost predicate SameGraphs(a: World, b: World) {
    && a.Keys == b.Keys
    && (forall p :: p in a ==>
      && a[p].graphExecution == b[p].graphExecution && a[p].graphContent == b[p].graphContent
      && Availabilities(a[p].groups) == Availabilities(b[p].groups))
  }

  /** A group that can be added: its references are stored with graph checksums and its checks and
      queries have checksums. */
  ghost predicate Resolved(world: World, stored: set<Mrn>, g: Group) {
    g.body.Ok? && forall ref :: ref in g.policies ==> IsStored(world, stored, ref)
  }

  datatype Progress = Progress(local: Sums, graph: Sums, at: Option<int>)

  ghost predicate IsProgress(
    world: World, start: Sums, own: Option<int>, now: int, groups: seq<Group>, done: Progress)
  {
    && (forall g :: g in groups ==> g.body.Ok?)
    && AllHaveGraph(world, Children(groups))
    && done.local == AddGroups(start, groups)
    && done.graph == FoldSums(ChildSums(world, Children(groups)))
    && done.at == WindowWith(world, own, Children(groups), {}, now)
  }

  lemma ProgressOneMore(
    world: World, start: Sums, own: Option<int>, now: int, groups: seq<Group>, g: Group, done: Progress, f: Folded)
    requires IsProgress(world, start, own, now, groups, done) && g.body.Ok?
    requires IsFold(world, own, now, Children(groups), SortRefs(g.policies),
      AddNumber(AddNumber(done.local.execution, GroupTypeNumber(g.groupType)),
        ReviewNumber(g.availability.reviewStatus)), f)
    ensures IsProgress(world, start, own, now, groups + [g],
      Progress(Sums(AddDates(AddSum(f.execution, g.body.value.execution), g.availability),
        AddSum(done.local.content, g.body.value.content)), f.graph, f.at))
  {
    assert (groups + [g])[..|groups|] == groups;
    SortByMrn(g.policies);
    assert Children(groups + [g]) == Children(groups) + RefMrns(SortRefs(g.policies));
  }

  lemma SortOneMore(groups: seq<Group>, n: nat)
    requires n < |groups|
    ensures SortGroups(groups, n)[n := groups[n].(policies := SortRefs(groups[n].policies))] ==
      SortGroups(groups, n + 1)
  {
  }

  lemma SortedGroupsHaveSameDates(groups: seq<Group>, n: nat)
    requires n <= |groups|
    ensures Availabilities(SortGroups(groups, n)) == Availabilities(groups)
  {
  }

  lemma SortInPlace(world: World, policies: World, m: Mrn, groups: seq<Group>, i: nat, after: World)
    requires SameGraphs(world, policies) && m in policies && i < |groups| && policies[m].groups == SortGroups(groups, i)
    requires Filed(policies)
    requires after == policies[m := policies[m].(
      groups := policies[m].groups[i := groups[i].(policies := SortRefs(groups[i].policies))])]
    ensures Filed(after) && after.Keys == policies.Keys
    ensures after == policies[m := policies[m].(groups := SortGroups(groups, i + 1))] && SameGraphs(world, after)
  {
    SortOneMore(groups, i);
    SortedGroupsHaveSameDates(groups, i);
    SortedGroupsHaveSameDates(groups, i + 1);
  }

  lemma SortKeepsResolved(world: World, stored: set<Mrn>, g: Group)
    ensures Resolved(world, stored, g) <==> g.body.Ok? && forall ref :: ref in SortRefs(g.policies) ==>
      IsStored(world, stored, ref)
  {
    SortPermutes(CompareRefs, g.policies);
    assert forall ref :: ref in SortRefs(g.policies) <==> ref in multiset(SortRefs(g.policies));
    assert forall ref :: ref in g.policies <==> ref in multiset(g.policies);
  }

  lemma StartFold(
    world: World, start: Sums, own: Option<int>, now: int, groups: seq<Group>, done: Progress, execution: Fast)
    requires IsProgress(world, start, own, now, groups, done)
    ensures IsFold(world, own, now, Children(groups), [], execution, Folded(execution, done.graph, done.at))
  {
    assert Children(groups) + RefMrns([]) == Children(groups);
  }

  /** What a failed full computation leaves behind: no local checksums, and n groups sorted. */
  function Partial(p: Policy, n: nat): Policy
    requires n <= |p.groups|
  {
    p.(groups := SortGroups(p.groups, n), localExecution := None, localContent := None)
  }

  ghost predicate PartialAt(world: World, after: World, m: Mrn, n: nat) {
    m in world && n <= |world[m].groups| && after == world[m := Partial(world[m], n)]
  }

  lemma PartialKeepsGraphs(world: World, after: World, m: Mrn, n: nat)
    requires Filed(world) && PartialAt(world, after, m, n)
    ensures SameGraphs(world, after) && Filed(after)
    ensures m in after && after[m].groups == SortGroups(world[m].groups, n)
  {
    SortedGroupsHaveSameDates(world[m].groups, n);
  }

  lemma PartialStep(world: World, before: World, after: World, m: Mrn, n: nat)
    requires Filed(world) && PartialAt(world, before, m, n) && n < |world[m].groups|
    requires after == before[m := before[m].(groups := SortGroups(world[m].groups, n + 1))]
    ensures PartialAt(world, after, m, n + 1)
  {
  }

  ghost predicate AllResolved(world: World, stored: set<Mrn>, groups: seq<Group>) {
    forall g :: g in groups ==> Resolved(world, stored, g)
  }

  ghost predicate IsComplete(world: World, after: World, m: Mrn, now: int, at: Option<int>)
    requires m in world
  {
    var p := world[m];
    && HasContent(p)
    && AllHaveGraph(world, Children(p.groups))
    && after == world[m := Complete(world, p, now)]
    && at == WindowWith(world, Window(p, now), Children(p.groups), {}, now)
  }

  ghost predicate IsPartial(world: World, after: World, m: Mrn)
    requires m in world
  {
    exists n :: 0 <= n <= |world[m].groups| && PartialAt(world, after, m, n)
  }

  function StartSums(p: Policy, at: Option<int>): Sums {
    Sums(AddNumber(p.own.execution, if at.Some? then at.value / SECOND else 0), p.own.content)
  }

  lemma FinishComplete(world: World, after: World, m: Mrn, now: int, done: Progress, local: Sums, q: Policy)
    requires m in world && PartialAt(world, after, m, |world[m].groups|)
    requires IsProgress(world, StartSums(world[m], Window(world[m], now)), Window(world[m], now), now,
      world[m].groups, done)
    requires world[m].risks.Ok? && local == FinishSums(done.local, world[m].risks.value)
    requires q == after[m].(localExecution := Some(local.execution), localContent := Some(local.content))
      .WithGraph(done.graph.Add(local))
    ensures IsComplete(world, after[m := q], m, now, done.at)
  {
  }

  lemma ResolvedOneMore(world: World, stored: set<Mrn>, groups: seq<Group>, i: nat)
    requires i < |groups| && AllResolved(world, stored, groups[..i])
    ensures AllResolved(world, stored, groups[..i + 1]) <==> Resolved(world, stored, groups[i])
    ensures AllResolved(world, stored, groups) ==> Resolved(world, stored, groups[i])
  {
    assert groups[..i + 1] == groups[..i] + [groups[i]];
    assert groups[i] in groups && groups[i] in groups[..i + 1];
  }

  // ----- the optimized update -----

  /** What the loop over the children keeps in the optimized update. */
  ghost predicate IsFastFold(
    world: World, own: Option<int>, now: int, skipped: set<Mrn>, done: seq<Mrn>, graph: Sums, at: Option<int>)
  {
    && AllHaveGraph(world, done)
    && graph == FoldSums(ChildSums(world, done))
    && at == WindowWith(world, own, done, skipped, now)
  }

  ghost predicate KeepsGraphs(a: World, b: World) {
    forall p :: p in a && a[p].HasGraph() ==> p in b && b[p] == a[p]
  }

  lemma FastFoldOneMore(
    a: World, b: World, own: Option<int>, now: int, skipped: set<Mrn>, done: seq<Mrn>, c: Mrn, graph: Sums,
      at: Option<int>)
    requires IsFastFold(a, own, now, skipped, done, graph, at) && KeepsGraphs(a, b)
    requires c in b && b[c].HasGraph()
    ensures IsFastFold(b, own, now, skipped, done + [c], graph.Add(b[c].Graph()),
      if c in skipped then at else Sooner(at, Window(b[c], now)))
  {
    SameChildSums(a, b, done);
    SameWindows(a, b, own, done, skipped, now);
    OneMoreWindow(b, own, done, c, skipped, now);
    OneMoreChild(b, done, c);
  }

  /** Every policy has its local checksums and every reference can be found. */
  ghost predicate Ready(world: World, known: set<Mrn>) {
    forall p :: p in world ==> world[p].HasLocal() && forall c :: c in Children(world[p].groups) ==> c in known
  }

  lemma StaysReady(before: World, after: World, m: Mrn, rank: Mrn -> nat, known: set<Mrn>)
    requires Ready(before, known) && Updated(before, after, m, rank)
    ensures Ready(after, known)
  {
    forall p | p in after ensures after[p].HasLocal() && forall c :: c in Children(after[p].groups) ==> c in known {
      assert Change(before, after, m, rank, p);
    }
  }

  lemma NothingUpdated(world: World, m: Mrn, rank: Mrn -> nat)
    ensures Updated(world, world, m, rank)
  {
    forall p | p in world ensures Change(world, world, m, rank, p) {
    }
  }

  lemma PartialIsUpdate(world: World, after: World, m: Mrn, rank: Mrn -> nat)
    requires m in world && !world[m].HasLocal() && IsPartial(world, after, m)
    ensures Updated(world, after, m, rank) && after[m].graphExecution == world[m].graphExecution
    ensures after[m].graphContent == world[m].graphContent
  {
    var n :| 0 <= n <= |world[m].groups| && PartialAt(world, after, m, n);
    SortedGroupsHaveSameChildren(world[m].groups, n);
    SortedGroupsHaveSameDates(world[m].groups, n);
    forall p | p in world ensures Change(world, after, m, rank, p) {
    }
  }

  lemma CompleteIsUpdate(world: World, after: World, m: Mrn, now: int, at: Option<int>, rank: Mrn -> nat)
    requires m in world && !world[m].HasLocal() && IsComplete(world, after, m, now, at) && Ranked(world, rank)
    ensures Updated(world, after, m, rank) && IsWindow(after, m, {}, now, at)
  {
    var groups := world[m].groups;
    SortedGroupsHaveSameChildren(groups, |groups|);
    SortedGroupsHaveSameDates(groups, |groups|);
    NothingUpdated(world, m, rank);
    UpdateSelf(world, world, m, Complete(world, world[m], now), rank);
    SameWindows(world, after, Window(world[m], now), Children(groups), {}, now);
  }

  /** The recalculation time of m and those of its children that are considered. */
  ghost predicate IsWindow(world: World, m: Mrn, skipped: set<Mrn>, now: int, at: Option<int>) {
    && UpToDate(world, m)
    && at == WindowWith(world, Window(world[m], now), Children(world[m].groups), skipped, now)
  }

  lemma FastWindow(
    world: World, before: World, after: World, m: Mrn, p: Policy, graph: Sums, at: Option<int>, now: int,
      skipped: set<Mrn>,
    rank: Mrn -> nat)
    requires Ranked(world, rank) && Updated(world, before, m, rank) && m in world && world[m] == p && p.HasLocal()
    requires IsFastFold(before, Window(p, now), now, skipped, Children(p.groups), graph, at)
    requires after == before[m := p.WithGraph(graph.Add(p.Local()))]
    ensures Updated(world, after, m, rank) && IsWindow(after, m, skipped, now, at)
  {
    UpdateSelf(world, before, m, p.WithGraph(graph.Add(p.Local())), rank);
    SameWindows(before, after, Window(p, now), Children(p.groups), skipped, now);
  }

  lemma {:induction false} ChildrenOfGroup(groups: seq<Group>, i: nat)
    requires i < |groups|
    ensures forall c :: c in Sort(CompareStrings, RefMrns(groups[i].policies)) ==> c in Children(groups)
    decreases |groups|
  {
    if i < |groups| - 1 {
      ChildrenOfGroup(groups[..|groups| - 1], i);
    }
  }

  // ----- fast and full computation agree -----

  /** Cached graph checksums, of any set of policies, are forgotten. */
  function Invalidate(world: World, dropped: set<Mrn>): World {
    map m | m in world :: if m in dropped then world[m].WithoutGraph() else world[m]
  }

  lemma EqualChildSums(a: World, b: World, children: seq<Mrn>)
    requires AllHaveGraph(a, children) && AllHaveGraph(b, children)
    requires forall c :: c in children ==> a[c].Graph() == b[c].Graph()
    ensures ChildSums(a, children) == ChildSums(b, children)
  {
    forall i | 0 <= i < |children| ensures a[children[i]].Graph() == b[children[i]].Graph() {
      assert children[i] in children;
    }
  }

  /** Two worlds with the same content and local checksums have at most one graph checksum for
      each policy that is up to date in both, as soon as this holds for its children. */
  lemma SameAsBefore(before: World, after: World, p: Mrn)
    requires UpToDate(before, p) && UpToDate(after, p)
    requires SameContent(before[p], after[p]) && SameLocal(before[p], after[p])
    requires forall c :: c in Children(before[p].groups) ==> before[c].Graph() == after[c].Graph()
    ensures before[p].Graph() == after[p].Graph()
  {
    EqualChildSums(before, after, Children(before[p].groups));
  }

  /** Whatever graph checksums were dropped from a consistent world, updating m brings back the
      ones there were, for m and for everything that is recomputed on the way. */
  lemma {:induction false} UpdateRestores(
    world: World, dropped: set<Mrn>, after: World, m: Mrn, rank: Mrn -> nat, p: Mrn)
    requires Ranked(world, rank) && m in world
    requires AllUpToDate(world)
    requires Updated(Invalidate(world, dropped), after, m, rank) && UpToDate(after, m)
    requires p in after && after[p].HasGraph()
    ensures p in world && world[p].HasGraph() && after[p].Graph() == world[p].Graph()
    decreases rank(p)
  {
    assert UpToDate(world, p);
    var cold := Invalidate(world, dropped);
    assert Change(cold, after, m, rank, p);
    if p == m || !cold[p].HasGraph() {
      forall c | c in Children(world[p].groups) ensures world[c].Graph() == after[c].Graph() {
        UpdateRestores(world, dropped, after, m, rank, c);
      }
      SameAsBefore(world, after, p);
    }
  }

  /** After a full computation, forgetting the graph checksums of the policy and taking the
      optimized route restores them; its children need not even be up to date. */
  lemma FullThenFast(world: World, full: World, m: Mrn, now: int, at: Option<int>, after: World, rank: Mrn -> nat)
    requires m in world && Ranked(world, rank) && IsComplete(world, full, m, now, at)
    requires Updated(Invalidate(full, {m}), after, m, rank) && UpToDate(after, m)
    ensures after[m].Graph() == full[m].Graph() && SameLocal(after[m], full[m])
  {
    var cold, children := Invalidate(full, {m}), Children(world[m].groups);
    SortedGroupsHaveSameChildren(world[m].groups, |world[m].groups|);
    NotAChild(world, m, m, rank);
    assert Change(cold, after, m, rank, m);
    forall c | c in children ensures after[c] == world[c] {
      assert Change(cold, after, m, rank, c);
    }
    EqualChildSums(world, after, children);
  }

  /** Updating a policy of a consistent world keeps it consistent. */
  lemma UpdateKeepsConsistent(before: World, after: World, m: Mrn, rank: Mrn -> nat)
    requires Consistent(before) && Ranked(before, rank) && m in before
    requires Updated(before, after, m, rank) && UpToDate(after, m)
    ensures Consistent(after)
  {
    if before[m].HasGraph() {
      UpdateIsIdempotent(before, after, m, rank);
    }
    forall p | p in after && after[p].HasGraph() ensures UpToDate(after, p) {
      assert Change(before, after, m, rank, p);
      if p != m && before[p].HasGraph() {
        forall c | c in Children(before[p].groups) ensures after[c].HasGraph()
          && after[c].Graph() == before[c].Graph() {
          assert Change(before, after, m, rank, c);
        }
        EqualChildSums(before, after, Children(before[p].groups));
      }
    }
  }

  /** Updating a policy that is up to date changes none of its checksums. */
  lemma UpdateIsIdempotent(before: World, after: World, m: Mrn, rank: Mrn -> nat)
    requires UpToDate(before, m) && Ranked(before, rank)
    requires Updated(before, after, m, rank) && UpToDate(after, m)
    ensures after[m].Graph() == before[m].Graph() && SameLocal(after[m], before[m])
  {
    assert Change(before, after, m, rank, m);
    NotAChild(before, m, m, rank);
    forall c | c in Children(before[m].groups) ensures before[c].Graph() == after[c].Graph() {
      assert Change(before, after, m, rank, c);
    }
    SameAsBefore(before, after, m);
  }

  // ----- how long local checksums last -----

  lemma {:induction false} RefsKeepBase(a: Fast, b: Fast, refs: seq<PolicyRef>)
    requires AddRefs(a, refs) == AddRefs(b, refs)
    ensures a == b
  {
    if refs != [] {
      RefsKeepBase(a, b, refs[..|refs| - 1]);
    }
  }

  lemma {:induction false} GroupsKeepBase(a: Sums, b: Sums, groups: seq<Group>)
    requires forall g :: g in groups ==> g.body.Ok?
    requires AddGroups(a, groups).execution == AddGroups(b, groups).execution
    ensures a.execution == b.execution
  {
    if groups != [] {
      var front, g := groups[..|groups| - 1], groups[|groups| - 1];
      var x, y := AddGroups(a, front), AddGroups(b, front);
      var kind, status := GroupTypeNumber(g.groupType), ReviewNumber(g.availability.reviewStatus);
      RefsKeepBase(AddNumber(AddNumber(x.execution, kind), status), AddNumber(AddNumber(y.execution, kind), status),
        SortRefs(g.policies));
      GroupsKeepBase(a, b, front);
    }
  }

  /** Local checksums computed now are those computed later exactly until the recalculation time of
      the policy has passed: until then the optimized route, which takes over stored ones, loses
      nothing. */
  lemma LocalSumsLastUntil(p: Policy, now: int, later: int)
    requires HasContent(p) && now <= later
    ensures LocalSums(p, later) == LocalSums(p, now) <==> Window(p, now).None? || later <= Window(p, now).value
  {
    var dates := AllDates(Availabilities(p.groups));
    EarliestStaysIff(dates, now, later);
    var a, b := StartSums(p, Window(p, now)), StartSums(p, Window(p, later));
    if LocalSums(p, later) == LocalSums(p, now) {
      GroupsKeepBase(a, b, p.groups);
      EarliestIsSecond(dates, now);
      EarliestIsSecond(dates, later);
    }
  }

  // ----- recalculation times of the two computations -----

  /** a is at least as early as b; no time at all is later than any time. */
  predicate NotLater(a: Option<int>, b: Option<int>) {
    b.None? || (a.Some? && a.value <= b.value)
  }

  /** The window of one of the children that are considered. */
  ghost predicate IsConsidered(world: World, children: seq<Mrn>, skipped: set<Mrn>, now: int, c: Mrn, w: Option<int>) {
    c in children && c !in skipped && c in world && w == Window(world[c], now)
  }

  ghost predicate IsLeast(
      world: World, at: Option<int>, children: seq<Mrn>, skipped: set<Mrn>, now: int, w: Option<int>) {
    && NotLater(w, at)
    && (forall c, v {:trigger IsConsidered(world, children, skipped, now, c, v)} ::
          IsConsidered(world, children, skipped, now, c, v) ==> NotLater(w, v))
    && (w == at || exists c :: IsConsidered(world, children, skipped, now, c, w))
  }

  lemma LeastOneMore(
    world: World, at: Option<int>, front: seq<Mrn>, c: Mrn, skipped: set<Mrn>, now: int, w: Option<int>)
    requires c in world && IsLeast(world, at, front, skipped, now, w)
    ensures IsLeast(world, at, front + [c], skipped, now, if c in skipped then w else Sooner(w, Window(world[c], now)))
  {
    var own := Window(world[c], now);
    var w' := if c in skipped then w else Sooner(w, own);
    forall d, v | IsConsidered(world, front + [c], skipped, now, d, v) ensures NotLater(w', v) {
      if d in front {
        assert IsConsidered(world, front, skipped, now, d, v);
      }
    }
    if w' != at {
      if w' == w {
        var d :| IsConsidered(world, front, skipped, now, d, w);
        assert IsConsidered(world, front + [c], skipped, now, d, w');
      } else {
        assert IsConsidered(world, front + [c], skipped, now, c, w');
      }
    }
  }

  /** The recalculation time is the earliest one considered. */
  lemma {:induction false} WindowWithIsLeast(
    world: World, at: Option<int>, children: seq<Mrn>, skipped: set<Mrn>, now: int)
    requires forall c :: c in children ==> c in world
    ensures IsLeast(world, at, children, skipped, now, WindowWith(world, at, children, skipped, now))
  {
    if children != [] {
      var front, c := children[..|children| - 1], children[|children| - 1];
      assert children == front + [c];
      WindowWithIsLeast(world, at, front, skipped, now);
      LeastOneMore(world, at, front, c, skipped, now, WindowWith(world, at, front, skipped, now));
    }
  }

  /** The policy's own date or that of a child outside of the bundle is at least as early as w. */
  ghost predicate IsCovered(
      world: World, at: Option<int>, children: seq<Mrn>, skipped: set<Mrn>, now: int, w: Option<int>) {
    NotLater(at, w) || exists c :: c in children && c !in skipped && c in world && NotLater(Window(world[c], now), w)
  }

  /** An earliest time is at least as early as w exactly if one of those considered is. */
  lemma LeastCovers(
    world: World, at: Option<int>, children: seq<Mrn>, skipped: set<Mrn>, now: int, least: Option<int>, w: Option<int>)
    requires IsLeast(world, at, children, skipped, now, least)
    ensures NotLater(least, w) <==> IsCovered(world, at, children, skipped, now, w)
  {
    if NotLater(least, w) && least != at {
      var c :| IsConsidered(world, children, skipped, now, c, least);
    }
    if c :| c in children && c !in skipped && c in world && NotLater(Window(world[c], now), w) {
      assert IsConsidered(world, children, skipped, now, c, Window(world[c], now));
    }
  }

  /** The optimized route ignores the dates of children that come from the bundle. Its
      recalculation time is that of the full computation exactly if the date of every such child is
      matched by that of the policy itself or of a child from elsewhere. */
  lemma FastWindowIsFullIff(world: World, at: Option<int>, children: seq<Mrn>, skipped: set<Mrn>, now: int)
    requires forall c :: c in children ==> c in world
    ensures
      WindowWith(world, at, children, skipped, now) == WindowWith(world, at, children, {}, now) <==>
      forall c :: c in children && c in skipped ==> IsCovered(world, at, children, skipped, now, Window(world[c], now))
  {
    WindowWithIsLeast(world, at, children, skipped, now);
    forall c | c in children && c in skipped
      ensures IsCovered(world, at, children, skipped, now, Window(world[c], now)) <==>
        NotLater(WindowWith(world, at, children, skipped, now), Window(world[c], now))
    {
      LeastCovers(world, at, children, skipped, now, WindowWith(world, at, children, skipped, now),
        Window(world[c], now));
    }
    FastIsFullIfNotLater(world, at, children, skipped, now);
  }

  lemma FastIsFullIfNotLater(world: World, at: Option<int>, children: seq<Mrn>, skipped: set<Mrn>, now: int)
    requires forall c :: c in children ==> c in world
    ensures
      WindowWith(world, at, children, skipped, now) == WindowWith(world, at, children, {}, now) <==>
      forall c :: c in children && c in skipped ==>
        NotLater(WindowWith(world, at, children, skipped, now), Window(world[c], now))
  {
    var fast, full := WindowWith(world, at, children, skipped, now), WindowWith(world, at, children, {}, now);
    WindowWithIsLeast(world, at, children, skipped, now);
    WindowWithIsLeast(world, at, children, {}, now);
    forall c | c in children ensures NotLater(full, Window(world[c], now)) {
      assert IsConsidered(world, children, {}, now, c, Window(world[c], now));
    }
    if fast != full && forall c :: c in children && c in skipped ==> NotLater(fast, Window(world[c], now)) {
      assert NotLater(full, fast) by {
        if fast != at {
          var c :| IsConsidered(world, children, skipped, now, c, fast);
          assert IsConsidered(world, children, {}, now, c, fast);
        }
      }
      FastIsNotLater(world, at, children, skipped, now, fast, full);
      assert false;
    }
  }

  lemma FastIsNotLater(
    world: World, at: Option<int>, children: seq<Mrn>, skipped: set<Mrn>, now: int, fast: Option<int>,
      full: Option<int>)
    requires IsLeast(world, at, children, skipped, now, fast) && IsLeast(world, at, children, {}, now, full)
    requires forall c :: c in children && c in skipped && c in world ==> NotLater(fast, Window(world[c], now))
    ensures NotLater(fast, full)
  {
    if full != at {
      var c :| IsConsidered(world, children, {}, now, c, full);
      if c !in skipped {
        assert IsConsidered(world, children, skipped, now, c, full);
      }
    }
  }

  /** With a single child that comes from the bundle, the date on which it changes is lost. */
  lemma BundledDateIsLost(world: World, c: Mrn, now: int)
    requires c in world && Window(world[c], now).Some?
    ensures WindowWith(world, None, [c], {c}, now) == None
    ensures WindowWith(world, None, [c], {}, now) == Window(world[c], now)
  {
    OneMoreWindow(world, None, [], c, {c}, now);
    OneMoreWindow(world, None, [], c, {}, now);
    assert [] + [c] == [c];
  }

  class PolicyHub {
    var policies: World
    const bundled: set<Mrn>
    const stored: set<Mrn>

    /** The bundle and the store hold policies of this hub; a policy in both is the same one. */
    ghost predicate Valid()
      reads this
    {
      Filed(policies) && bundled <= policies.Keys && stored <= policies.Keys
    }

    constructor (policies: World, bundled: set<Mrn>, stored: set<Mrn>)
      requires Filed(policies) && bundled <= policies.Keys && stored <= policies.Keys
      ensures Valid() && this.policies == policies && this.bundled == bundled && this.stored == stored
    {
      this.policies, this.bundled, this.stored := policies, bundled, stored;
    }

    /** Looks up the children in one sorted group and adds their graph checksums. */
    method AddStoredChildren(refs: seq<PolicyRef>, execution: Fast, graph: Sums, at: Option<int>, now: int,
                             ghost world: World, ghost before: seq<Mrn>, ghost own: Option<int>)
      returns (r: Result<Folded, string>)
      requires Valid() && SameGraphs(world, policies)
      requires IsFold(world, own, now, before, [], execution, Folded(execution, graph, at))
      ensures r.Err? <==> exists ref :: ref in refs && !IsStored(world, stored, ref)
      ensures r.Ok? ==> IsFold(world, own, now, before, refs, execution, r.value)
    {
      var f := Folded(execution, graph, at);
      for j := 0 to |refs|
        invariant IsFold(world, own, now, before, refs[..j], execution, f)
        invariant forall ref :: ref in refs[..j] ==> IsStored(world, stored, ref)
      {
        var ref := refs[j];
        assert ref in refs;
        if ref.mrn !in stored {
          return Err("policy not found: " + ref.mrn);
        }
        var p := policies[ref.mrn];
        if !p.HasGraph() {
          return Err("failed to get checksums for dependent policy " + ref.mrn);
        }
        var ra := RecalculateAt(Availabilities(p.groups), now);
        FoldOneMore(world, own, now, before, refs[..j], ref, execution, f);
        f := f.Add(ref, p.Graph(), ra);
        TakeOneMore([], refs, j);
      }
      TakeAll(refs);
      return Ok(f);
    }

    /** Sorts one group of m in place and adds it to the checksums. */
    method AddStoredGroup(m: Mrn, i: nat, done: Progress, now: int,
                          ghost world: World, ghost groups: seq<Group>, ghost start: Sums, ghost own: Option<int>)
      returns (r: Result<Progress, string>)
      requires Valid() && m in policies && i < |groups| && policies[m].groups == SortGroups(groups, i)
      requires SameGraphs(world, policies) && IsProgress(world, start, own, now, groups[..i], done)
      modifies this`policies
      ensures policies == old(policies)[m := old(policies[m]).(groups := SortGroups(groups, i + 1))]
      ensures r.Ok? <==> Resolved(world, stored, groups[i])
      ensures r.Ok? ==> IsProgress(world, start, own, now, groups[..i + 1], r.value)
    {
      var p := policies[m];
      var g := p.groups[i];
      var refs := SortRefs(g.policies);
      ghost var unsorted := policies;
      policies := policies[m := p.(groups := p.groups[i := g.(policies := refs)])];
      SortInPlace(world, unsorted, m, groups, i, policies);
      SortKeepsResolved(world, stored, g);
      var execution := AddNumber(AddNumber(done.local.execution, GroupTypeNumber(g.groupType)),
        ReviewNumber(g.availability.reviewStatus));
      StartFold(world, start, own, now, groups[..i], done, execution);
      var f :- AddStoredChildren(refs, execution, done.graph, done.at, now, world, Children(groups[..i]), own);
      if g.body.Err? {
        return Err(g.body.error);
      }
      ProgressOneMore(world, start, own, now, groups[..i], g, done, f);
      TakeOneMore([], groups, i);
      return Ok(Progress(Sums(AddDates(AddSum(f.execution, g.body.value.execution), g.availability),
        AddSum(done.local.content, g.body.value.content)), f.graph, f.at));
    }

    method AddAllGroups(m: Mrn, start: Sums, at: Option<int>, now: int, ghost world: World)
      returns (r: Result<Progress, string>)
      requires Valid() && Filed(world) && PartialAt(world, policies, m, 0)
      modifies this`policies
      ensures Valid() && m in policies
      ensures r.Ok? <==> AllResolved(world, stored, world[m].groups)
      ensures r.Ok? ==> PartialAt(world, policies, m, |world[m].groups|)
      ensures r.Ok? ==> IsProgress(world, start, at, now, world[m].groups, r.value)
      ensures r.Err? ==> IsPartial(world, policies, m)
    {
      ghost var groups := world[m].groups;
      var done := Progress(start, Sums(New, New), at);
      PartialKeepsGraphs(world, policies, m, 0);
      for i := 0 to |policies[m].groups|
        invariant PartialAt(world, policies, m, i)
        invariant Valid() && SameGraphs(world, policies) && m in policies && policies[m].groups == SortGroups(groups, i)
        invariant IsProgress(world, start, at, now, groups[..i], done)
        invariant AllResolved(world, stored, groups[..i])
      {
        ghost var before := policies;
        var next := AddStoredGroup(m, i, done, now, world, groups, start, at);
        PartialStep(world, before, policies, m, i);
        PartialKeepsGraphs(world, policies, m, i + 1);
        ResolvedOneMore(world, stored, groups, i);
        done :- next;
      }
      TakeAll(groups);
      return Ok(done);
    }

    /** The full computation. */
    method UpdateAllChecksums(m: Mrn, now: int) returns (r: Result<Option<int>, string>)
      requires Valid() && m in policies
      modifies this`policies
      ensures Valid()
      ensures r.Ok? <==> AllResolved(old(policies), stored, old(policies[m].groups)) && old(policies[m].risks).Ok?
      ensures r.Ok? ==> IsComplete(old(policies), policies, m, now, r.value)
      ensures r.Err? ==> IsPartial(old(policies), policies, m)
    {
      ghost var world := policies;
      policies := policies[m := policies[m].(localExecution := None, localContent := None)];
      var at := RecalculateAt(Availabilities(policies[m].groups), now);
      assert SortGroups(world[m].groups, 0) == world[m].groups;
      var done :- AddAllGroups(m, StartSums(policies[m], at), at, now, world);
      ghost var partial := policies;
      if policies[m].risks.Err? {
        return Err(policies[m].risks.error);
      }
      var local := FinishSums(done.local, policies[m].risks.value);
      var p := policies[m].(localExecution := Some(local.execution), localContent := Some(local.content));
      policies := policies[m := p.WithGraph(done.graph.Add(local))];
      FinishComplete(world, partial, m, now, done, local, policies[m]);
      return Ok(done.at);
    }

    /** Looks up a child and makes sure that it has graph checksums. */
    method UpdateChild(c: Mrn, m: Mrn, now: int, ghost rank: Mrn -> nat, ghost world: World)
      returns (r: Result<Sums, string>)
      requires Valid() && m in world && Filed(world) && Ranked(world, rank) && Updated(world, policies, m, rank)
      requires rank(c) < rank(m)
      modifies this`policies
      ensures Valid() && Updated(world, policies, m, rank) && KeepsGraphs(old(policies), policies)
      ensures policies[m] == old(policies[m])
      ensures r.Ok? ==> c in policies && policies[c].HasGraph() && r.value == policies[c].Graph()
      ensures Ready(world, bundled + stored) && c in bundled + stored ==> r.Ok?
      decreases rank(m), 0
    {
      if c !in bundled {
        if c !in stored {
          return Err("policy not found: " + c);
        }
      }
      if !policies[c].HasGraph() {
        ghost var before := policies;
        StaysRanked(world, before, m, rank);
        var u := UpdateChecksums(c, now, rank);
        UpdatesCompose(world, before, policies, m, c, rank);
        if u.Err? {
          if Ready(world, bundled + stored) {
            StaysReady(world, before, m, rank, bundled + stored);
          }
          return Err(u.error);
        }
      }
      return Ok(policies[c].Graph());
    }

    /** Adds the children of one group to the graph checksums of m, in checksum order. */
    method UpdateGroup(children: seq<Mrn>, m: Mrn, graph: Sums, at: Option<int>, now: int,
                       ghost done: seq<Mrn>, ghost own: Option<int>, ghost rank: Mrn -> nat, ghost world: World)
      returns (r: Result<(Sums, Option<int>), string>)
      requires Valid() && m in world && Filed(world) && Ranked(world, rank) && Updated(world, policies, m, rank)
      requires IsFastFold(policies, own, now, bundled, done, graph, at)
      requires forall c :: c in children ==> rank(c) < rank(m)
      modifies this`policies
      ensures Valid() && Updated(world, policies, m, rank) && policies[m] == old(policies[m])
      ensures r.Ok? ==> IsFastFold(policies, own, now, bundled, done + children, r.value.0, r.value.1)
      ensures Ready(world, bundled + stored) && (forall c :: c in children ==> c in bundled + stored) ==> r.Ok?
      decreases rank(m), 1
    {
      var g, a := graph, at;
      ghost var seen := done;
      assert done + children[..0] == done;
      for j := 0 to |children|
        invariant Valid() && Updated(world, policies, m, rank) && policies[m] == old(policies[m])
        invariant seen == done + children[..j] && IsFastFold(policies, own, now, bundled, seen, g, a)
      {
        var c := children[j];
        assert c in children;
        ghost var before := policies;
        var sums :- UpdateChild(c, m, now, rank, world);
        FastFoldOneMore(before, policies, own, now, bundled, seen, c, g, a);
        if c !in bundled {
          var ra := RecalculateAt(Availabilities(policies[c].groups), now);
          a := Sooner(a, ra);
        }
        g := g.Add(sums);
        TakeOneMore(done, children, j);
        seen := seen + [c];
      }
      TakeAll(children);
      return Ok((g, a));
    }

    /** Adds the children of all groups of m. */
    method UpdateGroups(m: Mrn, at: Option<int>, now: int, ghost rank: Mrn -> nat)
      returns (r: Result<(Sums, Option<int>), string>)
      requires Valid() && m in policies && Ranked(policies, rank)
      modifies this`policies
      ensures Valid() && Updated(old(policies), policies, m, rank) && policies[m] == old(policies[m])
      ensures r.Ok? ==> IsFastFold(policies, at, now, bundled, Children(policies[m].groups), r.value.0, r.value.1)
      ensures Ready(old(policies), bundled + stored) ==> r.Ok?
      decreases rank(m), 2
    {
      ghost var world := policies;
      var p := policies[m];
      var next := (Sums(New, New), at);
      NothingUpdated(world, m, rank);
      for i := 0 to |p.groups|
        invariant Valid() && Updated(world, policies, m, rank) && policies[m] == p
        invariant IsFastFold(policies, at, now, bundled, Children(p.groups[..i]), next.0, next.1)
      {
        OneMoreGroup(p.groups, i);
        ChildrenOfGroup(p.groups, i);
        next :- UpdateGroup(Sort(CompareStrings, RefMrns(p.groups[i].policies)), m, next.0, next.1, now,
                  Children(p.groups[..i]), at, rank, world);
      }
      TakeAll(p.groups);
      return Ok(next);
    }

    /** Recomputes the checksums of m; local checksums that are set are not computed again. */
    method UpdateChecksums(m: Mrn, now: int, ghost rank: Mrn -> nat) returns (r: Result<Option<int>, string>)
      requires Valid() && m in policies && Ranked(policies, rank)
      modifies this`policies
      ensures Valid() && Updated(old(policies), policies, m, rank)
      ensures r.Ok? ==> UpToDate(policies, m)
      ensures r.Ok? && !old(policies[m].HasLocal()) ==> IsComplete(old(policies), policies, m, now, r.value)
      ensures r.Ok? ==> IsWindow(policies, m, if old(policies[m].HasLocal()) then bundled else {}, now, r.value)
      ensures r.Err? ==>
        && policies[m].graphExecution == old(policies[m].graphExecution)
        && policies[m].graphContent == old(policies[m].graphContent)
      ensures Ready(old(policies), bundled + stored) ==> r.Ok?
      decreases rank(m), 3
    {
      ghost var world := policies;
      if !policies[m].HasLocal() {
        r := UpdateAllChecksums(m, now);
        if r.Ok? {
          CompleteIsUpdate(world, policies, m, now, r.value, rank);
        } else {
          PartialIsUpdate(world, policies, m, rank);
        }
        return r;
      }
      var at := RecalculateAt(Availabilities(policies[m].groups), now);
      var next :- UpdateGroups(m, at, now, rank);
      ghost var before := policies;
      policies := policies[m := policies[m].WithGraph(next.0.Add(policies[m].Local()))];
      FastWindow(world, before, policies, m, before[m], next.0, next.1, now, bundled, rank);
      return Ok(next.1);
    }
  }
}
