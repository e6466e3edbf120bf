/** What the checksums of a policy cover: they are equal exactly if everything they are meant to
    cover is. */
module ChecksumContents {
  import opened PolicyTypes
  import opened Ordering
  import opened PolicyWindow
  import opened PolicyChecksums

  /** How much has been added. */
  function Length(sum: Fast): nat {
    match sum
    case New => 0
    case AddText(base, _) => Length(base) + 1
    case AddNumber(base, _) => Length(base) + 1
    case AddSum(base, _) => Length(base) + 1
  }

  // ----- references -----

  /** References are told from the two numbers that come before them: a text stands before the
      number of each action. */
  predicate StartsRefs(sum: Fast) {
    sum.AddNumber? && sum.base.AddNumber?
  }

  lemma {:induction false} RefsDecode(a: Fast, b: Fast, refs: seq<PolicyRef>, refs': seq<PolicyRef>)
    requires StartsRefs(a) && StartsRefs(b) && AddRefs(a, refs) == AddRefs(b, refs')
    ensures a == b && refs == refs'
  {
    if refs != [] && refs' != [] {
      var last, last' := refs[|refs| - 1], refs'[|refs'| - 1];
      assert last.mrn == last'.mrn && ActionNumber(last.action) == ActionNumber(last'.action);
      RefsDecode(a, b, refs[..|refs| - 1], refs'[..|refs'| - 1]);
      assert refs == refs[..|refs| - 1] + [last] && refs' == refs'[..|refs'| - 1] + [last'];
    }
  }

  lemma {:induction false} RefsLength(base: Fast, refs: seq<PolicyRef>)
    ensures Length(AddRefs(base, refs)) == Length(base) + 2 * |refs|
  {
    if refs != [] {
      RefsLength(base, refs[..|refs| - 1]);
    }
  }

  // ----- groups -----

  /** A date that is not set counts like second 0. */
  function FirstSecond(a: Availability): int {
    if a.valid.Some? && a.valid.value.from.Some? then a.valid.value.from.value else 0
  }

  function LastSecond(a: Availability): int {
    if a.valid.Some? && a.valid.value.until.Some? then a.valid.value.until.value else 0
  }

  predicate SameDates(a: Availability, b: Availability) {
    && a.startDate == b.startDate && a.endDate == b.endDate
    && FirstSecond(a) == FirstSecond(b) && LastSecond(a) == LastSecond(b)
  }

  /** The execution checksum of a group covers its type, review status, references with their
      actions, whatever their order, dates, and the rest as it was summed up before. */
  predicate SameExecution(g: Group, h: Group)
    requires g.body.Ok? && h.body.Ok?
  {
    && g.groupType == h.groupType && g.availability.reviewStatus == h.availability.reviewStatus
    && SortRefs(g.policies) == SortRefs(h.policies) && SameDates(g.availability, h.availability)
    && g.body.value.execution == h.body.value.execution
  }

  lemma GroupDecodes(x: Sums, y: Sums, g: Group, h: Group)
    requires g.body.Ok? && h.body.Ok?
    ensures AddGroup(x, g).execution == AddGroup(y, h).execution <==> x.execution == y.execution && SameExecution(g, h)
  {
    var a := AddNumber(AddNumber(x.execution, GroupTypeNumber(g.groupType)), ReviewNumber(g.availability.reviewStatus));
    var b := AddNumber(AddNumber(y.execution, GroupTypeNumber(h.groupType)), ReviewNumber(h.availability.reviewStatus));
    DatesDecode(AddSum(AddRefs(a, SortRefs(g.policies)), g.body.value.execution),
      AddSum(AddRefs(b, SortRefs(h.policies)), h.body.value.execution), g.availability, h.availability);
    if AddRefs(a, SortRefs(g.policies)) == AddRefs(b, SortRefs(h.policies)) {
      RefsDecode(a, b, SortRefs(g.policies), SortRefs(h.policies));
    }
    KindsDecode(g, h);
  }

  lemma DatesDecode(x: Fast, y: Fast, a: Availability, b: Availability)
    ensures AddDates(x, a) == AddDates(y, b) <==> x == y && SameDates(a, b)
  {
  }

  lemma KindsDecode(g: Group, h: Group)
    ensures GroupTypeNumber(g.groupType) == GroupTypeNumber(h.groupType) <==> g.groupType == h.groupType
    ensures ReviewNumber(g.availability.reviewStatus) == ReviewNumber(h.availability.reviewStatus) <==>
      g.availability.reviewStatus == h.availability.reviewStatus
  {
  }

  ghost predicate AllSummed(groups: seq<Group>) {
    forall g :: g in groups ==> g.body.Ok?
  }

  lemma LastGroup(base: Sums, groups: seq<Group>)
    requires AllSummed(groups) && groups != []
    ensures var front, last := groups[..|groups| - 1], groups[|groups| - 1];
      AllSummed(front) && last.body.Ok? && AddGroups(base, groups) == AddGroup(AddGroups(base, front), last)
  {
    assert groups[|groups| - 1] in groups;
  }

  lemma DatesLength(base: Fast, a: Availability)
    ensures Length(AddDates(base, a)) > Length(base)
  {
    var second := AddNumber(AddNumber(base, a.startDate), a.endDate);
    assert Length(second) == Length(second.base) + 1 == Length(base) + 2;
    assert AddDates(base, a) == AddNumber(AddNumber(second, FirstSecond(a)), LastSecond(a));
  }

  lemma {:induction false} GroupsLength(base: Sums, groups: seq<Group>)
    requires AllSummed(groups)
    ensures Length(AddGroups(base, groups).execution) >= Length(base.execution) + |groups|
  {
    if groups != [] {
      var front, g := groups[..|groups| - 1], groups[|groups| - 1];
      LastGroup(base, groups);
      GroupsLength(base, front);
      var x := AddGroups(base, front).execution;
      var start := AddNumber(AddNumber(x, GroupTypeNumber(g.groupType)), ReviewNumber(g.availability.reviewStatus));
      RefsLength(start, SortRefs(g.policies));
      DatesLength(AddSum(AddRefs(start, SortRefs(g.policies)), g.body.value.execution), g.availability);
    }
  }

  ghost predicate AllSameExecution(groups: seq<Group>, groups': seq<Group>) {
    && AllSummed(groups) && AllSummed(groups') && |groups| == |groups'|
    && forall i :: 0 <= i < |groups| ==> GroupAgrees(groups, groups', i)
  }

  ghost predicate GroupAgrees(groups: seq<Group>, groups': seq<Group>, i: nat)
    requires i < |groups| && i < |groups'|
  {
    groups[i].body.Ok? && groups'[i].body.Ok? && SameExecution(groups[i], groups'[i])
  }

  lemma OneMoreAgrees(groups: seq<Group>, groups': seq<Group>)
    requires groups != [] && groups' != [] && AllSummed(groups) && AllSummed(groups')
    requires groups[|groups| - 1].body.Ok? && groups'[|groups'| - 1].body.Ok?
    ensures AllSameExecution(groups, groups') <==>
      && AllSameExecution(groups[..|groups| - 1], groups'[..|groups'| - 1])
      && SameExecution(groups[|groups| - 1], groups'[|groups'| - 1])
  {
    var n, front, front' := |groups| - 1, groups[..|groups| - 1], groups'[..|groups'| - 1];
    if AllSameExecution(groups, groups') {
      forall i | 0 <= i < n ensures GroupAgrees(front, front', i) {
        assert GroupAgrees(groups, groups', i);
      }
      assert GroupAgrees(groups, groups', n);
    }
    if AllSameExecution(front, front') && SameExecution(groups[n], groups'[|groups'| - 1]) {
      forall i | 0 <= i < |groups| ensures GroupAgrees(groups, groups', i) {
        if i < n {
          assert GroupAgrees(front, front', i);
        }
      }
    }
  }

  /** From bases of one length, equal sums come from equal bases and the same groups. */
  lemma {:induction false} GroupsDecode(x: Sums, y: Sums, groups: seq<Group>, groups': seq<Group>)
    requires AllSummed(groups) && AllSummed(groups') && Length(x.execution) == Length(y.execution)
    ensures AddGroups(x, groups).execution == AddGroups(y, groups').execution <==>
      x.execution == y.execution && AllSameExecution(groups, groups')
    decreases |groups|
  {
    GroupsLength(x, groups);
    GroupsLength(y, groups');
    if groups != [] && groups' != [] {
      LastGroup(x, groups);
      LastGroup(y, groups');
      OneMoreAgrees(groups, groups');
      var front, front' := groups[..|groups| - 1], groups'[..|groups'| - 1];
      GroupsDecode(x, y, front, front');
      GroupDecodes(AddGroups(x, front), AddGroups(y, front'), groups[|groups| - 1], groups'[|groups'| - 1]);
    }
  }

  // ----- content -----

  ghost predicate AllSameContent(groups: seq<Group>, groups': seq<Group>) {
    && AllSummed(groups) && AllSummed(groups') && |groups| == |groups'|
    && forall i :: 0 <= i < |groups| ==> ContentAgrees(groups, groups', i)
  }

  ghost predicate ContentAgrees(groups: seq<Group>, groups': seq<Group>, i: nat)
    requires i < |groups| && i < |groups'|
  {
    groups[i].body.Ok? && groups'[i].body.Ok? && groups[i].body.value.content == groups'[i].body.value.content
  }

  lemma {:induction false} ContentDecodes(x: Sums, y: Sums, groups: seq<Group>, groups': seq<Group>)
    requires AllSummed(groups) && AllSummed(groups') && |groups| == |groups'|
    ensures AddGroups(x, groups).content == AddGroups(y, groups').content <==>
      x.content == y.content && AllSameContent(groups, groups')
    decreases |groups|
  {
    if groups != [] {
      var n, front, front' := |groups| - 1, groups[..|groups| - 1], groups'[..|groups| - 1];
      LastGroup(x, groups);
      LastGroup(y, groups');
      ContentDecodes(x, y, front, front');
      if AllSameContent(groups, groups') {
        forall i | 0 <= i < n ensures ContentAgrees(front, front', i) {
          assert ContentAgrees(groups, groups', i);
        }
        assert ContentAgrees(groups, groups', n);
      }
      if AllSameContent(front, front') && groups[n].body.value.content == groups'[n].body.value.content {
        forall i | 0 <= i <= n ensures ContentAgrees(groups, groups', i) {
          if i < n {
            assert ContentAgrees(front, front', i);
          }
        }
      }
    }
  }

  // ----- main results -----

  /** The local checksums of two policies that agree in their own fields are equal exactly if the
      recalculation times are, every group of one covers the same as that of the other, and the
      risk factors have the same checksums. */
  lemma LocalSumsIff(p: Policy, q: Policy, now: int, later: int)
    requires HasContent(p) && HasContent(q) && p.own == q.own
    ensures LocalSums(p, now) == LocalSums(q, later) <==>
      && Window(p, now) == Window(q, later)
      && AllSameExecution(p.groups, q.groups) && AllSameContent(p.groups, q.groups)
      && p.risks == q.risks
  {
    var x, y := StartSums(p, Window(p, now)), StartSums(q, Window(q, later));
    GroupsDecode(x, y, p.groups, q.groups);
    if AllSameExecution(p.groups, q.groups) {
      ContentDecodes(x, y, p.groups, q.groups);
    }
    WindowsDecode(p, q, now, later);
  }

  /** The execution checksums alone leave out the content of groups and risk factors. */
  lemma LocalExecutionIff(p: Policy, q: Policy, now: int, later: int)
    requires HasContent(p) && HasContent(q) && p.own == q.own
    ensures LocalSums(p, now).execution == LocalSums(q, later).execution <==>
      && Window(p, now) == Window(q, later) && AllSameExecution(p.groups, q.groups)
      && p.risks.value.execution == q.risks.value.execution
  {
    GroupsDecode(StartSums(p, Window(p, now)), StartSums(q, Window(q, later)), p.groups, q.groups);
    WindowsDecode(p, q, now, later);
  }

  /** The content checksum covers the execution checksum: no change goes unnoticed by it. */
  lemma ContentCoversExecution(p: Policy, q: Policy, now: int, later: int)
    requires HasContent(p) && HasContent(q)
    ensures LocalSums(p, now).content == LocalSums(q, later).content <==> LocalSums(p, now) == LocalSums(q, later)
  {
  }

  lemma WindowsDecode(p: Policy, q: Policy, now: int, later: int)
    requires p.own == q.own
    ensures StartSums(p, Window(p, now)) == StartSums(q, Window(q, later)) <==> Window(p, now) == Window(q, later)
    ensures StartSums(p, Window(p, now)).execution == StartSums(q, Window(q, later)).execution ==>
      Window(p, now) == Window(q, later)
  {
    EarliestIsSecond(AllDates(Availabilities(p.groups)), now);
    EarliestIsSecond(AllDates(Availabilities(q.groups)), later);
  }

  /** The children in checksum order: group by group, and by MRN within each group. */
  lemma ChildrenAreByGroup(groups: seq<Group>, g: Group)
    ensures Children(groups + [g]) == Children(groups) + Children([g])
    ensures multiset(Children([g])) == multiset(RefMrns(g.policies)) && Sorted(CompareStrings, Children([g]))
  {
    assert (groups + [g])[..|groups|] == groups && [g][..0] == [];
    assert Children([g]) == Sort(CompareStrings, RefMrns(g.policies));
    StringsAreOrdered();
    SortIsSorted(CompareStrings, RefMrns(g.policies));
    SortPermutes(CompareStrings, RefMrns(g.policies));
  }

  lemma {:induction false} FoldDecodes(a: seq<Sums>, b: seq<Sums>)
    ensures FoldSums(a) == FoldSums(b) <==> a == b
  {
    if a != [] && b != [] {
      FoldDecodes(a[..|a| - 1], b[..|b| - 1]);
      assert a == a[..|a| - 1] + [a[|a| - 1]] && b == b[..|b| - 1] + [b[|b| - 1]];
    }
  }

  /** The graph checksums of two policies that are up to date are equal exactly if their local ones
      are and their children have, one by one in checksum order, the same graph checksums. */
  lemma GraphSumsIff(world: World, m: Mrn, world': World, m': Mrn)
    requires UpToDate(world, m) && UpToDate(world', m')
    ensures world[m].Graph() == world'[m'].Graph() <==>
      && world[m].Local() == world'[m'].Local()
      && ChildSums(world, Children(world[m].groups)) == ChildSums(world', Children(world'[m'].groups))
  {
    FoldDecodes(ChildSums(world, Children(world[m].groups)), ChildSums(world', Children(world'[m'].groups)));
  }
}
