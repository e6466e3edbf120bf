/** A policy bundle as the resolver looks at it: records filed under their MRNs. */
module PolicyBundle {
  import opened Wrappers
  import opened PolicyTypes
  import opened PolicyWindow

  type Mrn = string

  /** A check or data query as a group lists it. */
  datatype QueryRef = QueryRef(mrn: Mrn, action: Action)

  datatype Group = Group(
    availability: Availability, groupType: GroupType, policies: seq<Mrn>, checks: seq<QueryRef>, queries: seq<QueryRef>)

  datatype Mquery = Mquery(mrn: Mrn, codeId: CodeId, variants: seq<Mrn>, filters: set<CodeId>)

  datatype RiskFactor = RiskFactor(mrn: Mrn, filters: set<CodeId>, checks: seq<Mquery>, queries: seq<Mquery>)

  datatype Policy = Policy(
    mrn: Mrn, computedFilters: set<CodeId>, groups: seq<Group>, riskFactors: seq<RiskFactor>, graphChecksum: string)

  datatype Control = Control(mrn: Mrn, checks: seq<Mrn>, queries: seq<Mrn>, policies: seq<Mrn>, controls: seq<Mrn>)

  datatype FrameworkMap = FrameworkMap(owner: Mrn, controls: seq<Control>)

  datatype Framework = Framework(mrn: Mrn, maps: seq<FrameworkMap>, dependencies: seq<Mrn>)

  datatype Bundle = Bundle(policies: map<Mrn, Policy>, queries: map<Mrn, Mquery>, frameworks: map<Mrn, Framework>)

  /** The asset and the moment a bundle is resolved for. */
  datatype Target = Target(assetFilters: set<CodeId>, now: int)

  predicate Matches(target: Target, g: Group) {
    IsGroupMatching(g.availability, target.assetFilters, target.now)
  }

  /** Filters.Supports: no filters at all support everything. */
  predicate Supports(filters: set<CodeId>, target: Target) {
    filters == {} || filters * target.assetFilters != {}
  }

  predicate CanRun(action: Action) {
    action != Deactivate && action != OutOfScope
  }

  function NormalizeAction(groupType: GroupType, action: Action, scoring: Option<ScoringSystem>): Action {
    match groupType
    case Disable => Deactivate
    case OutOfScopeGroup => OutOfScope
    case Ignored => Ignore
    case _ => if scoring == Some(IgnoreScore) then Ignore else action
  }

  predicate IsOverride(action: Action, groupType: GroupType) {
    action != Unspecified || groupType == Disable || groupType == OutOfScopeGroup || groupType == Ignored
  }

  /** What stops an entry from running: a group that disables its entries or takes them out of scope, or,
      outside of groups for ignored entries and unless it is ignored in scoring, an action of its own that
      deactivates it or takes it out of scope. An entry that is stopped is not added through its group. */
  lemma StoppedIsOverride(groupType: GroupType, action: Action, scoring: Option<ScoringSystem>)
    ensures !CanRun(NormalizeAction(groupType, action, scoring)) <==>
      || groupType == Disable || groupType == OutOfScopeGroup
      || (groupType != Ignored && scoring != Some(IgnoreScore) && (action == Deactivate || action == OutOfScope))
    ensures !CanRun(NormalizeAction(groupType, action, scoring)) ==> IsOverride(action, groupType)
  {
  }

  /** Ranks that descend along references; they exist when references are not circular. */
  datatype Ranks = Ranks(query: Mrn -> nat, policy: Mrn -> nat, framework: Mrn -> nat)

  ghost predicate VariantsDescend(queries: map<Mrn, Mquery>, rank: Mrn -> nat) {
    forall m, v :: m in queries && v in queries[m].variants && v in queries ==> rank(v) < rank(m)
  }

  ghost predicate PoliciesDescend(policies: map<Mrn, Policy>, rank: Mrn -> nat) {
    forall m, g, c :: m in policies && g in policies[m].groups && c in g.policies ==> rank(c) < rank(m)
  }

  ghost predicate FrameworksDescend(frameworks: map<Mrn, Framework>, rank: Mrn -> nat) {
    forall m, f :: m in frameworks && f in frameworks[m].dependencies && f in frameworks ==> rank(f) < rank(m)
  }

  /** One more than the rank of a record; what is not in the bundle is at the bottom. */
  ghost function Level<T>(records: map<Mrn, T>, rank: Mrn -> nat, m: Mrn): nat {
    if m in records then rank(m) + 1 else 0
  }

  /** The highest level of a list. */
  ghost function ListLevel<T>(records: map<Mrn, T>, rank: Mrn -> nat, list: seq<Mrn>): (r: nat)
    ensures forall m :: m in list ==> Level(records, rank, m) <= r
    ensures r == 0 || exists m :: m in list && r == Level(records, rank, m)
  {
    if list == [] then 0
    else
      var front, last := ListLevel(records, rank, list[..|list| - 1]), list[|list| - 1];
      if front < Level(records, rank, last) then Level(records, rank, last) else front
  }
}
