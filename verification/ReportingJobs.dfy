/** Reporting jobs, and what building a node adds to the resolved policy. */
module ReportingJobs {
  import opened Wrappers
  import opened PolicyTypes
  import opened PolicyWindow
  import opened PolicyBundle
  import opened QueryTypes
  import opened JobGraph
  import opened Ordering

  type Uuid = string

  /** What a uuid is derived from: the id of a node or, for the root, a graph checksum, so that
      bundles that differ in nothing but the root share their jobs. */
  datatype Key = NodeKey(id: Id) | RootKey(graphChecksum: string)

  ghost predicate Injective(checksum: Key -> Uuid) {
    forall a, b :: checksum(a) == checksum(b) ==> a == b
  }

  function KeyOf(n: Node): Key {
    if n.PolicyNode? && n.isRoot then RootKey(n.graphChecksum) else NodeKey(IdOf(n))
  }

  function CodeKey(code: CodeId): Key {
    NodeKey(CodeNode(code))
  }

  datatype JobType =
    | CheckJob | DataQueryJob | CheckAndDataQueryJob | ExecutionQueryJob | PolicyJob | FrameworkJob | ControlJob
    | RiskFactorJob

  /** What scores are stored under. */
  datatype QrId = OfNode(id: Id) | Root

  datatype JobHead = JobHead(uuid: Uuid, qrId: QrId, jobType: JobType, mrns: seq<Id>, scoring: ScoringSystem)

  class ReportingJob {
    const uuid: Uuid
    const jobType: JobType
    const mrns: seq<Id>
    var qrId: QrId
    var scoring: ScoringSystem
    var childJobs: map<Uuid, Option<Impact>>
    var notify: seq<Uuid>
    var checksum: Digest

    constructor (uuid: Uuid, qrId: QrId, jobType: JobType, mrns: seq<Id>)
      ensures Head() == JobHead(uuid, qrId, jobType, mrns, ScoringUnspecified) && childJobs == map[] && notify == []
    {
      this.uuid, this.qrId, this.jobType, this.mrns := uuid, qrId, jobType, mrns;
      scoring, childJobs, notify, checksum := ScoringUnspecified, map[], [], Start;
    }

    function Head(): JobHead
      reads this`qrId, this`scoring
    {
      JobHead(uuid, qrId, jobType, mrns, scoring)
    }

    /** Links child and parent in both directions; tells whether they were linked before. */
    static method Connect(child: ReportingJob, parent: ReportingJob, impact: Option<Impact>) returns (already: bool)
      modifies child`notify, parent`childJobs
      ensures already <==> parent.uuid in old(child.notify)
      ensures child.notify == old(child.notify) + [parent.uuid]
      ensures parent.childJobs == old(parent.childJobs)[child.uuid := impact]
    {
      already := false;
      for i := 0 to |child.notify|
        invariant already <==> parent.uuid in child.notify[..i]
      {
        if child.notify[i] == parent.uuid {
          already := true;
        }
      }
      assert child.notify[..|child.notify|] == child.notify;
      child.notify := child.notify + [parent.uuid];
      parent.childJobs := parent.childJobs[child.uuid := impact];
    }

    /** Recomputes the checksum. */
    method RefreshChecksum()
      modifies this`checksum
      ensures checksum == ChecksumOf(uuid, qrId, childJobs, notify)
    {
      var sum := AddQrId(AddText(AddText(Start, "v2"), uuid), qrId);
      var keys := SortedKeysOf(childJobs.Keys);
      ghost var base := sum;
      for i := 0 to |keys|
        invariant sum == AddChildren(base, childJobs, keys[..i])
      {
        assert keys[i] in keys;
        assert keys[..i + 1][..i] == keys[..i];
        sum := AddText(sum, keys[i]);
        if childJobs[keys[i]].Some? {
          sum := AddSum(sum, ImpactSum(childJobs[keys[i]].value));
        }
      }
      assert keys[..|keys|] == keys;
      var sorted := Sort(CompareStrings, notify);
      base := sum;
      for i := 0 to |sorted|
        invariant sum == AddTexts(base, sorted[..i])
      {
        assert sorted[..i + 1][..i] == sorted[..i];
        sum := AddText(sum, sorted[i]);
      }
      assert sorted[..|sorted|] == sorted;
      checksum := sum;
    }
  }

  // ----- job checksums -----

  /** A checksum as the sequence of what was added to it. */
  datatype Digest =
    | Start | AddText(base: Digest, text: string) | AddNumber(base: Digest, number: int) | AddQrId(base: Digest,
      qrId: QrId)
    | AddSum(base: Digest, sum: Digest)

  function ScoringNumber(s: ScoringSystem): int {
    match s
    case ScoringUnspecified => 0 case Weighted => 1 case Worst => 2 case Average => 3 case DataOnly => 4
    case IgnoreScore => 5 case Banded => 6 case Decayed => 7 case ScoringDisabled => 8
  }

  function ImpactSum(i: Impact): Digest {
    var sum := AddNumber(AddNumber(AddNumber(Start, ScoringNumber(i.scoring)), i.weight), ActionNumber(i.action));
    if i.value.Some? then AddNumber(sum, i.value.value as int) else sum
  }

  function AddChildren(base: Digest, childJobs: map<Uuid, Option<Impact>>, keys: seq<Uuid>): Digest
    requires forall k :: k in keys ==> k in childJobs
  {
    if keys == [] then base
    else
      var k := keys[|keys| - 1];
      var sum := AddText(AddChildren(base, childJobs, keys[..|keys| - 1]), k);
      if childJobs[k].Some? then AddSum(sum, ImpactSum(childJobs[k].value)) else sum
  }

  function AddTexts(base: Digest, texts: seq<string>): Digest {
    if texts == [] then base else AddText(AddTexts(base, texts[..|texts| - 1]), texts[|texts| - 1])
  }

  /** The elements of a set in some order. */
  ghost function Listed(s: set<Uuid>): (r: seq<Uuid>)
    ensures multiset(r) == multiset(s)
  {
    if s == {} then []
    else
      var x :| x in s;
      assert multiset(s) == multiset(s - {x}) + multiset{x};
      Listed(s - {x}) + [x]
  }

  ghost function SortedKeys(s: set<Uuid>): (r: seq<Uuid>)
    ensures forall k :: k in r <==> k in s
  {
    SortPermutes(CompareStrings, Listed(s));
    assert forall k :: k in Sort(CompareStrings, Listed(s)) <==> k in multiset(s);
    Sort(CompareStrings, Listed(s))
  }

  /** Listing the keys of a map in any order and sorting them gives the same list. */
  method SortedKeysOf(s: set<Uuid>) returns (keys: seq<Uuid>)
    ensures keys == SortedKeys(s)
  {
    keys := [];
    var remaining := s;
    while remaining != {}
      invariant remaining <= s && multiset(keys) + multiset(remaining) == multiset(s)
    {
      var k :| k in remaining;
      remaining := remaining - {k};
      keys := keys + [k];
    }
    StringsAreOrdered();
    StringTiesDistinguish(keys);
    SortForgetsOrder(CompareStrings, keys, Listed(s));
    keys := Sort(CompareStrings, keys);
  }

  ghost function ChecksumOf(uuid: Uuid, qrId: QrId, childJobs: map<Uuid, Option<Impact>>, notify: seq<Uuid>): Digest {
    AddTexts(
      AddChildren(AddQrId(AddText(AddText(Start, "v2"), uuid), qrId), childJobs, SortedKeys(childJobs.Keys)),
      Sort(CompareStrings, notify))
  }

  /** The checksum does not depend on the order in which other jobs are notified. */
  lemma ChecksumForgetsOrder(uuid: Uuid, qrId: QrId, childJobs: map<Uuid, Option<Impact>>, a: seq<Uuid>, b: seq<Uuid>)
    requires multiset(a) == multiset(b)
    ensures ChecksumOf(uuid, qrId, childJobs, a) == ChecksumOf(uuid, qrId, childJobs, b)
  {
    StringsAreOrdered();
    StringTiesDistinguish(a);
    SortForgetsOrder(CompareStrings, a, b);
  }

  function QueryJobType(t: QueryType): JobType {
    match t
    case Scoring => CheckJob
    case Data => DataQueryJob
    case Both => CheckAndDataQueryJob
  }

  function TypeOfJob(n: Node): JobType {
    match n
    case PolicyNode(_, _, _, _) => PolicyJob
    case QueryNode(_, t, _) => QueryJobType(t)
    case ExecutionNode(_) => ExecutionQueryJob
    case FrameworkNode(_) => FrameworkJob
    case ControlNode(_) => ControlJob
    case RiskNode(_, _) => RiskFactorJob
  }

  /** Neither the root nor code lists its id among the MRNs of its job. */
  function MrnsOfJob(n: Node): seq<Id> {
    if n.ExecutionNode? || (n.PolicyNode? && n.isRoot) then [] else [IdOf(n)]
  }

  /** The job of a node; only policies other than the root pass on their scoring system. */
  function HeadOf(checksum: Key -> Uuid, n: Node): JobHead {
    JobHead(checksum(KeyOf(n)), OfNode(IdOf(n)), TypeOfJob(n), MrnsOfJob(n),
      if n.PolicyNode? && !n.isRoot then n.scoring else ScoringUnspecified)
  }

  // ----- the resolved policy as it is collected -----

  datatype Collected = Collected(
    heads: map<Uuid, JobHead>, queries: set<CodeId>,
    reportingQueries: map<CodeId, seq<Uuid>>, riskMrns: map<Uuid, seq<Mrn>>, riskFactors: set<Mrn>)

  const NOTHING_COLLECTED := Collected(map[], {}, map[], map[], {})

  /** A job that exists already is used again. */
  function WithHead(checksum: Key -> Uuid, heads: map<Uuid, JobHead>, n: Node): map<Uuid, JobHead> {
    var u := checksum(KeyOf(n));
    var heads' := if u in heads then heads else heads[u := HeadOf(checksum, n).(scoring := ScoringUnspecified)];
    if n.PolicyNode? && !n.isRoot then heads'[u := heads'[u].(scoring := n.scoring)] else heads'
  }

  function WithReportingQuery(
      reportingQueries: map<CodeId, seq<Uuid>>, code: CodeId, uuid: Uuid): map<CodeId, seq<Uuid>> {
    var items := if code in reportingQueries then reportingQueries[code] else [];
    reportingQueries[code := if uuid in items then items else items + [uuid]]
  }

  /** A risk factor is listed once for every time it selects a code. */
  function WithRiskMrns(
      checksum: Key -> Uuid, riskMrns: map<Uuid, seq<Mrn>>, risk: Mrn, codes: seq<CodeId>): map<Uuid, seq<Mrn>> {
    if codes == [] then riskMrns
    else
      var front, u := WithRiskMrns(checksum, riskMrns, risk, codes[..|codes| - 1]),
        checksum(CodeKey(codes[|codes| - 1]));
      front[u := (if u in front then front[u] else []) + [risk]]
  }

  /** What a node adds besides its job. */
  function WithParts(checksum: Key -> Uuid, col: Collected, n: Node): Collected {
    match n
    case QueryNode(_, t, code) =>
      if t == Data then col
      else col.(reportingQueries := WithReportingQuery(col.reportingQueries, code, checksum(CodeKey(code))))
    case ExecutionNode(code) => col.(queries := col.queries + {code})
    case RiskNode(m, codes) =>
      col.(riskFactors := col.riskFactors + {m}, riskMrns := WithRiskMrns(checksum, col.riskMrns, m, codes))
    case _ => col
  }

  function BuildNode(checksum: Key -> Uuid, col: Collected, n: Node): Collected {
    WithParts(checksum, col.(heads := WithHead(checksum, col.heads, n)), n)
  }

  /** The nodes are built in this order. */
  function BuildAll(checksum: Key -> Uuid, g: JobGraph, order: seq<Id>): Collected
    requires forall id :: id in order ==> id in g.nodes
  {
    if order == [] then NOTHING_COLLECTED
    else BuildNode(checksum, BuildAll(checksum, g, order[..|order| - 1]), g.nodes[order[|order| - 1]])
  }

  lemma BuildOneMore(checksum: Key -> Uuid, g: JobGraph, order: seq<Id>, id: Id)
    requires id in g.nodes && forall i :: i in order ==> i in g.nodes
    ensures BuildAll(checksum, g, order + [id]) == BuildNode(checksum, BuildAll(checksum, g, order), g.nodes[id])
  {
    assert (order + [id])[..|order|] == order;
  }
}
