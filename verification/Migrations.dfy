/** Migration stages: what the lint rules check, and why a stage that passes them may be carried
    out in any order. */
module Migrations {
  import opened Wrappers

  type Uid = string

  datatype Action = Create | Remove | Modify | UnknownAction

  datatype Migration = Migration(action: Action, source: Option<Uid>, target: Option<Uid>) {
    function Src(): Uid { if source.Some? then source.value else "" }
    function Dst(): Uid { if target.Some? then target.value else "" }

    /** UIDs the migration takes away. */
    function Consumes(): set<Uid> {
      if action == Modify || action == Remove then {Src()} else {}
    }

    /** UIDs the migration brings in. */
    function Produces(): set<Uid> {
      if action == Modify || action == Create then {Dst()} else {}
    }

    function Touches(): set<Uid> {
      Consumes() + Produces()
    }
  }

  type Stage = seq<Migration>

  datatype LintError =
    | ConsumedTwice(uid: Uid) | ProducedTwice(uid: Uid) | ConsumedAndProduced(uid: Uid)
    | NeitherFinalNorConsumed(stage: nat, uid: Uid)
    | MissingEnd | MissingUid | UnknownMigration

  // ----- the lint rules -----

  /** The errors of a single migration. */
  function Validate(m: Migration): seq<LintError> {
    match m.action
    case Remove => if m.source.None? then [MissingEnd] else if m.Src() == "" then [MissingUid] else []
    case Modify =>
      if m.source.None? || m.target.None? then [MissingEnd]
      else if m.Src() == "" || m.Dst() == "" then [MissingUid]
      else []
    case Create => if m.target.None? then [MissingEnd] else if m.Dst() == "" then [MissingUid] else []
    case UnknownAction => [UnknownMigration]
  }

  predicate WellFormed(m: Migration) {
    Validate(m) == []
  }

  function ConsumedBy(stage: Stage): set<Uid> {
    if stage == [] then {} else ConsumedBy(stage[..|stage| - 1]) + stage[|stage| - 1].Consumes()
  }

  function ProducedBy(stage: Stage): set<Uid> {
    if stage == [] then {} else ProducedBy(stage[..|stage| - 1]) + stage[|stage| - 1].Produces()
  }

  function DeletedBy(stage: Stage): set<Uid> {
    if stage == [] then {}
    else
      var last := stage[|stage| - 1];
      DeletedBy(stage[..|stage| - 1]) + (if last.action == Remove then {last.Src()} else {})
  }

  function CreatedBy(stage: Stage): set<Uid> {
    if stage == [] then {}
    else
      var last := stage[|stage| - 1];
      CreatedBy(stage[..|stage| - 1]) + (if last.action == Create then {last.Dst()} else {})
  }

  function RenamesOf(stage: Stage): map<Uid, Uid> {
    if stage == [] then map[]
    else
      var last := stage[|stage| - 1];
      if last.action == Modify then RenamesOf(stage[..|stage| - 1])[last.Src() := last.Dst()]
      else RenamesOf(stage[..|stage| - 1])
  }

  /** No UID is consumed twice and none is produced twice. */
  ghost predicate NoDoubles(stage: Stage) {
    forall i, j :: 0 <= i < j < |stage| ==>
      stage[i].Consumes() !! stage[j].Consumes() && stage[i].Produces() !! stage[j].Produces()
  }

  class StageSummary {
    var consumes: map<Uid, Migration>
    var produces: map<Uid, Migration>
    var renames: map<Uid, Uid>
    var deletes: set<Uid>
    var creates: set<Uid>

    constructor ()
      ensures consumes == map[] && produces == map[] && renames == map[] && deletes == {} && creates == {}
    {
      consumes, produces, renames, deletes, creates := map[], map[], map[], {}, {};
    }

    /** Notes that a UID is consumed; complains if it was before. */
    method Consume(uid: Uid, m: Migration) returns (errs: seq<LintError>)
      modifies `consumes
      ensures consumes == old(consumes)[uid := m]
      ensures errs == if uid in old(consumes) then [ConsumedTwice(uid)] else []
    {
      errs := if uid in consumes then [ConsumedTwice(uid)] else [];
      consumes := consumes[uid := m];
    }

    /** Notes that a UID is produced; complains if it was before. */
    method Produce(uid: Uid, m: Migration) returns (errs: seq<LintError>)
      modifies `produces
      ensures produces == old(produces)[uid := m]
      ensures errs == if uid in old(produces) then [ProducedTwice(uid)] else []
    {
      errs := if uid in produces then [ProducedTwice(uid)] else [];
      produces := produces[uid := m];
    }

    /** Notes the effect of one migration. */
    method Note(m: Migration) returns (errs: seq<LintError>)
      modifies this
      ensures consumes.Keys == old(consumes.Keys) + m.Consumes()
      ensures produces.Keys == old(produces.Keys) + m.Produces()
      ensures deletes == old(deletes) + (if m.action == Remove then {m.Src()} else {})
      ensures creates == old(creates) + (if m.action == Create then {m.Dst()} else {})
      ensures renames == if m.action == Modify then old(renames)[m.Src() := m.Dst()] else old(renames)
      ensures errs == [] <==> old(consumes.Keys) !! m.Consumes() && old(produces.Keys) !! m.Produces()
    {
      errs := [];
      match m.action {
        case Modify =>
          var e1 := Consume(m.Src(), m);
          var e2 := Produce(m.Dst(), m);
          errs := e1 + e2;
          renames := renames[m.Src() := m.Dst()];
        case Remove =>
          errs := Consume(m.Src(), m);
          deletes := deletes + {m.Src()};
        case Create =>
          errs := Produce(m.Dst(), m);
          creates := creates + {m.Dst()};
        case UnknownAction =>
      }
    }

    /** Complains about every UID that is both consumed and produced. */
    method LintStageConsumeProduce() returns (errs: seq<LintError>)
      ensures forall e :: e in errs <==> e.ConsumedAndProduced? && e.uid in consumes && e.uid in produces
      ensures errs == [] <==> consumes.Keys !! produces.Keys
    {
      errs := [];
      var rest := consumes.Keys;
      while rest != {}
        invariant rest <= consumes.Keys
        invariant forall e :: e in errs <==>
          e.ConsumedAndProduced? && e.uid in consumes && e.uid !in rest && e.uid in produces
      {
        var uid :| uid in rest;
        rest := rest - {uid};
        if uid in produces {
          errs := errs + [ConsumedAndProduced(uid)];
        }
      }
      if errs != [] {
        assert errs[0] in errs;
      } else {
        forall uid | uid in consumes ensures uid !in produces {
          assert ConsumedAndProduced(uid) !in errs;
        }
      }
    }
  }

  /** Summarizes a stage: what it consumes and produces, by kind. It reports errors exactly when
      some UID is consumed or produced twice. */
  method SummarizeStage(stage: Stage) returns (s: StageSummary, errs: seq<LintError>)
    ensures fresh(s)
    ensures s.consumes.Keys == ConsumedBy(stage) && s.produces.Keys == ProducedBy(stage)
    ensures s.deletes == DeletedBy(stage) && s.creates == CreatedBy(stage) && s.renames == RenamesOf(stage)
    ensures errs == [] <==> NoDoubles(stage)
  {
    s := new StageSummary();
    errs := [];
    ghost var done: Stage := [];
    for i := 0 to |stage|
      invariant fresh(s) && done == stage[..i]
      invariant s.consumes.Keys == ConsumedBy(done) && s.produces.Keys == ProducedBy(done)
      invariant s.deletes == DeletedBy(done) && s.creates == CreatedBy(done) && s.renames == RenamesOf(done)
      invariant errs == [] <==> NoDoubles(done)
    {
      var e := s.Note(stage[i]);
      errs := errs + e;
      OneMoreDouble(done, stage[i]);
      OneMoreNoted(done, stage[i]);
      done := done + [stage[i]];
    }
    assert done == stage;
  }

  lemma OneMoreNoted(stage: Stage, m: Migration)
    ensures DeletedBy(stage + [m]) == DeletedBy(stage) + (if m.action == Remove then {m.Src()} else {})
    ensures CreatedBy(stage + [m]) == CreatedBy(stage) + (if m.action == Create then {m.Dst()} else {})
    ensures RenamesOf(stage + [m]) == if m.action == Modify
      then RenamesOf(stage)[m.Src() := m.Dst()] else RenamesOf(stage)
  {
    assert (stage + [m])[..|stage|] == stage;
  }

  predicate Renames(m: Migration, from: Uid, to: Uid) {
    m.action == Modify && m.Src() == from && m.Dst() == to
  }

  /** What is noted by kind: UIDs that a removal names, that a creation names, and what renames move where;
      of several renames of one UID some one counts. */
  lemma {:induction false} KindsAre(stage: Stage, uid: Uid)
    ensures uid in DeletedBy(stage) <==> exists m :: m in stage && m.action == Remove && m.Src() == uid
    ensures uid in CreatedBy(stage) <==> exists m :: m in stage && m.action == Create && m.Dst() == uid
    ensures uid in RenamesOf(stage) <==> exists m, to :: m in stage && Renames(m, uid, to)
    ensures uid in RenamesOf(stage) ==> exists m :: m in stage && Renames(m, uid, RenamesOf(stage)[uid])
  {
    if stage != [] {
      var front, last := stage[..|stage| - 1], stage[|stage| - 1];
      KindsAre(front, uid);
      assert stage == front + [last];
      assert last in stage;
      if last.action == Modify && last.Src() == uid {
        assert Renames(last, uid, last.Dst());
      }
    }
  }

  lemma {:induction false} ConsumedByMember(stage: Stage, uid: Uid)
    ensures uid in ConsumedBy(stage) <==> exists i :: 0 <= i < |stage| && uid in stage[i].Consumes()
    ensures uid in ProducedBy(stage) <==> exists i :: 0 <= i < |stage| && uid in stage[i].Produces()
  {
    if stage != [] {
      ConsumedByMember(stage[..|stage| - 1], uid);
    }
  }

  lemma OneMoreDouble(stage: Stage, m: Migration)
    ensures NoDoubles(stage + [m]) <==>
      NoDoubles(stage) && ConsumedBy(stage) !! m.Consumes() && ProducedBy(stage) !! m.Produces()
    ensures ConsumedBy(stage + [m]) == ConsumedBy(stage) + m.Consumes()
    ensures ProducedBy(stage + [m]) == ProducedBy(stage) + m.Produces()
  {
    var s := stage + [m];
    assert s[..|stage|] == stage;
    ConsumedByMember(stage, m.Src());
    ConsumedByMember(stage, m.Dst());
    if NoDoubles(s) {
      forall i, j | 0 <= i < j < |stage|
        ensures stage[i].Consumes() !! stage[j].Consumes() && stage[i].Produces() !! stage[j].Produces()
      {
        assert s[i] == stage[i] && s[j] == stage[j];
      }
      forall i | 0 <= i < |stage|
        ensures stage[i].Consumes() !! m.Consumes() && stage[i].Produces() !! m.Produces()
      {
        assert s[i] == stage[i] && s[|stage|] == m;
      }
    }
  }

  /** A stage without any complaint. */
  ghost predicate Clean(stage: Stage) {
    && (forall m :: m in stage ==> WellFormed(m))
    && NoDoubles(stage)
    && ConsumedBy(stage) !! ProducedBy(stage)
  }

  // ----- the same in terms of the migrations alone -----

  predicate Takes(m: Migration, uid: Uid) {
    (m.action == Remove || m.action == Modify) && uid == if m.source.Some? then m.source.value else ""
  }

  predicate Brings(m: Migration, uid: Uid) {
    (m.action == Create || m.action == Modify) && uid == if m.target.Some? then m.target.value else ""
  }

  /** The migration is of a known kind and names every UID that it takes or brings. */
  predicate IsProper(m: Migration) {
    && m.action != UnknownAction
    && (m.action == Remove || m.action == Modify ==> m.source.Some? && m.source.value != "")
    && (m.action == Create || m.action == Modify ==> m.target.Some? && m.target.value != "")
  }

  ghost predicate BothTake(a: Migration, b: Migration) {
    exists uid :: Takes(a, uid) && Takes(b, uid)
  }

  ghost predicate BothBring(a: Migration, b: Migration) {
    exists uid :: Brings(a, uid) && Brings(b, uid)
  }

  ghost predicate StageTakes(stage: Stage, uid: Uid) {
    exists m :: m in stage && Takes(m, uid)
  }

  ghost predicate StageBrings(stage: Stage, uid: Uid) {
    exists m :: m in stage && Brings(m, uid)
  }

  /** All migrations are proper, no UID is taken by two of them or brought by two of them, and none is both
      taken and brought. */
  ghost predicate IsInOrder(stage: Stage) {
    && (forall m :: m in stage ==> IsProper(m))
    && (forall i, j :: 0 <= i < j < |stage| ==> !BothTake(stage[i], stage[j]) && !BothBring(stage[i], stage[j]))
    && (forall uid :: !(StageTakes(stage, uid) && StageBrings(stage, uid)))
  }

  lemma SetsAre(m: Migration, uid: Uid)
    ensures uid in m.Consumes() <==> Takes(m, uid)
    ensures uid in m.Produces() <==> Brings(m, uid)
  {
  }

  lemma StageSetsAre(stage: Stage, uid: Uid)
    ensures uid in ConsumedBy(stage) <==> StageTakes(stage, uid)
    ensures uid in ProducedBy(stage) <==> StageBrings(stage, uid)
  {
    ConsumedByMember(stage, uid);
    if i :| 0 <= i < |stage| && uid in stage[i].Consumes() {
      assert Takes(stage[i], uid);
    }
    if i :| 0 <= i < |stage| && uid in stage[i].Produces() {
      assert Brings(stage[i], uid);
    }
  }

  lemma CleanIff(stage: Stage)
    ensures Clean(stage) <==> IsInOrder(stage)
  {
    forall m: Migration ensures WellFormed(m) <==> IsProper(m) {
    }
    forall i, j | 0 <= i < j < |stage|
      ensures stage[i].Consumes() !! stage[j].Consumes() <==> !BothTake(stage[i], stage[j])
      ensures stage[i].Produces() !! stage[j].Produces() <==> !BothBring(stage[i], stage[j])
    {
      PairIff(stage[i], stage[j]);
    }
    forall uid
      ensures uid in ConsumedBy(stage) <==> StageTakes(stage, uid)
      ensures uid in ProducedBy(stage) <==> StageBrings(stage, uid)
    {
      StageSetsAre(stage, uid);
    }
  }

  lemma PairIff(a: Migration, b: Migration)
    ensures a.Consumes() !! b.Consumes() <==> !BothTake(a, b)
    ensures a.Produces() !! b.Produces() <==> !BothBring(a, b)
  {
    forall m: Migration, uid
      ensures (uid in m.Consumes() <==> Takes(m, uid)) && (uid in m.Produces() <==> Brings(m, uid))
    {
      SetsAre(m, uid);
    }
  }

  method ValidateAll(stage: Stage) returns (errs: seq<LintError>)
    ensures errs == [] <==> forall m :: m in stage ==> WellFormed(m)
  {
    errs := [];
    for i := 0 to |stage|
      invariant errs == [] <==> forall j :: 0 <= j < i ==> WellFormed(stage[j])
    {
      errs := errs + Validate(stage[i]);
    }
  }

  /** Runs all rules for one stage; there is nothing to complain about exactly when it is clean. */
  method LintStage(stage: Stage) returns (errs: seq<LintError>)
    ensures errs == [] <==> Clean(stage)
    ensures errs == [] <==> IsInOrder(stage)
  {
    CleanIff(stage);
    var invalid := ValidateAll(stage);
    var summary, doubles := SummarizeStage(stage);
    var chains := summary.LintStageConsumeProduce();
    errs := invalid + doubles + chains;
  }

  /** The UIDs consumed by the stages from i on. */
  function ConsumedFrom(stages: seq<Stage>, i: nat): set<Uid>
    requires i <= |stages|
    decreases |stages| - i
  {
    if i == |stages| then {} else ConsumedBy(stages[i]) + ConsumedFrom(stages, i + 1)
  }

  /** What a stage produces is either final or consumed by a later stage. */
  ghost predicate CrossClean(stages: seq<Stage>, final: set<Uid>) {
    forall i :: 0 <= i < |stages| ==> CleanedUp(stages, final, i)
  }

  ghost predicate CleanedUp(stages: seq<Stage>, final: set<Uid>, i: nat)
    requires i < |stages|
  {
    ProducedBy(stages[i]) <= final + ConsumedFrom(stages, i + 1)
  }

  /** Some stage from i on takes the UID. */
  ghost predicate IsTakenFrom(stages: seq<Stage>, i: nat, uid: Uid) {
    exists k :: i <= k < |stages| && StageTakes(stages[k], uid)
  }

  lemma {:induction false} ConsumedFromIff(stages: seq<Stage>, i: nat, uid: Uid)
    requires i <= |stages|
    ensures uid in ConsumedFrom(stages, i) <==> IsTakenFrom(stages, i, uid)
    decreases |stages| - i
  {
    if i < |stages| {
      ConsumedFromIff(stages, i + 1, uid);
      StageSetsAre(stages[i], uid);
    }
  }

  /** What a stage brings is final or taken by a later stage. */
  ghost predicate IsCleanedUp(stages: seq<Stage>, final: set<Uid>, i: nat)
    requires i < |stages|
  {
    forall uid :: StageBrings(stages[i], uid) ==> uid in final || IsTakenFrom(stages, i + 1, uid)
  }

  lemma CleanedUpIff(stages: seq<Stage>, final: set<Uid>, i: nat)
    requires i < |stages|
    ensures CleanedUp(stages, final, i) <==> IsCleanedUp(stages, final, i)
  {
    forall uid
      ensures uid in ProducedBy(stages[i]) <==> StageBrings(stages[i], uid)
      ensures uid in ConsumedFrom(stages, i + 1) <==> IsTakenFrom(stages, i + 1, uid)
    {
      StageSetsAre(stages[i], uid);
      ConsumedFromIff(stages, i + 1, uid);
    }
  }

  lemma CrossCleanIff(stages: seq<Stage>, final: set<Uid>)
    ensures CrossClean(stages, final) <==> forall i :: 0 <= i < |stages| ==> IsCleanedUp(stages, final, i)
  {
    forall i | 0 <= i < |stages| ensures CleanedUp(stages, final, i) <==> IsCleanedUp(stages, final, i) {
      CleanedUpIff(stages, final, i);
    }
  }

  ghost predicate Summarizes(summary: StageSummary, stage: Stage)
    reads summary
  {
    summary.consumes.Keys == ConsumedBy(stage) && summary.produces.Keys == ProducedBy(stage)
  }

  /** Walks the stages backwards and complains about intermediate UIDs that nothing cleans up. */
  method LintCrossMigrationStage(
      stages: seq<StageSummary>, final: set<Uid>, ghost content: seq<Stage>) returns (errs: seq<LintError>)
    requires |content| == |stages| && forall i :: 0 <= i < |stages| ==> Summarizes(stages[i], content[i])
    ensures errs == [] <==> CrossClean(content, final)
    ensures errs == [] <==> forall i :: 0 <= i < |content| ==> IsCleanedUp(content, final, i)
  {
    errs := [];
    var i := |stages| - 1;
    while i >= 0
      invariant -1 <= i < |stages|
      invariant errs == [] <==> forall k :: i < k < |stages| ==> CleanedUp(content, final, k)
    {
      var found := LintProduced(stages, i, final, content);
      errs := errs + found;
      i := i - 1;
    }
    CrossCleanIff(content, final);
  }

  /** Complains about what one stage produces and nothing cleans up. */
  method LintProduced(
      stages: seq<StageSummary>, i: nat, final: set<Uid>, ghost content: seq<Stage>) returns (errs: seq<LintError>)
    requires |content| == |stages| && forall i :: 0 <= i < |stages| ==> Summarizes(stages[i], content[i])
    requires i < |stages|
    ensures errs == [] <==> CleanedUp(content, final, i)
  {
    var laterConsumes := LaterConsumes(stages, i, content);
    errs := UncleanedUids(stages[i].produces.Keys, final, laterConsumes, i);
  }

  /** The UIDs consumed by the stages after the given one. */
  method LaterConsumes(stages: seq<StageSummary>, i: nat, ghost content: seq<Stage>) returns (later: set<Uid>)
    requires |content| == |stages| && forall i :: 0 <= i < |stages| ==> Summarizes(stages[i], content[i])
    requires i < |stages|
    ensures later == ConsumedFrom(content, i + 1)
  {
    later := {};
    for j := i + 1 to |stages|
      invariant later + ConsumedFrom(content, j) == ConsumedFrom(content, i + 1)
    {
      later := later + stages[j].consumes.Keys;
    }
  }

  method UncleanedUids(
      produced: set<Uid>, final: set<Uid>, laterConsumes: set<Uid>, stage: nat) returns (errs: seq<LintError>)
    ensures errs == [] <==> produced <= final + laterConsumes
  {
    errs := [];
    var rest := produced;
    while rest != {}
      invariant rest <= produced
      invariant errs == [] <==> produced - rest <= final + laterConsumes
    {
      var uid :| uid in rest;
      rest := rest - {uid};
      if uid !in final && uid !in laterConsumes {
        errs := errs + [NeitherFinalNorConsumed(stage, uid)];
        assert uid in produced - rest;
      }
    }
  }

  // ----- what migrations do to stored data -----

  type Store = map<Uid, string>

  /** Creating adds an entry with given initial data, removing drops one, and modifying moves the
      data of an existing source to the target. */
  function Apply(m: Migration, store: Store, initial: string): Store {
    match m.action
    case Create => store[m.Dst() := initial]
    case Remove => store - {m.Src()}
    case Modify => if m.Src() in store then (store - {m.Src()})[m.Dst() := store[m.Src()]] else store
    case UnknownAction => store
  }

  /** What a proper migration takes is gone unless it brings it back, what it brings is there, and nothing else
      changes. What is created has the initial data, what is renamed the data that it had. */
  lemma AfterMigration(m: Migration, store: Store, initial: string, uid: Uid)
    requires IsProper(m) && (m.action == Modify ==> m.source.value in store)
    ensures var after := Apply(m, store, initial);
      && (uid in after <==> Brings(m, uid) || (uid in store && !Takes(m, uid)))
      && (uid in after && !Brings(m, uid) ==> after[uid] == store[uid])
      && (m.action == Create ==> after[m.target.value] == initial)
      && (m.action == Modify ==> after[m.target.value] == store[m.source.value])
  {
  }

  function Run(stage: Stage, store: Store, initial: string): Store {
    if stage == [] then store else Run(stage[1..], Apply(stage[0], store, initial), initial)
  }

  function RunStages(stages: seq<Stage>, store: Store, initial: string): Store {
    if stages == [] then store else RunStages(stages[1..], Run(stages[0], store, initial), initial)
  }

  ghost predicate Commute(a: Migration, b: Migration, initial: string) {
    forall store: Store :: Apply(a, Apply(b, store, initial), initial) == Apply(b, Apply(a, store, initial), initial)
  }

  /** Migrations that touch different UIDs commute. */
  lemma DisjointCommute(a: Migration, b: Migration, store: Store, initial: string)
    requires a.Touches() !! b.Touches()
    ensures Apply(a, Apply(b, store, initial), initial) == Apply(b, Apply(a, store, initial), initial)
  {
    assert a.action == Modify || a.action == Remove ==> a.Src() in a.Touches();
    assert a.action == Modify || a.action == Create ==> a.Dst() in a.Touches();
    assert b.action == Modify || b.action == Remove ==> b.Src() in b.Touches();
    assert b.action == Modify || b.action == Create ==> b.Dst() in b.Touches();
  }

  lemma {:induction false} PullToFront(p: Stage, x: Migration, q: Stage, store: Store, initial: string)
    requires forall m :: m in p ==> m.Touches() !! x.Touches()
    ensures Run(p + [x] + q, store, initial) == Run(p + q, Apply(x, store, initial), initial)
  {
    if p == [] {
      assert p + [x] + q == [x] + q && p + q == q;
    } else {
      var m, p' := p[0], p[1..];
      assert p + [x] + q == [m] + (p' + [x] + q) && p + q == [m] + (p' + q);
      forall n | n in p' ensures n.Touches() !! x.Touches() {
        assert n in p;
      }
      PullToFront(p', x, q, Apply(m, store, initial), initial);
      DisjointCommute(x, m, store, initial);
    }
  }

  /** Different positions of the stage touch different UIDs. */
  ghost predicate Separate(stage: Stage) {
    && (forall m :: m in stage ==> m.Touches() != {})
    && (forall i, j :: 0 <= i < j < |stage| ==> stage[i].Touches() !! stage[j].Touches())
  }

  lemma CleanIsSeparate(stage: Stage)
    requires Clean(stage)
    ensures Separate(stage)
  {
    forall m | m in stage ensures m.Touches() != {} {
      assert m.Src() in m.Touches() || m.Dst() in m.Touches();
    }
    forall i, j | 0 <= i < j < |stage| ensures stage[i].Touches() !! stage[j].Touches() {
      forall u | u in stage[i].Touches() && u in stage[j].Touches() ensures false {
        ConsumedByMember(stage, u);
        assert u in ConsumedBy(stage) && u in ProducedBy(stage);
      }
    }
  }

  lemma SeparateMembers(stage: Stage, m: Migration, n: Migration)
    requires Separate(stage) && m in stage && n in stage && m != n
    ensures m.Touches() !! n.Touches()
  {
  }

  lemma SeparateIsOnce(stage: Stage, m: Migration)
    requires Separate(stage) && m in stage
    ensures multiset(stage)[m] == 1
  {
    var i :| 0 <= i < |stage| && stage[i] == m;
    var p, q := stage[..i], stage[i + 1..];
    assert stage == p + [m] + q;
    assert m.Touches() != {};
    forall k | 0 <= k < |p| ensures p[k] != m {
      assert stage[k].Touches() !! stage[i].Touches();
    }
    forall k | 0 <= k < |q| ensures q[k] != m {
      assert stage[i].Touches() !! stage[i + 1 + k].Touches();
    }
    assert multiset(stage) == multiset(p) + multiset{m} + multiset(q);
  }

  /** Any two orders of a separate stage have the same effect. */
  lemma {:induction false} OrderDoesNotMatter(a: Stage, b: Stage, store: Store, initial: string)
    requires Separate(a) && multiset(a) == multiset(b)
    ensures Run(a, store, initial) == Run(b, store, initial)
  {
    if a == [] {
      assert |multiset(b)| == 0;
    } else {
      var x, a' := a[0], a[1..];
      var p, q := FindFirst(a, b);
      PullToFront(p, x, q, store, initial);
      TailIsSeparate(a);
      OrderDoesNotMatter(a', p + q, Apply(x, store, initial), initial);
    }
  }

  /** Where the first of one order is in the other. */
  lemma FindFirst(a: Stage, b: Stage) returns (p: Stage, q: Stage)
    requires Separate(a) && a != [] && multiset(a) == multiset(b)
    ensures b == p + [a[0]] + q && multiset(p + q) == multiset(a[1..])
    ensures forall m :: m in p ==> m.Touches() !! a[0].Touches()
  {
    assert a == [a[0]] + a[1..];
    p, q := FindIn(a, b, a[0]);
    forall m | m in p ensures m.Touches() !! a[0].Touches() {
      SeparateMembers(a, m, a[0]);
    }
  }

  lemma TailIsSeparate(a: Stage)
    requires Separate(a) && a != []
    ensures Separate(a[1..])
  {
    forall m | m in a[1..] ensures m in a {}
    forall i, j | 0 <= i < j < |a[1..]| ensures a[1..][i].Touches() !! a[1..][j].Touches() {
      assert a[1..][i] == a[i + 1] && a[1..][j] == a[j + 1];
    }
  }

  lemma FindIn(a: Stage, b: Stage, x: Migration) returns (p: Stage, q: Stage)
    requires Separate(a) && x in a && multiset(a) == multiset(b)
    ensures b == p + [x] + q && multiset(p + q) == multiset(a) - multiset{x}
    ensures forall m :: m in p ==> m in a && m != x
  {
    assert x in multiset(b);
    var i :| 0 <= i < |b| && b[i] == x;
    p, q := b[..i], b[i + 1..];
    assert b == p + [x] + q;
    SeparateIsOnce(a, x);
    assert multiset(b) == multiset(p) + multiset{x} + multiset(q);
    forall m | m in p ensures m in a && m != x {
      assert m in multiset(p);
      assert m in multiset(a);
    }
  }

  /** A lint-clean stage may be executed in any order. */
  lemma CleanStageIsConfluent(stage: Stage, reordered: Stage, store: Store, initial: string)
    requires Clean(stage) && multiset(stage) == multiset(reordered)
    ensures Run(stage, store, initial) == Run(reordered, store, initial)
  {
    CleanIsSeparate(stage);
    OrderDoesNotMatter(stage, reordered, store, initial);
  }

  /** A rename of a UID to itself does nothing. */
  predicate SelfRename(m: Migration) {
    m.action == Modify && m.Src() == m.Dst()
  }

  /** Both consume and produce the same. */
  predicate SameEffect(a: Migration, b: Migration) {
    a.Consumes() == b.Consumes() && a.Produces() == b.Produces()
  }

  lemma SelfRenameIsNothing(m: Migration, store: Store, initial: string)
    requires SelfRename(m)
    ensures Apply(m, store, initial) == store
  {
  }

  lemma SameEffectSameResult(a: Migration, b: Migration, store: Store, initial: string)
    requires WellFormed(a) && WellFormed(b) && SameEffect(a, b)
    ensures Apply(a, store, initial) == Apply(b, store, initial)
  {
    assert a.Dst() in a.Produces() <==> a.action == Create || a.action == Modify;
    assert a.Src() in a.Consumes() <==> a.action == Remove || a.action == Modify;
  }

  /** Two well-formed migrations commute on all stores exactly if they touch different UIDs, or one
      renames a UID to itself, or both do the same. The lint rules reject the last two cases as well. */
  lemma CommuteIffDisjoint(a: Migration, b: Migration, initial: string)
    requires WellFormed(a) && WellFormed(b)
    ensures Commute(a, b, initial) <==>
      a.Touches() !! b.Touches() || SelfRename(a) || SelfRename(b) || SameEffect(a, b)
  {
    if a.Touches() !! b.Touches() || SelfRename(a) || SelfRename(b) || SameEffect(a, b) {
      forall store: Store
        ensures Apply(a, Apply(b, store, initial), initial) == Apply(b, Apply(a, store, initial), initial)
      {
        CasesCommute(a, b, store, initial);
      }
    } else {
      var store := Distinguishing(a, b, initial);
    }
  }

  lemma CasesCommute(a: Migration, b: Migration, store: Store, initial: string)
    requires WellFormed(a) && WellFormed(b)
    requires a.Touches() !! b.Touches() || SelfRename(a) || SelfRename(b) || SameEffect(a, b)
    ensures Apply(a, Apply(b, store, initial), initial) == Apply(b, Apply(a, store, initial), initial)
  {
    if a.Touches() !! b.Touches() {
      DisjointCommute(a, b, store, initial);
    } else if SelfRename(a) {
      SelfRenameIsNothing(a, store, initial);
      SelfRenameIsNothing(a, Apply(b, store, initial), initial);
    } else if SelfRename(b) {
      SelfRenameIsNothing(b, store, initial);
      SelfRenameIsNothing(b, Apply(a, store, initial), initial);
    } else {
      SameEffectSameResult(a, b, store, initial);
      SameEffectSameResult(a, b, Apply(a, store, initial), initial);
    }
  }

  /** A store on which two migrations that touch a common UID disagree. */
  lemma Distinguishing(a: Migration, b: Migration, initial: string) returns (store: Store)
    requires WellFormed(a) && WellFormed(b)
    requires a.Consumes() != b.Consumes() || a.Produces() != b.Produces()
    requires !SelfRename(a) && !SelfRename(b)
    requires !(a.Touches() !! b.Touches())
    ensures Apply(a, Apply(b, store, initial), initial) != Apply(b, Apply(a, store, initial), initial)
  {
    var other := initial + "*";
    store := map[];
    if a.action == Modify && b.action == Modify && a.Src() != b.Src() {
      store := if a.Dst() == b.Dst() then map[a.Src() := initial, b.Src() := other]
        else if b.Src() == a.Dst() then map[a.Src() := other]
        else map[b.Src() := other];
    } else if a.action == Modify {
      store := map[a.Src() := other];
    } else if b.action == Modify {
      store := map[b.Src() := other];
    }
    var ab := Apply(a, Apply(b, store, initial), initial);
    var ba := Apply(b, Apply(a, store, initial), initial);
    assert other != initial;
    var u := if a.action != Remove then a.Dst() else a.Src();
    var v := if b.action != Remove then b.Dst() else b.Src();
    assert (u in ab) != (u in ba) || (v in ab) != (v in ba) || (u in ab && u in ba && ab[u] != ba[u]);
  }

  // ----- across stages -----

  lemma {:induction false} FirstConsumedBy(stage: Stage)
    requires stage != []
    ensures ConsumedBy(stage) == stage[0].Consumes() + ConsumedBy(stage[1..])
    ensures ProducedBy(stage) == stage[0].Produces() + ProducedBy(stage[1..])
  {
    var tail := stage[1..];
    if tail != [] {
      FirstConsumedBy(stage[..|stage| - 1]);
      assert stage[..|stage| - 1][1..] == tail[..|tail| - 1];
    }
  }

  /** What a stage leaves behind was there before or is produced by it, and was not consumed by
      it unless it is also produced. */
  lemma {:induction false} StageKeys(stage: Stage, store: Store, initial: string)
    ensures Run(stage, store, initial).Keys <= (store.Keys - ConsumedBy(stage)) + ProducedBy(stage)
  {
    if stage != [] {
      var m := stage[0];
      FirstConsumedBy(stage);
      StageKeys(stage[1..], Apply(m, store, initial), initial);
      assert Apply(m, store, initial).Keys <= (store.Keys - m.Consumes()) + m.Produces();
    }
  }

  lemma {:induction false} ConsumedFromTail(stages: seq<Stage>, i: nat)
    requires 1 <= i <= |stages|
    ensures ConsumedFrom(stages, i) == ConsumedFrom(stages[1..], i - 1)
    decreases |stages| - i
  {
    if i < |stages| {
      ConsumedFromTail(stages, i + 1);
    }
  }

  /** When every stage is clean and all stages together are too, what is stored at the end is
      either final, or was there at the start and is consumed by no stage. */
  lemma {:induction false} CleanStagesLeaveFinal(stages: seq<Stage>, final: set<Uid>, store: Store, initial: string)
    requires CrossClean(stages, final)
    requires forall i :: 0 <= i < |stages| ==> ConsumedBy(stages[i]) !! ProducedBy(stages[i])
    ensures RunStages(stages, store, initial).Keys <= final + (store.Keys - ConsumedFrom(stages, 0))
  {
    if stages != [] {
      var tail := stages[1..];
      TailIsCleanedUp(stages, final);
      ConsumedFromTail(stages, 1);
      StageKeys(stages[0], store, initial);
      var store' := Run(stages[0], store, initial);
      CleanStagesLeaveFinal(tail, final, store', initial);
      assert CleanedUp(stages, final, 0);
      forall u | u in RunStages(stages, store, initial).Keys && u !in final
        ensures u in store.Keys && u !in ConsumedFrom(stages, 0)
      {
        assert u in store'.Keys && u !in ConsumedFrom(tail, 0);
      }
    }
  }

  lemma TailIsCleanedUp(stages: seq<Stage>, final: set<Uid>)
    requires stages != [] && CrossClean(stages, final)
    ensures CrossClean(stages[1..], final)
  {
    var tail := stages[1..];
    forall i | 0 <= i < |tail| ensures CleanedUp(tail, final, i) {
      assert CleanedUp(stages, final, i + 1);
      ConsumedFromTail(stages, i + 2);
    }
  }
}
