/** Materialized bundles (src/blackwell_lab/cloud/sealed_materialize.py): fixed
    slot ids, the frozen schedule as payloads, and the hand-over to the importer
    and the stage loader. */
module Materialize {
  import opened Common
  import opened Ordering
  import opened SealedModel
  import opened CustodyTree
  import opened Texts
  import Custody
  import StageLoader
  import Payload = SealedPayload
  import JsonValues

  // ---- fixed ids ----------------------------------------------------------

  function StageText(stage: Stage): string {
    match stage
    case Development => "development"
    case Holdout => "holdout"
  }

  function Digit(d: nat): char
    requires d < 10
  {
    '0' + d as char
  }

  // slot as four decimal digits, padded with zeros.
  function Padded(slot: nat): string
    requires slot < 10000
  {
    var q1 := slot / 10;
    var q2 := q1 / 10;
    [Digit(q2 / 10), Digit(q2 % 10), Digit(q1 % 10), Digit(slot % 10)]
  }

  function FixedTaskId(stage: Stage, slot: nat): string
    requires slot < 10000
  {
    "sealed-" + StageText(stage) + "-" + Padded(slot)
  }

  function FixedTaskIds(stage: Stage): (r: seq<string>)
    ensures |r| == TASKS_PER_STAGE && forall i :: 0 <= i < TASKS_PER_STAGE ==> r[i] == FixedTaskId(stage, i)
  {
    seq(TASKS_PER_STAGE, i requires 0 <= i < TASKS_PER_STAGE => FixedTaskId(stage, i))
  }

  lemma DigitOrder(a: nat, b: nat, x: string, y: string)
    requires a < 10 && b < 10
    ensures LexLeq([Digit(a)] + x, [Digit(b)] + y) <==> a < b || (a == b && LexLeq(x, y))
  {
    assert ([Digit(a)] + x)[1..] == x && ([Digit(b)] + y)[1..] == y;
  }

  // Zero-padded numbers order as text exactly as they order as numbers.
  lemma PaddedOrder(a: nat, b: nat)
    requires a < 10000 && b < 10000
    ensures LexLeq(Padded(a), Padded(b)) <==> a <= b
  {
    var p1, q1 := a / 10, b / 10;
    var p2, q2 := p1 / 10, q1 / 10;
    var a3, a2, a1, a0 := p2 / 10, p2 % 10, p1 % 10, a % 10;
    var b3, b2, b1, b0 := q2 / 10, q2 % 10, q1 % 10, b % 10;
    var x2, y2 := [Digit(a2), Digit(a1), Digit(a0)], [Digit(b2), Digit(b1), Digit(b0)];
    var x1, y1 := [Digit(a1), Digit(a0)], [Digit(b1), Digit(b0)];
    var x0, y0 := [Digit(a0)], [Digit(b0)];
    assert Padded(a) == [Digit(a3)] + x2 && Padded(b) == [Digit(b3)] + y2;
    assert x2 == [Digit(a2)] + x1 && y2 == [Digit(b2)] + y1;
    assert x1 == [Digit(a1)] + x0 && y1 == [Digit(b1)] + y0;
    assert x0 == [Digit(a0)] + [] && y0 == [Digit(b0)] + [];
    DigitOrder(a3, b3, x2, y2);
    DigitOrder(a2, b2, x1, y1);
    DigitOrder(a1, b1, x0, y0);
    DigitOrder(a0, b0, [], []);
    hide Digit, LexLeq;
    OrderOfDigits(a3, a2, a1, a0, b3, b2, b1, b0);
  }

  lemma OrderOfDigits(a3: nat, a2: nat, a1: nat, a0: nat, b3: nat, b2: nat, b1: nat, b0: nat)
    requires a2 < 10 && a1 < 10 && a0 < 10 && b2 < 10 && b1 < 10 && b0 < 10
    ensures 1000 * a3 + 100 * a2 + 10 * a1 + a0 <= 1000 * b3 + 100 * b2 + 10 * b1 + b0 <==>
            a3 < b3 || (a3 == b3 && (a2 < b2 || (a2 == b2 && (a1 < b1 || (a1 == b1 && a0 <= b0)))))
  {
  }

  // The ids of one stage order exactly as their slots.
  lemma SlotOrder(stage: Stage, a: nat, b: nat)
    requires a < 10000 && b < 10000
    ensures LexLeq(FixedTaskId(stage, a), FixedTaskId(stage, b)) <==> a <= b
    ensures FixedTaskId(stage, a) == FixedTaskId(stage, b) <==> a == b
  {
    hide Padded, LexLeq;
    var prefix := "sealed-" + StageText(stage) + "-";
    LexPrefix(prefix, Padded(a), Padded(b));
    PaddedOrder(a, b);
    PaddedOrder(b, a);
    if FixedTaskId(stage, a) == FixedTaskId(stage, b) {
      LexReflexive(FixedTaskId(stage, a));
      LexPrefix(prefix, Padded(b), Padded(a));
    }
  }

  // ---- a materialized bundle ----------------------------------------------

  function TaskIdSeq(tasks: seq<Task>): (r: seq<string>)
    ensures |r| == |tasks| && forall i :: 0 <= i < |tasks| ==> r[i] == tasks[i].id
  {
    seq(|tasks|, i requires 0 <= i < |tasks| => tasks[i].id)
  }

  predicate TaskLeq(a: Task, b: Task) {
    LexLeq(a.id, b.id)
  }

  // The bundle loader's tasks, in whatever order the directory gave them,
  // ordered by id; the ids must be the fixed ids of one stage.
  function LoadMaterializedBundle(read: seq<Task>): Result<seq<Task>, Reason> {
    var tasks := Sort(read, TaskLeq);
    if TaskIdSeq(tasks) == FixedTaskIds(Development) || TaskIdSeq(tasks) == FixedTaskIds(Holdout) then Ok(tasks)
    else Err(MaterializedIds)
  }

  predicate IsMaterialized(stage: Stage, tasks: seq<Task>) {
    TaskIdSeq(tasks) == FixedTaskIds(stage)
  }

  lemma TaskLeqIsTotal()
    ensures TotalPreorder(TaskLeq)
  {
    forall a: Task, b: Task ensures TaskLeq(a, b) || TaskLeq(b, a) {
      LexTotal(a.id, b.id);
    }
    forall a: Task, b: Task, c: Task | TaskLeq(a, b) && TaskLeq(b, c) ensures TaskLeq(a, c) {
      LexTransitive(a.id, b.id, c.id);
    }
  }

  lemma MaterializedIsSorted(stage: Stage, tasks: seq<Task>)
    requires IsMaterialized(stage, tasks)
    ensures Sorted(tasks, TaskLeq) && NoTies(tasks, TaskLeq)
    ensures forall i, j :: 0 <= i < j < |tasks| ==> tasks[i].id != tasks[j].id
  {
    hide FixedTaskId, LexLeq;
    forall i | 0 <= i < |tasks| ensures tasks[i].id == FixedTaskId(stage, i) {
      assert TaskIdSeq(tasks)[i] == FixedTaskIds(stage)[i];
    }
    forall i, j | 0 <= i < |tasks| && 0 <= j < |tasks|
      ensures TaskLeq(tasks[i], tasks[j]) <==> i <= j
      ensures tasks[i].id == tasks[j].id <==> i == j
    {
      SlotOrder(stage, i, j);
    }
  }

  // Read back in any order and sorted, the bundle is the materialized sequence.
  lemma AnyOrderReadsBack(stage: Stage, tasks: seq<Task>, read: seq<Task>)
    requires IsMaterialized(stage, tasks) && multiset(read) == multiset(tasks)
    ensures LoadMaterializedBundle(read) == Ok(tasks)
  {
    MaterializedIsSorted(stage, tasks);
    TaskLeqIsTotal();
    SortSorted(read, TaskLeq);
    forall t: Task ensures TaskLeq(t, t) {
      LexReflexive(t.id);
    }
    SortedUnique(tasks, Sort(read, TaskLeq), TaskLeq);
  }

  // A directory loads exactly when it is some arrangement of one stage's
  // materialized members.
  lemma LoadedBundleExactly(read: seq<Task>)
    ensures LoadMaterializedBundle(read).Ok? <==>
            exists stage, tasks :: IsMaterialized(stage, tasks) && multiset(tasks) == multiset(read)
  {
    hide FixedTaskIds;
    if LoadMaterializedBundle(read).Ok? {
      var tasks := Sort(read, TaskLeq);
      if TaskIdSeq(tasks) == FixedTaskIds(Development) {
        assert IsMaterialized(Development, tasks);
      } else {
        assert IsMaterialized(Holdout, tasks);
      }
    }
    if stage, tasks :| IsMaterialized(stage, tasks) && multiset(tasks) == multiset(read) {
      AnyOrderReadsBack(stage, tasks, read);
    }
  }

  // The set identity the importer computes from the bundles as read is the one
  // the materialization request predicted from the schedule.
  lemma IdentityIsPredicted(lab: Lab, dev: seq<Task>, hold: seq<Task>, readDev: seq<Task>, readHold: seq<Task>)
    requires IsMaterialized(Development, dev) && IsMaterialized(Holdout, hold)
    requires multiset(readDev) == multiset(dev) && multiset(readHold) == multiset(hold)
    ensures LoadMaterializedBundle(readDev).Ok? && LoadMaterializedBundle(readHold).Ok?
    ensures SetIdentityFor(lab, LoadMaterializedBundle(readDev).value, LoadMaterializedBundle(readHold).value)
         == SetIdentityFor(lab, dev, hold)
  {
    AnyOrderReadsBack(Development, dev, readDev);
    AnyOrderReadsBack(Holdout, hold, readHold);
  }

  // Rows of a materialized bundle are already in index order.
  lemma RowsAreSorted(lab: Lab, stage: Stage, tasks: seq<Task>)
    requires IsMaterialized(stage, tasks)
    ensures SortRows(RowsOf(lab, tasks)) == RowsOf(lab, tasks)
  {
    MaterializedIsSorted(stage, tasks);
    var rows := RowsOf(lab, tasks);
    forall i, j | 0 <= i < j < |rows| ensures RowLeq(rows[i], rows[j]) {
      assert TaskLeq(tasks[i], tasks[j]);
    }
    RowLeqIsTotal();
    SortSorted(rows, RowLeq);
    RowsDoNotTie(rows);
    SortedUnique(rows, SortRows(rows), RowLeq);
  }

  // ---- materializing the schedule -----------------------------------------

  // One slot of the generator's schedule.
  datatype Slot = Slot(templateId: string, seed: int, trackingId: string, reportedMinute: int)

  function TaskFor(stage: Stage, slot: nat, s: Slot, scenario: Payload.Scenario): Payload.SealedTask
    requires slot < 10000
  {
    Payload.SealedTask(
      FixedTaskId(stage, slot),
      Payload.Instance(s.templateId, FixedTaskId(stage, slot), s.seed, s.trackingId, s.reportedMinute),
      scenario)
  }

  function SlotOf(i: Payload.Instance): Slot {
    Slot(i.templateId, i.seed, i.trackingId, i.reportedMinute)
  }

  datatype Codec = Codec(text: Payload.Text, limits: JsonValues.Json -> bool)

  function Encode(c: Codec, t: Payload.SealedTask): string {
    c.text.print_(Payload.EncodeSealedTask(t))
  }

  function Decode(c: Codec, payload: string, id: string): Option<Payload.SealedTask> {
    Payload.DecodeBytes(c.text, c.limits, payload, id)
  }

  type Decoder = (string, string) -> Option<Payload.SealedTask>

  function Decoding(c: Codec): Decoder {
    (payload, id) => Decode(c, payload, id)
  }

  // The payload form, the catalog's scenarios and both frozen schedules.
  datatype Plan = Plan(codec: Codec, catalog: map<string, Payload.Scenario>, development: seq<Slot>, holdout: seq<Slot>)

  function Schedule(plan: Plan, stage: Stage): seq<Slot> {
    match stage
    case Development => plan.development
    case Holdout => plan.holdout
  }

  // One slot for each task, each of a catalog scenario.
  predicate Complete(plan: Plan) {
    forall stage :: |Schedule(plan, stage)| == TASKS_PER_STAGE && Cataloged(plan, stage)
  }

  predicate Cataloged(plan: Plan, stage: Stage) {
    forall i :: 0 <= i < |Schedule(plan, stage)| ==> Schedule(plan, stage)[i].templateId in plan.catalog
  }

  function Expected(plan: Plan, stage: Stage, i: nat): Payload.SealedTask
    requires Complete(plan) && i < TASKS_PER_STAGE
  {
    assert |Schedule(plan, stage)| == TASKS_PER_STAGE && Cataloged(plan, stage);
    TaskFor(stage, i, Schedule(plan, stage)[i], plan.catalog[Schedule(plan, stage)[i].templateId])
  }

  // The frozen schedule of a stage as runtime tasks.
  function ScheduledTasks(plan: Plan, stage: Stage): (r: seq<Payload.SealedTask>)
    requires Complete(plan)
    ensures |r| == TASKS_PER_STAGE && forall i :: 0 <= i < TASKS_PER_STAGE ==> r[i] == Expected(plan, stage, i)
  {
    seq(TASKS_PER_STAGE, i requires 0 <= i < TASKS_PER_STAGE => Expected(plan, stage, i))
  }

  // The same schedule as an opaque bundle.
  function Bundle(plan: Plan, stage: Stage): (r: seq<Task>)
    requires Complete(plan)
    ensures |r| == TASKS_PER_STAGE
    ensures forall i :: 0 <= i < TASKS_PER_STAGE ==>
              r[i] == Task(FixedTaskId(stage, i), Encode(plan.codec, Expected(plan, stage, i)))
  {
    seq(TASKS_PER_STAGE, i requires 0 <= i < TASKS_PER_STAGE =>
      Task(FixedTaskId(stage, i), Encode(plan.codec, Expected(plan, stage, i))))
  }

  // A task the payload contract can carry.
  ghost predicate Encodable(c: Codec, t: Payload.SealedTask) {
    && Payload.ValidTask(t) && c.limits(Payload.EncodeSealedTask(t))
    && Payload.ReadsBack(c.text, Payload.EncodeSealedTask(t))
    && 0 < |Encode(c, t)| <= Payload.MAX_PAYLOAD_BYTES
  }

  ghost predicate AllEncodable(plan: Plan, stage: Stage)
    requires Complete(plan)
  {
    forall i :: 0 <= i < TASKS_PER_STAGE ==> Encodable(plan.codec, Expected(plan, stage, i))
  }

  lemma EncodableDecodes(c: Codec, t: Payload.SealedTask)
    requires Encodable(c, t)
    ensures Decode(c, Encode(c, t), t.id) == Some(t)
  {
    Payload.PayloadRoundTrip(c.text, c.limits, t);
  }

  lemma BundleIsMaterialized(plan: Plan, stage: Stage)
    requires Complete(plan)
    ensures IsMaterialized(stage, Bundle(plan, stage))
  {
    hide FixedTaskId, Encode, Complete, Expected;
    assert TaskIdSeq(Bundle(plan, stage)) == FixedTaskIds(stage);
  }

  // Encode every slot and check that it decodes to what was encoded.
  method MaterializeStage(plan: Plan, stage: Stage) returns (r: Option<seq<Task>>)
    requires Complete(plan)
    ensures r.Some? ==>
              && r.value == Bundle(plan, stage) && IsMaterialized(stage, r.value)
              && forall i :: 0 <= i < TASKS_PER_STAGE ==>
                   && Decode(plan.codec, r.value[i].content, r.value[i].id).Some?
                   && SlotOf(Decode(plan.codec, r.value[i].content, r.value[i].id).value.instance) ==
                     SlotOf(Expected(plan, stage, i).instance)
    ensures AllEncodable(plan, stage) ==> r.Some?
  {
    hide FixedTaskId, Encode, Decode, Encodable, Complete, Expected;
    var c := plan.codec;
    var tasks: seq<Task>, slot := [], 0;
    while slot < TASKS_PER_STAGE
      invariant 0 <= slot <= TASKS_PER_STAGE
      invariant tasks == Bundle(plan, stage)[..slot]
      invariant forall i :: 0 <= i < slot ==>
                  && Decode(c, tasks[i].content, tasks[i].id).Some?
                  && SlotOf(Decode(c, tasks[i].content, tasks[i].id).value.instance) ==
                    SlotOf(Expected(plan, stage, i).instance)
    {
      var expected := Expected(plan, stage, slot);
      var payload := Encode(c, expected);
      ExpectedId(plan, stage, slot);
      if AllEncodable(plan, stage) {
        EncodableDecodes(c, expected);
      }
      var decoded := Decode(c, payload, expected.id);
      if decoded.None? {
        return None;
      }
      if Encode(c, decoded.value) != payload || decoded.value.scenario != expected.scenario
         || SlotOf(decoded.value.instance) != SlotOf(expected.instance)
         || decoded.value.instance.instanceId != expected.id
      {
        return None;
      }
      tasks := tasks + [Task(expected.id, payload)];
      slot := slot + 1;
    }
    BundleIsMaterialized(plan, stage);
    assert tasks == Bundle(plan, stage);
    return Some(tasks);
  }

  lemma ExpectedId(plan: Plan, stage: Stage, i: nat)
    requires Complete(plan) && i < TASKS_PER_STAGE
    ensures var t := Expected(plan, stage, i);
            && t.id == FixedTaskId(stage, i) && t.instance.instanceId == t.id
            && |Schedule(plan, stage)| == TASKS_PER_STAGE && SlotOf(t.instance) == Schedule(plan, stage)[i]
  {
    assert |Schedule(plan, stage)| == TASKS_PER_STAGE && Cataloged(plan, stage);
    hide FixedTaskId;
  }

  // ---- from schedule to loaded stage --------------------------------------

  lemma BundleDecodes(lab: Lab, plan: Plan, stage: Stage, t: Tree)
    requires Complete(plan) && AllEncodable(plan, stage)
    requires Custody.HoldsStage(lab, t, stage, Bundle(plan, stage))
    ensures StageLoader.AllDecode(lab, Decoding(plan.codec), t, stage, RowsOf(lab, Bundle(plan, stage)),
      ScheduledTasks(plan, stage))
  {
    hide FixedTaskId, Encode, Decode, Encodable, IndexOf, BlobPath, Expected, Complete;
    var tasks, expected := Bundle(plan, stage), ScheduledTasks(plan, stage);
    var rows := RowsOf(lab, tasks);
    forall i | 0 <= i < |rows|
      ensures StageLoader.DecodesTo(lab, Decoding(plan.codec), t, stage, rows[i], expected[i])
    {
      EncodableDecodes(plan.codec, expected[i]);
      ExpectedId(plan, stage, i);
      var p := BlobPath(stage, lab.hash(tasks[i].content));
      assert t[p] == File(FILE_MODE, tasks[i].content);
    }
  }

  // An imported set loads, stage by stage, to the decoded tasks of its bundle in
  // id order, provided they decode and are consistent.
  lemma ImportThenLoad(
    lab: Lab, decode: Decoder, commit: string, controllerDigest: string, dev: seq<Task>, hold: seq<Task>, stage: Stage,
    m: Manifest, tasks: seq<Payload.SealedTask>)
    requires Faithful(lab) && IsCommit(commit) && IsDigest(controllerDigest)
    requires ValidateBundles(lab, dev, hold).Ok? && ManifestFor(lab, commit, controllerDigest, dev, hold) == Ok(m)
    requires StageLoader.Consistent(tasks)
    requires StageLoader.AllDecode(lab, decode, Custody.ImportedTree(lab, dev, hold, m), stage,
                                   SortRows(RowsOf(lab, Custody.TasksFor(stage, dev, hold))), tasks)
    ensures StageLoader.Load(lab, decode, Custody.ImportedTree(lab, dev, hold, m),
      StageLoader.BindingFor(lab, m, stage),
                             commit, controllerDigest).1 == Ok(tasks)
  {
    Custody.ImportVerifies(lab, commit, controllerDigest, dev, hold, "verify");
    ManifestDescribes(lab, commit, controllerDigest, dev, hold);
    ImportedStage(lab, dev, hold, m);
    BundlesAcceptedExactly(lab, dev, hold);
    ParsesManifest(lab, m);
    hide ValidateBundles, ManifestFor, Custody.ImportedTree, Custody.HoldsStage, VerifyCustody, VerifyStageTree,
         ValidBundle, Describes, Faithful, IsDigest, IsCommit, Aggregate, SetIdentityFor, StageLoader.AllDecode,
         StageLoader.Load, StageLoader.BindingFor, StageLoader.Consistent, Separate, SortRows;
    var t := Custody.ImportedTree(lab, dev, hold, m);
    Custody.StageVerifies(lab, t, stage, Custody.TasksFor(stage, dev, hold), m);
    StageLoader.VerifiedStageLoads(lab, decode, t, m, stage, commit, controllerDigest, tasks);
  }

  lemma ImportedStage(lab: Lab, dev: seq<Task>, hold: seq<Task>, m: Manifest)
    requires Faithful(lab) && ValidateBundles(lab, dev, hold).Ok?
    ensures var t := Custody.ImportedTree(lab, dev, hold, m);
            && Custody.HoldsStage(lab, t, Development, dev) && Custody.HoldsStage(lab, t, Holdout, hold)
            && PrivateDirAt(t, PRIVATE)
            && MANIFEST in t && t[MANIFEST] == File(FILE_MODE, lab.canon(ManifestDoc(m)))
  {
    BundlesAcceptedExactly(lab, dev, hold);
    hide ValidateBundles, Faithful;
    Custody.ValidIsDistinct(lab, dev);
    Custody.ValidIsDistinct(lab, hold);
    Custody.ImportedTreeHolds(lab, dev, hold, m);
  }

  lemma ParsesManifest(lab: Lab, m: Manifest)
    requires Faithful(lab)
    ensures lab.parse(lab.canon(ManifestDoc(m))) == Some(ManifestDoc(m))
  {
  }

  // What has to hold for a plan to be imported and executed.
  ghost predicate Executable(lab: Lab, plan: Plan, commit: string, controllerDigest: string)
    requires Complete(plan)
  {
    && Faithful(lab) && IsCommit(commit) && IsDigest(controllerDigest)
    && (forall stage :: AllEncodable(plan, stage) && StageLoader.Consistent(ScheduledTasks(plan, stage)))
    && ValidateBundles(lab, Bundle(plan, Development), Bundle(plan, Holdout)).Ok?
  }

  // What loading one stage of the imported bundles gives.
  function LoadImported(
      lab: Lab, c: Codec, dev: seq<Task>, hold: seq<Task>, m: Manifest, stage: Stage, commit: string, running: string)
    : Result<StageLoader.Tasks, StageLoader.Refusal>
  {
    StageLoader.Load(lab, Decoding(c), Custody.ImportedTree(lab, dev, hold, m), StageLoader.BindingFor(lab, m, stage),
      commit, running).1
  }

  lemma PlanLoads(lab: Lab, plan: Plan, commit: string, controllerDigest: string, stage: Stage, m: Manifest)
    requires Complete(plan) && Executable(lab, plan, commit, controllerDigest)
    requires ManifestFor(lab, commit, controllerDigest, Bundle(plan, Development), Bundle(plan, Holdout)) == Ok(m)
    ensures LoadImported(lab, plan.codec, Bundle(plan, Development), Bundle(plan, Holdout), m, stage, commit,
      controllerDigest)
         == Ok(ScheduledTasks(plan, stage))
  {
    hide ValidateBundles, ManifestFor, Custody.ImportedTree, Custody.HoldsStage, AllEncodable, Faithful, IsDigest,
         IsCommit, StageLoader.AllDecode, StageLoader.Load, StageLoader.BindingFor, StageLoader.Consistent,
         IsMaterialized, SortRows, Complete, Encode, Expected, FixedTaskId, Decoding;
    var dev, hold := Bundle(plan, Development), Bundle(plan, Holdout);
    ImportedStage(lab, dev, hold, m);
    BundleIsMaterialized(plan, stage);
    RowsAreSorted(lab, stage, Bundle(plan, stage));
    BundleDecodes(lab, plan, stage, Custody.ImportedTree(lab, dev, hold, m));
    ImportThenLoad(lab, Decoding(plan.codec), commit, controllerDigest, dev, hold, stage, m,
      ScheduledTasks(plan, stage));
  }

  // Materialize both schedules, read the bundles back in any order, import them
  // and load one stage: the tasks are the frozen schedule of that stage, slot by
  // slot, with the catalog's scenarios.
  lemma LoadedStageIsTheSchedule(
    lab: Lab, plan: Plan, readDev: seq<Task>, readHold: seq<Task>, commit: string, controllerDigest: string,
    stage: Stage)
    requires Complete(plan) && Executable(lab, plan, commit, controllerDigest)
    requires multiset(readDev) == multiset(Bundle(plan, Development))
    requires multiset(readHold) == multiset(Bundle(plan, Holdout))
    ensures LoadMaterializedBundle(readDev).Ok? && LoadMaterializedBundle(readHold).Ok?
    ensures var dev, hold := LoadMaterializedBundle(readDev).value, LoadMaterializedBundle(readHold).value;
            var m := ManifestFor(lab, commit, controllerDigest, dev, hold);
            m.Ok? && LoadImported(lab, plan.codec, dev, hold, m.value, stage, commit, controllerDigest) ==
              Ok(ScheduledTasks(plan, stage))
  {
    ExecutableParts(lab, plan, commit, controllerDigest);
    hide Bundle, Executable, Complete, LoadImported, ScheduledTasks, ManifestFor, LoadMaterializedBundle,
         IsMaterialized, Faithful, IsDigest, IsCommit, ValidateBundles, Describes, SetIdentityFor,
         ValidatePublicManifest, BuildImportRequest;
    BundleIsMaterialized(plan, Development);
    BundleIsMaterialized(plan, Holdout);
    AnyOrderReadsBack(Development, Bundle(plan, Development), readDev);
    AnyOrderReadsBack(Holdout, Bundle(plan, Holdout), readHold);
    ManifestDescribes(lab, commit, controllerDigest, Bundle(plan, Development), Bundle(plan, Holdout));
    PlanLoads(lab, plan, commit, controllerDigest, stage,
              ManifestFor(lab, commit, controllerDigest, Bundle(plan, Development), Bundle(plan, Holdout)).value);
  }

  lemma ExecutableParts(lab: Lab, plan: Plan, commit: string, controllerDigest: string)
    requires Complete(plan) && Executable(lab, plan, commit, controllerDigest)
    ensures Faithful(lab) && IsCommit(commit) && IsDigest(controllerDigest)
    ensures ValidateBundles(lab, Bundle(plan, Development), Bundle(plan, Holdout)).Ok?
  {
    hide Faithful, IsDigest, IsCommit, ValidateBundles, Bundle;
  }

  // ---- slot by slot -------------------------------------------------------

  lemma PaddedValue(slot: nat)
    requires slot < 10000
    ensures var p := Padded(slot);
            && |p| == 4 && (forall i :: 0 <= i < 4 ==> '0' <= p[i] <= '9')
            && slot == 1000 * (p[0] as nat - 48) + 100 * (p[1] as nat - 48) + 10 * (p[2] as nat - 48)
                       + (p[3] as nat - 48)
  {
    var q1 := slot / 10;
    var q2 := q1 / 10;
    assert slot == 10 * q1 + slot % 10 && q1 == 10 * q2 + q1 % 10 && q2 == 10 * (q2 / 10) + q2 % 10;
  }

  // What each loaded task is, in terms of its slot: its id is the stage's text
  // and the padded slot number, its instance the slot's own four values under
  // that id, and its scenario the catalog's for the slot's template.
  lemma LoadedSlot(plan: Plan, stage: Stage, i: nat)
    requires Complete(plan) && i < TASKS_PER_STAGE
    ensures |Schedule(plan, stage)| == TASKS_PER_STAGE && Schedule(plan, stage)[i].templateId in plan.catalog
    ensures var t, slot := ScheduledTasks(plan, stage)[i], Schedule(plan, stage)[i];
            && t.id == (if stage == Development then "sealed-development-" else "sealed-holdout-") + Padded(i)
            && t.instance.instanceId == t.id && t.instance.templateId == slot.templateId
            && t.instance.seed == slot.seed && t.instance.trackingId == slot.trackingId
            && t.instance.reportedMinute == slot.reportedMinute
            && t.scenario == plan.catalog[slot.templateId]
    ensures Schedule(plan, Development) == plan.development && Schedule(plan, Holdout) == plan.holdout
  {
    hide Padded;
    assert Cataloged(plan, stage);
    assert ("sealed-" + "development" + "-") == "sealed-development-";
    assert ("sealed-" + "holdout" + "-") == "sealed-holdout-";
  }
}
