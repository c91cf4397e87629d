/** What the sealed-set checks accept and touch, said of the bundle, the document,
    the tasks and the tree alone (src/blackwell_lab/sealed_sets/model.py and
    custody.py, src/blackwell_lab/cloud/sealed_binding.py). */
module SealedFacts {
  import opened Common
  import opened SealedModel
  import opened CustodyTree
  import opened StageLoader
  import opened Texts
  import Payload = SealedPayload

  // ---- bundles ------------------------------------------------------------

  // A bundle is accepted exactly when it has twenty tasks with safe ids and
  // non-empty contents of at most a mebibyte, no two with the same id or digest.
  lemma TasksAcceptedExactly(lab: Lab, tasks: seq<Task>)
    ensures StageDigestOf(lab, tasks).Ok? <==>
            && |tasks| == 20
            && (forall i :: 0 <= i < |tasks| ==> ValidId(tasks[i].id) && 0 < |tasks[i].content| <= 1_048_576)
            && forall i, j :: 0 <= i < j < |tasks| ==>
                 tasks[i].id != tasks[j].id && lab.hash(tasks[i].content) != lab.hash(tasks[j].content)
  {
    hide ValidId;
    BundleAcceptedExactly(lab, tasks);
    var rows := RowsOf(lab, tasks);
    assert forall i :: 0 <= i < |tasks| ==> rows[i].id == tasks[i].id && rows[i].digest == lab.hash(tasks[i].content);
  }

  // A public manifest is accepted exactly when it is one of this kind, schema
  // and layout, under its own digest.
  lemma ManifestAcceptedExactly(lab: Lab, doc: Option<Doc>, m: Manifest)
    ensures ValidatePublicManifest(lab, doc) == Ok(m) <==>
            && doc == Some(ManifestDoc(m))
            && m.kind == "sealed-qualification-set" && m.schemaVersion == "1.2.0" && m.layout == "stage-separated"
            && m.digest == lab.hash(lab.canon(ManifestBody(m.(digest := ""))))
  {
  }

  // The rows of an accepted index: twenty safe ids and full digests, none twice,
  // and the same digests in the order.
  lemma AcceptedRows(lab: Lab, doc: Doc, stage: Stage, manifest: Manifest)
    requires VerifyStageIndex(lab, doc, stage, manifest).Ok?
    ensures doc.IndexDoc? && doc.stage == stage && |doc.rows| == |doc.order| == doc.taskCount == 20
    ensures doc.kind == "sealed-qualification-stage-index" && doc.schemaVersion == "1.2.0"
    ensures doc.layout == "stage-separated"
    ensures forall i :: 0 <= i < 20 ==>
              ValidId(doc.rows[i].id) && |doc.rows[i].digest| == 71 && doc.rows[i].digest[..7] == "sha256:"
    ensures forall i, j :: 0 <= i < j < 20 ==>
              doc.rows[i].id != doc.rows[j].id && doc.rows[i].digest != doc.rows[j].digest
    ensures forall x :: x in doc.order <==> exists i :: 0 <= i < 20 && doc.rows[i].digest == x
  {
    IndexAcceptedExactly(lab, doc, stage, manifest);
    hide VerifyStageIndex, ValidId, SortRows, Aggregate;
    var digests := DigestsOf(doc.rows);
    assert forall i :: 0 <= i < 20 ==> digests[i] == doc.rows[i].digest;
    forall x ensures x in doc.order <==> exists i :: 0 <= i < 20 && doc.rows[i].digest == x {
      assert x in doc.order <==> x in multiset(doc.order);
      assert x in digests <==> x in multiset(digests);
      if x in digests {
        var i :| 0 <= i < |digests| && digests[i] == x;
      }
      if i :| 0 <= i < 20 && doc.rows[i].digest == x {
        assert digests[i] == x;
      }
    }
  }

  // ---- the verified tree --------------------------------------------------

  // A stage's canonical index file and every blob it names, under its digest.
  predicate StageOnDisk(lab: Lab, t: Tree, stage: Stage, rows: seq<Row>, order: seq<string>) {
    && IndexPath(stage) in t && t[IndexPath(stage)].File?
    && (var doc := lab.parse(t[IndexPath(stage)].bytes);
        && doc.Some? && doc.value.IndexDoc? && lab.canon(doc.value) == t[IndexPath(stage)].bytes
        && doc.value.stage == stage && doc.value.rows == rows && doc.value.order == order)
    && forall i :: 0 <= i < |rows| ==>
         && BlobPath(stage, rows[i].digest) in t && t[BlobPath(stage, rows[i].digest)].File?
         && lab.hash(t[BlobPath(stage, rows[i].digest)].bytes) == rows[i].digest
  }

  lemma StageIsOnDisk(lab: Lab, t: Tree, m: Manifest, stage: Stage, index: StageIndex)
    requires VerifyStageTree(lab, t, m, stage) == Ok(index)
    ensures StageOnDisk(lab, t, stage, index.rows, index.order)
    ensures Public(m, stage).taskCount == |index.rows| == 20 && Public(m, stage).aggregate == Aggregate(lab, index.rows)
  {
    StageAcceptedExactly(lab, t, m, stage);
    hide VerifyStageTree, RowsWellFormed, SortRows, Aggregate, BlobPath, IndexPath, BlobDir, StageDir;
    var doc :| StageFilesAgree(lab, t, m, stage, doc);
  }

  // The receipt of a full verification names the commit and controller asked
  // for and, for each stage, the tasks and the aggregate of the index on disk,
  // under the set identity of both orders.
  lemma ReceiptDescribesTree(lab: Lab, t: Tree, commit: string, controllerDigest: string, operation: string)
    requires VerifyCustody(lab, t, commit, controllerDigest, operation).Ok?
    ensures var r := VerifyCustody(lab, t, commit, controllerDigest, operation).value;
            && r.operation == operation && r.commit == commit && r.controllerDigest == controllerDigest
            && exists dev: seq<Row>, hold: seq<Row>, devOrder: seq<string>, holdOrder: seq<string> ::
                 && StageOnDisk(lab, t, Development, dev, devOrder) && StageOnDisk(lab, t, Holdout, hold, holdOrder)
                 && r.developmentCount == |dev| && r.holdoutCount == |hold|
                 && r.developmentAggregate == Aggregate(lab, dev) && r.holdoutAggregate == Aggregate(lab, hold)
                 && r.setIdentity == SetIdentity(lab, devOrder, holdOrder)
                 && forall i, j :: 0 <= i < |dev| && 0 <= j < |hold| ==>
                      dev[i].id != hold[j].id && dev[i].digest != hold[j].digest
  {
    hide VerifyCustody, StageOnDisk, Aggregate, SetIdentity, VerifyStageTree, ModesOk, ReadJson, ListsExactly, Children,
         SortTexts, RowIds, ValidatePublicManifest;
    var r := VerifyCustody(lab, t, commit, controllerDigest, operation).value;
    VerifiedExactly(lab, t, commit, controllerDigest, operation, r);
    var m := ReadJson(lab, t, MANIFEST).value.manifest;
    var dev, hold :| StagesAgree(lab, t, m, dev, hold);
    StageIsOnDisk(lab, t, m, Development, dev);
    StageIsOnDisk(lab, t, m, Holdout, hold);
    NothingShared(dev.rows, hold.rows);
  }

  lemma NothingShared(a: seq<Row>, b: seq<Row>)
    requires RowIds(a) * RowIds(b) == {} && Elements(DigestsOf(a)) * Elements(DigestsOf(b)) == {}
    ensures forall i, j :: 0 <= i < |a| && 0 <= j < |b| ==> a[i].id != b[j].id && a[i].digest != b[j].digest
  {
    forall i, j | 0 <= i < |a| && 0 <= j < |b| ensures a[i].id != b[j].id && a[i].digest != b[j].digest {
      assert a[i].id in RowIds(a) && b[j].id in RowIds(b);
      assert a[i].id !in RowIds(a) * RowIds(b);
      assert DigestsOf(a)[i] == a[i].digest && DigestsOf(b)[j] == b[j].digest;
      assert a[i].digest in Elements(DigestsOf(a)) && b[j].digest in Elements(DigestsOf(b));
      assert a[i].digest !in Elements(DigestsOf(a)) * Elements(DigestsOf(b));
    }
  }

  // ---- loaded tasks and touched paths -------------------------------------

  // Loaded tasks have distinct ids and differ in template, tracking id or
  // minute, and a scenario id stands for one scenario; nothing else is asked.
  lemma TasksDifferExactly(tasks: Tasks)
    ensures Inconsistency(tasks).None? <==>
            forall i, j :: 0 <= i < j < |tasks| ==>
              && tasks[i].id != tasks[j].id
              && (tasks[i].scenario.narrative.scenarioId == tasks[j].scenario.narrative.scenarioId ==>
                    tasks[i].scenario == tasks[j].scenario)
              && (tasks[i].instance.templateId != tasks[j].instance.templateId
                  || tasks[i].instance.trackingId != tasks[j].instance.trackingId
                  || tasks[i].instance.reportedMinute != tasks[j].instance.reportedMinute)
  {
    ConsistentExactly(tasks);
    hide Inconsistency;
  }

  predicate TemplateSeen(observed: seq<Observed>, template: string) {
    exists i :: 0 <= i < |observed| && observed[i].templateId == template
  }

  predicate ScenarioKnown(tasks: Tasks, template: string) {
    exists j :: 0 <= j < |tasks| && tasks[j].scenario.narrative.scenarioId == template
  }

  // Evidence for a stage is accepted exactly when it observes each task once, in
  // any order and nothing else, over the scenarios of the tasks.
  lemma EvidenceExactly(tasks: Tasks, taskCount: nat, observed: seq<Observed>)
    ensures EvidenceAccepted(tasks, taskCount, observed) <==>
            && |observed| == taskCount && multiset(InstancesOf(observed)) == multiset(TaskIdList(tasks))
            && forall template :: TemplateSeen(observed, template) <==> ScenarioKnown(tasks, template)
  {
    SortsAlike(InstancesOf(observed), TaskIdList(tasks));
    forall template ensures template in TemplatesOf(observed) <==> TemplateSeen(observed, template) {
    }
    forall template ensures template in ScenarioIds(tasks) <==> ScenarioKnown(tasks, template) {
      KnownExactly(tasks, template);
    }
    hide SortTexts, TemplatesOf, ScenarioIds, TemplateSeen, ScenarioKnown;
  }

  lemma KnownExactly(tasks: Tasks, template: string)
    ensures template in ScenarioIds(tasks) <==> ScenarioKnown(tasks, template)
  {
    if ScenarioKnown(tasks, template) {
      var j :| 0 <= j < |tasks| && tasks[j].scenario.narrative.scenarioId == template;
      assert ScenarioId(tasks[j]) == template;
    }
  }

  // A load touches something in a directory only when that directory is one of
  // mode 0700.
  lemma TouchesPrivateDirectories(
      lab: Lab, decode: Decode, t: Tree, b: Binding, commit: string, running: string, p: Path)
    requires p in Load(lab, decode, t, b, commit, running).0 && p.Child?
    ensures p.parent in t && t[p.parent] == Dir(448)
  {
    hide LoadPublic, LoadStageIndex, IndexTrace, LoadTasks, Inconsistency, Aggregate;
    PublicTouches(lab, t, b, commit, running, p);
    var (public, manifest) := LoadPublic(lab, t, b, commit, running);
    if p !in public {
      var (looked, index) := LoadIndex(lab, t, manifest.value, b);
      if p in looked {
        IndexTouches(t, b.stage, p);
      } else {
        IndexNeedsDirectories(lab, t, manifest.value, b.stage);
        BlobsTouched(lab, decode, t, b.stage, index.value.rows, p);
      }
    }
  }

  lemma PublicTouches(lab: Lab, t: Tree, b: Binding, commit: string, running: string, p: Path)
    ensures var (touched, manifest) := LoadPublic(lab, t, b, commit, running);
            && (p in touched && p.Child? ==> p.parent == Root && PrivateDirAt(t, Root))
            && (manifest.Ok? ==> PrivateDirAt(t, Root))
  {
    hide BindManifest, ReadPublic;
  }

  lemma IndexTouches(t: Tree, stage: Stage, p: Path)
    requires PrivateDirAt(t, Root) && p in IndexTrace(t, stage)
    ensures p.Child? && PrivateDirAt(t, p.parent)
  {
  }

  lemma IndexNeedsDirectories(lab: Lab, t: Tree, m: Manifest, stage: Stage)
    ensures LoadStageIndex(lab, t, m, stage).Ok? ==> PrivateDirAt(t, BlobDir(stage))
  {
    hide VerifyStageIndex, ReadPrivateFile;
  }

  lemma {:induction false} BlobsTouched(lab: Lab, decode: Decode, t: Tree, stage: Stage, rows: seq<Row>, p: Path)
    ensures p in LoadTasks(lab, decode, t, stage, rows).0 ==> p.Child? && p.parent == BlobDir(stage)
  {
    hide ReadStageBlob;
    if rows != [] {
      BlobsTouched(lab, decode, t, stage, rows[..|rows| - 1], p);
    }
  }
}
