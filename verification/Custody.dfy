/** Importing a custody set (src/blackwell_lab/sealed_sets/custody.py:
    import_authorized_set, _prepare_destination, _write_tree, _scrub), with a
    fault possible at every file-system operation. */
module Custody {
  import opened Common
  import opened Ordering
  import opened SealedModel
  import opened CustodyTree
  import opened Texts

  // What the operating system does to one mkdir or write: a failing one may
  // leave the entry with any mode and any part of its bytes.
  datatype Fault = Works | FailsBefore | FailsMidway(mode: nat, bytes: string)

  // ---- the tree of one import ---------------------------------------------

  function Dirs(stage: Stage): Tree {
    map[StageDir(stage) := Dir(DIR_MODE), BlobDir(stage) := Dir(DIR_MODE)]
  }

  function Blobs(lab: Lab, stage: Stage, tasks: seq<Task>): Tree {
    if tasks == [] then map[]
    else
      var t := tasks[|tasks| - 1];
      Blobs(lab, stage, tasks[..|tasks| - 1])[BlobPath(stage, lab.hash(t.content)) := File(FILE_MODE, t.content)]
  }

  function IndexFile(lab: Lab, stage: Stage, tasks: seq<Task>): Tree {
    map[IndexPath(stage) := File(FILE_MODE, lab.canon(IndexOf(lab, stage, tasks)))]
  }

  function StageTree(lab: Lab, stage: Stage, tasks: seq<Task>): Tree {
    Dirs(stage) + Blobs(lab, stage, tasks) + IndexFile(lab, stage, tasks)
  }

  function Ends(lab: Lab, m: Manifest): Tree {
    map[MANIFEST := File(FILE_MODE, lab.canon(ManifestDoc(m))),
        RECEIPT := File(FILE_MODE, lab.canon(ReceiptDoc(ReceiptFrom(m, "import"))))]
  }

  // The finished tree: directories, blobs and index of both stages, the
  // manifest and the receipt.
  function ImportedTree(lab: Lab, development: seq<Task>, holdout: seq<Task>, m: Manifest): Tree {
    Frame() + StageTree(lab, Development, development) + StageTree(lab, Holdout, holdout) + Ends(lab, m)
  }

  predicate DistinctContents(lab: Lab, tasks: seq<Task>) {
    forall i, j :: 0 <= i < j < |tasks| ==> lab.hash(tasks[i].content) != lab.hash(tasks[j].content)
  }

  predicate IsBlob(lab: Lab, stage: Stage, tasks: seq<Task>, p: Path) {
    exists i :: 0 <= i < |tasks| && p == BlobPath(stage, lab.hash(tasks[i].content))
  }

  // The blob files are one for each task, holding its content.
  lemma {:induction false} BlobsMean(lab: Lab, stage: Stage, tasks: seq<Task>)
    requires Faithful(lab) && DistinctContents(lab, tasks)
    ensures forall p :: p in Blobs(lab, stage, tasks) <==> IsBlob(lab, stage, tasks, p)
    ensures forall i :: 0 <= i < |tasks| ==>
              var p := BlobPath(stage, lab.hash(tasks[i].content));
              p in Blobs(lab, stage, tasks) && Blobs(lab, stage, tasks)[p] == File(FILE_MODE, tasks[i].content)
  {
    hide IsDigest, Hex;
    if tasks != [] {
      var n := |tasks| - 1;
      var front := tasks[..n];
      BlobsMean(lab, stage, front);
      var last := BlobPath(stage, lab.hash(tasks[n].content));
      forall i | 0 <= i < n ensures BlobPath(stage, lab.hash(tasks[i].content)) != last {
        if BlobPath(stage, lab.hash(tasks[i].content)) == last {
          HexIsInjective(lab.hash(tasks[i].content), lab.hash(tasks[n].content));
        }
      }
      forall i | 0 <= i < |tasks|
        ensures var p := BlobPath(stage, lab.hash(tasks[i].content));
                p in Blobs(lab, stage, tasks) && Blobs(lab, stage, tasks)[p] == File(FILE_MODE, tasks[i].content)
      {
        if i < n {
          assert front[i] == tasks[i];
        }
      }
      forall p ensures p in Blobs(lab, stage, tasks) <==> IsBlob(lab, stage, tasks, p) {
        if IsBlob(lab, stage, front, p) {
          var i :| 0 <= i < |front| && p == BlobPath(stage, lab.hash(front[i].content));
          assert front[i] == tasks[i];
        }
        if i :| 0 <= i < |tasks| && p == BlobPath(stage, lab.hash(tasks[i].content)) {
          assert i < n ==> front[i] == tasks[i];
        }
      }
    }
  }

  lemma ValidIsDistinct(lab: Lab, tasks: seq<Task>)
    requires ValidBundle(lab, tasks)
    ensures DistinctContents(lab, tasks)
  {
    hide TaskFault, DistinctRowIds;
    forall i, j | 0 <= i < j < |tasks| ensures lab.hash(tasks[i].content) != lab.hash(tasks[j].content) {
      assert RowsOf(lab, tasks)[i].digest != RowsOf(lab, tasks)[j].digest;
    }
  }

  // What the finished tree holds, path by path.
  predicate HoldsStage(lab: Lab, t: Tree, stage: Stage, tasks: seq<Task>) {
    && PrivateDirAt(t, StageDir(stage)) && PrivateDirAt(t, BlobDir(stage))
    && IndexPath(stage) in t && t[IndexPath(stage)] == File(FILE_MODE, lab.canon(IndexOf(lab, stage, tasks)))
    && (forall i :: 0 <= i < |tasks| ==>
          var p := BlobPath(stage, lab.hash(tasks[i].content)); p in t && t[p] == File(FILE_MODE, tasks[i].content))
  }

  predicate TreePath(lab: Lab, development: seq<Task>, holdout: seq<Task>, p: Path) {
    || p in {Root, PRIVATE, MANIFEST, RECEIPT}
    || p in {StageDir(Development), BlobDir(Development), IndexPath(Development)}
    || p in {StageDir(Holdout), BlobDir(Holdout), IndexPath(Holdout)}
    || IsBlob(lab, Development, development, p) || IsBlob(lab, Holdout, holdout, p)
  }

  lemma StageTreeMeans(lab: Lab, stage: Stage, tasks: seq<Task>)
    requires Faithful(lab) && DistinctContents(lab, tasks)
    ensures var t := StageTree(lab, stage, tasks);
            && HoldsStage(lab, t, stage, tasks) && ModesOk(t)
            && forall p :: p in t <==> StageOnly(lab, stage, tasks, p)
  {
    hide IndexOf, Hex, IsDigest, DistinctContents;
    BlobsMean(lab, stage, tasks);
    forall p ensures p in Blobs(lab, stage, tasks) ==>
                       Blobs(lab, stage, tasks)[p].File? && Blobs(lab, stage, tasks)[p].mode == FILE_MODE
    {
      BlobModes(lab, stage, tasks, p);
    }
    hide Blobs;
  }

  predicate StageOnly(lab: Lab, stage: Stage, tasks: seq<Task>, p: Path) {
    p in {StageDir(stage), BlobDir(stage), IndexPath(stage)} || IsBlob(lab, stage, tasks, p)
  }

  lemma StageOnlyIsUnder(lab: Lab, stage: Stage, tasks: seq<Task>, p: Path)
    requires StageOnly(lab, stage, tasks, p)
    ensures Under(stage, p) && p != Root && p != PRIVATE && p != MANIFEST && p != RECEIPT
    ensures forall other :: other != stage ==> !Under(other, p)
  {
    hide Hex;
  }

  lemma HoldsStageIn(lab: Lab, part: Tree, t: Tree, stage: Stage, tasks: seq<Task>)
    requires HoldsStage(lab, part, stage, tasks)
    requires Includes(t, part)
    ensures HoldsStage(lab, t, stage, tasks)
  {
    hide IndexOf, BlobPath;
  }

  function Frame(): Tree {
    map[Root := Dir(DIR_MODE), PRIVATE := Dir(DIR_MODE)]
  }

  predicate Apart(a: Tree, b: Tree) {
    forall p :: p in a ==> p !in b
  }

  // The parts of an imported tree do not overlap.
  lemma PartsHold(lab: Lab, development: seq<Task>, holdout: seq<Task>, m: Manifest)
    requires Faithful(lab) && DistinctContents(lab, development) && DistinctContents(lab, holdout)
    ensures var t := ImportedTree(lab, development, holdout, m);
            && Includes(t, Frame()) && Includes(t, Ends(lab, m))
            && Includes(t, StageTree(lab, Development, development)) && Includes(t, StageTree(lab, Holdout, holdout))
            && (forall p :: p in t <==> p in Frame() || p in Ends(lab, m)
                                        || p in StageTree(lab, Development, development)
                                        || p in StageTree(lab, Holdout, holdout))
            && ModesOk(t)
  {
    StageTreeMeans(lab, Development, development);
    StageTreeMeans(lab, Holdout, holdout);
    StagesAreApart(lab, development, holdout, m);
    FrameAndEnds(lab, m);
    hide StageTree, DistinctContents, HoldsStage, StageOnly, Frame, Ends, ModesOk, Includes, Apart, Faithful;
    UnionHolds(Frame(), StageTree(lab, Development, development), StageTree(lab, Holdout, holdout), Ends(lab, m));
  }

  lemma FrameAndEnds(lab: Lab, m: Manifest)
    ensures ModesOk(Frame()) && ModesOk(Ends(lab, m)) && Apart(Frame(), Ends(lab, m))
  {
  }

  lemma ImportedTreeHolds(lab: Lab, development: seq<Task>, holdout: seq<Task>, m: Manifest)
    requires Faithful(lab) && DistinctContents(lab, development) && DistinctContents(lab, holdout)
    ensures var t := ImportedTree(lab, development, holdout, m);
            && HoldsStage(lab, t, Development, development) && HoldsStage(lab, t, Holdout, holdout)
            && PrivateDirAt(t, Root) && PrivateDirAt(t, PRIVATE)
            && MANIFEST in t && t[MANIFEST] == File(FILE_MODE, lab.canon(ManifestDoc(m)))
            && RECEIPT in t && t[RECEIPT] == File(FILE_MODE, lab.canon(ReceiptDoc(ReceiptFrom(m, "import"))))
            && (forall p :: p in t <==> TreePath(lab, development, holdout, p))
            && ModesOk(t)
  {
    StageTreeMeans(lab, Development, development);
    StageTreeMeans(lab, Holdout, holdout);
    PartsHold(lab, development, holdout, m);
    ImportedPaths(lab, development, holdout, m);
    FrameAndEndsHold(lab, m);
    hide ImportedTree, StageTree, DistinctContents, HoldsStage, StageOnly, TreePath, ModesOk, Faithful, Frame, Ends;
    var t := ImportedTree(lab, development, holdout, m);
    HoldsStageIn(lab, StageTree(lab, Development, development), t, Development, development);
    HoldsStageIn(lab, StageTree(lab, Holdout, holdout), t, Holdout, holdout);
  }

  lemma FrameAndEndsHold(lab: Lab, m: Manifest)
    ensures PrivateDirAt(Frame(), Root) && PrivateDirAt(Frame(), PRIVATE)
    ensures MANIFEST in Ends(lab, m) && Ends(lab, m)[MANIFEST] == File(FILE_MODE, lab.canon(ManifestDoc(m)))
    ensures RECEIPT in Ends(lab, m)
    ensures Ends(lab, m)[RECEIPT] == File(FILE_MODE, lab.canon(ReceiptDoc(ReceiptFrom(m, "import"))))
    ensures forall p :: p in Frame() || p in Ends(lab, m) <==> p in {Root, PRIVATE, MANIFEST, RECEIPT}
  {
    hide ReceiptFrom;
  }

  lemma ImportedPaths(lab: Lab, development: seq<Task>, holdout: seq<Task>, m: Manifest)
    requires forall p :: p in ImportedTree(lab, development, holdout, m) <==>
                         p in Frame() || p in Ends(lab, m)
                         || p in StageTree(lab, Development, development) || p in StageTree(lab, Holdout, holdout)
    requires forall p :: p in StageTree(lab, Development, development) <==> StageOnly(lab, Development, development, p)
    requires forall p :: p in StageTree(lab, Holdout, holdout) <==> StageOnly(lab, Holdout, holdout, p)
    ensures forall p :: p in ImportedTree(lab, development, holdout, m) <==> TreePath(lab, development, holdout, p)
  {
    FrameAndEndsHold(lab, m);
    hide ImportedTree, StageTree, StageOnly, Frame, Ends;
    forall p ensures p in ImportedTree(lab, development, holdout, m) <==> TreePath(lab, development, holdout, p) {
      TreePathParts(lab, development, holdout, p);
    }
  }

  lemma TreePathParts(lab: Lab, development: seq<Task>, holdout: seq<Task>, p: Path)
    ensures TreePath(lab, development, holdout, p) <==>
            || p in {Root, PRIVATE, MANIFEST, RECEIPT}
            || StageOnly(lab, Development, development, p) || StageOnly(lab, Holdout, holdout, p)
  {
    hide IsBlob;
  }

  // Four disjoint parts of a tree are each found in their union.
  lemma UnionHolds(a: Tree, b: Tree, c: Tree, d: Tree)
    requires Apart(a, b) && Apart(a, c) && Apart(a, d) && Apart(b, c) && Apart(b, d) && Apart(c, d)
    ensures var u := a + b + c + d;
            && (forall p :: p in u <==> p in a || p in b || p in c || p in d)
            && Includes(u, a) && Includes(u, b) && Includes(u, c) && Includes(u, d)
            && (ModesOk(a) && ModesOk(b) && ModesOk(c) && ModesOk(d) ==> ModesOk(u))
  {
  }

  lemma StagesAreApart(lab: Lab, development: seq<Task>, holdout: seq<Task>, m: Manifest)
    requires forall p :: p in StageTree(lab, Development, development) <==> StageOnly(lab, Development, development, p)
    requires forall p :: p in StageTree(lab, Holdout, holdout) <==> StageOnly(lab, Holdout, holdout, p)
    ensures Apart(StageTree(lab, Development, development), StageTree(lab, Holdout, holdout))
    ensures Apart(Frame(), StageTree(lab, Development, development)) && Apart(Frame(), StageTree(lab, Holdout, holdout))
    ensures Apart(StageTree(lab, Development, development), Ends(lab, m))
    ensures Apart(StageTree(lab, Holdout, holdout), Ends(lab, m))
  {
    hide StageTree, StageOnly, Under, ReceiptFrom;
    forall p | p in StageTree(lab, Development, development)
      ensures p !in StageTree(lab, Holdout, holdout) && p !in Frame() && p !in Ends(lab, m)
    {
      StageOnlyIsUnder(lab, Development, development, p);
      if p in StageTree(lab, Holdout, holdout) {
        StageOnlyIsUnder(lab, Holdout, holdout, p);
      }
    }
    forall p | p in StageTree(lab, Holdout, holdout) ensures p !in Frame() && p !in Ends(lab, m) {
      StageOnlyIsUnder(lab, Holdout, holdout, p);
    }
  }

  lemma {:induction false} BlobModes(lab: Lab, stage: Stage, tasks: seq<Task>, p: Path)
    ensures p in Blobs(lab, stage, tasks) ==>
              Blobs(lab, stage, tasks)[p].File? && Blobs(lab, stage, tasks)[p].mode == FILE_MODE
  {
    hide Hex;
    if tasks != [] {
      BlobModes(lab, stage, tasks[..|tasks| - 1], p);
    }
  }

  // ---- the round trip -----------------------------------------------------

  // Digests of rows and contents of tasks name the same blobs.
  lemma RowsNameBlobs(lab: Lab, stage: Stage, tasks: seq<Task>, rows: seq<Row>, i: nat) returns (k: nat)
    requires rows == SortRows(RowsOf(lab, tasks)) && i < |rows|
    ensures k < |tasks| && rows[i] == RowOf(lab, tasks[k])
  {
    SortMembers(RowsOf(lab, tasks), RowLeq);
    assert rows[i] in rows;
    k :| 0 <= k < |tasks| && RowsOf(lab, tasks)[k] == rows[i];
  }

  lemma BlobsNameRows(lab: Lab, tasks: seq<Task>, rows: seq<Row>, k: nat) returns (i: nat)
    requires rows == SortRows(RowsOf(lab, tasks)) && k < |tasks|
    ensures i < |rows| && rows[i] == RowOf(lab, tasks[k])
  {
    SortMembers(RowsOf(lab, tasks), RowLeq);
    assert RowsOf(lab, tasks)[k] in RowsOf(lab, tasks);
    i :| 0 <= i < |rows| && rows[i] == RowOf(lab, tasks[k]);
  }

  lemma StageVerifies(lab: Lab, t: Tree, stage: Stage, tasks: seq<Task>, m: Manifest)
    requires Faithful(lab) && ValidBundle(lab, tasks) && Describes(lab, m, stage, tasks)
    requires HoldsStage(lab, t, stage, tasks) && PrivateDirAt(t, PRIVATE)
    ensures VerifyStageTree(lab, t, m, stage) ==
            Ok(StageIndex(stage, SortRows(RowsOf(lab, tasks)), OrderOf(lab, tasks)))
  {
    BuiltIndexIsAccepted(lab, stage, tasks, m);
    hide ValidBundle, Describes, SortRows, BlobPath;
    var doc := IndexOf(lab, stage, tasks);
    var rows := SortRows(RowsOf(lab, tasks));
    IndexAcceptedExactly(lab, doc, stage, m);
    forall i | 0 <= i < |rows|
      ensures PrivateFileAt(t, BlobPath(stage, rows[i].digest))
      ensures lab.hash(t[BlobPath(stage, rows[i].digest)].bytes) == rows[i].digest
    {
      var k := RowsNameBlobs(lab, stage, tasks, rows, i);
      assert rows[i].digest == lab.hash(tasks[k].content);
    }
    hide VerifyStageIndex, IndexAgrees, VerifyStageTree;
    StageAcceptedExactly(lab, t, m, stage);
    assert StageFilesAgree(lab, t, m, stage, doc);
  }

  predicate OnlyTreePaths(lab: Lab, t: Tree, development: seq<Task>, holdout: seq<Task>) {
    forall p :: p in t ==> TreePath(lab, development, holdout, p)
  }

  function TasksFor(stage: Stage, development: seq<Task>, holdout: seq<Task>): seq<Task> {
    match stage
    case Development => development
    case Holdout => holdout
  }

  lemma StageLists(lab: Lab, t: Tree, stage: Stage, development: seq<Task>, holdout: seq<Task>)
    requires OnlyTreePaths(lab, t, development, holdout)
    requires HoldsStage(lab, t, stage, TasksFor(stage, development, holdout))
    ensures ListsExactly(t, stage, SortRows(RowsOf(lab, TasksFor(stage, development, holdout))))
  {
    hide Hex, SortRows, IndexOf;
    var tasks := TasksFor(stage, development, holdout);
    var rows := SortRows(RowsOf(lab, tasks));
    forall name ensures name in Children(t, BlobDir(stage)) <==> name in HexNames(rows) {
      var p := Child(BlobDir(stage), name);
      if p in t {
        assert TreePath(lab, development, holdout, p);
        assert IsBlob(lab, stage, tasks, p);
        var k :| 0 <= k < |tasks| && p == BlobPath(stage, lab.hash(tasks[k].content));
        var i := BlobsNameRows(lab, tasks, rows, k);
        assert HexName(Hex(rows[i].digest)) == name;
      }
      if name in HexNames(rows) {
        var i :| 0 <= i < |rows| && name == HexName(Hex(rows[i].digest));
        var k := RowsNameBlobs(lab, stage, tasks, rows, i);
        assert p == BlobPath(stage, lab.hash(tasks[k].content));
      }
    }
    forall name ensures name in Children(t, StageDir(stage)) <==> name in {IndexName, BlobsName} {
      var p := Child(StageDir(stage), name);
      if p in t {
        assert TreePath(lab, development, holdout, p);
      }
    }
  }

  lemma PrivateLists(lab: Lab, t: Tree, development: seq<Task>, holdout: seq<Task>)
    requires OnlyTreePaths(lab, t, development, holdout)
    requires StageDir(Development) in t && StageDir(Holdout) in t
    ensures Children(t, PRIVATE) == {StageName(Development), StageName(Holdout)}
  {
    forall name ensures name in Children(t, PRIVATE) <==> name in {StageName(Development), StageName(Holdout)} {
      var p := Child(PRIVATE, name);
      if p in t {
        assert TreePath(lab, development, holdout, p);
      }
    }
  }

  lemma RowsAreSeparate(lab: Lab, development: seq<Task>, holdout: seq<Task>)
    requires Separate(lab, development, holdout)
    ensures RowIds(SortRows(RowsOf(lab, development))) * RowIds(SortRows(RowsOf(lab, holdout))) == {}
    ensures Elements(DigestsOf(SortRows(RowsOf(lab, development)))) *
            Elements(DigestsOf(SortRows(RowsOf(lab, holdout)))) == {}
  {
    SortedDigests(lab, development);
    SortedDigests(lab, holdout);
    RowIdsAreTaskIds(lab, development);
    RowIdsAreTaskIds(lab, holdout);
    hide ContentDigests, TaskIds, RowIds, SortRows;
  }

  lemma RowIdsAreTaskIds(lab: Lab, tasks: seq<Task>)
    ensures RowIds(SortRows(RowsOf(lab, tasks))) <= TaskIds(tasks)
  {
    var rows := SortRows(RowsOf(lab, tasks));
    hide SortRows;
    forall id | id in RowIds(rows) ensures id in TaskIds(tasks) {
      var i :| 0 <= i < |rows| && rows[i].id == id;
      var k := RowsNameBlobs(lab, Development, tasks, rows, i);
      assert tasks[k].id == id;
    }
  }

  lemma FileDigestsOf(lab: Lab, development: seq<Task>, holdout: seq<Task>)
    requires ValidateBundles(lab, development, holdout).Ok?
    ensures ValidateBundles(lab, development, holdout).value.fileDigests ==
            SortTexts(DigestsOf(SortRows(RowsOf(lab, development))) + DigestsOf(SortRows(RowsOf(lab, holdout))))
  {
    hide FirstFault, SortRows, SortTexts, RowsText;
  }

  // The tree of an import verifies in full, with exactly the bundles' counts,
  // digests and set identity.
  lemma ImportVerifies(
    lab: Lab, commit: string, controllerDigest: string, development: seq<Task>, holdout: seq<Task>, operation: string)
    requires Faithful(lab) && IsCommit(commit) && IsDigest(controllerDigest)
    requires ValidateBundles(lab, development, holdout).Ok?
    ensures var m := ManifestFor(lab, commit, controllerDigest, development, holdout);
            && m.Ok?
            && VerifyCustody(lab, ImportedTree(lab, development, holdout, m.value), commit, controllerDigest, operation)
               == Ok(Receipt(operation, TASKS_PER_STAGE, TASKS_PER_STAGE,
                             Aggregate(lab, RowsOf(lab, development)), Aggregate(lab, RowsOf(lab, holdout)),
                             commit, controllerDigest, m.value.digest, SetIdentityFor(lab, development, holdout),
                             m.value.requestDigest))
  {
    ManifestDescribes(lab, commit, controllerDigest, development, holdout);
    BundlesAcceptedExactly(lab, development, holdout);
    ValidIsDistinct(lab, development);
    ValidIsDistinct(lab, holdout);
    var m := ManifestFor(lab, commit, controllerDigest, development, holdout).value;
    ImportedTreeHolds(lab, development, holdout, m);
    var t := ImportedTree(lab, development, holdout, m);
    FileDigestsOf(lab, development, holdout);
    hide ManifestFor, ImportedTree, ValidateBundles, HoldsStage, IsCommit, IsDigest, ValidBundle, SortTexts, TreePath,
         VerifyStageTree, Separate, ListsExactly, RowIds, Children, SortRows, SetIdentity;
    StageVerifies(lab, t, Development, development, m);
    StageVerifies(lab, t, Holdout, holdout, m);
    assert OnlyTreePaths(lab, t, development, holdout);
    StageLists(lab, t, Development, development, holdout);
    StageLists(lab, t, Holdout, development, holdout);
    StageDirsHeld(lab, t, development, holdout);
    PrivateLists(lab, t, development, holdout);
    RowsAreSeparate(lab, development, holdout);
    assert CheckAllStages(lab, t, m).None?;
    hide CheckAllStages, ModesOk, ValidatePublicManifest;
    assert ReadJson(lab, t, MANIFEST) == Some(ManifestDoc(m));
    assert ReadJson(lab, t, RECEIPT) == Some(ReceiptDoc(ReceiptFrom(m, "import")));
  }

  lemma StageDirsHeld(lab: Lab, t: Tree, development: seq<Task>, holdout: seq<Task>)
    requires HoldsStage(lab, t, Development, development) && HoldsStage(lab, t, Holdout, holdout)
    ensures StageDir(Development) in t && StageDir(Holdout) in t
  {
    hide IndexOf, BlobPath;
  }

  // ---- the import as it runs ----------------------------------------------

  const APPROVAL_PREFIX := "I approve sealed qualification-set import using request sha256:"

  function ApprovalPhrase(requestDigest: string): string {
    APPROVAL_PREFIX + Hex(requestDigest)
  }

  // The checks of one import before the destination is touched.
  function RequestFault(
    lab: Lab, commit: string, controllerDigest: string, expectedController: string, expectedRequest: string,
    approval: string,
    development: seq<Task>, holdout: seq<Task>): Option<Reason>
  {
    if expectedController != controllerDigest then Some(ControllerDigestMismatch)
    else
      var request := BuildImportRequest(lab, commit, controllerDigest, development, holdout);
      if request.Err? then Some(request.error)
      else if request.value.digest != expectedRequest then Some(RequestMismatch)
      else if approval != ApprovalPhrase(request.value.digest) then Some(ApprovalMismatch)
      else None
  }

  // The destination is touched only for the expected controller and the exact
  // request of these bundles, under the phrase that names its digest.
  lemma ApprovedExactly(
    lab: Lab, commit: string, controllerDigest: string, expectedController: string, expectedRequest: string,
    approval: string,
    development: seq<Task>, holdout: seq<Task>)
    ensures RequestFault(lab, commit, controllerDigest, expectedController, expectedRequest, approval, development,
      holdout).None? <==>
            && ValidBundle(lab, development) && ValidBundle(lab, holdout) && Separate(lab, development, holdout)
            && ValidateBundles(lab, development, holdout).Ok?
            && IsCommit(commit) && IsDigest(controllerDigest) && expectedController == controllerDigest
            && expectedRequest ==
              RequestFor(lab, commit, controllerDigest, ValidateBundles(lab, development, holdout).value,
                                             SetIdentityFor(lab, development, holdout)).digest
            && approval == APPROVAL_PREFIX + Hex(expectedRequest)
  {
    BundlesAcceptedExactly(lab, development, holdout);
    hide ValidBundle, Separate, ValidateBundles, IsCommit, IsDigest, RequestFor, SetIdentityFor, Hex;
  }

  // A set that carries the same identity or the same request is a replay.
  lemma ReplayIsRefused(lab: Lab, t: Tree, request: Request, m: Manifest)
    requires PrivateDirAt(t, Root) && ReadJson(lab, t, MANIFEST) == Some(ManifestDoc(m))
    ensures DestinationFault(lab, t, request) ==
            Some(if m.setIdentity == request.setIdentity || m.requestDigest == request.digest then Replay
              else DestinationNonempty)
  {
  }

  // Why an existing destination is refused; None for an empty directory.
  function DestinationFault(lab: Lab, t: Tree, request: Request): Option<Reason>
    requires Root in t
  {
    if !t[Root].Dir? then Some(SymlinkEscape)
    else if t[Root].mode != DIR_MODE then Some(PermissiveMode)
    else if MANIFEST in t then
      var existing := ReadJson(lab, t, MANIFEST);
      if existing.Some? && existing.value.ManifestDoc?
         && (existing.value.manifest.setIdentity == request.setIdentity
             || existing.value.manifest.requestDigest == request.digest)
      then Some(Replay)
      else Some(DestinationNonempty)
    else if Children(t, Root) != {} then Some(DestinationNonempty)
    else None
  }

  lemma {:induction false} RootlessIsEmpty(t: Tree, p: Path)
    requires WellFormed(t) && Root !in t
    ensures p !in t
  {
    if p.Child? {
      RootlessIsEmpty(t, p.parent);
    }
  }

  lemma {:induction false} ChildlessIsRoot(t: Tree, p: Path)
    requires WellFormed(t) && Children(t, Root) == {} && p in t
    ensures p == Root
  {
    if p.Child? {
      ChildlessIsRoot(t, p.parent);
      ChildIsListed(t, p);
    }
  }

  lemma ChildIsListed(t: Tree, p: Path)
    requires p in t && p.Child?
    ensures p.name in Children(t, p.parent)
  {
  }

  // An accepted destination is absent or an empty private directory.
  lemma EmptyDestination(lab: Lab, t: Tree, request: Request)
    requires WellFormed(t)
    ensures Root !in t ==> t == map[]
    ensures Root in t && DestinationFault(lab, t, request).None? ==> t == map[Root := Dir(DIR_MODE)]
  {
    if Root !in t {
      forall p ensures p !in t {
        RootlessIsEmpty(t, p);
      }
    } else if DestinationFault(lab, t, request).None? {
      forall p | p in t ensures p == Root {
        ChildlessIsRoot(t, p);
      }
    }
  }

  lemma Associates(a: Tree, b: Tree, c: Tree)
    ensures a + b + c == a + (b + c)
  {
  }

  lemma Commutes(a: Tree, b: Tree)
    requires Apart(a, b)
    ensures a + b == b + a
  {
  }

  // The written parts, in the order they are written, make up the tree.
  lemma Reassembles(f: Tree, dd: Tree, bd: Tree, dh: Tree, bh: Tree, x: Tree, y: Tree, e: Tree)
    requires Apart(x, dh) && Apart(x, bh)
    ensures f + dd + bd + dh + bh + x + y + e == f + (dd + bd + x) + (dh + bh + y) + e
  {
    var a, h := f + dd + bd, dh + bh;
    Associates(a, dh, bh);
    Associates(a, h, x);
    Commutes(x, h);
    Associates(a, x, h);
    Associates(f, dd, bd);
    Associates(f, dd + bd, x);
    Associates(a + x, h, y);
  }

  lemma IndexIsApart(lab: Lab, development: seq<Task>, holdout: seq<Task>)
    requires Faithful(lab) && DistinctContents(lab, holdout)
    ensures Apart(IndexFile(lab, Development, development), Dirs(Holdout))
    ensures Apart(IndexFile(lab, Development, development), Blobs(lab, Holdout, holdout))
  {
    BlobsMean(lab, Holdout, holdout);
    hide Blobs, IndexOf, Hex;
  }

  class CustodyRoot {
    const lab: Lab
    const faults: nat -> Fault
    var tree: Tree
    var step: nat

    constructor (lab: Lab, faults: nat -> Fault, tree: Tree)
      ensures this.lab == lab && this.faults == faults && this.tree == tree && step == 0
    {
      this.lab, this.faults, this.tree, step := lab, faults, tree, 0;
    }

    ghost predicate NoFaults() {
      forall n :: faults(n).Works?
    }

    // The root entry itself is as it was.
    twostate predicate RootKept()
      reads this
    {
      Root in old(tree) ==> Root in tree && tree[Root] == old(tree)[Root]
    }

    predicate IsDirAt(p: Path)
      reads this
    {
      p in tree && tree[p].Dir?
    }

    predicate ParentExists(p: Path)
      reads this
    {
      p.Child? && IsDirAt(p.parent)
    }

    // mkdir, or an exclusive create followed by the bytes.
    method Create(p: Path, node: Node) returns (ok: bool)
      requires p.Child? && !node.Link?
      modifies this
      ensures ok ==> tree == old(tree)[p := node]
      ensures NoFaults() && old(ParentExists(p)) && p !in old(tree) ==> ok
      ensures RootKept()
    {
      var fault := faults(step);
      step := step + 1;
      if fault.FailsBefore? || p in tree || !ParentExists(p) {
        return false;
      }
      if fault.FailsMidway? {
        tree := tree[p := if node.Dir? then Dir(fault.mode) else File(fault.mode, fault.bytes)];
        return false;
      }
      tree := tree[p := node];
      return true;
    }

    method WriteBlobs(stage: Stage, tasks: seq<Task>) returns (ok: bool)
      requires Faithful(lab) && DistinctContents(lab, tasks)
      modifies this
      ensures ok ==> tree == old(tree) + Blobs(lab, stage, tasks)
      ensures NoFaults() && old(IsDirAt(BlobDir(stage))) && Children(old(tree), BlobDir(stage)) == {} ==> ok
      ensures RootKept()
    {
      hide IsDigest, Hex, Faithful, DistinctContents;
      var i := 0;
      while i < |tasks|
        invariant 0 <= i <= |tasks|
        invariant tree == old(tree) + Blobs(lab, stage, tasks[..i])
        invariant RootKept()
      {
        assert tasks[..i + 1][..i] == tasks[..i];
        var p := BlobPath(stage, lab.hash(tasks[i].content));
        FreshBlob(lab, stage, tasks, i);
        BlobsAreBelow(lab, stage, tasks[..i]);
        if Children(old(tree), BlobDir(stage)) == {} {
          NotAChild(old(tree), p);
        }
        var made := Create(p, File(FILE_MODE, tasks[i].content));
        if !made {
          return false;
        }
        i := i + 1;
      }
      assert tasks[..i] == tasks;
      return true;
    }

    method WriteStage(stage: Stage, tasks: seq<Task>) returns (ok: bool)
      requires Faithful(lab) && DistinctContents(lab, tasks)
      modifies this
      ensures ok ==> tree == old(tree) + Dirs(stage) + Blobs(lab, stage, tasks)
      ensures NoFaults() && old(IsDirAt(PRIVATE)) && NothingUnder(stage, old(tree)) ==> ok
      ensures RootKept()
    {
      hide Blobs, Faithful, DistinctContents;
      ghost var before := tree;
      var made := Create(StageDir(stage), Dir(DIR_MODE));
      if !made {
        return false;
      }
      made := Create(BlobDir(stage), Dir(DIR_MODE));
      if !made {
        return false;
      }
      assert tree == before + Dirs(stage);
      if NothingUnder(stage, before) {
        NothingBelowBlobs(stage, before);
      }
      made := WriteBlobs(stage, tasks);
      return made;
    }

    method WriteIndexes(development: seq<Task>, holdout: seq<Task>) returns (ok: bool)
      modifies this
      ensures ok ==> tree == old(tree) + IndexFile(lab, Development, development) + IndexFile(lab, Holdout, holdout)
      ensures NoFaults() && old(IsDirAt(StageDir(Development))) && old(IsDirAt(StageDir(Holdout)))
              && IndexPath(Development) !in old(tree) && IndexPath(Holdout) !in old(tree)
              ==> ok
      ensures RootKept()
    {
      hide IndexOf;
      ghost var before := tree;
      ok := Create(IndexPath(Development), File(FILE_MODE, lab.canon(IndexOf(lab, Development, development))));
      if ok {
        ok := Create(IndexPath(Holdout), File(FILE_MODE, lab.canon(IndexOf(lab, Holdout, holdout))));
      }
      assert ok ==> tree == before + IndexFile(lab, Development, development) + IndexFile(lab, Holdout, holdout);
    }

    // The manifest, then the receipt.
    method WriteEnds(m: Manifest) returns (ok: bool)
      modifies this
      ensures ok ==> tree == old(tree) + Ends(lab, m)
      ensures NoFaults() && old(IsDirAt(Root)) && MANIFEST !in old(tree) && RECEIPT !in old(tree) ==> ok
      ensures RootKept()
    {
      hide ReceiptFrom;
      ghost var before := tree;
      ok := Create(MANIFEST, File(FILE_MODE, lab.canon(ManifestDoc(m))));
      if ok {
        ok := Create(RECEIPT, File(FILE_MODE, lab.canon(ReceiptDoc(ReceiptFrom(m, "import")))));
      }
      assert ok ==> tree == before + Ends(lab, m);
    }

    // Every blob a stage's rows name reads back with its digest.
    method ReadBack(stage: Stage, rows: seq<Row>) returns (ok: bool)
      ensures ok <==> BlobsMatch(lab, tree, stage, rows)
    {
      hide BlobPath;
      var i := 0;
      while i < |rows|
        invariant 0 <= i <= |rows|
        invariant BlobsMatch(lab, tree, stage, rows[..i])
      {
        var p := BlobPath(stage, rows[i].digest);
        if p !in tree || !tree[p].File? || lab.hash(tree[p].bytes) != rows[i].digest {
          return false;
        }
        i := i + 1;
      }
      assert rows[..i] == rows;
      return true;
    }

    // Everything before the documents: the stages are written and read back.
    method WriteBothStages(development: seq<Task>, holdout: seq<Task>, checkpoint: bool) returns (r: Option<Reason>)
      requires Faithful(lab) && DistinctContents(lab, development) && DistinctContents(lab, holdout)
      requires tree == map[Root := Dir(DIR_MODE)]
      modifies this
      ensures r.None? ==> tree == BothStages(lab, development, holdout)
      ensures NoFaults() && checkpoint ==> r.None?
      ensures RootKept()
    {
      WrittenBeforeDocuments(lab, development, holdout);
      hide DistinctContents, Blobs, Dirs, Faithful, SortRows, BlobsMatch, ReadyForDocuments, IndexFile, NothingUnder;
      var made := Create(PRIVATE, Dir(DIR_MODE));
      if !made {
        return Some(OsError);
      }
      assert tree == Frame();
      made := WriteStage(Development, development);
      if !made {
        return Some(OsError);
      }
      made := WriteStage(Holdout, holdout);
      if !made {
        return Some(OsError);
      }
      if !checkpoint {
        return Some(Interrupted);
      }
      var readDevelopment := ReadBack(Development, SortRows(RowsOf(lab, development)));
      var readHoldout := ReadBack(Holdout, SortRows(RowsOf(lab, holdout)));
      return if readDevelopment && readHoldout then None else Some(RequestMismatch);
    }

    method WriteTree(
        commit: string, controllerDigest: string, development: seq<Task>, holdout: seq<Task>, checkpoint: bool)
      returns (r: Option<Reason>)
      requires Faithful(lab) && IsCommit(commit) && IsDigest(controllerDigest)
      requires ValidateBundles(lab, development, holdout).Ok?
      requires tree == map[Root := Dir(DIR_MODE)]
      modifies this
      ensures r.None? ==>
                var m := ManifestFor(lab, commit, controllerDigest, development, holdout);
                m.Ok? && tree == ImportedTree(lab, development, holdout, m.value)
      ensures NoFaults() && checkpoint ==> r.None?
      ensures RootKept()
    {
      BundlesAcceptedExactly(lab, development, holdout);
      ValidIsDistinct(lab, development);
      ValidIsDistinct(lab, holdout);
      ManifestDescribes(lab, commit, controllerDigest, development, holdout);
      IndexIsApart(lab, development, holdout);
      WrittenBeforeDocuments(lab, development, holdout);
      hide ManifestFor, ValidateBundles, ValidBundle, Separate, Describes, ValidatePublicManifest, DistinctContents,
           IsCommit, IsDigest, Blobs, IndexOf, IndexFile, Dirs, Ends, Faithful, SortRows, BlobsMatch, SetIdentityFor,
           BuildImportRequest, NothingUnder;
      r := WriteBothStages(development, holdout, checkpoint);
      if r.Some? {
        return;
      }
      var made := WriteIndexes(development, holdout);
      if !made {
        return Some(OsError);
      }
      var m := ManifestFor(lab, commit, controllerDigest, development, holdout);
      made := WriteEnds(m.value);
      if !made {
        return Some(OsError);
      }
      Reassembles(
        Frame(), Dirs(Development), Blobs(lab, Development, development), Dirs(Holdout), Blobs(lab, Holdout, holdout),
        IndexFile(lab, Development, development), IndexFile(lab, Holdout, holdout), Ends(lab, m.value));
    }

    // Remove what this import created; its own root only if it made it.
    method Scrub(created: bool)
      modifies this
      ensures created ==> tree == map[]
      ensures !created ==> tree == if old(IsDirAt(Root)) then map[Root := old(tree)[Root]] else old(tree)
    {
      if created {
        tree := map[];
      } else if IsDirAt(Root) {
        tree := map[Root := tree[Root]];
      }
    }

    // The directory was made but its mode could not be set.
    ghost predicate MkdirFailedMidway(before: Tree, at: nat)
      reads this
    {
      before == map[] && faults(at).FailsMidway? && tree == map[Root := Dir(faults(at).mode)]
    }

    // Whether the destination was made; an existing one must be an empty
    // private directory.
    method PrepareDestination(request: Request) returns (r: Result<bool, Reason>)
      requires WellFormed(tree)
      modifies this
      ensures r.Ok? ==> tree == map[Root := Dir(DIR_MODE)] && old(tree) == if r.value then map[] else tree
      ensures r.Err? ==> tree == old(tree) || MkdirFailedMidway(old(tree), old(step))
      ensures Root in old(tree) && Children(old(tree), Root) != {} ==> r.Err? && tree == old(tree)
      ensures NoFaults() && (old(tree) == map[] || old(tree) == map[Root := Dir(DIR_MODE)]) ==> r.Ok?
    {
      EmptyDestination(lab, tree, request);
      hide WellFormed;
      if Root in tree {
        var fault := DestinationFault(lab, tree, request);
        return if fault.Some? then Err(fault.value) else Ok(false);
      }
      var fault := faults(step);
      step := step + 1;
      match fault {
        case FailsBefore =>
          return Err(OsError);
        case FailsMidway(mode, _) =>
          tree := map[Root := Dir(mode)];
          return Err(PermissiveMode);
        case Works =>
          tree := map[Root := Dir(DIR_MODE)];
          return Ok(true);
      }
    }

    // All or nothing: on success the tree is exactly the imported one and the
    // receipt carries the bundles' counts, digests and identity; once the
    // destination was prepared, any failure restores it; before that, only the
    // mkdir of an absent destination can leave something behind; a destination
    // that already holds anything is never altered.
    method ImportAuthorizedSet(
        commit: string, controllerDigest: string, expectedController: string, expectedRequest: string, approval: string,
        development: seq<Task>, holdout: seq<Task>, checkpoint: bool)
      returns (r: Result<Receipt, Reason>, ghost prepared: bool)
      requires Faithful(lab) && IsCommit(commit) && IsDigest(controllerDigest) && WellFormed(tree)
      modifies this
      ensures r.Ok? ==> prepared
      ensures r.Err? && prepared ==> tree == old(tree)
      ensures r.Err? && !prepared ==> tree == old(tree) || MkdirFailedMidway(old(tree), old(step))
      ensures Root in old(tree) && Children(old(tree), Root) != {} ==> r.Err? && tree == old(tree)
      ensures RequestFault(lab, commit, controllerDigest, expectedController, expectedRequest, approval, development,
        holdout).Some?
              ==> r.Err? && tree == old(tree)
      ensures r.Ok? ==>
                && ValidateBundles(lab, development, holdout).Ok?
                && (var m := ManifestFor(lab, commit, controllerDigest, development, holdout);
                    && m.Ok? && tree == ImportedTree(lab, development, holdout, m.value)
                    && r.value == Receipt("import", TASKS_PER_STAGE, TASKS_PER_STAGE,
                                          Aggregate(lab, RowsOf(lab, development)),
                                          Aggregate(lab, RowsOf(lab, holdout)),
                                          commit, controllerDigest, m.value.digest,
                                          SetIdentityFor(lab, development, holdout), m.value.requestDigest))
      ensures NoFaults() && checkpoint && (old(tree) == map[] || old(tree) == map[Root := Dir(DIR_MODE)])
              && RequestFault(lab, commit, controllerDigest, expectedController, expectedRequest, approval,
                development, holdout).None?
              ==> r.Ok?
    {
      var fault :=
        RequestFault(lab, commit, controllerDigest, expectedController, expectedRequest, approval, development,
          holdout);
      prepared := false;
      if fault.Some? {
        return Err(fault.value), prepared;
      }
      var request := BuildImportRequest(lab, commit, controllerDigest, development, holdout).value;
      BundlesOk(lab, commit, controllerDigest, development, holdout);
      ImportVerifies(lab, commit, controllerDigest, development, holdout, "import");
      hide ValidateBundles, BuildImportRequest, ManifestFor, ImportedTree, VerifyCustody, IsCommit, IsDigest, Faithful,
           RequestFault, SetIdentityFor, Aggregate, WellFormed, Children, DestinationFault;
      var created := PrepareDestination(request);
      if created.Err? {
        return Err(created.error), prepared;
      }
      prepared := true;
      var refused := WriteTree(commit, controllerDigest, development, holdout, checkpoint);
      r := if refused.Some? then Err(refused.value) else VerifyCustody(lab, tree, commit, controllerDigest, "import");
      if r.Err? {
        Scrub(created.value);
      }
    }
  }

  predicate NothingUnder(stage: Stage, t: Tree) {
    forall p :: p in t ==> !Under(stage, p)
  }

  lemma BelowBlobsIsUnder(stage: Stage, name: Name)
    ensures Under(stage, StageDir(stage)) && Under(stage, BlobDir(stage)) && Under(stage, Child(BlobDir(stage), name))
  {
    assert Under(stage, StageDir(stage));
    assert Under(stage, BlobDir(stage));
  }

  lemma NothingBelowBlobs(stage: Stage, t: Tree)
    requires NothingUnder(stage, t)
    ensures Children(t + Dirs(stage), BlobDir(stage)) == {}
    ensures StageDir(stage) !in t && BlobDir(stage) !in t
  {
    hide Under;
    BelowBlobsIsUnder(stage, BlobsName);
    forall name ensures name !in Children(t + Dirs(stage), BlobDir(stage)) {
      BelowBlobsIsUnder(stage, name);
      assert Child(BlobDir(stage), name) !in t;
    }
  }

  lemma NotAChild(t: Tree, p: Path)
    requires p.Child? && Children(t, p.parent) == {}
    ensures p !in t
  {
    if p in t {
      ChildIsListed(t, p);
    }
  }

  // _write_tree's own check before the indexes are written.
  predicate BlobsMatch(lab: Lab, t: Tree, stage: Stage, rows: seq<Row>) {
    forall i :: 0 <= i < |rows| ==>
      var p := BlobPath(stage, rows[i].digest); p in t && t[p].File? && lab.hash(t[p].bytes) == rows[i].digest
  }

  lemma BundlesOk(lab: Lab, commit: string, controllerDigest: string, development: seq<Task>, holdout: seq<Task>)
    requires BuildImportRequest(lab, commit, controllerDigest, development, holdout).Ok?
    ensures ValidateBundles(lab, development, holdout).Ok?
  {
    hide ValidateBundles, SetIdentityFor;
  }

  lemma FreshBlob(lab: Lab, stage: Stage, tasks: seq<Task>, i: nat)
    requires i < |tasks| && Faithful(lab) && DistinctContents(lab, tasks)
    ensures BlobPath(stage, lab.hash(tasks[i].content)) !in Blobs(lab, stage, tasks[..i])
  {
    hide IsDigest, Hex;
    BlobsMean(lab, stage, tasks[..i]);
    var p := BlobPath(stage, lab.hash(tasks[i].content));
    if IsBlob(lab, stage, tasks[..i], p) {
      var k :| 0 <= k < i && p == BlobPath(stage, lab.hash(tasks[k].content));
      HexIsInjective(lab.hash(tasks[k].content), lab.hash(tasks[i].content));
      assert false;
    }
  }

  lemma {:induction false} BlobsAreBelow(lab: Lab, stage: Stage, tasks: seq<Task>)
    ensures forall p :: p in Blobs(lab, stage, tasks) ==> p.Child? && p.parent == BlobDir(stage)
  {
    hide Hex;
    if tasks != [] {
      BlobsAreBelow(lab, stage, tasks[..|tasks| - 1]);
    }
  }

  lemma BlobsMatchRows(lab: Lab, stage: Stage, tasks: seq<Task>, t: Tree)
    requires Faithful(lab) && DistinctContents(lab, tasks) && Includes(t, Blobs(lab, stage, tasks))
    ensures BlobsMatch(lab, t, stage, SortRows(RowsOf(lab, tasks)))
  {
    BlobsMean(lab, stage, tasks);
    hide Blobs, SortRows, BlobPath, IsDigest;
    var rows := SortRows(RowsOf(lab, tasks));
    forall i | 0 <= i < |rows|
      ensures var p := BlobPath(stage, rows[i].digest); p in t && t[p].File? && lab.hash(t[p].bytes) == rows[i].digest
    {
      var k := RowsNameBlobs(lab, stage, tasks, rows, i);
      var p := BlobPath(stage, lab.hash(tasks[k].content));
      assert p in Blobs(lab, stage, tasks);
    }
  }

  // After both stages are written and before their documents are.
  function BothStages(lab: Lab, development: seq<Task>, holdout: seq<Task>): Tree {
    Frame() + Dirs(Development) + Blobs(lab, Development, development) + Dirs(Holdout) + Blobs(lab, Holdout, holdout)
  }

  predicate ReadyForDocuments(lab: Lab, t: Tree, development: seq<Task>, holdout: seq<Task>) {
    && Root in t && t[Root] == Dir(DIR_MODE)
    && StageDir(Development) in t && t[StageDir(Development)].Dir? && StageDir(Holdout) in t
    && t[StageDir(Holdout)].Dir?
    && IndexPath(Development) !in t && IndexPath(Holdout) !in t && MANIFEST !in t && RECEIPT !in t
  }

  lemma StagesReadBack(lab: Lab, development: seq<Task>, holdout: seq<Task>)
    requires Faithful(lab) && DistinctContents(lab, development) && DistinctContents(lab, holdout)
    ensures var t := BothStages(lab, development, holdout);
            && BlobsMatch(lab, t, Development, SortRows(RowsOf(lab, development)))
            && BlobsMatch(lab, t, Holdout, SortRows(RowsOf(lab, holdout)))
  {
    BlobsAreBelow(lab, Development, development);
    BlobsAreBelow(lab, Holdout, holdout);
    hide Blobs, DistinctContents, Faithful, BlobsMatch, SortRows;
    var t := BothStages(lab, development, holdout);
    BlobsMatchRows(lab, Development, development, t);
    BlobsMatchRows(lab, Holdout, holdout, t);
  }

  lemma StagesAreReady(lab: Lab, development: seq<Task>, holdout: seq<Task>)
    ensures ReadyForDocuments(lab, BothStages(lab, development, holdout), development, holdout)
  {
    BlobsAreBelow(lab, Development, development);
    BlobsAreBelow(lab, Holdout, holdout);
    hide Blobs;
  }

  lemma EndsAreFree(lab: Lab, t: Tree, development: seq<Task>, holdout: seq<Task>)
    requires ReadyForDocuments(lab, t, development, holdout)
    ensures var e := t + IndexFile(lab, Development, development) + IndexFile(lab, Holdout, holdout);
            Root in e && e[Root] == Dir(DIR_MODE) && MANIFEST !in e && RECEIPT !in e
  {
    hide IndexOf;
  }

  lemma HoldoutIsFresh(lab: Lab, development: seq<Task>)
    ensures var f := Frame() + Dirs(Development) + Blobs(lab, Development, development);
            NothingUnder(Development, Frame()) && NothingUnder(Holdout, f) && PRIVATE in f && f[PRIVATE].Dir?
  {
    BlobsAreBelow(lab, Development, development);
    hide Blobs;
    assert !Under(Holdout, PRIVATE) && !Under(Holdout, Root) && !Under(Development, PRIVATE);
    assert !Under(Holdout, StageDir(Development));
    assert !Under(Holdout, BlobDir(Development));
  }

  lemma WrittenBeforeDocuments(lab: Lab, development: seq<Task>, holdout: seq<Task>)
    requires Faithful(lab) && DistinctContents(lab, development) && DistinctContents(lab, holdout)
    ensures var t := BothStages(lab, development, holdout);
            && ReadyForDocuments(lab, t, development, holdout)
            && BlobsMatch(lab, t, Development, SortRows(RowsOf(lab, development)))
            && BlobsMatch(lab, t, Holdout, SortRows(RowsOf(lab, holdout)))
    ensures NothingUnder(Development, Frame())
    ensures NothingUnder(Holdout, Frame() + Dirs(Development) + Blobs(lab, Development, development))
    ensures var e :=
      BothStages(lab, development, holdout) + IndexFile(lab, Development, development)
        + IndexFile(lab, Holdout, holdout);
            Root in e && e[Root] == Dir(DIR_MODE) && MANIFEST !in e && RECEIPT !in e
    ensures var f := Frame() + Dirs(Development) + Blobs(lab, Development, development);
            PRIVATE in f && f[PRIVATE].Dir?
  {
    StagesReadBack(lab, development, holdout);
    StagesAreReady(lab, development, holdout);
    EndsAreFree(lab, BothStages(lab, development, holdout), development, holdout);
    HoldoutIsFresh(lab, development);
    hide BothStages, Blobs, Frame, Dirs, IndexFile, DistinctContents, Faithful, BlobsMatch, ReadyForDocuments,
         NothingUnder;
  }
}
