/** Which entries added to a verified custody set full verification notices
    (src/blackwell_lab/sealed_sets/custody.py: _require_tree_modes and
    _check_all_stages). */
module CustodyExtras {
  import opened Common
  import opened SealedModel
  import opened CustodyTree

  predicate NothingNewInPrivate(t: Tree, more: Tree) {
    forall p :: p in more && UnderPrivate(p) ==> p in t
  }

  lemma FilesStay(lab: Lab, t: Tree, more: Tree, stage: Stage, m: Manifest, doc: Doc)
    requires Includes(more, t) && StageFilesAgree(lab, t, m, stage, doc)
    ensures StageFilesAgree(lab, more, m, stage, doc)
  {
    hide IndexAgrees, BlobPath;
  }

  // A stage that verifies goes on doing so, whatever is added.
  lemma StageStays(lab: Lab, t: Tree, more: Tree, m: Manifest, stage: Stage)
    requires Includes(more, t) && VerifyStageTree(lab, t, m, stage).Ok?
    ensures VerifyStageTree(lab, more, m, stage) == VerifyStageTree(lab, t, m, stage)
  {
    hide VerifyStageTree, StageFilesAgree;
    StageAcceptedExactly(lab, t, m, stage);
    StageAcceptedExactly(lab, more, m, stage);
    var doc :| StageFilesAgree(lab, t, m, stage, doc);
    FilesStay(lab, t, more, stage, m, doc);
  }

  lemma SameListing(t: Tree, more: Tree, dir: Path)
    requires Includes(more, t) && NothingNewInPrivate(t, more) && UnderPrivate(dir)
    ensures Children(more, dir) == Children(t, dir)
  {
    forall name ensures name in Children(more, dir) <==> name in Children(t, dir) {
      assert name in Children(more, dir) <==> Child(dir, name) in more;
      assert name in Children(t, dir) <==> Child(dir, name) in t;
      assert UnderPrivate(Child(dir, name));
    }
  }

  lemma StageDirsAreInside(stage: Stage)
    ensures UnderPrivate(PRIVATE) && UnderPrivate(StageDir(stage)) && UnderPrivate(BlobDir(stage))
  {
    assert UnderPrivate(PRIVATE);
    assert UnderPrivate(StageDir(stage));
  }

  lemma ListingStays(t: Tree, more: Tree, stage: Stage, rows: seq<Row>)
    requires Includes(more, t) && NothingNewInPrivate(t, more)
    ensures ListsExactly(more, stage, rows) == ListsExactly(t, stage, rows)
  {
    StageDirsAreInside(stage);
    SameListing(t, more, StageDir(stage));
    SameListing(t, more, BlobDir(stage));
  }

  lemma ChecksStay(lab: Lab, t: Tree, more: Tree, m: Manifest)
    requires Includes(more, t) && NothingNewInPrivate(t, more) && CheckAllStages(lab, t, m).None?
    ensures CheckAllStages(lab, more, m).None?
  {
    hide CheckAllStages, VerifyStageTree, ListsExactly, Children, Includes, NothingNewInPrivate, RowIds;
    StagesAcceptedExactly(lab, t, m);
    var dev, hold :| StagesAgree(lab, t, m, dev, hold);
    StageStays(lab, t, more, m, Development);
    StageStays(lab, t, more, m, Holdout);
    ListingStays(t, more, Development, dev.rows);
    ListingStays(t, more, Holdout, hold.rows);
    StageDirsAreInside(Development);
    SameListing(t, more, PRIVATE);
    assert StagesAgree(lab, more, m, dev, hold);
    StagesAcceptedExactly(lab, more, m);
  }

  // The paths of a verified stage are all there already.
  lemma StagePathsAreThere(lab: Lab, t: Tree, m: Manifest, stage: Stage, p: Path)
    requires VerifyStageTree(lab, t, m, stage).Ok? && StagePath(stage, VerifyStageTree(lab, t, m, stage).value.rows, p)
    ensures p in t
  {
    hide VerifyStageTree, IndexAgrees, BlobPath;
    StageAcceptedExactly(lab, t, m, stage);
    var doc :| StageFilesAgree(lab, t, m, stage, doc);
  }

  lemma StageIsFull(lab: Lab, t: Tree, more: Tree, m: Manifest, stage: Stage, p: Path)
    requires Includes(more, t) && WellFormed(more)
    requires VerifyStageTree(lab, t, m, stage).Ok?
    requires ListsExactly(more, stage, VerifyStageTree(lab, t, m, stage).value.rows)
    requires p in more && Under(stage, p)
    ensures p in t
  {
    StageStays(lab, t, more, m, stage);
    hide VerifyStageTree, ListsExactly, WellFormed, StagePath, IndexAgrees, BlobsReadBack, Under, Includes;
    StageAcceptedExactly(lab, more, m, stage);
    var doc :| StageFilesAgree(lab, more, m, stage, doc);
    OnlyStagePaths(lab, more, stage, doc.rows, p);
    StagePathsAreThere(lab, t, m, stage, p);
  }

  // Whatever is added inside the private directory is noticed.
  lemma AdditionIsNoticed(lab: Lab, t: Tree, more: Tree, m: Manifest, p: Path)
    requires Includes(more, t) && WellFormed(more)
    requires CheckAllStages(lab, t, m).None? && CheckAllStages(lab, more, m).None?
    requires p in more && UnderPrivate(p)
    ensures p in t
  {
    StagesParts(lab, t, m);
    StagesParts(lab, more, m);
    StageStays(lab, t, more, m, Development);
    StageStays(lab, t, more, m, Holdout);
    PrivateDirs(lab, t, m);
    hide CheckAllStages, VerifyStageTree, ListsExactly, Children, WellFormed, Includes, Under, UnderPrivate;
    PrivateIsStages(more, p);
    if Under(Development, p) {
      StageIsFull(lab, t, more, m, Development, p);
    } else if Under(Holdout, p) {
      StageIsFull(lab, t, more, m, Holdout, p);
    }
  }

  // The manifest and the receipt of a verified set are present.
  lemma DocumentsStay(
    lab: Lab, t: Tree, more: Tree, commit: string, controllerDigest: string, operation: string)
    requires Includes(more, t) && VerifyCustody(lab, t, commit, controllerDigest, operation).Ok?
    ensures Root in more && more[Root].Dir?
    ensures ReadJson(lab, more, MANIFEST) == ReadJson(lab, t, MANIFEST) && ReadJson(lab, t, MANIFEST).Some?
    ensures ReadJson(lab, t, MANIFEST).value.ManifestDoc?
    ensures ReadJson(lab, more, RECEIPT) == ReadJson(lab, t, RECEIPT)
  {
    ManifestIsItself(lab, ReadJson(lab, t, MANIFEST));
    hide CheckAllStages, TreeModeFault, ValidatePublicManifest, ReceiptFrom;
  }

  lemma ChecksExactly(lab: Lab, t: Tree, more: Tree, m: Manifest)
    requires Includes(more, t) && WellFormed(more) && CheckAllStages(lab, t, m).None?
    ensures CheckAllStages(lab, more, m).None? <==> NothingNewInPrivate(t, more)
  {
    hide CheckAllStages, WellFormed, Includes, UnderPrivate;
    if CheckAllStages(lab, more, m).None? {
      forall p | p in more && UnderPrivate(p) ensures p in t {
        AdditionIsNoticed(lab, t, more, m, p);
      }
    } else if NothingNewInPrivate(t, more) {
      ChecksStay(lab, t, more, m);
    }
  }

  // Only the modes and the stage checks can change their answer.
  lemma RestIsUnchanged(lab: Lab, t: Tree, more: Tree, commit: string, controllerDigest: string, operation: string)
    requires Includes(more, t) && VerifyCustody(lab, t, commit, controllerDigest, operation).Ok?
    ensures ReadJson(lab, t, MANIFEST).Some? && ReadJson(lab, t, MANIFEST).value.ManifestDoc?
    ensures var m := ReadJson(lab, t, MANIFEST).value.manifest;
            && CheckAllStages(lab, t, m).None?
            && (VerifyCustody(lab, more, commit, controllerDigest, operation).Ok? <==>
                ModesOk(more) && CheckAllStages(lab, more, m).None?)
            && (ModesOk(more) && CheckAllStages(lab, more, m).None? ==>
                VerifyCustody(lab, more, commit, controllerDigest, operation) ==
                VerifyCustody(lab, t, commit, controllerDigest, operation))
  {
    DocumentsStay(lab, t, more, commit, controllerDigest, operation);
    ModesAcceptedExactly(t);
    ModesAcceptedExactly(more);
    ManifestIsItself(lab, ReadJson(lab, t, MANIFEST));
    hide CheckAllStages, ModesOk, TreeModeFault, ReceiptFrom, ValidatePublicManifest, ReadJson, Includes;
  }

  // Added entries go unnoticed by full verification, with the very same
  // receipt, exactly when their modes are private and none of them lies in the
  // private directory.
  lemma UnnoticedExactly(
      lab: Lab, t: Tree, more: Tree, commit: string, controllerDigest: string, operation: string)
    requires Includes(more, t) && WellFormed(more)
    requires VerifyCustody(lab, t, commit, controllerDigest, operation).Ok?
    ensures VerifyCustody(lab, more, commit, controllerDigest, operation).Ok? <==>
            ModesOk(more) && NothingNewInPrivate(t, more)
    ensures ModesOk(more) && NothingNewInPrivate(t, more) ==>
              VerifyCustody(lab, more, commit, controllerDigest, operation) ==
              VerifyCustody(lab, t, commit, controllerDigest, operation)
  {
    hide VerifyCustody, CheckAllStages, ModesOk, WellFormed, NothingNewInPrivate, Includes, ReadJson;
    RestIsUnchanged(lab, t, more, commit, controllerDigest, operation);
    ChecksExactly(lab, t, more, ReadJson(lab, t, MANIFEST).value.manifest);
  }

  // A directory of mode 0700 or a file of mode 0600.
  predicate PrivateMode(node: Node) {
    (node.Dir? && node.mode == DIR_MODE) || (node.File? && node.mode == FILE_MODE)
  }

  lemma OneModeMore(t: Tree, p: Path, node: Node)
    requires p !in t && ModesOk(t)
    ensures ModesOk(t[p := node]) <==> PrivateMode(node)
  {
    var more := t[p := node];
    assert more[p] == node;
    if PrivateMode(node) {
      forall q | q in more
        ensures (more[q].Dir? ==> more[q].mode == DIR_MODE) && (more[q].File? ==> more[q].mode == FILE_MODE)
        ensures !more[q].Link?
      {
        if q != p {
          assert q in t;
        }
      }
    }
  }

  // One added entry is missed exactly when its mode is private and it is not in
  // the private directory.
  lemma EntryUnnoticedExactly(
    lab: Lab, t: Tree, commit: string, controllerDigest: string, operation: string, p: Path, node: Node)
    requires WellFormed(t) && VerifyCustody(lab, t, commit, controllerDigest, operation).Ok?
    requires p !in t && p.Child? && p.parent in t && t[p.parent].Dir?
    ensures VerifyCustody(lab, t[p := node], commit, controllerDigest, operation).Ok? <==>
            PrivateMode(node) && !UnderPrivate(p)
  {
    var more := t[p := node];
    DocumentsStay(lab, t, t, commit, controllerDigest, operation);
    VerifiedParts(lab, t, commit, controllerDigest, operation, ReadJson(lab, t, MANIFEST).value.manifest);
    hide VerifyCustody, ModesOk, UnderPrivate, CheckAllStages, ReceiptFrom;
    OneModeMore(t, p, node);
    UnnoticedExactly(lab, t, more, commit, controllerDigest, operation);
    assert p in more;
  }

  // An accepted set grants nothing to group or others: every directory is open
  // to its owner alone, every file readable and writable by its owner alone, and
  // nothing is a link.
  lemma AcceptedIsPrivate(
      lab: Lab, t: Tree, commit: string, controllerDigest: string, operation: string, p: Path)
    requires VerifyCustody(lab, t, commit, controllerDigest, operation).Ok? && p in t
    ensures t[p].Dir? || t[p].File?
    ensures t[p].mode % 64 == 0 && t[p].mode / 64 == if t[p].Dir? then 7 else 6
  {
    ModesAcceptedExactly(t);
    PrivateModes(t, p);
    hide CheckAllStages, TreeModeFault, ModesOk, ReadJson, ValidatePublicManifest, ReceiptFrom;
  }

  lemma PrivateModes(t: Tree, p: Path)
    requires ModesOk(t) && p in t
    ensures t[p].Dir? || t[p].File?
    ensures t[p].mode % 64 == 0 && t[p].mode / 64 == if t[p].Dir? then 7 else 6
  {
  }
}
