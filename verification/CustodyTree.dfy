/** A custody set as a tree of files with modes, and what reading it verifies
    (src/blackwell_lab/sealed_sets/custody.py: verify_custody and its parts). */
module CustodyTree {
  import opened Common
  import opened Ordering
  import opened SealedModel
  import opened Texts

  // Distinguished file names; every other name is an OtherName.
  datatype Name =
    | ManifestName | ReceiptName | PrivateName | StageName(stage: Stage) | BlobsName | IndexName | HexName(hex: string)
    | OtherName(text: string)

  datatype Path = Root | Child(parent: Path, name: Name)

  datatype Node = Dir(mode: nat) | File(mode: nat, bytes: string) | Link

  type Tree = map<Path, Node>

  const DIR_MODE: nat := 448   // 0700
  const FILE_MODE: nat := 384  // 0600

  const MANIFEST := Child(Root, ManifestName)
  const RECEIPT := Child(Root, ReceiptName)
  const PRIVATE := Child(Root, PrivateName)

  function StageDir(stage: Stage): Path {
    Child(PRIVATE, StageName(stage))
  }

  function BlobDir(stage: Stage): Path {
    Child(StageDir(stage), BlobsName)
  }

  function IndexPath(stage: Stage): Path {
    Child(StageDir(stage), IndexName)
  }

  // digest.removeprefix("sha256:")
  function Hex(digest: string): string {
    if |digest| >= 7 && digest[..7] == DIGEST_PREFIX then digest[7..] else digest
  }

  function BlobPath(stage: Stage, digest: string): Path {
    Child(BlobDir(stage), HexName(Hex(digest)))
  }

  // Everything at or below private/<stage>.
  predicate Under(stage: Stage, p: Path) {
    p == StageDir(stage) || (p.Child? && Under(stage, p.parent))
  }

  predicate UnderPrivate(p: Path) {
    p == PRIVATE || (p.Child? && UnderPrivate(p.parent))
  }

  predicate WellFormed(t: Tree) {
    forall p :: p in t && p.Child? ==> p.parent in t && t[p.parent].Dir?
  }

  // t holds everything part holds, unchanged.
  predicate Includes(t: Tree, part: Tree) {
    forall p :: p in part ==> p in t && t[p] == part[p]
  }

  function Children(t: Tree, dir: Path): set<Name> {
    set p | p in t && p.Child? && p.parent == dir :: p.name
  }

  lemma HexIsInjective(a: string, b: string)
    requires IsDigest(a) && IsDigest(b) && Hex(a) == Hex(b)
    ensures a == b
  {
    assert a == a[..7] + a[7..] && b == b[..7] + b[7..];
  }

  // ---- one stage ----------------------------------------------------------

  predicate PrivateDirAt(t: Tree, p: Path) {
    p in t && t[p] == Dir(DIR_MODE)
  }

  predicate PrivateFileAt(t: Tree, p: Path) {
    p in t && t[p].File? && t[p].mode == FILE_MODE
  }

  function DirFault(t: Tree, p: Path): Option<Reason> {
    if p !in t || t[p].File? then Some(Tamper)
    else if t[p].Link? then Some(SymlinkEscape)
    else if t[p].mode != DIR_MODE then Some(PermissiveMode)
    else None
  }

  function ReadPrivateFile(t: Tree, p: Path): Result<string, Reason> {
    if p !in t || t[p].Dir? then Err(Tamper)
    else if t[p].Link? then Err(SymlinkEscape)
    else if t[p].mode != FILE_MODE then Err(PermissiveMode)
    else Ok(t[p].bytes)
  }

  function LoadStageIndex(lab: Lab, t: Tree, m: Manifest, stage: Stage): Result<StageIndex, Reason> {
    if DirFault(t, PRIVATE).Some? then Err(DirFault(t, PRIVATE).value)
    else if DirFault(t, StageDir(stage)).Some? then Err(DirFault(t, StageDir(stage)).value)
    else if DirFault(t, BlobDir(stage)).Some? then Err(DirFault(t, BlobDir(stage)).value)
    else
      var bytes :- ReadPrivateFile(t, IndexPath(stage));
      var doc := lab.parse(bytes);
      if doc.None? || lab.canon(doc.value) != bytes then Err(Tamper) else VerifyStageIndex(lab, doc.value, stage, m)
  }

  function ReadStageBlob(lab: Lab, t: Tree, stage: Stage, digest: string): Result<string, Reason> {
    var bytes :- ReadPrivateFile(t, BlobPath(stage, digest));
    if lab.hash(bytes) != digest then Err(Tamper) else Ok(bytes)
  }

  // The first blob, in row order, that cannot be read back.
  function BlobFault(lab: Lab, t: Tree, stage: Stage, rows: seq<Row>): Option<Reason> {
    if rows == [] then None
    else
      var before := BlobFault(lab, t, stage, rows[..|rows| - 1]);
      if before.Some? then before
      else
        var read := ReadStageBlob(lab, t, stage, rows[|rows| - 1].digest);
        if read.Err? then Some(read.error) else None
  }

  function VerifyStageTree(lab: Lab, t: Tree, m: Manifest, stage: Stage): Result<StageIndex, Reason> {
    var index :- LoadStageIndex(lab, t, m, stage);
    var fault := BlobFault(lab, t, stage, index.rows);
    if fault.Some? then Err(fault.value) else Ok(index)
  }

  predicate BlobsReadBack(lab: Lab, t: Tree, stage: Stage, rows: seq<Row>) {
    forall i :: 0 <= i < |rows| ==>
      PrivateFileAt(t, BlobPath(stage, rows[i].digest))
        && lab.hash(t[BlobPath(stage, rows[i].digest)].bytes) == rows[i].digest
  }

  lemma {:induction false} BlobFaultExactly(lab: Lab, t: Tree, stage: Stage, rows: seq<Row>)
    ensures BlobFault(lab, t, stage, rows).None? <==> BlobsReadBack(lab, t, stage, rows)
  {
    if rows != [] {
      var n := |rows| - 1;
      BlobFaultExactly(lab, t, stage, rows[..n]);
      assert forall i :: 0 <= i < n ==> rows[..n][i] == rows[i];
      hide BlobPath;
    }
  }

  // The index file of a stage, with what it must satisfy.
  predicate StageFilesAgree(lab: Lab, t: Tree, m: Manifest, stage: Stage, doc: Doc) {
    && PrivateDirAt(t, PRIVATE) && PrivateDirAt(t, StageDir(stage)) && PrivateDirAt(t, BlobDir(stage))
    && PrivateFileAt(t, IndexPath(stage)) && t[IndexPath(stage)].bytes == lab.canon(doc)
    && lab.parse(lab.canon(doc)) == Some(doc)
    && IndexAgrees(lab, doc, stage, m) && BlobsReadBack(lab, t, stage, doc.rows)
  }

  lemma StageAcceptedExactly(lab: Lab, t: Tree, m: Manifest, stage: Stage)
    ensures VerifyStageTree(lab, t, m, stage).Ok? <==> exists doc :: StageFilesAgree(lab, t, m, stage, doc)
    ensures forall doc :: StageFilesAgree(lab, t, m, stage, doc) ==>
              doc.IndexDoc? && VerifyStageTree(lab, t, m, stage) == Ok(StageIndex(stage, doc.rows, doc.order))
  {
    hide IndexAgrees, VerifyStageIndex, BlobsReadBack, BlobFault;
    var r := VerifyStageTree(lab, t, m, stage);
    if r.Ok? {
      var doc := lab.parse(t[IndexPath(stage)].bytes).value;
      IndexAcceptedExactly(lab, doc, stage, m);
      BlobFaultExactly(lab, t, stage, r.value.rows);
      IndexIsDoc(lab, doc, stage, m);
      assert StageFilesAgree(lab, t, m, stage, doc);
    }
    forall doc | StageFilesAgree(lab, t, m, stage, doc)
      ensures doc.IndexDoc? && VerifyStageTree(lab, t, m, stage) == Ok(StageIndex(stage, doc.rows, doc.order))
    {
      IndexIsDoc(lab, doc, stage, m);
      IndexAcceptedExactly(lab, doc, stage, m);
      BlobFaultExactly(lab, t, stage, doc.rows);
    }
  }

  lemma IndexIsDoc(lab: Lab, doc: Doc, stage: Stage, m: Manifest)
    requires IndexAgrees(lab, doc, stage, m)
    ensures doc.IndexDoc? && RowsWellFormed(doc.rows)
  {
    hide RowsWellFormed, SortRows, Aggregate;
  }

  // ---- the whole set ------------------------------------------------------

  function HexNames(rows: seq<Row>): set<Name> {
    set i | 0 <= i < |rows| :: HexName(Hex(rows[i].digest))
  }

  function RowIds(rows: seq<Row>): set<string> {
    set i | 0 <= i < |rows| :: rows[i].id
  }

  predicate ListsExactly(t: Tree, stage: Stage, rows: seq<Row>) {
    Children(t, BlobDir(stage)) == HexNames(rows) && Children(t, StageDir(stage)) == {IndexName, BlobsName}
  }

  function CheckAllStages(lab: Lab, t: Tree, m: Manifest): Option<Reason> {
    var dev := VerifyStageTree(lab, t, m, Development);
    if dev.Err? then Some(dev.error)
    else
      var hold := VerifyStageTree(lab, t, m, Holdout);
      if hold.Err? then Some(hold.error)
      else if RowIds(dev.value.rows) * RowIds(hold.value.rows) != {} then Some(Tamper)
      else if Elements(DigestsOf(dev.value.rows)) * Elements(DigestsOf(hold.value.rows)) != {} then Some(Tamper)
      else if SetIdentity(lab, dev.value.order, hold.value.order) != m.setIdentity then Some(Tamper)
      else if SortTexts(DigestsOf(dev.value.rows) + DigestsOf(hold.value.rows)) != m.fileDigests then Some(Tamper)
      else if !ListsExactly(t, Development, dev.value.rows) || !ListsExactly(t, Holdout, hold.value.rows)
        then Some(Tamper)
      else if Children(t, PRIVATE) != {StageName(Development), StageName(Holdout)} then Some(Tamper)
      else None
  }

  predicate ModesOk(t: Tree) {
    forall p :: p in t ==>
      (t[p].Dir? ==> t[p].mode == DIR_MODE) && (t[p].File? ==> t[p].mode == FILE_MODE) && !t[p].Link?
  }

  function TreeModeFault(t: Tree): Option<Reason> {
    if ModesOk(t) then None else if exists p :: p in t && t[p].Link? then Some(SymlinkEscape) else Some(PermissiveMode)
  }

  // A file read by path as JSON.
  function ReadJson(lab: Lab, t: Tree, p: Path): Option<Doc> {
    if p in t && t[p].File? then lab.parse(t[p].bytes) else None
  }

  function VerifyCustody(lab: Lab, t: Tree, commit: string, controllerDigest: string, operation: string)
    : Result<Receipt, Reason>
  {
    if Root !in t || !t[Root].Dir? then Err(ManifestInvalid)
    else if TreeModeFault(t).Some? then Err(TreeModeFault(t).value)
    else
      var m :- ValidatePublicManifest(lab, ReadJson(lab, t, MANIFEST));
      if m.commit != commit then Err(CommitMismatch)
      else if m.controllerDigest != controllerDigest then Err(ControllerDigestMismatch)
      else if CheckAllStages(lab, t, m).Some? then Err(CheckAllStages(lab, t, m).value)
      else
        var receipt := ReadJson(lab, t, RECEIPT);
        if receipt.None? then Err(ManifestInvalid)
        else if receipt.value != ReceiptDoc(ReceiptFrom(m, "import")) then Err(Tamper)
        else Ok(ReceiptFrom(m, operation))
  }

  // ---- tamper evidence ----------------------------------------------------

  function FileContents(t: Tree): set<string> {
    set p | p in t && t[p].File? :: t[p].bytes
  }

  lemma ContentIsListed(t: Tree, p: Path)
    requires p in t && t[p].File?
    ensures t[p].bytes in FileContents(t)
  {
  }

  // Two stages that verify against the same public facts have the same index.
  lemma IndexesAgree(lab: Lab, a: Tree, b: Tree, m: Manifest, stage: Stage, x: Doc, y: Doc)
    requires StageFilesAgree(lab, a, m, stage, x) && StageFilesAgree(lab, b, m, stage, y)
    requires NoCollision(lab.hash, FileContents(a) + FileContents(b))
    ensures x == y
  {
    hide RowsWellFormed, SortRows, Aggregate, BlobsReadBack, FileContents;
    ContentIsListed(a, IndexPath(stage));
    ContentIsListed(b, IndexPath(stage));
    assert lab.hash(lab.canon(x)) == lab.hash(lab.canon(y));
    assert lab.canon(x) == lab.canon(y);
  }

  lemma BlobsAgree(lab: Lab, a: Tree, b: Tree, stage: Stage, rows: seq<Row>, i: nat)
    requires i < |rows| && BlobsReadBack(lab, a, stage, rows) && BlobsReadBack(lab, b, stage, rows)
    requires NoCollision(lab.hash, FileContents(a) + FileContents(b))
    ensures var p := BlobPath(stage, rows[i].digest); p in a && p in b && a[p] == b[p]
  {
    var p := BlobPath(stage, rows[i].digest);
    ContentIsListed(a, p);
    ContentIsListed(b, p);
    hide FileContents, BlobPath;
  }

  // The paths of one verified stage.
  predicate StagePath(stage: Stage, rows: seq<Row>, p: Path) {
    || p == StageDir(stage) || p == BlobDir(stage) || p == IndexPath(stage)
    || exists i :: 0 <= i < |rows| && p == BlobPath(stage, rows[i].digest)
  }

  // In a listed stage nothing else lies below the stage directory.
  lemma {:induction false} OnlyStagePaths(lab: Lab, t: Tree, stage: Stage, rows: seq<Row>, p: Path)
    requires WellFormed(t) && ListsExactly(t, stage, rows) && BlobsReadBack(lab, t, stage, rows)
    requires PrivateFileAt(t, IndexPath(stage))
    requires p in t && Under(stage, p)
    ensures StagePath(stage, rows, p)
  {
    if p != StageDir(stage) {
      OnlyStagePaths(lab, t, stage, rows, p.parent);
      assert p.name in Children(t, p.parent);
      if p.parent == BlobDir(stage) {
        var i :| 0 <= i < |rows| && p.name == HexName(Hex(rows[i].digest));
        assert p == BlobPath(stage, rows[i].digest);
      } else if p.parent == StageDir(stage) {
        assert p.name in {IndexName, BlobsName};
      }
    }
  }

  lemma {:induction false} PrivateIsStages(t: Tree, p: Path)
    requires WellFormed(t) && Children(t, PRIVATE) == {StageName(Development), StageName(Holdout)}
    requires p in t && UnderPrivate(p)
    ensures p == PRIVATE || Under(Development, p) || Under(Holdout, p)
  {
    if p != PRIVATE {
      PrivateIsStages(t, p.parent);
      if p.parent == PRIVATE {
        assert p.name in Children(t, PRIVATE);
      }
    }
  }

  predicate SameAt(a: Tree, b: Tree, p: Path) {
    (p in a <==> p in b) && (p in a ==> a[p] == b[p])
  }

  lemma StageTreesAgree(lab: Lab, a: Tree, b: Tree, m: Manifest, stage: Stage, p: Path)
    requires WellFormed(a) && WellFormed(b) && ModesOk(a) && ModesOk(b)
    requires VerifyStageTree(lab, a, m, stage).Ok? && VerifyStageTree(lab, b, m, stage).Ok?
    requires ListsExactly(a, stage, VerifyStageTree(lab, a, m, stage).value.rows)
    requires ListsExactly(b, stage, VerifyStageTree(lab, b, m, stage).value.rows)
    requires NoCollision(lab.hash, FileContents(a) + FileContents(b))
    ensures VerifyStageTree(lab, a, m, stage) == VerifyStageTree(lab, b, m, stage)
    ensures Under(stage, p) ==> SameAt(a, b, p)
  {
    hide VerifyStageTree, ListsExactly, NoCollision, WellFormed, ModesOk, BlobsReadBack, IndexAgrees, BlobPath;
    StageAcceptedExactly(lab, a, m, stage);
    StageAcceptedExactly(lab, b, m, stage);
    var x :| StageFilesAgree(lab, a, m, stage, x);
    var y :| StageFilesAgree(lab, b, m, stage, y);
    IndexesAgree(lab, a, b, m, stage, x, y);
    if Under(stage, p) && (p in a || p in b) {
      if p in a {
        OnlyStagePaths(lab, a, stage, x.rows, p);
      } else {
        OnlyStagePaths(lab, b, stage, x.rows, p);
      }
      if i :| 0 <= i < |x.rows| && p == BlobPath(stage, x.rows[i].digest) {
        BlobsAgree(lab, a, b, stage, x.rows, i);
      }
    }
  }

  // What full verification established.
  lemma VerifiedParts(lab: Lab, t: Tree, commit: string, controllerDigest: string, operation: string, m: Manifest)
    requires VerifyCustody(lab, t, commit, controllerDigest, operation).Ok?
    requires ReadJson(lab, t, MANIFEST) == Some(ManifestDoc(m))
    ensures ModesOk(t) && CheckAllStages(lab, t, m).None?
    ensures m.commit == commit && m.controllerDigest == controllerDigest
    ensures VerifyCustody(lab, t, commit, controllerDigest, operation) == Ok(ReceiptFrom(m, operation))
  {
    hide CheckAllStages, ModesOk, ReceiptFrom;
  }

  // Both stages verify, share neither id nor content, and together give the
  // set identity, the file digests and the listing the manifest promises.
  predicate StagesAgree(lab: Lab, t: Tree, m: Manifest, dev: StageIndex, hold: StageIndex) {
    && VerifyStageTree(lab, t, m, Development) == Ok(dev) && VerifyStageTree(lab, t, m, Holdout) == Ok(hold)
    && RowIds(dev.rows) * RowIds(hold.rows) == {}
    && Elements(DigestsOf(dev.rows)) * Elements(DigestsOf(hold.rows)) == {}
    && SetIdentity(lab, dev.order, hold.order) == m.setIdentity
    && SortTexts(DigestsOf(dev.rows) + DigestsOf(hold.rows)) == m.fileDigests
    && ListsExactly(t, Development, dev.rows) && ListsExactly(t, Holdout, hold.rows)
    && Children(t, PRIVATE) == {StageName(Development), StageName(Holdout)}
  }

  lemma StagesAcceptedExactly(lab: Lab, t: Tree, m: Manifest)
    ensures CheckAllStages(lab, t, m).None? <==> exists dev, hold :: StagesAgree(lab, t, m, dev, hold)
  {
    hide VerifyStageTree, ListsExactly, SortTexts, SetIdentity, Children, RowIds;
    if CheckAllStages(lab, t, m).None? {
      var dev, hold := VerifyStageTree(lab, t, m, Development).value, VerifyStageTree(lab, t, m, Holdout).value;
      assert StagesAgree(lab, t, m, dev, hold);
    }
  }

  lemma StagesParts(lab: Lab, t: Tree, m: Manifest)
    requires CheckAllStages(lab, t, m).None?
    ensures forall stage ::
      VerifyStageTree(lab, t, m, stage).Ok? && ListsExactly(t, stage, VerifyStageTree(lab, t, m, stage).value.rows)
    ensures Children(t, PRIVATE) == {StageName(Development), StageName(Holdout)}
  {
    hide VerifyStageTree, ListsExactly, SortTexts, SetIdentity, Children, RowIds;
    StagesAcceptedExactly(lab, t, m);
    forall stage
      ensures VerifyStageTree(lab, t, m, stage).Ok?
      ensures ListsExactly(t, stage, VerifyStageTree(lab, t, m, stage).value.rows)
    {
      match stage
      case Development =>
      case Holdout =>
    }
  }

  // Full verification succeeds exactly on private modes, a self-consistent
  // manifest of this commit and controller, agreeing stages and the receipt of
  // that manifest.
  lemma VerifiedExactly(lab: Lab, t: Tree, commit: string, controllerDigest: string, operation: string, r: Receipt)
    ensures VerifyCustody(lab, t, commit, controllerDigest, operation) == Ok(r) <==>
            && Root in t && t[Root].Dir? && ModesOk(t)
            && ReadJson(lab, t, MANIFEST).Some? && ReadJson(lab, t, MANIFEST).value.ManifestDoc?
            && (var m := ReadJson(lab, t, MANIFEST).value.manifest;
                && ValidatePublicManifest(lab, Some(ManifestDoc(m))) == Ok(m)
                && m.commit == commit && m.controllerDigest == controllerDigest
                && (exists dev, hold :: StagesAgree(lab, t, m, dev, hold))
                && ReadJson(lab, t, RECEIPT) == Some(ReceiptDoc(ReceiptFrom(m, "import")))
                && r == ReceiptFrom(m, operation))
  {
    var document := ReadJson(lab, t, MANIFEST);
    ManifestIsItself(lab, document);
    ModesAcceptedExactly(t);
    if document.Some? && document.value.ManifestDoc? {
      StagesAcceptedExactly(lab, t, document.value.manifest);
    }
    hide CheckAllStages, ModesOk, TreeModeFault, ReceiptFrom, StagesAgree, ValidatePublicManifest, ReadJson;
  }

  lemma ManifestIsItself(lab: Lab, document: Option<Doc>)
    ensures var valid := ValidatePublicManifest(lab, document);
            valid.Ok? ==> document == Some(ManifestDoc(valid.value))
  {
  }

  lemma ModesAcceptedExactly(t: Tree)
    ensures TreeModeFault(t).None? <==> ModesOk(t)
  {
    hide ModesOk;
  }

  // Two custody sets that verify against the same public manifest hold the same
  // ids, order and bytes in each stage: they agree on everything under private.
  lemma SameManifestSameContents(
    lab: Lab, a: Tree, b: Tree, commit: string, controllerDigest: string, m: Manifest, p: Path)
    requires WellFormed(a) && WellFormed(b) && NoCollision(lab.hash, FileContents(a) + FileContents(b))
    requires VerifyCustody(lab, a, commit, controllerDigest, "verify").Ok?
    requires ReadJson(lab, a, MANIFEST) == Some(ManifestDoc(m))
    requires VerifyCustody(lab, b, commit, controllerDigest, "verify").Ok?
    requires ReadJson(lab, b, MANIFEST) == Some(ManifestDoc(m))
    ensures forall stage ::
      VerifyStageTree(lab, a, m, stage).Ok? && VerifyStageTree(lab, a, m, stage) == VerifyStageTree(lab, b, m, stage)
    ensures UnderPrivate(p) ==> SameAt(a, b, p)
  {
    VerifiedParts(lab, a, commit, controllerDigest, "verify", m);
    VerifiedParts(lab, b, commit, controllerDigest, "verify", m);
    StagesParts(lab, a, m);
    StagesParts(lab, b, m);
    hide VerifyCustody, VerifyStageTree, CheckAllStages, ListsExactly, ModesOk, NoCollision, WellFormed, Children,
         FileContents;
    StageTreesAgree(lab, a, b, m, Development, p);
    StageTreesAgree(lab, a, b, m, Holdout, p);
    forall stage ensures VerifyStageTree(lab, a, m, stage) == VerifyStageTree(lab, b, m, stage) {
      match stage
      case Development =>
      case Holdout =>
    }
    if UnderPrivate(p) && (p in a || p in b) {
      if p in a {
        PrivateIsStages(a, p);
      } else {
        PrivateIsStages(b, p);
      }
      if p == PRIVATE {
        PrivateDirs(lab, a, m);
        PrivateDirs(lab, b, m);
      }
    }
  }

  lemma PrivateDirs(lab: Lab, t: Tree, m: Manifest)
    requires VerifyStageTree(lab, t, m, Development).Ok?
    ensures PrivateDirAt(t, PRIVATE)
  {
    hide BlobFault, VerifyStageIndex;
  }

  // ---- what verification does not look at ---------------------------------

  lemma {:induction false} BlobsUnmoved(lab: Lab, t: Tree, stage: Stage, rows: seq<Row>, text: string, node: Node)
    ensures BlobFault(lab, t[Child(Root, OtherName(text)) := node], stage, rows) == BlobFault(lab, t, stage, rows)
  {
    if rows != [] {
      BlobsUnmoved(lab, t, stage, rows[..|rows| - 1], text, node);
    }
  }

  lemma ChildrenUnmoved(t: Tree, dir: Path, text: string, node: Node)
    requires dir != Root
    ensures Children(t[Child(Root, OtherName(text)) := node], dir) == Children(t, dir)
  {
    var more := t[Child(Root, OtherName(text)) := node];
    forall name ensures name in Children(more, dir) <==> name in Children(t, dir) {
      assert name in Children(more, dir) <==> Child(dir, name) in more;
      assert name in Children(t, dir) <==> Child(dir, name) in t;
    }
  }

  lemma StageUnmoved(lab: Lab, t: Tree, m: Manifest, stage: Stage, text: string, node: Node)
    ensures VerifyStageTree(lab, t[Child(Root, OtherName(text)) := node], m, stage) == VerifyStageTree(lab, t, m, stage)
  {
    hide VerifyStageIndex, BlobFault;
    var index := LoadStageIndex(lab, t, m, stage);
    if index.Ok? {
      BlobsUnmoved(lab, t, stage, index.value.rows, text, node);
    }
  }

  lemma ChecksUnmoved(lab: Lab, t: Tree, m: Manifest, text: string, node: Node)
    ensures CheckAllStages(lab, t[Child(Root, OtherName(text)) := node], m) == CheckAllStages(lab, t, m)
  {
    StageUnmoved(lab, t, m, Development, text, node);
    StageUnmoved(lab, t, m, Holdout, text, node);
    ChildrenUnmoved(t, PRIVATE, text, node);
    ListingUnmoved(t, Development, text, node);
    ListingUnmoved(t, Holdout, text, node);
    hide VerifyStageTree, ListsExactly, Children, SortTexts, SetIdentity;
  }

  // The listing checks stop at the private directory: an extra private file at
  // the root goes unnoticed by full verification.
  lemma RootFileGoesUnnoticed(
    lab: Lab, t: Tree, commit: string, controllerDigest: string, operation: string, text: string, bytes: string)
    requires VerifyCustody(lab, t, commit, controllerDigest, operation).Ok?
    ensures VerifyCustody(lab, t[Child(Root, OtherName(text)) := File(FILE_MODE, bytes)], commit, controllerDigest,
      operation)
         == VerifyCustody(lab, t, commit, controllerDigest, operation)
  {
    var node := File(FILE_MODE, bytes);
    var m := ReadJson(lab, t, MANIFEST).value.manifest;
    VerifiedParts(lab, t, commit, controllerDigest, operation, m);
    hide CheckAllStages, ReceiptFrom, ValidatePublicManifest, TreeModeFault, ReadJson, ModesOk;
    ChecksUnmoved(lab, t, m, text, node);
    RootUnmoved(lab, t, text, bytes);
  }

  lemma RootUnmoved(lab: Lab, t: Tree, text: string, bytes: string)
    requires ModesOk(t)
    ensures var more := t[Child(Root, OtherName(text)) := File(FILE_MODE, bytes)];
            && TreeModeFault(more).None? && TreeModeFault(t).None?
            && ReadJson(lab, more, MANIFEST) == ReadJson(lab, t, MANIFEST)
            && ReadJson(lab, more, RECEIPT) == ReadJson(lab, t, RECEIPT)
            && (Root in more <==> Root in t) && (Root in t ==> more[Root] == t[Root])
  {
  }

  lemma ListingUnmoved(t: Tree, stage: Stage, text: string, node: Node)
    ensures forall rows ::
      ListsExactly(t[Child(Root, OtherName(text)) := node], stage, rows) == ListsExactly(t, stage, rows)
  {
    ChildrenUnmoved(t, BlobDir(stage), text, node);
    ChildrenUnmoved(t, StageDir(stage), text, node);
  }
}
