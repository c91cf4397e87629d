/** The pure custody model (src/blackwell_lab/sealed_sets/model.py): bundles,
    digests, stage indexes, the import request and the public manifest. */
module SealedModel {
  import opened Common
  import opened Ordering
  import opened Texts

  const TASKS_PER_STAGE: nat := 20
  const MAX_CONTENT_BYTES: nat := 1_048_576
  const SCHEMA_VERSION := "1.2.0"
  const REQUEST_VERSION := "1.0.0"
  const MANIFEST_KIND := "sealed-qualification-set"
  const PRIVATE_LAYOUT := "stage-separated"
  const STAGE_INDEX_KIND := "sealed-qualification-stage-index"

  datatype Stage = Development | Holdout

  datatype Task = Task(id: string, content: string)

  datatype Row = Row(id: string, digest: string)

  datatype Reason =
    | TaskCount | UnsafeId | BundleShape | DuplicateId | DuplicateContent | StageSeparation | RequestMismatch
    | ApprovalMismatch | CommitMismatch | ControllerDigestMismatch | Tamper | LayoutVersionUnsupported | ManifestInvalid
    | PermissiveMode | SymlinkEscape | DestinationNonempty | Replay | Interrupted | OsError | MaterializedIds

  datatype StageDigest = StageDigest(taskCount: nat, aggregate: string, fileDigests: seq<string>)

  datatype Validation = Validation(development: StageDigest, holdout: StageDigest, fileDigests: seq<string>)

  datatype StageIndex = StageIndex(stage: Stage, rows: seq<Row>, order: seq<string>)

  // The public facts of one stage.
  datatype StagePublic = StagePublic(taskCount: int, aggregate: string, indexDigest: string)

  datatype Request = Request(
    version: string, commit: string, controllerDigest: string, setIdentity: string, developmentCount: nat,
    holdoutCount: nat,
    developmentAggregate: string, holdoutAggregate: string, digest: string)

  datatype Manifest = Manifest(
    kind: string, schemaVersion: string, layout: string, requestVersion: string, commit: string,
    controllerDigest: string,
    setIdentity: string, development: StagePublic, holdout: StagePublic, requestDigest: string,
    fileDigests: seq<string>,
    digest: string)

  datatype Receipt = Receipt(
    operation: string, developmentCount: int, holdoutCount: int, developmentAggregate: string, holdoutAggregate: string,
    commit: string, controllerDigest: string, manifestDigest: string, setIdentity: string, requestDigest: string)

  datatype Doc =
    | IndexDoc(kind: string, schemaVersion: string, layout: string, stage: Stage, taskCount: int, aggregate: string,
               rows: seq<Row>, order: seq<string>)
    | ManifestDoc(manifest: Manifest)
    | ManifestBody(body: Manifest)
    | RequestBody(request: Request)
    | ReceiptDoc(receipt: Receipt)

  // SHA-256 as digest text, canonical JSON and its parser.
  datatype Lab = Lab(hash: string -> string, canon: Doc -> string, parse: string -> Option<Doc>)

  const DIGEST_PREFIX := "sha256:"

  predicate IsDigest(s: string) {
    |s| == 71 && s[..7] == DIGEST_PREFIX && AllHex(s[7..])
  }

  // Every digest is well formed and every document reads back.
  ghost predicate Faithful(lab: Lab) {
    && (forall s :: IsDigest(lab.hash(s)))
    && (forall d :: lab.parse(lab.canon(d)) == Some(d))
  }

  // ---- rows and aggregates ------------------------------------------------

  function RowOf(lab: Lab, t: Task): Row {
    Row(t.id, lab.hash(t.content))
  }

  function RowsOf(lab: Lab, tasks: seq<Task>): (r: seq<Row>)
    ensures |r| == |tasks| && forall i :: 0 <= i < |tasks| ==> r[i] == RowOf(lab, tasks[i])
  {
    seq(|tasks|, i requires 0 <= i < |tasks| => RowOf(lab, tasks[i]))
  }

  function OrderOf(lab: Lab, tasks: seq<Task>): (r: seq<string>)
    ensures |r| == |tasks| && forall i :: 0 <= i < |tasks| ==> r[i] == lab.hash(tasks[i].content)
  {
    seq(|tasks|, i requires 0 <= i < |tasks| => lab.hash(tasks[i].content))
  }

  function DigestsOf(rows: seq<Row>): (r: seq<string>)
    ensures |r| == |rows| && forall i :: 0 <= i < |rows| ==> r[i] == rows[i].digest
  {
    seq(|rows|, i requires 0 <= i < |rows| => rows[i].digest)
  }

  predicate RowLeq(a: Row, b: Row) {
    LexLeq(a.id, b.id)
  }

  function SortRows(rows: seq<Row>): (r: seq<Row>)
    ensures |r| == |rows| && multiset(r) == multiset(rows)
  {
    Sort(rows, RowLeq)
  }

  function RowText(r: Row): string {
    r.id + "\t" + r.digest + "\n"
  }

  function RowsText(rows: seq<Row>): string {
    if rows == [] then "" else RowText(rows[0]) + RowsText(rows[1..])
  }

  function Aggregate(lab: Lab, rows: seq<Row>): string {
    lab.hash(RowsText(SortRows(rows)))
  }

  function LineText(line: string): string {
    line + "\n"
  }

  function LinesText(lines: seq<string>): string {
    if lines == [] then "" else LineText(lines[0]) + LinesText(lines[1..])
  }

  function IdentityText(development: seq<string>, holdout: seq<string>): string {
    LinesText(["development"] + development + ["holdout"] + holdout)
  }

  function SetIdentity(lab: Lab, development: seq<string>, holdout: seq<string>): string {
    lab.hash(IdentityText(development, holdout))
  }

  function SetIdentityFor(lab: Lab, development: seq<Task>, holdout: seq<Task>): string {
    SetIdentity(lab, OrderOf(lab, development), OrderOf(lab, holdout))
  }

  lemma RowLeqIsTotal()
    ensures TotalPreorder(RowLeq)
  {
    forall a: Row, b: Row ensures RowLeq(a, b) || RowLeq(b, a) {
      LexTotal(a.id, b.id);
    }
    forall a: Row, b: Row, c: Row | RowLeq(a, b) && RowLeq(b, c) ensures RowLeq(a, c) {
      LexTransitive(a.id, b.id, c.id);
    }
  }

  predicate DistinctRowIds(rows: seq<Row>) {
    forall i, j :: 0 <= i < j < |rows| ==> rows[i].id != rows[j].id
  }

  predicate DistinctRowDigests(rows: seq<Row>) {
    forall i, j :: 0 <= i < j < |rows| ==> rows[i].digest != rows[j].digest
  }

  lemma RowsDoNotTie(rows: seq<Row>)
    requires DistinctRowIds(rows)
    ensures NoTies(rows, RowLeq) && forall r: Row :: RowLeq(r, r)
  {
    forall i, j | 0 <= i < |rows| && 0 <= j < |rows| && RowLeq(rows[i], rows[j]) && RowLeq(rows[j], rows[i])
      ensures rows[i] == rows[j]
    {
      LexAntisymmetric(rows[i].id, rows[j].id);
    }
    forall r: Row ensures RowLeq(r, r) {
      LexReflexive(r.id);
    }
  }

  // Rows with distinct ids sort to one sequence, whatever order they come in.
  lemma SortIsCanonical(a: seq<Row>, b: seq<Row>)
    requires DistinctRowIds(a) && multiset(a) == multiset(b)
    ensures SortRows(a) == SortRows(b) && DistinctRowIds(SortRows(a))
    ensures SortRows(SortRows(a)) == SortRows(a)
  {
    RowLeqIsTotal();
    SortSorted(a, RowLeq);
    SortSorted(b, RowLeq);
    SortSorted(SortRows(a), RowLeq);
    DistinctUnderPermutation(a, SortRows(a));
    RowsDoNotTie(SortRows(a));
    SortedUnique(SortRows(a), SortRows(b), RowLeq);
    SortedUnique(SortRows(a), SortRows(SortRows(a)), RowLeq);
  }

  // ---- one bundle ---------------------------------------------------------

  function TaskFault(t: Task): Option<Reason> {
    if !ValidId(t.id) then Some(UnsafeId)
    else if t.content == "" || |t.content| > MAX_CONTENT_BYTES then Some(BundleShape)
    else None
  }

  predicate HasId(tasks: seq<Task>, id: string) {
    exists i :: 0 <= i < |tasks| && tasks[i].id == id
  }

  predicate HasDigest(lab: Lab, tasks: seq<Task>, digest: string) {
    exists i :: 0 <= i < |tasks| && lab.hash(tasks[i].content) == digest
  }

  // The first refusal in bundle order.
  function FirstFault(lab: Lab, tasks: seq<Task>): Option<Reason> {
    if tasks == [] then None
    else
      var front, t := tasks[..|tasks| - 1], tasks[|tasks| - 1];
      var before := FirstFault(lab, front);
      if before.Some? then before
      else if TaskFault(t).Some? then TaskFault(t)
      else if HasId(front, t.id) then Some(DuplicateId)
      else if HasDigest(lab, front, lab.hash(t.content)) then Some(DuplicateContent)
      else None
  }

  function StageDigestOf(lab: Lab, tasks: seq<Task>): Result<StageDigest, Reason> {
    if |tasks| != TASKS_PER_STAGE then Err(TaskCount)
    else if FirstFault(lab, tasks).Some? then Err(FirstFault(lab, tasks).value)
    else
      var rows := SortRows(RowsOf(lab, tasks));
      Ok(StageDigest(|rows|, lab.hash(RowsText(rows)), DigestsOf(rows)))
  }

  function TaskIds(tasks: seq<Task>): set<string> {
    set i | 0 <= i < |tasks| :: tasks[i].id
  }

  function ContentDigests(lab: Lab, tasks: seq<Task>): set<string> {
    set i | 0 <= i < |tasks| :: lab.hash(tasks[i].content)
  }

  lemma OneMoreTask(lab: Lab, tasks: seq<Task>, i: nat)
    requires i < |tasks|
    ensures TaskIds(tasks[..i + 1]) == TaskIds(tasks[..i]) + {tasks[i].id}
    ensures ContentDigests(lab, tasks[..i + 1]) == ContentDigests(lab, tasks[..i]) + {lab.hash(tasks[i].content)}
    ensures RowsOf(lab, tasks[..i + 1]) == RowsOf(lab, tasks[..i]) + [RowOf(lab, tasks[i])]
  {
    var more, front := tasks[..i + 1], tasks[..i];
    assert more[i] == tasks[i];
    assert forall k :: 0 <= k < i ==> more[k] == front[k];
    forall x | x in TaskIds(front) ensures x in TaskIds(more) {
      var k :| 0 <= k < |front| && front[k].id == x;
      assert more[k].id == x;
    }
    forall x | x in ContentDigests(lab, front) ensures x in ContentDigests(lab, more) {
      var k :| 0 <= k < |front| && lab.hash(front[k].content) == x;
      assert lab.hash(more[k].content) == x;
    }
    assert more[i].id in TaskIds(more) && lab.hash(more[i].content) in ContentDigests(lab, more);
  }

  method ComputeStageDigest(lab: Lab, tasks: seq<Task>) returns (r: Result<StageDigest, Reason>)
    ensures r == StageDigestOf(lab, tasks)
  {
    hide TaskFault;
    if |tasks| != TASKS_PER_STAGE {
      return Err(TaskCount);
    }
    var seenIds: set<string>, seenDigests: set<string>, rows: seq<Row> := {}, {}, [];
    var i := 0;
    while i < |tasks|
      invariant 0 <= i <= |tasks|
      invariant FirstFault(lab, tasks[..i]).None?
      invariant seenIds == TaskIds(tasks[..i]) && seenDigests == ContentDigests(lab, tasks[..i])
      invariant rows == RowsOf(lab, tasks[..i])
    {
      var t := tasks[i];
      assert tasks[..i + 1][..i] == tasks[..i];
      OneMoreTask(lab, tasks, i);
      var digest := lab.hash(t.content);
      var fault := if TaskFault(t).Some? then TaskFault(t)
                   else if t.id in seenIds then Some(DuplicateId)
                   else if digest in seenDigests then Some(DuplicateContent)
                   else None;
      assert t.id in seenIds <==> HasId(tasks[..i], t.id);
      assert digest in seenDigests <==> HasDigest(lab, tasks[..i], digest);
      assert fault == FirstFault(lab, tasks[..i + 1]);
      if fault.Some? {
        FaultStays(lab, tasks, i + 1);
        return Err(fault.value);
      }
      seenIds, seenDigests, rows := seenIds + {t.id}, seenDigests + {digest}, rows + [Row(t.id, digest)];
      i := i + 1;
    }
    assert tasks[..i] == tasks;
    rows := SortRows(rows);
    return Ok(StageDigest(|rows|, lab.hash(RowsText(rows)), DigestsOf(rows)));
  }

  lemma {:induction false} FaultStays(lab: Lab, tasks: seq<Task>, k: nat)
    requires k <= |tasks| && FirstFault(lab, tasks[..k]).Some?
    ensures FirstFault(lab, tasks) == FirstFault(lab, tasks[..k])
    decreases |tasks|
  {
    if k == |tasks| {
      assert tasks[..k] == tasks;
    } else {
      assert tasks[..|tasks| - 1][..k] == tasks[..k];
      FaultStays(lab, tasks[..|tasks| - 1], k);
    }
  }

  // Twenty well-formed tasks with distinct ids and distinct content digests.
  predicate ValidBundle(lab: Lab, tasks: seq<Task>) {
    && |tasks| == TASKS_PER_STAGE
    && (forall i :: 0 <= i < |tasks| ==> TaskFault(tasks[i]).None?)
    && DistinctRowIds(RowsOf(lab, tasks))
    && DistinctRowDigests(RowsOf(lab, tasks))
  }

  predicate Faultless(lab: Lab, tasks: seq<Task>) {
    && (forall i :: 0 <= i < |tasks| ==> TaskFault(tasks[i]).None?)
    && DistinctRowIds(RowsOf(lab, tasks))
    && DistinctRowDigests(RowsOf(lab, tasks))
  }

  lemma {:induction false} NoFaultExactly(lab: Lab, tasks: seq<Task>)
    ensures FirstFault(lab, tasks).None? <==> Faultless(lab, tasks)
  {
    hide TaskFault;
    if tasks != [] {
      var n := |tasks| - 1;
      var front, t := tasks[..n], tasks[n];
      NoFaultExactly(lab, front);
      var rows := RowsOf(lab, tasks);
      assert RowsOf(lab, front) == rows[..n];
      if FirstFault(lab, tasks).None? {
        forall i, j | 0 <= i < j < |rows| ensures rows[i].id != rows[j].id && rows[i].digest != rows[j].digest {
          assert rows[i] == RowsOf(lab, front)[i];
          if j < n {
            assert rows[j] == RowsOf(lab, front)[j];
          } else {
            assert front[i].id != t.id && lab.hash(front[i].content) != lab.hash(t.content);
          }
        }
        forall i | 0 <= i < |tasks| ensures TaskFault(tasks[i]).None? {
          assert i < n ==> tasks[i] == front[i];
        }
      }
      if Faultless(lab, tasks) {
        FaultlessFront(lab, tasks);
        forall i | 0 <= i < n ensures front[i].id != t.id && lab.hash(front[i].content) != lab.hash(t.content) {
          assert rows[i].id != rows[n].id && rows[i].digest != rows[n].digest;
        }
      }
    }
  }

  lemma FaultlessFront(lab: Lab, tasks: seq<Task>)
    requires tasks != [] && Faultless(lab, tasks)
    ensures Faultless(lab, tasks[..|tasks| - 1])
  {
    hide TaskFault;
    var n := |tasks| - 1;
    var rows, front := RowsOf(lab, tasks), RowsOf(lab, tasks[..n]);
    assert forall i :: 0 <= i < n ==> front[i] == rows[i];
    assert forall i :: 0 <= i < n ==> tasks[..n][i] == tasks[i];
  }

  // A bundle is digested exactly when it is valid.
  lemma BundleAcceptedExactly(lab: Lab, tasks: seq<Task>)
    ensures StageDigestOf(lab, tasks).Ok? <==> ValidBundle(lab, tasks)
  {
    hide TaskFault, FirstFault, DistinctRowIds, DistinctRowDigests;
    NoFaultExactly(lab, tasks);
  }

  // ---- both bundles -------------------------------------------------------

  function SortTexts(s: seq<string>): seq<string> {
    Sort(s, LexLeq)
  }

  function ValidateBundles(lab: Lab, development: seq<Task>, holdout: seq<Task>): Result<Validation, Reason> {
    var dev :- StageDigestOf(lab, development);
    var hold :- StageDigestOf(lab, holdout);
    if TaskIds(development) * TaskIds(holdout) != {}
       || Elements(dev.fileDigests) * Elements(hold.fileDigests) != {}
    then Err(StageSeparation)
    else Ok(Validation(dev, hold, SortTexts(dev.fileDigests + hold.fileDigests)))
  }

  predicate Separate(lab: Lab, development: seq<Task>, holdout: seq<Task>) {
    && TaskIds(development) * TaskIds(holdout) == {}
    && ContentDigests(lab, development) * ContentDigests(lab, holdout) == {}
  }

  // The digests of the sorted rows are the content digests of the tasks.
  lemma SortedDigests(lab: Lab, tasks: seq<Task>)
    ensures Elements(DigestsOf(SortRows(RowsOf(lab, tasks)))) == ContentDigests(lab, tasks)
  {
    var rows := RowsOf(lab, tasks);
    SortMembers(rows, RowLeq);
    var sorted := SortRows(rows);
    forall d | d in Elements(DigestsOf(sorted)) ensures d in ContentDigests(lab, tasks) {
      var i :| 0 <= i < |sorted| && sorted[i].digest == d;
      assert sorted[i] in rows;
      var k :| 0 <= k < |rows| && rows[k] == sorted[i];
      assert lab.hash(tasks[k].content) == d;
    }
    forall d | d in ContentDigests(lab, tasks) ensures d in Elements(DigestsOf(sorted)) {
      var k :| 0 <= k < |tasks| && lab.hash(tasks[k].content) == d;
      assert rows[k] in sorted;
      var i :| 0 <= i < |sorted| && sorted[i] == rows[k];
      assert DigestsOf(sorted)[i] == d;
    }
  }

  // Both bundles are accepted exactly when each is valid and they share no id
  // and no content.
  lemma BundlesAcceptedExactly(lab: Lab, development: seq<Task>, holdout: seq<Task>)
    ensures ValidateBundles(lab, development, holdout).Ok? <==>
            ValidBundle(lab, development) && ValidBundle(lab, holdout) && Separate(lab, development, holdout)
  {
    hide ValidBundle;
    BundleAcceptedExactly(lab, development);
    BundleAcceptedExactly(lab, holdout);
    SortedDigests(lab, development);
    SortedDigests(lab, holdout);
    hide FirstFault, ContentDigests, TaskIds;
  }

  // ---- the stage index ----------------------------------------------------

  // The document of a bundle that _stage_digest accepts.
  function IndexOf(lab: Lab, stage: Stage, tasks: seq<Task>): Doc {
    var rows := SortRows(RowsOf(lab, tasks));
    IndexDoc(STAGE_INDEX_KIND, SCHEMA_VERSION, PRIVATE_LAYOUT, stage, |rows|, lab.hash(RowsText(rows)), rows,
      OrderOf(lab, tasks))
  }

  function Public(m: Manifest, stage: Stage): StagePublic {
    match stage
    case Development => m.development
    case Holdout => m.holdout
  }

  predicate RowsWellFormed(rows: seq<Row>) {
    && (forall i :: 0 <= i < |rows| ==> ValidId(rows[i].id) && IsDigest(rows[i].digest))
    && DistinctRowIds(rows) && DistinctRowDigests(rows)
  }

  function VerifyStageIndex(lab: Lab, doc: Doc, stage: Stage, manifest: Manifest): Result<StageIndex, Reason> {
    var public := Public(manifest, stage);
    if !doc.IndexDoc? || doc.kind != STAGE_INDEX_KIND then Err(Tamper)
    else if doc.schemaVersion != SCHEMA_VERSION || doc.layout != PRIVATE_LAYOUT then Err(LayoutVersionUnsupported)
    else if lab.hash(lab.canon(doc)) != public.indexDigest then Err(Tamper)
    else if doc.stage != stage then Err(Tamper)
    else if |doc.rows| != TASKS_PER_STAGE || |doc.order| != TASKS_PER_STAGE then Err(Tamper)
    else if doc.taskCount != TASKS_PER_STAGE || public.taskCount != TASKS_PER_STAGE then Err(Tamper)
    else if !RowsWellFormed(doc.rows) then Err(Tamper)
    else if doc.rows != SortRows(doc.rows) then Err(Tamper)
    else if !(forall i :: 0 <= i < |doc.order| ==> IsDigest(doc.order[i])) then Err(Tamper)
    else if multiset(doc.order) != multiset(DigestsOf(doc.rows)) then Err(Tamper)
    else if Aggregate(lab, doc.rows) != doc.aggregate || Aggregate(lab, doc.rows) != public.aggregate then Err(Tamper)
    else Ok(StageIndex(stage, doc.rows, doc.order))
  }

  // What the index document of a stage must satisfy against the manifest.
  predicate IndexAgrees(lab: Lab, doc: Doc, stage: Stage, manifest: Manifest) {
    var public := Public(manifest, stage);
    && doc.IndexDoc? && doc.kind == STAGE_INDEX_KIND && doc.schemaVersion == SCHEMA_VERSION
    && doc.layout == PRIVATE_LAYOUT
    && doc.stage == stage
    && public == StagePublic(TASKS_PER_STAGE, Aggregate(lab, doc.rows), lab.hash(lab.canon(doc)))
    && |doc.rows| == |doc.order| == doc.taskCount == TASKS_PER_STAGE
    && RowsWellFormed(doc.rows) && doc.rows == SortRows(doc.rows)
    && multiset(doc.order) == multiset(DigestsOf(doc.rows))
    && doc.aggregate == Aggregate(lab, doc.rows)
  }

  lemma IndexAcceptedExactly(lab: Lab, doc: Doc, stage: Stage, manifest: Manifest)
    ensures VerifyStageIndex(lab, doc, stage, manifest).Ok? <==> IndexAgrees(lab, doc, stage, manifest)
    ensures VerifyStageIndex(lab, doc, stage, manifest).Ok? ==>
              VerifyStageIndex(lab, doc, stage, manifest).value == StageIndex(stage, doc.rows, doc.order)
  {
    hide IsDigest, ValidId, SortRows, Aggregate, DistinctRowIds, DistinctRowDigests;
    if IndexAgrees(lab, doc, stage, manifest) {
      forall i | 0 <= i < |doc.order| ensures IsDigest(doc.order[i]) {
        assert doc.order[i] in multiset(doc.order);
        assert doc.order[i] in DigestsOf(doc.rows);
      }
    }
  }

  // The row loop of verify_stage_index.
  method CheckRows(rows: seq<Row>) returns (ok: bool)
    ensures ok <==> RowsWellFormed(rows)
  {
    hide ValidId, IsDigest;
    var seenIds: set<string>, seenDigests: set<string> := {}, {};
    var i := 0;
    while i < |rows|
      invariant 0 <= i <= |rows|
      invariant RowsWellFormed(rows[..i])
      invariant forall x :: x in seenIds <==> exists k :: 0 <= k < i && rows[k].id == x
      invariant forall x :: x in seenDigests <==> exists k :: 0 <= k < i && rows[k].digest == x
    {
      var row := rows[i];
      if !ValidId(row.id) || !IsDigest(row.digest) || row.id in seenIds || row.digest in seenDigests {
        return false;
      }
      seenIds, seenDigests := seenIds + {row.id}, seenDigests + {row.digest};
      i := i + 1;
    }
    assert rows[..i] == rows;
    return true;
  }

  lemma DigestContents(lab: Lab, tasks: seq<Task>)
    ensures multiset(OrderOf(lab, tasks)) == multiset(DigestsOf(SortRows(RowsOf(lab, tasks))))
  {
    var rows := RowsOf(lab, tasks);
    assert OrderOf(lab, tasks) == DigestsOf(rows);
    SortKeepsBag(rows);
    BagIsContents(rows);
    BagIsContents(SortRows(rows));
  }

  function DigestBag(rows: seq<Row>): multiset<string> {
    if rows == [] then multiset{} else multiset{rows[0].digest} + DigestBag(rows[1..])
  }

  lemma {:induction false} BagIsContents(rows: seq<Row>)
    ensures DigestBag(rows) == multiset(DigestsOf(rows))
  {
    if rows != [] {
      BagIsContents(rows[1..]);
      assert DigestsOf(rows) == [rows[0].digest] + DigestsOf(rows[1..]);
    }
  }

  lemma {:induction false} InsertBag(x: Row, s: seq<Row>)
    ensures DigestBag(Insert(x, s, RowLeq)) == multiset{x.digest} + DigestBag(s)
  {
    hide RowLeq;
    if s == [] || RowLeq(x, s[0]) {
      assert ([x] + s)[1..] == s;
      assert s == [] ==> [x] + s == [x];
    } else {
      InsertBag(x, s[1..]);
      var rest := Insert(x, s[1..], RowLeq);
      assert ([s[0]] + rest)[1..] == rest;
    }
  }

  lemma {:induction false} SortKeepsBag(rows: seq<Row>)
    ensures DigestBag(Sort(rows, RowLeq)) == DigestBag(rows)
  {
    hide RowLeq;
    if rows != [] {
      SortKeepsBag(rows[1..]);
      InsertBag(rows[0], Sort(rows[1..], RowLeq));
    }
  }

  lemma DistinctUnderPermutation(a: seq<Row>, b: seq<Row>)
    requires multiset(a) == multiset(b)
    ensures DistinctRowIds(a) ==> DistinctRowIds(b)
    ensures DistinctRowDigests(a) ==> DistinctRowDigests(b)
  {
    forall i, j | 0 <= i < j < |b| && (DistinctRowIds(a) || DistinctRowDigests(a))
      ensures DistinctRowIds(a) ==> b[i].id != b[j].id
      ensures DistinctRowDigests(a) ==> b[i].digest != b[j].digest
    {
      var p, q := TwoPositions(a, b, i, j);
    }
  }

  // Two positions of b are two positions of any permutation of b.
  lemma TwoPositions<T>(a: seq<T>, b: seq<T>, i: nat, j: nat) returns (p: nat, q: nat)
    requires multiset(a) == multiset(b) && i < j < |b|
    ensures p < |a| && q < |a| && p != q && a[p] == b[i] && a[q] == b[j]
  {
    if b[i] == b[j] {
      CopiesCount(b, i, j);
      p, q := FindCopies(a, b[i]);
    } else {
      assert b[i] in multiset(b) && b[j] in multiset(b);
      assert b[i] in multiset(a) && b[j] in multiset(a);
      p :| 0 <= p < |a| && a[p] == b[i];
      q :| 0 <= q < |a| && a[q] == b[j];
    }
  }

  lemma CopiesCount<T>(b: seq<T>, i: nat, j: nat)
    requires i < j < |b| && b[i] == b[j]
    ensures multiset(b)[b[i]] >= 2
  {
    assert b == b[..j] + [b[j]] + b[j + 1..];
    assert b[i] == b[..j][i];
    assert b[i] in multiset(b[..j]);
  }

  lemma {:induction false} FindCopies<T>(a: seq<T>, x: T) returns (p: nat, q: nat)
    requires multiset(a)[x] >= 2
    ensures p < q < |a| && a[p] == x && a[q] == x
  {
    var n := |a| - 1;
    assert a == a[..n] + [a[n]];
    if a[n] == x {
      assert x in multiset(a[..n]);
      p :| 0 <= p < n && a[..n][p] == x;
      q := n;
    } else {
      p, q := FindCopies(a[..n], x);
    }
  }

  // A manifest that carries a bundle's public facts for one stage.
  predicate Describes(lab: Lab, m: Manifest, stage: Stage, tasks: seq<Task>) {
    Public(m, stage) ==
      StagePublic(TASKS_PER_STAGE, Aggregate(lab, RowsOf(lab, tasks)), lab.hash(lab.canon(IndexOf(lab, stage, tasks))))
  }

  // The index of a valid bundle is accepted against a manifest that describes
  // it, and yields the sorted rows and the supplied order.
  lemma BuiltIndexIsAccepted(lab: Lab, stage: Stage, tasks: seq<Task>, m: Manifest)
    requires Faithful(lab) && ValidBundle(lab, tasks) && Describes(lab, m, stage, tasks)
    ensures VerifyStageIndex(lab, IndexOf(lab, stage, tasks), stage, m) ==
            Ok(StageIndex(stage, SortRows(RowsOf(lab, tasks)), OrderOf(lab, tasks)))
  {
    var rows := RowsOf(lab, tasks);
    SortIsCanonical(rows, rows);
    SortedRowsWellFormed(lab, tasks);
    DigestContents(lab, tasks);
    hide RowsWellFormed, SortRows, DistinctRowIds, DistinctRowDigests, IsDigest, RowsText, TaskFault, VerifyStageIndex;
    IndexAcceptedExactly(lab, IndexOf(lab, stage, tasks), stage, m);
  }

  lemma SortedRowsWellFormed(lab: Lab, tasks: seq<Task>)
    requires Faithful(lab) && ValidBundle(lab, tasks)
    ensures RowsWellFormed(SortRows(RowsOf(lab, tasks)))
  {
    hide ValidId, IsDigest;
    var rows := RowsOf(lab, tasks);
    var sorted := SortRows(rows);
    DistinctUnderPermutation(rows, sorted);
    SortMembers(rows, RowLeq);
    forall i | 0 <= i < |sorted| ensures ValidId(sorted[i].id) && IsDigest(sorted[i].digest) {
      assert sorted[i] in rows;
      var k :| 0 <= k < |rows| && rows[k] == sorted[i];
      assert TaskFault(tasks[k]).None?;
    }
  }

  // ---- request and manifest -----------------------------------------------

  function RequestFor(lab: Lab, commit: string, controllerDigest: string, v: Validation, identity: string): Request {
    var r := Request(REQUEST_VERSION, commit, controllerDigest, identity, v.development.taskCount, v.holdout.taskCount,
                     v.development.aggregate, v.holdout.aggregate, "");
    r.(digest := lab.hash(lab.canon(RequestBody(r))))
  }

  function BuildImportRequest(
      lab: Lab, commit: string, controllerDigest: string, development: seq<Task>, holdout: seq<Task>)
    : Result<Request, Reason>
  {
    var v :- ValidateBundles(lab, development, holdout);
    if !IsCommit(commit) then Err(CommitMismatch)
    else if !IsDigest(controllerDigest) then Err(ControllerDigestMismatch)
    else Ok(RequestFor(lab, commit, controllerDigest, v, SetIdentityFor(lab, development, holdout)))
  }

  function BuildPublicManifest(
    lab: Lab, commit: string, controllerDigest: string, v: Validation, request: Request,
    developmentIndex: string, holdoutIndex: string): Result<Manifest, Reason>
  {
    if !IsDigest(developmentIndex) || !IsDigest(holdoutIndex) then Err(ControllerDigestMismatch)
    else if request.version != REQUEST_VERSION then Err(RequestMismatch)
    else if !IsCommit(commit) then Err(CommitMismatch)
    else if request.commit != commit then Err(RequestMismatch)
    else if !IsDigest(controllerDigest) then Err(ControllerDigestMismatch)
    else if request.controllerDigest != controllerDigest then Err(RequestMismatch)
    else if request.developmentCount != v.development.taskCount || request.holdoutCount != v.holdout.taskCount
      then Err(RequestMismatch)
    else if request.developmentAggregate != v.development.aggregate
      || request.holdoutAggregate != v.holdout.aggregate then Err(RequestMismatch)
    else if !IsDigest(request.setIdentity) || !IsDigest(request.digest) then Err(RequestMismatch)
    else if RequestFor(lab, commit, controllerDigest, v, request.setIdentity).digest != request.digest
      then Err(RequestMismatch)
    else
      var m := Manifest(
        MANIFEST_KIND, SCHEMA_VERSION, PRIVATE_LAYOUT, REQUEST_VERSION, commit, controllerDigest, request.setIdentity,
        StagePublic(v.development.taskCount, v.development.aggregate, developmentIndex),
        StagePublic(v.holdout.taskCount, v.holdout.aggregate, holdoutIndex), request.digest, v.fileDigests, "");
      Ok(m.(digest := lab.hash(lab.canon(ManifestBody(m)))))
  }

  // A manifest is built exactly for the request these bundles, this commit and
  // this controller make, and carries it unchanged.
  lemma ManifestBindsRequest(
    lab: Lab, commit: string, controllerDigest: string, v: Validation, request: Request, developmentIndex: string,
    holdoutIndex: string)
    ensures var m := BuildPublicManifest(lab, commit, controllerDigest, v, request, developmentIndex, holdoutIndex);
            && (m.Ok? <==>
                  && IsDigest(developmentIndex) && IsDigest(holdoutIndex) && IsCommit(commit)
                  && IsDigest(controllerDigest)
                  && IsDigest(request.setIdentity) && IsDigest(request.digest)
                  && request == RequestFor(lab, commit, controllerDigest, v, request.setIdentity))
            && (m.Ok? ==> m.value.setIdentity == request.setIdentity && m.value.requestDigest == request.digest
                          && m.value.development ==
                            StagePublic(v.development.taskCount, v.development.aggregate, developmentIndex)
                          && m.value.holdout == StagePublic(v.holdout.taskCount, v.holdout.aggregate, holdoutIndex))
  {
    hide IsDigest, IsCommit;
  }

  // The layout gate, then the digest the manifest carries about itself.
  function ValidatePublicManifest(lab: Lab, doc: Option<Doc>): Result<Manifest, Reason> {
    if doc.None? || !doc.value.ManifestDoc? then Err(ManifestInvalid)
    else
      var m := doc.value.manifest;
      if m.kind != MANIFEST_KIND then Err(ManifestInvalid)
      else if m.schemaVersion != SCHEMA_VERSION || m.layout != PRIVATE_LAYOUT then Err(LayoutVersionUnsupported)
      else if m.digest != lab.hash(lab.canon(ManifestBody(m.(digest := "")))) then Err(ManifestInvalid)
      else Ok(m)
  }

  function ReceiptFrom(m: Manifest, operation: string): Receipt {
    Receipt(operation, m.development.taskCount, m.holdout.taskCount, m.development.aggregate, m.holdout.aggregate,
            m.commit, m.controllerDigest, m.digest, m.setIdentity, m.requestDigest)
  }

  // The manifest of one exact pair of bundles.
  function ManifestFor(lab: Lab, commit: string, controllerDigest: string, development: seq<Task>, holdout: seq<Task>)
    : Result<Manifest, Reason>
  {
    var v :- ValidateBundles(lab, development, holdout);
    var request :- BuildImportRequest(lab, commit, controllerDigest, development, holdout);
    BuildPublicManifest(lab, commit, controllerDigest, v, request,
                        lab.hash(lab.canon(IndexOf(lab, Development, development))),
                        lab.hash(lab.canon(IndexOf(lab, Holdout, holdout))))
  }

  // For valid separate bundles every check of the manifest passes, and the
  // manifest describes both bundles and their identity.
  lemma ManifestDescribes(
      lab: Lab, commit: string, controllerDigest: string, development: seq<Task>, holdout: seq<Task>)
    requires Faithful(lab) && IsCommit(commit) && IsDigest(controllerDigest)
    requires ValidateBundles(lab, development, holdout).Ok?
    ensures var m := ManifestFor(lab, commit, controllerDigest, development, holdout);
            && m.Ok? && ValidatePublicManifest(lab, Some(ManifestDoc(m.value))) == Ok(m.value)
            && m.value.commit == commit && m.value.controllerDigest == controllerDigest
            && Describes(lab, m.value, Development, development) && Describes(lab, m.value, Holdout, holdout)
            && m.value.setIdentity == SetIdentityFor(lab, development, holdout)
            && m.value.fileDigests == ValidateBundles(lab, development, holdout).value.fileDigests
            && m.value.requestDigest ==
              BuildImportRequest(lab, commit, controllerDigest, development, holdout).value.digest
  {
    hide IsCommit, IsDigest, FirstFault, IdentityText, RowsText, SortTexts, SortRows;
  }

  // ---- what the digests pin -----------------------------------------------

  // Without a collision the request digest pins the whole request: commit,
  // controller, identity, counts and aggregates.
  lemma RequestDigestPins(
      lab: Lab, commit: string, controllerDigest: string, v: Validation, identity: string,
      commit2: string, controllerDigest2: string, v2: Validation, identity2: string)
    requires Faithful(lab)
    requires var a := RequestFor(lab, commit, controllerDigest, v, identity);
             var b := RequestFor(lab, commit2, controllerDigest2, v2, identity2);
             && a.digest == b.digest
             && NoCollision(lab.hash, {lab.canon(RequestBody(a.(digest := ""))),
                                       lab.canon(RequestBody(b.(digest := "")))})
    ensures commit == commit2 && controllerDigest == controllerDigest2 && identity == identity2
    ensures v.development.taskCount == v2.development.taskCount && v.development.aggregate == v2.development.aggregate
    ensures v.holdout.taskCount == v2.holdout.taskCount && v.holdout.aggregate == v2.holdout.aggregate
  {
    hide IsDigest;
    var a := RequestFor(lab, commit, controllerDigest, v, identity).(digest := "");
    var b := RequestFor(lab, commit2, controllerDigest2, v2, identity2).(digest := "");
    assert lab.parse(lab.canon(RequestBody(a))) == lab.parse(lab.canon(RequestBody(b)));
    assert a == b;
  }

  // Without a collision the digest a valid manifest carries pins all of it.
  lemma ManifestDigestPins(lab: Lab, a: Manifest, b: Manifest)
    requires Faithful(lab) && a.digest == b.digest
    requires ValidatePublicManifest(lab, Some(ManifestDoc(a))).Ok?
    requires ValidatePublicManifest(lab, Some(ManifestDoc(b))).Ok?
    requires NoCollision(lab.hash, {lab.canon(ManifestBody(a.(digest := ""))),
                                    lab.canon(ManifestBody(b.(digest := "")))})
    ensures a == b
  {
    hide IsDigest;
    var x, y := a.(digest := ""), b.(digest := "");
    assert lab.parse(lab.canon(ManifestBody(x))) == lab.parse(lab.canon(ManifestBody(y)));
    assert x == y && a == x.(digest := a.digest) && b == y.(digest := b.digest);
  }
}
