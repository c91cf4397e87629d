/** The stage-specific loader of a sealed set (src/blackwell_lab/cloud/
    sealed_binding.py: _load, with custody.py: load_stage_index and
    read_stage_blob), with the paths it touches in order. */
module StageLoader {
  import opened Common
  import opened Ordering
  import opened SealedModel
  import opened CustodyTree
  import Payload = SealedPayload

  datatype Refusal =
    | Refused(reason: Reason)
    | CustodyMissing | ManifestHashMismatch | ImportRequestMismatch | SetIdentityMismatch | AggregateMismatch
    | TaskCountMismatch | ReceiptInvalid | MalformedTask | DuplicateTask

  // The content-free identity of one sealed stage, as frozen in a config.
  datatype Binding = Binding(
    manifestDigest: string, controllerDigest: string, requestDigest: string, setIdentity: string, stage: Stage,
    aggregate: string, taskCount: nat)

  type Tasks = seq<Payload.SealedTask>

  // Decoding of one blob under the id its index row gives.
  type Decode = (string, string) -> Option<Payload.SealedTask>

  // ---- what is read -------------------------------------------------------

  function RootFault(t: Tree): Option<Refusal> {
    if Root !in t || t[Root].File? then Some(CustodyMissing)
    else if t[Root].Link? then Some(Refused(SymlinkEscape))
    else if t[Root].mode != DIR_MODE then Some(Refused(PermissiveMode))
    else None
  }

  function ReadPublic(t: Tree, p: Path, otherwise: Refusal): Result<string, Refusal> {
    if p !in t || t[p].Dir? then Err(otherwise)
    else if t[p].Link? then Err(Refused(SymlinkEscape))
    else if t[p].mode != FILE_MODE then Err(Refused(PermissiveMode))
    else Ok(t[p].bytes)
  }

  // The manifest's own checks against the binding.
  function BindManifest(lab: Lab, bytes: string, b: Binding, commit: string, running: string)
    : Result<Manifest, Refusal>
  {
    if lab.hash(bytes) != b.manifestDigest then Err(ManifestHashMismatch)
    else
      var valid := ValidatePublicManifest(lab, lab.parse(bytes));
      if valid.Err? then Err(Refused(valid.error))
      else
        var m := valid.value;
        if lab.canon(ManifestDoc(m)) != bytes then Err(Refused(ManifestInvalid))
        else if m.commit != commit then Err(Refused(CommitMismatch))
        else if m.controllerDigest != b.controllerDigest || running != b.controllerDigest
          then Err(Refused(ControllerDigestMismatch))
        else if m.requestDigest != b.requestDigest then Err(ImportRequestMismatch)
        else if m.setIdentity != b.setIdentity then Err(SetIdentityMismatch)
        else if Public(m, b.stage).aggregate != b.aggregate then Err(AggregateMismatch)
        else if Public(m, b.stage).taskCount != b.taskCount then Err(TaskCountMismatch)
        else Ok(m)
  }

  function LoadPublic(lab: Lab, t: Tree, b: Binding, commit: string, running: string)
    : (seq<Path>, Result<Manifest, Refusal>)
  {
    if RootFault(t).Some? then ([Root], Err(RootFault(t).value))
    else
      var bytes := ReadPublic(t, MANIFEST, Refused(ManifestInvalid));
      if bytes.Err? then ([Root, MANIFEST], Err(bytes.error))
      else
        var m := BindManifest(lab, bytes.value, b, commit, running);
        if m.Err? then ([Root, MANIFEST], m)
        else
          var receipt := ReadPublic(t, RECEIPT, ReceiptInvalid);
          ([Root, MANIFEST, RECEIPT],
           if receipt.Err? then Err(receipt.error)
           else if lab.parse(receipt.value) != Some(ReceiptDoc(ReceiptFrom(m.value, "import"))) then Err(ReceiptInvalid)
           else m)
  }

  function IndexTrace(t: Tree, stage: Stage): seq<Path> {
    if DirFault(t, PRIVATE).Some? then [PRIVATE]
    else if DirFault(t, StageDir(stage)).Some? then [PRIVATE, StageDir(stage)]
    else if DirFault(t, BlobDir(stage)).Some? then [PRIVATE, StageDir(stage), BlobDir(stage)]
    else [PRIVATE, StageDir(stage), BlobDir(stage), IndexPath(stage)]
  }

  function LoadIndex(lab: Lab, t: Tree, m: Manifest, b: Binding): (seq<Path>, Result<StageIndex, Refusal>) {
    var index := LoadStageIndex(lab, t, m, b.stage);
    (IndexTrace(t, b.stage),
     if index.Err? then Err(Refused(index.error))
     else if Aggregate(lab, index.value.rows) != b.aggregate then Err(AggregateMismatch)
     else if |index.value.rows| != b.taskCount then Err(TaskCountMismatch)
     else Ok(index.value))
  }

  // One blob for each row in index order, until one is refused.
  function LoadTasks(lab: Lab, decode: Decode, t: Tree, stage: Stage, rows: seq<Row>)
    : (seq<Path>, Result<Tasks, Refusal>)
  {
    if rows == [] then ([], Ok([]))
    else
      var (trace, front) := LoadTasks(lab, decode, t, stage, rows[..|rows| - 1]);
      if front.Err? then (trace, front)
      else
        var row := rows[|rows| - 1];
        var bytes := ReadStageBlob(lab, t, stage, row.digest);
        var more := trace + [BlobPath(stage, row.digest)];
        if bytes.Err? then (more, Err(Refused(bytes.error)))
        else
          var task := decode(bytes.value, row.id);
          (more, if task.None? then Err(MalformedTask) else Ok(front.value + [task.value]))
  }

  // Each id and each surface once, and one scenario for each scenario id.
  predicate SameSurface(a: Payload.SealedTask, b: Payload.SealedTask) {
    && a.instance.templateId == b.instance.templateId
    && a.instance.trackingId == b.instance.trackingId
    && a.instance.reportedMinute == b.instance.reportedMinute
  }

  function ScenarioId(a: Payload.SealedTask): string {
    a.scenario.narrative.scenarioId
  }

  predicate Compatible(a: Payload.SealedTask, b: Payload.SealedTask) {
    && a.id != b.id
    && (ScenarioId(a) == ScenarioId(b) ==> a.scenario == b.scenario)
    && !SameSurface(a, b)
  }

  predicate Consistent(tasks: Tasks) {
    forall i, j :: 0 <= i < j < |tasks| ==> Compatible(tasks[i], tasks[j])
  }

  // The first refusal in task order.
  function Inconsistency(tasks: Tasks): Option<Refusal> {
    if tasks == [] then None
    else
      var front, last := tasks[..|tasks| - 1], tasks[|tasks| - 1];
      var before := Inconsistency(front);
      if before.Some? then before
      else if exists i :: 0 <= i < |front| && front[i].id == last.id then Some(DuplicateTask)
      else if exists i ::
        0 <= i < |front| && ScenarioId(front[i]) == ScenarioId(last) && front[i].scenario != last.scenario
      then Some(MalformedTask)
      else if exists i :: 0 <= i < |front| && SameSurface(front[i], last) then Some(DuplicateTask)
      else None
  }

  lemma {:induction false} ConsistentExactly(tasks: Tasks)
    ensures Inconsistency(tasks).None? <==> Consistent(tasks)
  {
    hide SameSurface;
    if tasks != [] {
      var n := |tasks| - 1;
      var front := tasks[..n];
      ConsistentExactly(front);
      if Inconsistency(tasks).None? {
        forall i, j | 0 <= i < j < |tasks| ensures Compatible(tasks[i], tasks[j]) {
          assert tasks[i] == front[i];
          if j < n {
            assert tasks[j] == front[j];
          }
        }
      }
      if Consistent(tasks) {
        forall i, j | 0 <= i < j < n ensures Compatible(front[i], front[j]) {
          assert Compatible(tasks[i], tasks[j]);
        }
        forall i | 0 <= i < n ensures Compatible(front[i], tasks[n]) {
          assert Compatible(tasks[i], tasks[n]);
        }
      }
    }
  }

  datatype Surface = Surface(template: string, tracking: string, minute: int)

  function SurfaceOf(t: Payload.SealedTask): Surface {
    Surface(t.instance.templateId, t.instance.trackingId, t.instance.reportedMinute)
  }

  function IdsOfTasks(tasks: Tasks): set<string> {
    if tasks == [] then {} else IdsOfTasks(tasks[..|tasks| - 1]) + {tasks[|tasks| - 1].id}
  }

  function SurfacesOf(tasks: Tasks): set<Surface> {
    if tasks == [] then {} else SurfacesOf(tasks[..|tasks| - 1]) + {SurfaceOf(tasks[|tasks| - 1])}
  }

  function ScenariosOf(tasks: Tasks): map<string, Payload.Scenario> {
    if tasks == [] then map[]
    else
      var last := tasks[|tasks| - 1];
      ScenariosOf(tasks[..|tasks| - 1])[ScenarioId(last) := last.scenario]
  }

  lemma {:induction false} SeenIds(tasks: Tasks, x: string)
    ensures x in IdsOfTasks(tasks) <==> exists i :: 0 <= i < |tasks| && tasks[i].id == x
  {
    if tasks != [] {
      var n := |tasks| - 1;
      SeenIds(tasks[..n], x);
      assert forall i :: 0 <= i < n ==> tasks[..n][i] == tasks[i];
    }
  }

  lemma {:induction false} SeenSurfaces(tasks: Tasks, t: Payload.SealedTask)
    ensures SurfaceOf(t) in SurfacesOf(tasks) <==> exists i :: 0 <= i < |tasks| && SameSurface(tasks[i], t)
  {
    if tasks != [] {
      var n := |tasks| - 1;
      SeenSurfaces(tasks[..n], t);
      assert forall i :: 0 <= i < n ==> tasks[..n][i] == tasks[i];
    }
  }

  // Among consistent tasks the recorded scenario is that of every task with its id.
  lemma {:induction false} SeenScenarios(tasks: Tasks, t: Payload.SealedTask)
    requires Consistent(tasks)
    ensures (ScenarioId(t) in ScenariosOf(tasks) && ScenariosOf(tasks)[ScenarioId(t)] != t.scenario) <==>
            exists i :: 0 <= i < |tasks| && ScenarioId(tasks[i]) == ScenarioId(t) && tasks[i].scenario != t.scenario
  {
    hide SameSurface;
    if tasks != [] {
      var n := |tasks| - 1;
      var front, last := tasks[..n], tasks[n];
      assert forall i :: 0 <= i < n ==> front[i] == tasks[i];
      forall i, j | 0 <= i < j < n ensures Compatible(front[i], front[j]) {
        assert Compatible(tasks[i], tasks[j]);
      }
      SeenScenarios(front, t);
      if i :| 0 <= i < n && ScenarioId(tasks[i]) == ScenarioId(t) && tasks[i].scenario != t.scenario {
        assert Compatible(tasks[i], last);
      }
    }
  }

  method RequireConsistentTasks(tasks: Tasks) returns (refused: Option<Refusal>)
    ensures refused == Inconsistency(tasks)
  {
    hide ScenarioId, SurfaceOf, SameSurface;
    var ids: set<string>, scenarios: map<string, Payload.Scenario>, surfaces: set<Surface> := {}, map[], {};
    var i := 0;
    while i < |tasks|
      invariant 0 <= i <= |tasks|
      invariant Inconsistency(tasks[..i]).None?
      invariant ids == IdsOfTasks(tasks[..i]) && scenarios == ScenariosOf(tasks[..i])
      invariant surfaces == SurfacesOf(tasks[..i])
    {
      var t := tasks[i];
      assert tasks[..i + 1][..i] == tasks[..i];
      SeenIds(tasks[..i], t.id);
      SeenSurfaces(tasks[..i], t);
      ConsistentExactly(tasks[..i]);
      SeenScenarios(tasks[..i], t);
      refused := if t.id in ids then Some(DuplicateTask)
                 else if ScenarioId(t) in scenarios && scenarios[ScenarioId(t)] != t.scenario then Some(MalformedTask)
                 else if SurfaceOf(t) in surfaces then Some(DuplicateTask)
                 else None;
      assert refused == Inconsistency(tasks[..i + 1]);
      if refused.Some? {
        InconsistencyStays(tasks, i + 1);
        return;
      }
      ids, surfaces := ids + {t.id}, surfaces + {SurfaceOf(t)};
      scenarios := scenarios[ScenarioId(t) := t.scenario];
      i := i + 1;
    }
    assert tasks[..i] == tasks;
    refused := None;
  }

  lemma {:induction false} InconsistencyStays(tasks: Tasks, k: nat)
    requires k <= |tasks| && Inconsistency(tasks[..k]).Some?
    ensures Inconsistency(tasks) == Inconsistency(tasks[..k])
    decreases |tasks|
  {
    if k == |tasks| {
      assert tasks[..k] == tasks;
    } else {
      assert tasks[..|tasks| - 1][..k] == tasks[..k];
      InconsistencyStays(tasks[..|tasks| - 1], k);
    }
  }

  // ---- the load -----------------------------------------------------------

  function Load(lab: Lab, decode: Decode, t: Tree, b: Binding, commit: string, running: string)
    : (seq<Path>, Result<Tasks, Refusal>)
  {
    var (public, manifest) := LoadPublic(lab, t, b, commit, running);
    if manifest.Err? then (public, Err(manifest.error))
    else
      var (looked, index) := LoadIndex(lab, t, manifest.value, b);
      if index.Err? then (public + looked, Err(index.error))
      else
        var (opened_, tasks) := LoadTasks(lab, decode, t, b.stage, index.value.rows);
        (public + looked + opened_,
         if tasks.Err? then tasks
         else if Inconsistency(tasks.value).Some? then Err(Inconsistency(tasks.value).value)
         else tasks)
  }

  // The loop over the index rows, as it runs.
  method ReadTasks(lab: Lab, decode: Decode, t: Tree, stage: Stage, rows: seq<Row>)
    returns (touched: seq<Path>, r: Result<Tasks, Refusal>)
    ensures (touched, r) == LoadTasks(lab, decode, t, stage, rows)
  {
    hide ReadStageBlob, BlobPath;
    touched := [];
    var tasks: Tasks, i := [], 0;
    while i < |rows|
      invariant 0 <= i <= |rows|
      invariant (touched, Ok(tasks)) == LoadTasks(lab, decode, t, stage, rows[..i])
    {
      assert rows[..i + 1][..i] == rows[..i];
      touched := touched + [BlobPath(stage, rows[i].digest)];
      var bytes := ReadStageBlob(lab, t, stage, rows[i].digest);
      if bytes.Err? {
        r := Err(Refused(bytes.error));
        assert (touched, r) == LoadTasks(lab, decode, t, stage, rows[..i + 1]);
        RefusalStays(lab, decode, t, stage, rows, i + 1);
        return;
      }
      var task := decode(bytes.value, rows[i].id);
      if task.None? {
        r := Err(MalformedTask);
        RefusalStays(lab, decode, t, stage, rows, i + 1);
        return;
      }
      tasks := tasks + [task.value];
      i := i + 1;
    }
    assert rows[..i] == rows;
    r := Ok(tasks);
  }

  method LoadSealedStage(lab: Lab, decode: Decode, t: Tree, b: Binding, commit: string, running: string)
    returns (r: Result<Tasks, Refusal>, touched: seq<Path>)
    ensures (touched, r) == Load(lab, decode, t, b, commit, running)
  {
    hide LoadPublic, LoadIndex, LoadTasks;
    var (public, manifest) := LoadPublic(lab, t, b, commit, running);
    touched := public;
    if manifest.Err? {
      return Err(manifest.error), touched;
    }
    var (looked, index) := LoadIndex(lab, t, manifest.value, b);
    touched := touched + looked;
    if index.Err? {
      return Err(index.error), touched;
    }
    var blobs, tasks := ReadTasks(lab, decode, t, b.stage, index.value.rows);
    touched := touched + blobs;
    if tasks.Err? {
      return tasks, touched;
    }
    var refused := RequireConsistentTasks(tasks.value);
    r := if refused.Some? then Err(refused.value) else tasks;
  }

  lemma {:induction false} RefusalStays(lab: Lab, decode: Decode, t: Tree, stage: Stage, rows: seq<Row>, k: nat)
    requires k <= |rows| && LoadTasks(lab, decode, t, stage, rows[..k]).1.Err?
    ensures LoadTasks(lab, decode, t, stage, rows) == LoadTasks(lab, decode, t, stage, rows[..k])
    decreases |rows|
  {
    hide ReadStageBlob, BlobPath;
    if k == |rows| {
      assert rows[..k] == rows;
    } else {
      assert rows[..|rows| - 1][..k] == rows[..k];
      RefusalStays(lab, decode, t, stage, rows[..|rows| - 1], k);
    }
  }

  // ---- non-interference ---------------------------------------------------

  predicate Agree(a: Tree, b: Tree, trace: seq<Path>) {
    forall i :: 0 <= i < |trace| ==> SameAt(a, b, trace[i])
  }

  lemma PublicDepends(lab: Lab, a: Tree, b: Tree, binding: Binding, commit: string, running: string)
    requires Agree(a, b, LoadPublic(lab, a, binding, commit, running).0)
    ensures LoadPublic(lab, b, binding, commit, running) == LoadPublic(lab, a, binding, commit, running)
  {
    hide BindManifest, ReceiptFrom;
    var trace := LoadPublic(lab, a, binding, commit, running).0;
    assert SameAt(a, b, trace[0]);
    if |trace| > 1 {
      assert SameAt(a, b, trace[1]);
    }
    if |trace| > 2 {
      assert SameAt(a, b, trace[2]);
    }
  }

  lemma IndexDepends(lab: Lab, a: Tree, b: Tree, m: Manifest, binding: Binding)
    requires Agree(a, b, LoadIndex(lab, a, m, binding).0)
    ensures LoadIndex(lab, b, m, binding) == LoadIndex(lab, a, m, binding)
  {
    hide VerifyStageIndex, Aggregate;
    var trace := IndexTrace(a, binding.stage);
    assert SameAt(a, b, trace[0]);
    if |trace| > 1 {
      assert SameAt(a, b, trace[1]);
    }
    if |trace| > 2 {
      assert SameAt(a, b, trace[2]);
    }
    if |trace| > 3 {
      assert SameAt(a, b, trace[3]);
    }
  }

  lemma {:induction false} TasksDepend(lab: Lab, decode: Decode, a: Tree, b: Tree, stage: Stage, rows: seq<Row>)
    requires Agree(a, b, LoadTasks(lab, decode, a, stage, rows).0)
    ensures LoadTasks(lab, decode, b, stage, rows) == LoadTasks(lab, decode, a, stage, rows)
  {
    hide BlobPath;
    if rows != [] {
      var n := |rows| - 1;
      var (trace, front) := LoadTasks(lab, decode, a, stage, rows[..n]);
      var whole := LoadTasks(lab, decode, a, stage, rows).0;
      assert trace <= whole;
      assert forall i :: 0 <= i < |trace| ==> trace[i] == whole[i];
      TasksDepend(lab, decode, a, b, stage, rows[..n]);
      if front.Ok? {
        assert whole[|trace|] == BlobPath(stage, rows[n].digest);
        assert SameAt(a, b, whole[|trace|]);
      }
    }
  }

  // The result and the trace are determined by what is at the touched paths.
  lemma LoadDependsOnTrace(
      lab: Lab, decode: Decode, a: Tree, b: Tree, binding: Binding, commit: string, running: string)
    requires Agree(a, b, Load(lab, decode, a, binding, commit, running).0)
    ensures Load(lab, decode, b, binding, commit, running) == Load(lab, decode, a, binding, commit, running)
  {
    hide LoadPublic, LoadIndex, LoadTasks, SameAt;
    var trace := Load(lab, decode, a, binding, commit, running).0;
    var (public, manifest) := LoadPublic(lab, a, binding, commit, running);
    AgreePart(a, b, trace, [], public);
    PublicDepends(lab, a, b, binding, commit, running);
    if manifest.Ok? {
      var (looked, index) := LoadIndex(lab, a, manifest.value, binding);
      AgreePart(a, b, trace, public, looked);
      IndexDepends(lab, a, b, manifest.value, binding);
      if index.Ok? {
        var (opened_, _) := LoadTasks(lab, decode, a, binding.stage, index.value.rows);
        AgreePart(a, b, trace, public + looked, opened_);
        TasksDepend(lab, decode, a, b, binding.stage, index.value.rows);
      }
    }
  }

  lemma AgreePart(a: Tree, b: Tree, trace: seq<Path>, front: seq<Path>, part: seq<Path>)
    requires Agree(a, b, trace) && front + part <= trace
    ensures Agree(a, b, part)
  {
    hide SameAt;
    forall i | 0 <= i < |part| ensures SameAt(a, b, part[i]) {
      assert part[i] == (front + part)[|front| + i];
      assert part[i] == trace[|front| + i];
    }
  }

  predicate Avoids(stage: Stage, trace: seq<Path>) {
    forall i :: 0 <= i < |trace| ==> !Under(stage, trace[i])
  }

  lemma {:induction false} TasksAvoid(lab: Lab, decode: Decode, t: Tree, stage: Stage, other: Stage, rows: seq<Row>)
    requires stage != other
    ensures Avoids(other, LoadTasks(lab, decode, t, stage, rows).0)
  {
    hide ReadStageBlob, Hex;
    if rows != [] {
      TasksAvoid(lab, decode, t, stage, other, rows[..|rows| - 1]);
      BlobAvoids(stage, other, rows[|rows| - 1].digest);
      hide BlobPath;
    }
  }

  lemma BlobAvoids(stage: Stage, other: Stage, digest: string)
    requires stage != other
    ensures !Under(other, BlobPath(stage, digest)) && !Under(other, BlobDir(stage)) && !Under(other, StageDir(stage))
    ensures !Under(other, IndexPath(stage)) && !Under(other, PRIVATE) && !Under(other, Root)
    ensures !Under(other, MANIFEST) && !Under(other, RECEIPT)
  {
    hide Hex;
    assert !Under(other, PRIVATE);
    assert !Under(other, StageDir(stage));
    assert !Under(other, BlobDir(stage));
  }

  // Nothing under the other stage's directory is touched.
  lemma LoadAvoidsOtherStage(
    lab: Lab, decode: Decode, t: Tree, binding: Binding, other: Stage, commit: string, running: string)
    requires other != binding.stage
    ensures Avoids(other, Load(lab, decode, t, binding, commit, running).0)
  {
    hide LoadPublic, LoadIndex, LoadTasks, Avoids;
    FrontAvoids(lab, t, binding, other, commit, running);
    var (public, manifest) := LoadPublic(lab, t, binding, commit, running);
    if manifest.Ok? {
      var (looked, index) := LoadIndex(lab, t, manifest.value, binding);
      if index.Ok? {
        TasksAvoid(lab, decode, t, binding.stage, other, index.value.rows);
        var opened_ := LoadTasks(lab, decode, t, binding.stage, index.value.rows).0;
        BothAvoid(other, public + looked, opened_);
      }
      BothAvoid(other, public, looked);
    }
  }

  lemma BothAvoid(stage: Stage, a: seq<Path>, b: seq<Path>)
    ensures Avoids(stage, a + b) <==> Avoids(stage, a) && Avoids(stage, b)
  {
    hide Under;
    if Avoids(stage, a + b) {
      assert forall i :: 0 <= i < |a| ==> a[i] == (a + b)[i];
      assert forall i :: 0 <= i < |b| ==> b[i] == (a + b)[|a| + i];
    }
  }

  lemma FrontAvoids(lab: Lab, t: Tree, binding: Binding, other: Stage, commit: string, running: string)
    requires other != binding.stage
    ensures Avoids(other, LoadPublic(lab, t, binding, commit, running).0)
    ensures forall m :: Avoids(other, LoadIndex(lab, t, m, binding).0)
  {
    hide BindManifest, LoadStageIndex, Under, ReadPublic, RootFault, DirFault, BlobDir, StageDir, IndexPath;
    BlobAvoids(binding.stage, other, "");
  }

  // Two custody trees that differ only under the other stage's directory give
  // the same tasks or the same refusal, through the same reads.
  lemma StageNonInterference(
    lab: Lab, decode: Decode, a: Tree, b: Tree, binding: Binding, other: Stage, commit: string, running: string)
    requires other != binding.stage
    requires forall p :: !Under(other, p) ==> SameAt(a, b, p)
    ensures Load(lab, decode, b, binding, commit, running) == Load(lab, decode, a, binding, commit, running)
  {
    LoadAvoidsOtherStage(lab, decode, a, binding, other, commit, running);
    hide Load, SameAt, Under;
    LoadDependsOnTrace(lab, decode, a, b, binding, commit, running);
  }

  // ---- from import to load ------------------------------------------------

  // The binding that names one stage of a manifest.
  function BindingFor(lab: Lab, m: Manifest, stage: Stage): Binding {
    Binding(lab.hash(lab.canon(ManifestDoc(m))), m.controllerDigest, m.requestDigest, m.setIdentity, stage,
            Public(m, stage).aggregate, TASKS_PER_STAGE)
  }

  // Every blob a verified index names decodes under its id.
  predicate AllDecode(lab: Lab, decode: Decode, t: Tree, stage: Stage, rows: seq<Row>, tasks: Tasks) {
    |rows| == |tasks| && forall i :: 0 <= i < |rows| ==> DecodesTo(lab, decode, t, stage, rows[i], tasks[i])
  }

  predicate DecodesTo(lab: Lab, decode: Decode, t: Tree, stage: Stage, row: Row, task: Payload.SealedTask) {
    var bytes := ReadStageBlob(lab, t, stage, row.digest);
    bytes.Ok? && decode(bytes.value, row.id) == Some(task)
  }

  lemma {:induction false} TasksLoad(lab: Lab, decode: Decode, t: Tree, stage: Stage, rows: seq<Row>, tasks: Tasks)
    ensures LoadTasks(lab, decode, t, stage, rows).1 == Ok(tasks) <==> AllDecode(lab, decode, t, stage, rows, tasks)
  {
    hide ReadStageBlob, BlobPath;
    if rows != [] && tasks != [] {
      var n, k := |rows| - 1, |tasks| - 1;
      TasksLoad(lab, decode, t, stage, rows[..n], tasks[..k]);
      assert tasks == tasks[..k] + [tasks[k]];
      if n == k {
        assert (forall i :: 0 <= i < n ==> DecodesTo(lab, decode, t, stage, rows[..n][i], tasks[..k][i])) <==>
               (forall i :: 0 <= i < n ==> DecodesTo(lab, decode, t, stage, rows[i], tasks[i]));
      }
      if LoadTasks(lab, decode, t, stage, rows).1 == Ok(tasks) {
        assert tasks[..k] == LoadTasks(lab, decode, t, stage, rows[..n]).1.value;
      }
    }
  }

  // A set that full verification accepts loads, stage by stage, to exactly the
  // decoded tasks of its index in id order, provided they are consistent.
  lemma VerifiedStageLoads(
    lab: Lab, decode: Decode, t: Tree, m: Manifest, stage: Stage, commit: string, controllerDigest: string,
    tasks: Tasks)
    requires VerifyCustody(lab, t, commit, controllerDigest, "verify").Ok?
    requires MANIFEST in t && t[MANIFEST] == File(FILE_MODE, lab.canon(ManifestDoc(m)))
    requires lab.parse(lab.canon(ManifestDoc(m))) == Some(ManifestDoc(m))
    requires VerifyStageTree(lab, t, m, stage).Ok?
             ==> AllDecode(lab, decode, t, stage, VerifyStageTree(lab, t, m, stage).value.rows, tasks)
                 && Consistent(tasks)
    ensures Load(lab, decode, t, BindingFor(lab, m, stage), commit, controllerDigest).1 == Ok(tasks)
  {
    VerifiedParts(lab, t, commit, controllerDigest, "verify", m);
    StagesParts(lab, t, m);
    VerifiedPublic(lab, t, m, stage, commit, controllerDigest);
    VerifiedIndex(lab, t, m, stage);
    var rows := VerifyStageTree(lab, t, m, stage).value.rows;
    TasksLoad(lab, decode, t, stage, rows, tasks);
    ConsistentExactly(tasks);
    hide LoadPublic, LoadIndex, LoadTasks, VerifyCustody, VerifyStageTree, BindingFor, Inconsistency, CheckAllStages,
         ModesOk;
    assert BindingFor(lab, m, stage).stage == stage by {
      BindingStage(lab, m, stage);
    }
  }

  lemma BindingStage(lab: Lab, m: Manifest, stage: Stage)
    ensures BindingFor(lab, m, stage).stage == stage
  {
  }

  lemma VerifiedPublic(lab: Lab, t: Tree, m: Manifest, stage: Stage, commit: string, controllerDigest: string)
    requires VerifyCustody(lab, t, commit, controllerDigest, "verify").Ok? && ModesOk(t)
    requires MANIFEST in t && t[MANIFEST] == File(FILE_MODE, lab.canon(ManifestDoc(m)))
    requires lab.parse(lab.canon(ManifestDoc(m))) == Some(ManifestDoc(m))
    requires VerifyStageTree(lab, t, m, stage).Ok?
    ensures LoadPublic(lab, t, BindingFor(lab, m, stage), commit, controllerDigest).1 == Ok(m)
  {
    StageAcceptedExactly(lab, t, m, stage);
    var doc :| StageFilesAgree(lab, t, m, stage, doc);
    hide CheckAllStages, ReceiptFrom, VerifyStageTree, RowsWellFormed, SortRows, BlobsReadBack, Aggregate;
  }

  lemma VerifiedIndex(lab: Lab, t: Tree, m: Manifest, stage: Stage)
    requires VerifyStageTree(lab, t, m, stage).Ok?
    ensures LoadIndex(lab, t, m, BindingFor(lab, m, stage)).1 == Ok(VerifyStageTree(lab, t, m, stage).value)
  {
    StageAcceptedExactly(lab, t, m, stage);
    var doc :| StageFilesAgree(lab, t, m, stage, doc);
    hide VerifyStageIndex, RowsWellFormed, SortRows, BlobsReadBack, Aggregate, BlobFault;
  }

  // ---- what loading means -------------------------------------------------

  // The public files are the ones the binding names, for this commit and this
  // running controller.
  predicate BoundManifest(lab: Lab, t: Tree, b: Binding, commit: string, running: string, m: Manifest) {
    && PrivateDirAt(t, Root) && PrivateFileAt(t, MANIFEST) && PrivateFileAt(t, RECEIPT)
    && t[MANIFEST].bytes == lab.canon(ManifestDoc(m)) && lab.hash(t[MANIFEST].bytes) == b.manifestDigest
    && lab.parse(t[MANIFEST].bytes) == Some(ManifestDoc(m))
    && ValidatePublicManifest(lab, Some(ManifestDoc(m))) == Ok(m)
    && m.commit == commit && m.controllerDigest == b.controllerDigest == running
    && m.requestDigest == b.requestDigest && m.setIdentity == b.setIdentity
    && Public(m, b.stage).aggregate == b.aggregate && Public(m, b.stage).taskCount == b.taskCount
    && lab.parse(t[RECEIPT].bytes) == Some(ReceiptDoc(ReceiptFrom(m, "import")))
  }

  lemma PublicLoadsExactly(lab: Lab, t: Tree, b: Binding, commit: string, running: string, m: Manifest)
    ensures LoadPublic(lab, t, b, commit, running).1 == Ok(m) <==> BoundManifest(lab, t, b, commit, running, m)
  {
    hide ReceiptFrom;
  }

  predicate LoadedIndex(lab: Lab, t: Tree, b: Binding, m: Manifest, index: StageIndex) {
    && LoadStageIndex(lab, t, m, b.stage) == Ok(index)
    && Aggregate(lab, index.rows) == b.aggregate && |index.rows| == b.taskCount
  }

  // A stage loads exactly when manifest, receipt and index are the bound ones,
  // every blob of the index decodes under its id, and the results are consistent.
  lemma LoadsExactly(lab: Lab, decode: Decode, t: Tree, b: Binding, commit: string, running: string, tasks: Tasks)
    ensures Load(lab, decode, t, b, commit, running).1 == Ok(tasks) <==>
            exists m, index :: BoundManifest(lab, t, b, commit, running, m) && LoadedIndex(lab, t, b, m, index)
                               && AllDecode(lab, decode, t, b.stage, index.rows, tasks) && Consistent(tasks)
  {
    hide BoundManifest, LoadPublic, LoadStageIndex, Aggregate, LoadTasks, AllDecode, Consistent, Inconsistency;
    ConsistentExactly(tasks);
    var public := LoadPublic(lab, t, b, commit, running).1;
    if public.Ok? {
      PublicLoadsExactly(lab, t, b, commit, running, public.value);
      var index := LoadIndex(lab, t, public.value, b).1;
      if index.Ok? {
        assert LoadedIndex(lab, t, b, public.value, index.value);
        TasksLoad(lab, decode, t, b.stage, index.value.rows, tasks);
      }
    }
    if m, index :| BoundManifest(lab, t, b, commit, running, m) && LoadedIndex(lab, t, b, m, index)
                   && AllDecode(lab, decode, t, b.stage, index.rows, tasks) && Consistent(tasks)
    {
      PublicLoadsExactly(lab, t, b, commit, running, m);
      TasksLoad(lab, decode, t, b.stage, index.rows, tasks);
    }
  }

  // ---- the evidence of a sealed stage -------------------------------------

  // Instance and template of one measured observation.
  datatype Observed = Observed(instanceId: string, templateId: string)

  function TaskIdList(tasks: Tasks): (r: seq<string>)
    ensures |r| == |tasks| && forall i :: 0 <= i < |tasks| ==> r[i] == tasks[i].id
  {
    seq(|tasks|, i requires 0 <= i < |tasks| => tasks[i].id)
  }

  function InstancesOf(observed: seq<Observed>): (r: seq<string>)
    ensures |r| == |observed| && forall i :: 0 <= i < |observed| ==> r[i] == observed[i].instanceId
  {
    seq(|observed|, i requires 0 <= i < |observed| => observed[i].instanceId)
  }

  function TemplatesOf(observed: seq<Observed>): set<string> {
    set i | 0 <= i < |observed| :: observed[i].templateId
  }

  function ScenarioIds(tasks: Tasks): set<string> {
    set i | 0 <= i < |tasks| :: ScenarioId(tasks[i])
  }

  predicate EvidenceAccepted(tasks: Tasks, taskCount: nat, observed: seq<Observed>) {
    && |observed| == taskCount
    && SortTexts(InstancesOf(observed)) == SortTexts(TaskIdList(tasks))
    && TemplatesOf(observed) == ScenarioIds(tasks)
  }

  lemma LexLeqIsTotal()
    ensures TotalPreorder(LexLeq)
  {
    forall a: string, b: string ensures LexLeq(a, b) || LexLeq(b, a) {
      LexTotal(a, b);
    }
    forall a: string, b: string, c: string | LexLeq(a, b) && LexLeq(b, c) ensures LexLeq(a, c) {
      LexTransitive(a, b, c);
    }
  }

  // Two lists of text sort alike exactly when they have the same contents.
  lemma SortsAlike(a: seq<string>, b: seq<string>)
    ensures SortTexts(a) == SortTexts(b) <==> multiset(a) == multiset(b)
  {
    LexLeqIsTotal();
    SortSorted(a, LexLeq);
    SortSorted(b, LexLeq);
    if multiset(a) == multiset(b) {
      forall i, j | 0 <= i < |SortTexts(a)| && 0 <= j < |SortTexts(a)|
        && LexLeq(SortTexts(a)[i], SortTexts(a)[j]) && LexLeq(SortTexts(a)[j], SortTexts(a)[i])
        ensures SortTexts(a)[i] == SortTexts(a)[j]
      {
        LexAntisymmetric(SortTexts(a)[i], SortTexts(a)[j]);
      }
      forall x: string ensures LexLeq(x, x) {
        LexReflexive(x);
      }
      SortedUnique(SortTexts(a), SortTexts(b), LexLeq);
    }
  }

  // Stage evidence is accepted exactly when the observations are the sealed
  // tasks, each once, over the same scenarios.
  lemma EvidenceIsEachTaskOnce(tasks: Tasks, taskCount: nat, observed: seq<Observed>)
    requires Consistent(tasks)
    ensures EvidenceAccepted(tasks, taskCount, observed) <==>
            && |observed| == taskCount && TemplatesOf(observed) == ScenarioIds(tasks)
            && multiset(InstancesOf(observed)) == multiset(TaskIdList(tasks))
    ensures EvidenceAccepted(tasks, taskCount, observed) ==>
              forall i :: 0 <= i < |tasks| ==> multiset(InstancesOf(observed))[tasks[i].id] == 1
  {
    SortsAlike(InstancesOf(observed), TaskIdList(tasks));
    hide SortTexts, SameSurface, ScenarioId;
    forall p, q | 0 <= p < q < |tasks| ensures TaskIdList(tasks)[p] != TaskIdList(tasks)[q] {
      assert Compatible(tasks[p], tasks[q]);
    }
    forall i | 0 <= i < |tasks| ensures multiset(TaskIdList(tasks))[tasks[i].id] == 1 {
      assert TaskIdList(tasks)[i] in multiset(TaskIdList(tasks));
      if multiset(TaskIdList(tasks))[tasks[i].id] >= 2 {
        var p, q := FindCopies(TaskIdList(tasks), tasks[i].id);
      }
    }
  }
}
