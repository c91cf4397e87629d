/** The repetition loop of a measured cell (src/blackwell_lab/cloud/realbench.py:
    run_real_cell) as writes to the directory of one run label. Every write is
    atomic, and any step of any repetition may fail. */
module RepetitionLoop {
  import opened Common
  import opened RealResult
  import Agent = AgentLoop
  import Evaluator

  datatype Kind = Observations | Warmup | Manifest | ResultFile | Failure

  // <run id>.<kind>.json
  datatype Name = Name(runId: string, kind: Kind)

  datatype Doc =
    | ObservationDoc(runId: string, index: nat, measured: bool, outcomes: seq<TaskOutcome>)
    | ManifestDoc(runId: string, index: nat)
    | ResultDoc(runId: string, manifestRef: Name, measuredFile: Name, measuredDigest: string,
                warmup: Option<(Name, string)>, report: Report)
    | FailureDoc(runId: string, index: nat)

  type Files = map<Name, Doc>

  // The digest, and the schema and semantic validators.
  datatype Lab = Lab(
    digest: Doc -> string,
    observationsValid: Doc -> bool,
    manifestValid: Doc -> bool,
    resultValid: Doc -> bool,
    semanticsValid: (Doc, Doc, Doc, Option<Doc>) -> bool)

  datatype Cell = Cell(lab: Lab, profile: Profile, warmup: Option<seq<TaskOutcome>>)

  // What the environment does to one repetition: the pass may raise, the
  // telemetry may be unusable, and each write may fail.
  datatype Attempt = Attempt(
    outcomes: Option<seq<TaskOutcome>>, gpuOk: bool, wallTime: real, telemetry: bool, manifestBuilt: bool,
    measuredWritten: bool, warmupWritten: bool, failureWritten: bool, manifestWritten: bool, resultWritten: bool)

  datatype Record = Record(runId: string, manifest: Doc, result: Doc, measured: Doc, warmup: Option<Doc>)

  function Put(files: Files, name: Name, doc: Doc): Files {
    files[name := doc]
  }

  function WarmupDoc(cell: Cell, runId: string, first: bool): Option<Doc> {
    if first && cell.warmup.Some? then Some(ObservationDoc(runId, 1, false, cell.warmup.value)) else None
  }

  function RecordOf(cell: Cell, runId: string, index: nat, first: bool, outcomes: seq<TaskOutcome>): Record
    requires outcomes != []
  {
    var measured := ObservationDoc(runId, index, true, outcomes);
    var warmup := WarmupDoc(cell, runId, first);
    Record(runId, ManifestDoc(runId, index),
           ResultDoc(runId, Name(runId, Manifest), Name(runId, Observations), cell.lab.digest(measured),
                     if warmup.Some? then Some((Name(runId, Warmup), cell.lab.digest(warmup.value))) else None,
                     ReportOf(cell.profile, outcomes)),
           measured, warmup)
  }

  predicate Validated(cell: Cell, r: Record) {
    && cell.lab.observationsValid(r.measured)
    && cell.lab.manifestValid(r.manifest)
    && cell.lab.resultValid(r.result)
    && cell.lab.semanticsValid(r.manifest, r.result, r.measured, r.warmup)
  }

  function LastOf(files: Files, trace: seq<Files>): Files {
    if trace == [] then files else trace[|trace| - 1]
  }

  // The guarded part of a repetition: validate, persist the observations, build
  // and validate the manifest and the result.
  function Prepare(cell: Cell, runId: string, index: nat, a: Attempt, outcomes: seq<TaskOutcome>, files: Files)
    : (seq<Files>, Option<Record>)
  {
    var measured := ObservationDoc(runId, index, true, outcomes);
    var warmup := WarmupDoc(cell, runId, index == 1);
    if !a.gpuOk || !cell.lab.observationsValid(measured) || !a.measuredWritten then ([], None)
    else
      var f1 := Put(files, Name(runId, Observations), measured);
      if warmup.Some? && !a.warmupWritten then ([f1], None)
      else
        var trace := if warmup.Some? then [f1, Put(f1, Name(runId, Warmup), warmup.value)] else [f1];
        if !a.manifestBuilt || FirstMissing(cell.profile, outcomes, a.wallTime, a.telemetry).Some? then (trace, None)
        else
          var record := RecordOf(cell, runId, index, index == 1, outcomes);
          if !Validated(cell, record) then (trace, None) else (trace, Some(record))
  }

  // One repetition; None means that it raised.
  function Repetition(cell: Cell, runId: string, index: nat, a: Attempt, files: Files): (seq<Files>, Option<Record>) {
    if a.outcomes.None? then ([], None)
    else
      var (trace, record) := Prepare(cell, runId, index, a, a.outcomes.value, files);
      var last := LastOf(files, trace);
      if record.None? then
        (if a.failureWritten then trace + [Put(last, Name(runId, Failure), FailureDoc(runId, index))] else trace, None)
      else if !a.manifestWritten then (trace, None)
      else
        var f := Put(last, Name(runId, Manifest), record.value.manifest);
        if !a.resultWritten then (trace + [f], None)
        else (trace + [f, Put(f, Name(runId, ResultFile), record.value.result)], record)
  }

  // The states after the first k repetitions, until one raises.
  function Loop(cell: Cell, runIds: seq<string>, attempts: nat -> Attempt, files: Files, k: nat)
    : (seq<Files>, seq<Record>)
    requires k <= |runIds|
  {
    if k == 0 then ([], [])
    else
      var (trace, records) := Loop(cell, runIds, attempts, files, k - 1);
      if |records| < k - 1 then (trace, records)
      else
        var (more, record) := Repetition(cell, runIds[k - 1], k, attempts(k - 1), LastOf(files, trace));
        (trace + more, if record.Some? then records + [record.value] else records)
  }

  predicate HoldsArtifacts(files: Files) {
    exists name :: name in files && (name.kind == ResultFile || name.kind == Manifest)
  }

  datatype Refusal = WouldOverwrite | WarmupRaised | RepetitionRaised

  function WarmupAccepted(cell: Cell, runIds: seq<string>, warmupRan: bool): bool
    requires runIds != []
  {
    warmupRan && (cell.warmup.Some? ==> cell.lab.observationsValid(WarmupDoc(cell, runIds[0], true).value))
  }

  function RunCell(cell: Cell, runIds: seq<string>, warmupRan: bool, attempts: nat -> Attempt, files: Files)
    : (seq<Files>, Result<seq<Record>, Refusal>)
    requires runIds != []
  {
    if HoldsArtifacts(files) then ([], Err(WouldOverwrite))
    else if !WarmupAccepted(cell, runIds, warmupRan) then ([], Err(WarmupRaised))
    else
      var (trace, records) := Loop(cell, runIds, attempts, files, |runIds|);
      (trace, if |records| == |runIds| then Ok(records) else Err(RepetitionRaised))
  }

  // ---- what holds after every write ---------------------------------------

  // Everything in a stays in b, byte for byte.
  predicate Extends(a: Files, b: Files) {
    a.Keys <= b.Keys && forall name :: name in a ==> b[name] == a[name]
  }

  predicate NothingOf(runId: string, files: Files) {
    forall kind :: Name(runId, kind) !in files
  }

  // The report accounts for exactly the measured outcomes that were observed.
  predicate ReportsOn(profile: Profile, report: Report, observed: Doc, runId: string) {
    && observed.ObservationDoc? && observed.runId == runId && observed.measured && observed.outcomes != []
    && report == ReportOf(profile, observed.outcomes)
  }

  // A result comes with the manifest and the observations it names, under
  // their digests, and all of them passed validation.
  predicate SoundResult(cell: Cell, files: Files, runId: string) {
    && {Name(runId, ResultFile), Name(runId, Manifest), Name(runId, Observations)} <= files.Keys
    && files[Name(runId, ResultFile)].ResultDoc?
    && (var r := files[Name(runId, ResultFile)];
        && r.runId == runId && r.manifestRef == Name(runId, Manifest) && r.measuredFile == Name(runId, Observations)
        && r.measuredDigest == cell.lab.digest(files[Name(runId, Observations)])
        && ReportsOn(cell.profile, r.report, files[Name(runId, Observations)], runId)
        && (r.warmup.Some? ==>
          r.warmup.value.0 in files && r.warmup.value.1 == cell.lab.digest(files[r.warmup.value.0]))
        && cell.lab.observationsValid(files[Name(runId, Observations)])
        && cell.lab.manifestValid(files[Name(runId, Manifest)])
        && cell.lab.resultValid(r)
        && cell.lab.semanticsValid(files[Name(runId, Manifest)], r, files[Name(runId, Observations)],
                                   if r.warmup.Some? then Some(files[r.warmup.value.0]) else None))
  }

  // No run has both a failure record and a result, and every result is sound.
  ghost predicate Honest(cell: Cell, files: Files) {
    forall runId :: Name(runId, ResultFile) in files ==>
      Name(runId, Failure) !in files && SoundResult(cell, files, runId)
  }

  ghost predicate AllHonest(cell: Cell, files: Files, trace: seq<Files>) {
    && (forall i :: 0 <= i < |trace| ==> Honest(cell, trace[i]) && Extends(files, trace[i]))
    && (forall i, j :: 0 <= i < j < |trace| ==> Extends(trace[i], trace[j]))
  }

  // Only files of the given run are added.
  predicate AddsOnly(runId: string, a: Files, b: Files) {
    forall name :: name in b && name !in a ==> name.runId == runId
  }

  lemma HonestPut(cell: Cell, files: Files, name: Name, doc: Doc)
    requires Honest(cell, files) && name !in files
    requires name.kind != ResultFile && Name(name.runId, ResultFile) !in files
    ensures Honest(cell, Put(files, name, doc)) && Extends(files, Put(files, name, doc))
    ensures AddsOnly(name.runId, files, Put(files, name, doc))
  {
    var after := Put(files, name, doc);
    forall runId | Name(runId, ResultFile) in after
      ensures Name(runId, Failure) !in after && SoundResult(cell, after, runId)
    {
      assert Name(runId, ResultFile) in files;
      assert SoundResult(cell, files, runId);
      assert runId != name.runId;
      assert Name(runId, Manifest) != name && Name(runId, Observations) != name;
    }
  }

  lemma HonestResult(cell: Cell, files: Files, runId: string, doc: Doc)
    requires Honest(cell, files) && Name(runId, ResultFile) !in files && Name(runId, Failure) !in files
    requires SoundResult(cell, Put(files, Name(runId, ResultFile), doc), runId)
    ensures var after := Put(files, Name(runId, ResultFile), doc);
            Honest(cell, after) && Extends(files, after) && AddsOnly(runId, files, after)
  {
    var name := Name(runId, ResultFile);
    var after := Put(files, name, doc);
    forall other | Name(other, ResultFile) in after
      ensures Name(other, Failure) !in after && SoundResult(cell, after, other)
    {
      if other != runId {
        assert SoundResult(cell, files, other);
      }
    }
  }

  lemma ExtendsTransitive(a: Files, b: Files, c: Files)
    requires Extends(a, b) && Extends(b, c)
    ensures Extends(a, c)
  {
  }

  lemma AppendHonest(cell: Cell, files: Files, trace: seq<Files>, next: Files)
    requires Honest(cell, files) && AllHonest(cell, files, trace)
    requires Honest(cell, next) && Extends(LastOf(files, trace), next)
    ensures AllHonest(cell, files, trace + [next])
  {
    forall i | 0 <= i < |trace| ensures Extends(trace[i], next) {
      if i < |trace| - 1 {
        ExtendsTransitive(trace[i], trace[|trace| - 1], next);
      }
    }
  }

  // The files of the record are the ones on disk.
  predicate Stored(files: Files, r: Record) {
    && Name(r.runId, Observations) in files && files[Name(r.runId, Observations)] == r.measured
    && (r.warmup.Some? ==> Name(r.runId, Warmup) in files && files[Name(r.runId, Warmup)] == r.warmup.value)
  }

  lemma PrepareHonest(cell: Cell, runId: string, index: nat, a: Attempt, outcomes: seq<TaskOutcome>, files: Files)
    requires Honest(cell, files) && NothingOf(runId, files)
    ensures var (trace, record) := Prepare(cell, runId, index, a, outcomes, files);
            && AllHonest(cell, files, trace) && Extends(files, LastOf(files, trace))
            && AddsOnly(runId, files, LastOf(files, trace))
            && (forall kind :: kind != Observations && kind != Warmup ==> Name(runId, kind) !in LastOf(files, trace))
            && (record.Some? ==>
                  && outcomes != [] && record.value == RecordOf(cell, runId, index, index == 1, outcomes)
                  && Validated(cell, record.value) && Stored(LastOf(files, trace), record.value))
  {
    hide Honest, Validated, ReportOf;
    var measured := ObservationDoc(runId, index, true, outcomes);
    HonestPut(cell, files, Name(runId, Observations), measured);
    var f1 := Put(files, Name(runId, Observations), measured);
    var warmup := WarmupDoc(cell, runId, index == 1);
    if warmup.Some? {
      HonestPut(cell, f1, Name(runId, Warmup), warmup.value);
    }
  }

  lemma RecordIsSound(cell: Cell, runId: string, index: nat, outcomes: seq<TaskOutcome>, files: Files)
    requires outcomes != []
    requires var r := RecordOf(cell, runId, index, index == 1, outcomes); Validated(cell, r) && Stored(files, r)
    ensures var r := RecordOf(cell, runId, index, index == 1, outcomes);
            SoundResult(cell, Put(Put(files, Name(runId, Manifest), r.manifest), Name(runId, ResultFile), r.result),
              runId)
  {
    hide ReportOf;
  }

  // What a repetition leaves: its own files only, honest after every write; a
  // record exactly when its result is on disk.
  lemma RepetitionHonest(cell: Cell, runId: string, index: nat, a: Attempt, files: Files)
    requires Honest(cell, files) && NothingOf(runId, files)
    ensures var (trace, record) := Repetition(cell, runId, index, a, files);
            && AllHonest(cell, files, trace) && Extends(files, LastOf(files, trace))
            && AddsOnly(runId, files, LastOf(files, trace))
            && (record.Some? <==> Name(runId, ResultFile) in LastOf(files, trace))
            && (record.Some? ==> record.value.runId == runId
                                 && LastOf(files, trace)[Name(runId, ResultFile)] == record.value.result)
  {
    hide Honest, Validated, Prepare, RecordOf, AllHonest;
    AllHonestEmpty(cell, files);
    if a.outcomes.Some? {
      var outcomes := a.outcomes.value;
      var (trace, record) := Prepare(cell, runId, index, a, outcomes, files);
      PrepareHonest(cell, runId, index, a, outcomes, files);
      var last := LastOf(files, trace);
      LastHonest(cell, files, trace);
      if record.None? {
        HonestPut(cell, last, Name(runId, Failure), FailureDoc(runId, index));
        AppendHonest(cell, files, trace, Put(last, Name(runId, Failure), FailureDoc(runId, index)));
      } else {
        RecordRunId(cell, runId, index, outcomes);
        HonestPut(cell, last, Name(runId, Manifest), record.value.manifest);
        var f := Put(last, Name(runId, Manifest), record.value.manifest);
        AppendHonest(cell, files, trace, f);
        RecordIsSound(cell, runId, index, outcomes, last);
        HonestResult(cell, f, runId, record.value.result);
        AppendHonest(cell, files, trace + [f], Put(f, Name(runId, ResultFile), record.value.result));
        assert (trace + [f]) + [Put(f, Name(runId, ResultFile), record.value.result)]
            == trace + [f, Put(f, Name(runId, ResultFile), record.value.result)];
      }
    }
  }

  lemma AllHonestEmpty(cell: Cell, files: Files)
    ensures AllHonest(cell, files, [])
  {
  }

  lemma RecordRunId(cell: Cell, runId: string, index: nat, outcomes: seq<TaskOutcome>)
    requires outcomes != []
    ensures RecordOf(cell, runId, index, index == 1, outcomes).runId == runId
  {
    hide ReportOf;
  }

  lemma LastHonest(cell: Cell, files: Files, trace: seq<Files>)
    requires Honest(cell, files) && AllHonest(cell, files, trace)
    ensures Honest(cell, LastOf(files, trace)) && (trace != [] ==> Extends(files, LastOf(files, trace)))
  {
  }

  lemma ConcatHonest(cell: Cell, files: Files, a: seq<Files>, b: seq<Files>)
    requires AllHonest(cell, files, a) && AllHonest(cell, LastOf(files, a), b)
    ensures AllHonest(cell, files, a + b)
    ensures LastOf(files, a + b) == LastOf(LastOf(files, a), b)
  {
    hide Honest, Extends;
    var mid := LastOf(files, a);
    forall i | 0 <= i < |a + b| ensures Honest(cell, (a + b)[i]) && Extends(files, (a + b)[i]) {
      if i >= |a| && a != [] {
        ExtendsTransitive(files, mid, b[i - |a|]);
      }
    }
    forall i, j | 0 <= i < j < |a + b| ensures Extends((a + b)[i], (a + b)[j]) {
      if i < |a| <= j && i < |a| - 1 {
        ExtendsTransitive(a[i], mid, b[j - |a|]);
      }
    }
  }

  // ---- whole runs ---------------------------------------------------------

  // Fresh run ids, as uuid4 draws them.
  predicate FreshIds(runIds: seq<string>, files: Files) {
    Distinct(runIds) && forall i :: 0 <= i < |runIds| ==> NothingOf(runIds[i], files)
  }

  lemma NoResultsIsHonest(cell: Cell, files: Files)
    requires !HoldsArtifacts(files)
    ensures Honest(cell, files)
  {
  }

  // The results on disk are exactly those of the finished repetitions.
  predicate ResultsAre(files: Files, runIds: seq<string>, records: seq<Record>) {
    && |records| <= |runIds|
    && (forall i :: 0 <= i < |records| ==>
          && records[i].runId == runIds[i]
          && Name(runIds[i], ResultFile) in files && files[Name(runIds[i], ResultFile)] == records[i].result)
    && (forall i :: |records| <= i < |runIds| ==> Name(runIds[i], ResultFile) !in files)
  }

  lemma {:induction false} LoopHonest(cell: Cell, runIds: seq<string>, attempts: nat -> Attempt, files: Files, k: nat)
    requires k <= |runIds| && Honest(cell, files) && FreshIds(runIds, files)
    ensures var (trace, records) := Loop(cell, runIds, attempts, files, k);
            && AllHonest(cell, files, trace) && |records| <= k
            && ResultsAre(LastOf(files, trace), runIds, records)
            && (forall i :: k <= i < |runIds| ==> NothingOf(runIds[i], LastOf(files, trace)))
  {
    hide Honest, Repetition, AllHonest;
    if k == 0 {
      AllHonestEmpty(cell, files);
    } else {
      LoopHonest(cell, runIds, attempts, files, k - 1);
      var (trace, records) := Loop(cell, runIds, attempts, files, k - 1);
      if |records| == k - 1 {
        var last := LastOf(files, trace);
        LastHonest(cell, files, trace);
        var (more, record) := Repetition(cell, runIds[k - 1], k, attempts(k - 1), last);
        RepetitionHonest(cell, runIds[k - 1], k, attempts(k - 1), last);
        ConcatHonest(cell, files, trace, more);
        NextResults(last, LastOf(last, more), runIds, records, record);
      }
    }
  }

  lemma NextResults(before: Files, after: Files, runIds: seq<string>, records: seq<Record>, record: Option<Record>)
    requires Distinct(runIds) && |records| < |runIds| && ResultsAre(before, runIds, records)
    requires forall i :: |records| <= i < |runIds| ==> NothingOf(runIds[i], before)
    requires var runId := runIds[|records|];
             && Extends(before, after) && AddsOnly(runId, before, after)
             && (record.Some? <==> Name(runId, ResultFile) in after)
             && (record.Some? ==> record.value.runId == runId && after[Name(runId, ResultFile)] == record.value.result)
    ensures ResultsAre(after, runIds, if record.Some? then records + [record.value] else records)
    ensures forall i :: |records| < i < |runIds| ==> NothingOf(runIds[i], after)
  {
    var k := |records|;
    forall i | k < i < |runIds| ensures NothingOf(runIds[i], after) {
      forall kind ensures Name(runIds[i], kind) !in after {
        assert runIds[i] != runIds[k];
        assert NothingOf(runIds[i], before);
      }
    }
    var all := if record.Some? then records + [record.value] else records;
    forall i | |all| <= i < |runIds| ensures Name(runIds[i], ResultFile) !in after {
      if i > k {
        assert NothingOf(runIds[i], after);
      }
    }
  }

  // However a run ends, and wherever it is cut: no run id has both a failure
  // record and a result, every result is backed by its validated manifest and
  // observations, and nothing written before is touched again.
  lemma RunCellIsHonest(cell: Cell, runIds: seq<string>, warmupRan: bool, attempts: nat -> Attempt, files: Files)
    requires runIds != [] && FreshIds(runIds, files)
    ensures var (trace, result) := RunCell(cell, runIds, warmupRan, attempts, files);
            && (HoldsArtifacts(files) <==> result == Err(WouldOverwrite))
            && (HoldsArtifacts(files) ==> trace == [])
            && (!HoldsArtifacts(files) ==> AllHonest(cell, files, trace))
            && (result.Ok? ==> |result.value| == |runIds| && ResultsAre(LastOf(files, trace), runIds, result.value))
  {
    hide AllHonest, Repetition, NothingOf, ResultsAre;
    if !HoldsArtifacts(files) {
      NoResultsIsHonest(cell, files);
      AllHonestEmpty(cell, files);
      LoopHonest(cell, runIds, attempts, files, |runIds|);
    }
  }

  // ---- which failures are recorded ----------------------------------------

  // Everything between the pass and the manifest write goes well: usable GPU
  // telemetry, valid and written observations, a manifest, every required
  // measurement, and all validators.
  predicate Guarded(cell: Cell, runId: string, index: nat, a: Attempt, outcomes: seq<TaskOutcome>) {
    && a.gpuOk && cell.lab.observationsValid(ObservationDoc(runId, index, true, outcomes)) && a.measuredWritten
    && (index == 1 && cell.warmup.Some? ==> a.warmupWritten)
    && a.manifestBuilt && FirstMissing(cell.profile, outcomes, a.wallTime, a.telemetry).None?
    && Validated(cell, RecordOf(cell, runId, index, index == 1, outcomes))
  }

  predicate Finishes(cell: Cell, runId: string, index: nat, a: Attempt) {
    a.outcomes.Some? && Guarded(cell, runId, index, a, a.outcomes.value) && a.manifestWritten && a.resultWritten
  }

  predicate Recorded(cell: Cell, runId: string, index: nat, a: Attempt) {
    a.outcomes.Some? && !Guarded(cell, runId, index, a, a.outcomes.value) && a.failureWritten
  }

  // The first k repetitions all produce their record.
  predicate AllFinish(cell: Cell, runIds: seq<string>, attempts: nat -> Attempt, k: nat)
    requires k <= |runIds|
  {
    forall j: nat :: j < k ==> Finishes(cell, runIds[j], j + 1, attempts(j))
  }

  lemma RepetitionEnds(cell: Cell, runId: string, index: nat, a: Attempt, files: Files)
    requires NothingOf(runId, files)
    ensures var (trace, record) := Repetition(cell, runId, index, a, files);
            && (record.Some? <==> Finishes(cell, runId, index, a))
            && (Name(runId, Failure) in LastOf(files, trace) <==> Recorded(cell, runId, index, a))
  {
    hide Validated, RecordOf, FirstMissing;
  }

  // The one failure record a run of repetitions can leave.
  predicate FailuresAre(cell: Cell, runIds: seq<string>, attempts: nat -> Attempt, files: Files, k: nat)
    requires k <= |runIds|
  {
    forall i: nat :: i < |runIds| ==>
      (Name(runIds[i], Failure) in files <==>
       i < k && AllFinish(cell, runIds, attempts, i) && Recorded(cell, runIds[i], i + 1, attempts(i)))
  }

  lemma {:induction false} LoopFailures(cell: Cell, runIds: seq<string>, attempts: nat -> Attempt, files: Files, k: nat)
    requires k <= |runIds| && Honest(cell, files) && FreshIds(runIds, files)
    ensures var (trace, records) := Loop(cell, runIds, attempts, files, k);
            && (|records| == k <==> AllFinish(cell, runIds, attempts, k))
            && |records| <= k && FailuresAre(cell, runIds, attempts, LastOf(files, trace), k)
  {
    hide Honest, Repetition, AllHonest, Finishes, Recorded, ResultsAre, FailuresAre, AllFinish, Extends, AddsOnly,
         LastOf;
    NoneYet(cell, runIds, attempts, files);
    if k == 0 {
      ConcatLast(files, [], []);
    } else {
      LoopFailures(cell, runIds, attempts, files, k - 1);
      LoopHonest(cell, runIds, attempts, files, k - 1);
      var (trace, records) := Loop(cell, runIds, attempts, files, k - 1);
      var last := LastOf(files, trace);
      if |records| == k - 1 {
        var runId, a := runIds[k - 1], attempts(k - 1);
        LastHonest(cell, files, trace);
        RepetitionEnds(cell, runId, k, a, last);
        RepetitionHonest(cell, runId, k, a, last);
        var more := Repetition(cell, runId, k, a, last).0;
        ConcatLast(files, trace, more);
        NextFailures(cell, runIds, attempts, k, last, LastOf(last, more));
      } else {
        SameFailures(cell, runIds, attempts, k, last);
      }
      OneMoreFinishes(cell, runIds, attempts, k);
    }
  }

  lemma NoneYet(cell: Cell, runIds: seq<string>, attempts: nat -> Attempt, files: Files)
    requires FreshIds(runIds, files)
    ensures FailuresAre(cell, runIds, attempts, files, 0) && AllFinish(cell, runIds, attempts, 0)
  {
    hide Recorded, Finishes;
    forall i: nat | i < |runIds| ensures Name(runIds[i], Failure) !in files {
      assert NothingOf(runIds[i], files);
    }
  }

  lemma OneMoreFinishes(cell: Cell, runIds: seq<string>, attempts: nat -> Attempt, k: nat)
    requires 0 < k <= |runIds|
    ensures AllFinish(cell, runIds, attempts, k) <==>
            AllFinish(cell, runIds, attempts, k - 1) && Finishes(cell, runIds[k - 1], k, attempts(k - 1))
  {
    hide Finishes;
  }

  lemma SameFailures(cell: Cell, runIds: seq<string>, attempts: nat -> Attempt, k: nat, files: Files)
    requires 0 < k <= |runIds| && !AllFinish(cell, runIds, attempts, k - 1)
    requires FailuresAre(cell, runIds, attempts, files, k - 1)
    ensures FailuresAre(cell, runIds, attempts, files, k)
  {
    hide Recorded, AllFinish;
  }

  lemma ConcatLast(files: Files, a: seq<Files>, b: seq<Files>)
    ensures LastOf(files, []) == files
    ensures LastOf(files, a + b) == LastOf(LastOf(files, a), b)
  {
  }

  lemma NextFailures(cell: Cell, runIds: seq<string>, attempts: nat -> Attempt, k: nat, before: Files, after: Files)
    requires 0 < k <= |runIds| && Distinct(runIds) && AllFinish(cell, runIds, attempts, k - 1)
    requires FailuresAre(cell, runIds, attempts, before, k - 1)
    requires Extends(before, after) && AddsOnly(runIds[k - 1], before, after)
    requires Name(runIds[k - 1], Failure) in after <==> Recorded(cell, runIds[k - 1], k, attempts(k - 1))
    ensures FailuresAre(cell, runIds, attempts, after, k)
  {
    hide Recorded, Finishes;
    forall i: nat | i < |runIds|
      ensures Name(runIds[i], Failure) in after <==>
              i < k && AllFinish(cell, runIds, attempts, i) && Recorded(cell, runIds[i], i + 1, attempts(i))
    {
      if i != k - 1 {
        assert runIds[i] != runIds[k - 1];
        assert Name(runIds[i], Failure) in after <==> Name(runIds[i], Failure) in before;
      }
    }
  }

  // A run leaves a failure record for a repetition exactly when all before it
  // finished, its pass returned, something failed before the manifest write,
  // and the record itself could be written. It succeeds exactly when all finish.
  lemma FailureRecordExactly(
      cell: Cell, runIds: seq<string>, warmupRan: bool, attempts: nat -> Attempt, files: Files, i: nat)
    requires FreshIds(runIds, files) && i < |runIds|
    ensures var (trace, result) := RunCell(cell, runIds, warmupRan, attempts, files);
            var begun := !HoldsArtifacts(files) && WarmupAccepted(cell, runIds, warmupRan);
            && (result.Ok? <==> begun && AllFinish(cell, runIds, attempts, |runIds|))
            && (Name(runIds[i], Failure) in LastOf(files, trace) <==>
                begun && AllFinish(cell, runIds, attempts, i) && Recorded(cell, runIds[i], i + 1, attempts(i)))
  {
    hide AllFinish, Recorded, Loop, WarmupAccepted;
    assert NothingOf(runIds[i], files);
    if !HoldsArtifacts(files) {
      NoResultsIsHonest(cell, files);
      LoopFailures(cell, runIds, attempts, files, |runIds|);
    }
  }

  // Hence the repetition that ends a run leaves no failure record, although one
  // could be written, exactly when its pass raised, or the manifest or the
  // result could not be written after everything else went well.
  lemma UnrecordedExactly(
      cell: Cell, runIds: seq<string>, warmupRan: bool, attempts: nat -> Attempt, files: Files, i: nat)
    requires FreshIds(runIds, files) && !HoldsArtifacts(files)
    requires i < |runIds| && WarmupAccepted(cell, runIds, warmupRan)
    requires AllFinish(cell, runIds, attempts, i) && !Finishes(cell, runIds[i], i + 1, attempts(i))
    requires attempts(i).failureWritten
    ensures var a := attempts(i);
            Name(runIds[i], Failure) !in LastOf(files, RunCell(cell, runIds, warmupRan, attempts, files).0) <==>
            || a.outcomes.None?
            || (Guarded(cell, runIds[i], i + 1, a, a.outcomes.value) && (!a.manifestWritten || !a.resultWritten))
  {
    hide Guarded, RunCell, WarmupAccepted;
    FailureRecordExactly(cell, runIds, warmupRan, attempts, files, i);
  }

  lemma OneRepetition(cell: Cell, runId: string, a: Attempt)
    requires cell.warmup.None?
    ensures var (trace, record) := Repetition(cell, runId, 1, a, map[]);
            var (states, result) := RunCell(cell, [runId], true, _ => a, map[]);
            states == trace && (result.Ok? <==> record.Some?)
  {
    hide Repetition;
    assert Loop(cell, [runId], _ => a, map[], 0) == ([], []);
    assert [] + Repetition(cell, runId, 1, a, map[]).0 == Repetition(cell, runId, 1, a, map[]).0;
  }

  // Three runs that fail without a failure record: the pass raises, the
  // manifest cannot be written, the result cannot. The last leaves a manifest,
  // so the run label is refused from then on.
  lemma UnrecordedFailures(runId: string) returns (cell: Cell, raises: Attempt, noManifest: Attempt, noResult: Attempt)
    ensures raises.failureWritten && noManifest.failureWritten && noResult.failureWritten
    ensures forall a :: a in [raises, noManifest, noResult] ==>
              var (trace, result) := RunCell(cell, [runId], true, _ => a, map[]);
              result.Err? && Name(runId, Failure) !in LastOf(map[], trace)
    ensures HoldsArtifacts(LastOf(map[], RunCell(cell, [runId], true, _ => noResult, map[]).0))
  {
    cell := Cell(Lab(_ => "", _ => true, _ => true, _ => true, (_, _, _, _) => true), Profile(0.0, None), None);
    var outcome := TaskOutcome(
      Evaluator.Execution(Agent.Error, Some(Agent.EndpointError), None, None, [], [], 0.0),
      Evaluator.Evaluation(false, 0.0, [], 0.0, 0.0, 0.0));
    var finishes := Attempt(Some([outcome]), true, 1.0, true, true, true, true, true, true, true);
    raises := finishes.(outcomes := None);
    noManifest := finishes.(manifestWritten := false);
    noResult := finishes.(resultWritten := false);
    assert Guarded(cell, runId, 1, finishes, [outcome]);
    forall a | a in [raises, noManifest, noResult]
      ensures var (trace, result) := RunCell(cell, [runId], true, _ => a, map[]);
              result.Err? && Name(runId, Failure) !in LastOf(map[], trace)
    {
      hide Repetition, RunCell, Guarded;
      OneRepetition(cell, runId, a);
      RepetitionEnds(cell, runId, 1, a, map[]);
    }
    OneRepetition(cell, runId, noResult);
    assert Name(runId, Manifest) in LastOf(map[], Repetition(cell, runId, 1, noResult, map[]).0);
  }

  // ---- the loop as it runs ------------------------------------------------

  class RunLabelDirectory {
    const cell: Cell
    var files: Files
    ghost var log: seq<Files>

    constructor (cell: Cell, files: Files)
      ensures this.cell == cell && this.files == files && log == []
    {
      this.cell, this.files, log := cell, files, [];
    }

    twostate predicate Wrote(trace: seq<Files>)
      reads this
    {
      log == old(log) + trace && files == LastOf(old(files), trace)
    }

    // Atomic: the file is there in full, or nothing changed.
    method WritePrivateJson(name: Name, doc: Doc, written: bool)
      modifies this
      ensures Wrote(if written then [Put(old(files), name, doc)] else [])
    {
      if written {
        files := files[name := doc];
        log := log + [files];
      }
    }

    method PrepareRepetition(runId: string, index: nat, a: Attempt, outcomes: seq<TaskOutcome>)
      returns (record: Option<Record>)
      modifies this
      ensures Wrote(Prepare(cell, runId, index, a, outcomes, old(files)).0)
      ensures record == Prepare(cell, runId, index, a, outcomes, old(files)).1
    {
      hide ReportOf, FirstMissing, Validated, RecordOf;
      var measured := ObservationDoc(runId, index, true, outcomes);
      var warmup := WarmupDoc(cell, runId, index == 1);
      if !a.gpuOk || !cell.lab.observationsValid(measured) {
        return None;
      }
      WritePrivateJson(Name(runId, Observations), measured, a.measuredWritten);
      if !a.measuredWritten {
        return None;
      }
      if warmup.Some? {
        WritePrivateJson(Name(runId, Warmup), warmup.value, a.warmupWritten);
        if !a.warmupWritten {
          return None;
        }
      }
      if !a.manifestBuilt {
        return None;
      }
      var built := BuildRealResult(cell.profile, outcomes, a.wallTime, a.telemetry);
      if built.Err? {
        return None;
      }
      var r := RecordOf(cell, runId, index, index == 1, outcomes);
      return if Validated(cell, r) then Some(r) else None;
    }

    method RunRepetition(runId: string, index: nat, a: Attempt) returns (record: Option<Record>)
      modifies this
      ensures Wrote(Repetition(cell, runId, index, a, old(files)).0)
      ensures record == Repetition(cell, runId, index, a, old(files)).1
    {
      hide Prepare;
      if a.outcomes.None? {
        return None;
      }
      record := PrepareRepetition(runId, index, a, a.outcomes.value);
      if record.None? {
        WritePrivateJson(Name(runId, Failure), FailureDoc(runId, index), a.failureWritten);
        return None;
      }
      WritePrivateJson(Name(runId, Manifest), record.value.manifest, a.manifestWritten);
      if !a.manifestWritten {
        return None;
      }
      WritePrivateJson(Name(runId, ResultFile), record.value.result, a.resultWritten);
      if !a.resultWritten {
        return None;
      }
    }

    method RunRealCell(runIds: seq<string>, warmupRan: bool, attempts: nat -> Attempt)
      returns (r: Result<seq<Record>, Refusal>)
      requires runIds != []
      modifies this
      ensures Wrote(RunCell(cell, runIds, warmupRan, attempts, old(files)).0)
      ensures r == RunCell(cell, runIds, warmupRan, attempts, old(files)).1
    {
      hide Repetition;
      var existing := exists name :: name in files && (name.kind == ResultFile || name.kind == Manifest);
      if existing {
        return Err(WouldOverwrite);
      }
      if !WarmupAccepted(cell, runIds, warmupRan) {
        return Err(WarmupRaised);
      }
      var records: seq<Record>, k := [], 0;
      while k < |runIds|
        invariant 0 <= k <= |runIds| && |records| == k
        invariant Wrote(Loop(cell, runIds, attempts, old(files), k).0)
        invariant records == Loop(cell, runIds, attempts, old(files), k).1
      {
        ghost var before := LastOf(old(files), Loop(cell, runIds, attempts, old(files), k).0);
        var record := RunRepetition(runIds[k], k + 1, attempts(k));
        if record.None? {
          LoopStays(cell, runIds, attempts, old(files), k + 1, |runIds|);
          return Err(RepetitionRaised);
        }
        records := records + [record.value];
        k := k + 1;
      }
      return Ok(records);
    }
  }

  lemma {:induction false} LoopStays(
      cell: Cell, runIds: seq<string>, attempts: nat -> Attempt, files: Files, k: nat, m: nat)
    requires k <= m <= |runIds| && |Loop(cell, runIds, attempts, files, k).1| < k
    ensures Loop(cell, runIds, attempts, files, m) == Loop(cell, runIds, attempts, files, k)
  {
    hide Repetition;
    if k < m {
      LoopStays(cell, runIds, attempts, files, k, m - 1);
    }
  }
}
