/** The lifecycle operations as sequences of writes to one run directory
    (lifecycle.py: save_plan, verify_saved_plan, reconcile, apply, plan_destroy,
    destroy, recover_verified_empty_apply, pilot_blockers).

    Each operation is described by the directory states it passes through, one
    for each write and one for each set of answers it gets, so that a crash is a prefix of the sequence. The class
    RunDirectory performs the writes and is proved to pass through exactly these
    states. */
module LifecycleRun {
  import opened Common
  import opened LifecycleModel
  import opened Reconcile
  import opened PlanGate
  import opened DeletionPoll

  datatype Event =
    | ApplyAttempted(exitOk: bool) | Provisioned(count: nat) | TeardownStarted | DeletionConfirmed(count: nat)
    | ApplyAborted

  datatype Receipt = ApplyDiagnostic | ApplyFailure(reconciled: bool, count: nat) | EmptyApplyRecovery(prior: Digest)

  datatype Meta = Meta(
    runTag: string, stage: Stage, planDigest: Digest, commit: string, lockDigest: Digest, configDigest: Digest,
    stateDigest: Option<Digest>, createdAt: real, targets: set<string>)

  // The files of the run directory, with the configuration it is planned from.
  datatype Files = Files(
    plans: map<Stage, Bytes>,
    reviewTexts: set<Stage>,
    metas: map<Stage, Meta>,
    state: Option<Bytes>,
    varFile: bool,
    config: Option<Bytes>,
    lock: Option<Bytes>,
    commit: Option<string>,
    ledger: Option<Ledger>,
    pending: Option<Pending>,
    session: seq<Event>,
    receipts: seq<Receipt>)

  // A completed save_plan, with the bytes it looked at.
  datatype Review = Review(
    stage: Stage, plan: Bytes, config: Bytes, lock: Bytes, state: Option<Bytes>, commit: string, createdAt: real)

  // A terraform apply that was started, with what was on disk at that moment.
  datatype Start = Start(
    stage: Stage, plan: Bytes, approval: string, config: Option<Bytes>, lock: Option<Bytes>, state: Option<Bytes>,
    commit: Option<string>, at: real)

  datatype Billable = Billable(tags: seq<string>, gpuPlan: bool)

  datatype Inventory = Inventory(instances: seq<Billable>, volumes: seq<Billable>, firewalls: seq<Billable>)

  // Project-tagged, or an untagged GPU instance.
  predicate Suspicious(b: Billable) {
    PROJECT_TAG in b.tags || (b.tags == [] && b.gpuPlan)
  }

  predicate NothingOurs(v: Inventory) {
    && (forall b :: b in v.instances ==> !Suspicious(b))
    && (forall b :: b in v.volumes ==> PROJECT_TAG !in b.tags)
    && (forall b :: b in v.firewalls ==> PROJECT_TAG !in b.tags)
  }

  // What an operation did or saw, recorded where it happened and whatever came
  // of it: a completed save_plan, a written pending record, a started terraform
  // apply, the answers a reconciliation got, the answers a recovery got, and the
  // end of a polling.
  datatype Happening =
    | Reviewed(review: Review)
    | Pended(record: Pending)
    | Started(start: Start)
    | Inspected(show: Option<seq<Resource>>, sweep: Sweep)
    | Swept(show: Option<seq<Resource>>, recorded: seq<Resource>, orphans: Option<Inventory>,
      recheck: Option<Inventory>)
    | Polled(polled: seq<Resource>, outcome: Result<nat, Refusal>)

  // A run directory together with its history, oldest first.
  datatype Run = Run(files: Files, history: seq<Happening>)

  // The run's tag, the digest, and terraform's rendering of a binary plan.
  datatype Lab = Lab(runTag: string, hash: Bytes -> Digest, render: Bytes -> Option<seq<Change>>)

  ghost predicate CollisionFree(lab: Lab) {
    forall a, b :: lab.hash(a) == lab.hash(b) ==> a == b
  }

  function OptionalDigest(lab: Lab, bytes: Option<Bytes>): Option<Digest> {
    if bytes.None? then None else Some(lab.hash(bytes.value))
  }

  // What is approved: the text before the run tag and the one after it.
  function PhraseStart(stage: Stage): string {
    match stage
    case ApplyStage => "I approve creating " + "billable Akamai resources for run "
    case DestroyStage => "I approve deleting " + "the exact recorded resources for run "
  }

  function PhraseMiddle(stage: Stage): string {
    match stage
    case ApplyStage => " using plan sha256:"
    case DestroyStage => " using destroy plan sha256:"
  }

  function Phrase(stage: Stage, runTag: string, digest: Digest): string {
    PhraseStart(stage) + runTag + PhraseMiddle(stage) + digest
  }

  function VerifySavedPlan(lab: Lab, f: Files, stage: Stage, now: real): Result<Meta, Refusal> {
    if !ValidRunTag(lab.runTag) then Err(BadRunTag)
    else if stage !in f.metas then Err(NoPlan)
    else
      var meta := f.metas[stage];
      if meta.runTag != lab.runTag || meta.stage != stage then Err(ForeignPlan)
      else if stage !in f.plans then Err(PlanFileMissing)
      else if lab.hash(f.plans[stage]) != meta.planDigest then Err(PlanChanged)
      else if f.config.None? then Err(NoConfig)
      else if lab.hash(f.config.value) != meta.configDigest then Err(ConfigChanged)
      else if f.lock.None? then Err(NoLock)
      else if lab.hash(f.lock.value) != meta.lockDigest then Err(LockChanged)
      else if OptionalDigest(lab, f.state) != meta.stateDigest then Err(StateChanged)
      else if f.commit.None? then Err(NoCommit)
      else if f.commit.value != meta.commit then Err(CommitChanged)
      else if now - meta.createdAt < 0.0 || now - meta.createdAt > MAX_PLAN_AGE_S then Err(Stale)
      else Ok(meta)
  }

  // ---- single writes ------------------------------------------------------

  function PutPlan(r: Run, stage: Stage, bytes: Bytes): Run {
    r.(files := r.files.(plans := r.files.plans[stage := bytes]))
  }

  function PutReviewText(r: Run, stage: Stage): Run {
    r.(files := r.files.(reviewTexts := r.files.reviewTexts + {stage}))
  }

  function PutMeta(r: Run, meta: Meta, review: Review): Run {
    r.(files := r.files.(metas := r.files.metas[meta.stage := meta]), history := r.history + [Reviewed(review)])
  }

  function PutPending(r: Run, pending: Pending): Run {
    r.(files := r.files.(pending := Some(pending)), history := r.history + [Pended(pending)])
  }

  // A failed unlink keeps the record.
  function ClearPending(r: Run, unlinked: bool): Run {
    r.(files := if unlinked then r.files.(pending := None) else r.files)
  }

  function PutLedger(r: Run, ledger: Ledger): Run {
    r.(files := r.files.(ledger := Some(ledger)))
  }

  // Answers arrived; no file changes.
  function See(r: Run, seen: Happening): Run {
    r.(history := r.history + [seen])
  }

  function PutEvent(r: Run, event: Event): Run {
    r.(files := r.files.(session := r.files.session + [event]))
  }

  function PutReceipt(r: Run, receipt: Receipt): Run {
    r.(files := r.files.(receipts := r.files.receipts + [receipt]))
  }

  function RanTerraform(r: Run, start: Start, newState: Option<Bytes>): Run {
    r.(files := r.files.(state := newState), history := r.history + [Started(start)])
  }

  function StartOf(f: Files, stage: Stage, approval: string, now: real): Start
    requires stage in f.plans
  {
    Start(stage, f.plans[stage], approval, f.config, f.lock, f.state, f.commit, now)
  }

  function Last(r: Run, trace: seq<Run>): Run {
    if trace == [] then r else trace[|trace| - 1]
  }

  // ---- save_plan ----------------------------------------------------------

  // What terraform plan did: its exit, and the bytes it left in the plan file.
  datatype Planned = Planned(exitOk: bool, wrote: Option<Bytes>)

  function NewMeta(lab: Lab, f: Files, stage: Stage, classified: seq<Classified>, now: real): Meta
    requires stage in f.plans && f.config.Some? && f.lock.Some? && f.commit.Some?
  {
    Meta(lab.runTag, stage, lab.hash(f.plans[stage]), f.commit.value, lab.hash(f.lock.value), lab.hash(f.config.value),
         OptionalDigest(lab, f.state), now, Targets(classified))
  }

  function SavePlanRun(lab: Lab, r: Run, stage: Stage, planned: Planned, textOk: bool, versionOk: bool, now: real)
    : (seq<Run>, Result<Meta, Refusal>)
  {
    if !ValidRunTag(lab.runTag) then ([], Err(BadRunTag))
    else if stage == ApplyStage && lab.runTag in HISTORICAL_ABORTED_RUN_TAGS then ([], Err(HistoricalRun))
    else if !r.files.varFile then ([], Err(VarFileMissing))
    else
      var r1 := if planned.wrote.Some? then PutPlan(r, stage, planned.wrote.value) else r;
      if !planned.exitOk then ([r1], Err(PlanFailed))
      else if stage !in r1.files.plans then ([r1], Err(PlanFileMissing))
      else
        var f := r1.files;
        var rendering := lab.render(f.plans[stage]);
        if rendering.None? then ([r1], Err(RenderFailed))
        else
          var classified := Classify(rendering.value);
          var broken := EnforceStageRules(stage, classified);
          if broken.Some? then ([r1], Err(broken.value))
          else if !textOk then ([r1], Err(ReviewTextFailed))
          else
            var r2 := PutReviewText(r1, stage);
            if f.commit.None? then ([r1, r2], Err(NoCommit))
            else if !versionOk then ([r1, r2], Err(WrongTerraform))
            else if f.lock.None? then ([r1, r2], Err(NoLock))
            else if f.config.None? then ([r1, r2], Err(NoConfig))
            else
              var meta := NewMeta(lab, f, stage, classified, now);
              var review := Review(stage, f.plans[stage], f.config.value, f.lock.value, f.state, f.commit.value, now);
              ([r1, r2, PutMeta(r2, meta, review)], Ok(meta))
  }

  // ---- reconcile ----------------------------------------------------------

  datatype Report = Report(reconciled: bool, count: nat, providerChecked: bool)

  function ReportOf(ledger: Ledger): Report {
    Report(ledger.reconciled, |ledger.resources|, ledger.reconciliation.providerChecked)
  }

  function ReconcileRun(lab: Lab, r: Run, show: Option<seq<Resource>>, sweep: Sweep, unlinked: bool)
    : (seq<Run>, Report)
  {
    var ledger := NewLedger(lab.runTag, show, sweep, r.files.pending);
    var r1 := See(r, Inspected(show, sweep));
    var r2 := PutLedger(r1, ledger);
    (if ledger.reconciled then [r1, r2, ClearPending(r2, unlinked)] else [r1, r2], ReportOf(ledger))
  }

  // ---- apply --------------------------------------------------------------

  datatype ApplyInput = ApplyInput(
    approval: string, hosted: bool, now: real, exitOk: bool, newState: Option<Bytes>,
    show: Option<seq<Resource>>, sweep: Sweep, unlinked: bool)

  // Everything that must hold before terraform is started.
  function ApplyGate(lab: Lab, f: Files, i: ApplyInput): Result<Meta, Refusal> {
    if !ValidRunTag(lab.runTag) then Err(BadRunTag)
    else if lab.runTag in HISTORICAL_ABORTED_RUN_TAGS then Err(HistoricalRun)
    else if i.hosted then Err(Hosted)
    else
      var verified := VerifySavedPlan(lab, f, ApplyStage, i.now);
      if verified.Err? then verified
      else if i.approval != Phrase(ApplyStage, lab.runTag, verified.value.planDigest) then Err(NotApproved)
      else verified
  }

  function AttachFailure(ledger: Option<Ledger>): Ledger
    requires ledger.Some?
  {
    ledger.value.(recovery := ledger.value.recovery.(applyFailure := true))
  }

  // Up to the end of the terraform run.
  function AttemptRun(lab: Lab, r: Run, i: ApplyInput, meta: Meta): seq<Run>
    requires ApplyStage in r.files.plans
  {
    var r1 := PutPending(r, Pending(lab.runTag, ApplyStage, meta.planDigest));
    var r2 := RanTerraform(r1, StartOf(r1.files, ApplyStage, i.approval, i.now), i.newState);
    if i.exitOk then [r1, r2] else [r1, r2, PutReceipt(r2, ApplyDiagnostic)]
  }

  // After the reconciliation that follows every attempt.
  function FinishRun(r: Run, exitOk: bool, report: Report): (seq<Run>, Result<Report, Refusal>) {
    var r1 := PutEvent(r, ApplyAttempted(exitOk));
    if !exitOk then
      var r2 := PutReceipt(r1, ApplyFailure(report.reconciled, report.count));
      if r2.files.ledger.None? then ([r1, r2], Err(ApplyFailed))
      else ([r1, r2, PutLedger(r2, AttachFailure(r2.files.ledger))], Err(ApplyFailed))
    else if !report.reconciled then ([r1], Err(NotClean))
    else ([r1, PutEvent(r1, Provisioned(report.count))], Ok(report))
  }

  function ApplyRun(lab: Lab, r: Run, i: ApplyInput): (seq<Run>, Result<Report, Refusal>) {
    var gate := ApplyGate(lab, r.files, i);
    if gate.Err? then ([], Err(gate.error))
    else if ApplyStage !in r.files.plans then ([], Err(PlanFileMissing))
    else
      var started := AttemptRun(lab, r, i, gate.value);
      var (reconciling, report) := ReconcileRun(lab, Last(r, started), i.show, i.sweep, i.unlinked);
      var (finishing, result) := FinishRun(Last(r, reconciling), i.exitOk, report);
      (started + reconciling + finishing, result)
  }

  // ---- teardown -----------------------------------------------------------

  // state_by_address: a later resource replaces an earlier one.
  function ByAddress(resources: seq<Resource>): map<string, Resource> {
    if resources == [] then map[]
    else
      var n := |resources| - 1;
      ByAddress(resources[..n])[resources[n].address := resources[n]]
  }

  function Lookup(table: map<string, Resource>, address: string): Option<Resource> {
    if address in table then Some(table[address]) else None
  }

  function VerifyTeardownIdentity(
    runTag: string, ledger: Ledger, access: bool, show: Option<seq<Resource>>, views: map<Ref, Item>): Option<Refusal>
  {
    if !ValidRunTag(runTag) then Some(BadRunTag)
    else if ledger.runTag != runTag then Some(ForeignLedger)
    else if !access then Some(NoProviderAccess)
    else if show.None? then Some(StateUnreadable)
    else if exists l :: l in ledger.resources
                        && VerifyResourceIdentity(l, Lookup(ByAddress(show.value), l.address), runTag,
                          ViewOf(l, views), true) != []
    then Some(IdentityMismatch)
    else None
  }

  function Addresses(resources: seq<Resource>): multiset<string> {
    if resources == [] then multiset{}
    else Addresses(resources[..|resources| - 1]) + multiset{resources[|resources| - 1].address}
  }

  // load_ledger: a ledger without resources is refused.
  function LoadLedger(f: Files): Option<Ledger> {
    if f.ledger.Some? && f.ledger.value.resources != [] then f.ledger else None
  }

  datatype PlanDestroyInput = PlanDestroyInput(
    access: bool, show: Option<seq<Resource>>, views: map<Ref, Item>, planned: Planned, textOk: bool, versionOk: bool,
    now: real)

  function PlanDestroyRun(lab: Lab, r: Run, i: PlanDestroyInput): (seq<Run>, Result<Meta, Refusal>) {
    var loaded := LoadLedger(r.files);
    if loaded.None? then ([], Err(NoLedger))
    else
      var mismatch := VerifyTeardownIdentity(lab.runTag, loaded.value, i.access, i.show, i.views);
      if mismatch.Some? then ([], Err(mismatch.value))
      else
        var (trace, saved) := SavePlanRun(lab, r, DestroyStage, i.planned, i.textOk, i.versionOk, i.now);
        if saved.Ok? && multiset(saved.value.targets) != Addresses(loaded.value.resources)
          then (trace, Err(TargetsDiffer))
        else (trace, saved)
  }

  datatype DestroyInput = DestroyInput(
    approval: string, hosted: bool, now: real, access: bool, show: Option<seq<Resource>>, views: map<Ref, Item>,
    exitOk: bool, newState: Option<Bytes>, showAfter: Option<seq<Resource>>, sweepAfter: Sweep, unlinked: bool)

  function DestroyGate(lab: Lab, f: Files, i: DestroyInput): Result<Meta, Refusal> {
    var loaded := LoadLedger(f);
    if loaded.None? then Err(NoLedger)
    else if !ValidRunTag(lab.runTag) then Err(BadRunTag)
    else if i.hosted then Err(Hosted)
    else if !i.access then Err(NoProviderAccess)
    else
      var mismatch := VerifyTeardownIdentity(lab.runTag, loaded.value, i.access, i.show, i.views);
      if mismatch.Some? then Err(mismatch.value)
      else
        var verified := VerifySavedPlan(lab, f, DestroyStage, i.now);
        if verified.Err? then verified
        else if multiset(verified.value.targets) != Addresses(loaded.value.resources) then Err(TargetsDiffer)
        else if i.approval != Phrase(DestroyStage, lab.runTag, verified.value.planDigest) then Err(NotApproved)
        else verified
  }

  // Up to the end of the terraform run.
  function StartDestroyRun(lab: Lab, r: Run, i: DestroyInput, meta: Meta): seq<Run>
    requires DestroyStage in r.files.plans
  {
    var r1 := PutPending(r, Pending(lab.runTag, DestroyStage, meta.planDigest));
    var r2 := PutEvent(r1, TeardownStarted);
    [r1, r2, RanTerraform(r2, StartOf(r2.files, DestroyStage, i.approval, i.now), i.newState)]
  }

  // Once every resource of the ledger is gone.
  function DestroyedRun(r: Run, ledger: Ledger, count: nat, unlinked: bool): seq<Run> {
    var r1 := PutLedger(r, ledger.(destroyed := true));
    var r2 := ClearPending(r1, unlinked);
    [r1, r2, PutEvent(r2, DeletionConfirmed(count))]
  }

  // confirm is the outcome of polling for the deletion, when it is reached.
  function DestroyRun(lab: Lab, r: Run, i: DestroyInput, confirm: Result<nat, Refusal>)
    : (seq<Run>, Result<nat, Refusal>)
  {
    var gate := DestroyGate(lab, r.files, i);
    if gate.Err? || DestroyStage !in r.files.plans || r.files.ledger.None?
    then ([], if gate.Err? then Err(gate.error) else Err(PlanFileMissing))
    else
      var started := StartDestroyRun(lab, r, i, gate.value);
      var base := Last(r, started);
      if !i.exitOk then (started + ReconcileRun(lab, base, i.showAfter, i.sweepAfter, i.unlinked).0, Err(DestroyFailed))
      else
        var ledger := r.files.ledger.value;
        var polled := See(base, Polled(ledger.resources, confirm));
        if confirm.Err? then (started + [polled], Err(confirm.error))
        else (started + [polled] + DestroyedRun(polled, ledger, confirm.value, i.unlinked), confirm)
  }

  // ---- recovery of a verified-empty apply ---------------------------------

  datatype RecoverInput = RecoverInput(
    access: bool, show: Option<seq<Resource>>, orphans: Option<Inventory>, recheck: Option<Inventory>, unlinked: bool)

  predicate Blank(s: string) {
    forall c :: c in s ==> c in {' ', '\t', '\n', '\r'}
  }

  function RecoverGate(lab: Lab, f: Files, i: RecoverInput): Option<Refusal> {
    if !ValidRunTag(lab.runTag) then Some(BadRunTag)
    else if !i.access then Some(NoProviderAccess)
    else if f.pending.None? then Some(NoPending)
    else if f.pending.value.runTag != lab.runTag then Some(ForeignPending)
    else if f.pending.value.operation != ApplyStage then Some(OtherOperation)
    else if Blank(f.pending.value.planDigest) then Some(NoPendingDigest)
    else if i.show.None? then Some(StateUnreadable)
    else if i.show.value != [] then Some(StateNotEmpty)
    else if f.ledger.None? then Some(NoLedger)
    else if f.ledger.value.resources != [] then Some(LedgerNotEmpty)
    else if i.orphans.None? then Some(SweepFailed)
    else if !NothingOurs(i.orphans.value) then Some(ResourcesRemain)
    else if i.recheck.None? then Some(SweepFailed)
    else if !NothingOurs(i.recheck.value) then Some(ResourcesRemain)
    else None
  }

  function RecoveredLedger(ledger: Ledger): Ledger {
    ledger.(
      reconciled := false, aborted := true, stateReadable := true,
      reconciliation := ledger.reconciliation.(providerChecked := true, untracked := multiset{}, missing := multiset{}),
      recovery := ledger.recovery.(emptyApply := true))
  }

  function RecoverRun(lab: Lab, r: Run, i: RecoverInput): (seq<Run>, Option<Refusal>) {
    var gate := RecoverGate(lab, r.files, i);
    if gate.Some? || r.files.pending.None? || r.files.ledger.None? then ([], gate)
    else
      var r1 := See(r, Swept(i.show, r.files.ledger.value.resources, i.orphans, i.recheck));
      var r2 := PutReceipt(r1, EmptyApplyRecovery(r.files.pending.value.planDigest));
      var r3 := PutLedger(r2, RecoveredLedger(r.files.ledger.value));
      var r4 := ClearPending(r3, i.unlinked);
      ([r1, r2, r3, r4, PutEvent(r4, ApplyAborted)], None)
  }

  // ---- the pilot gate -----------------------------------------------------

  datatype Blocker = PendingExists | NotReconciled | ProviderUnchecked | InstanceCount(n: nat) | FirewallCount(n: nat)

  function PilotBlockers(ledger: Ledger, pending: bool): seq<Blocker> {
    var instances, firewalls := OfKind(ledger.resources, INSTANCE), OfKind(ledger.resources, FIREWALL);
    When(pending, PendingExists)
    + When(!ledger.reconciled, NotReconciled)
    + When(!ledger.reconciliation.providerChecked, ProviderUnchecked)
    + When(|instances| != 1, InstanceCount(|instances|))
    + When(|firewalls| != 1, FirewallCount(|firewalls|))
  }
}
