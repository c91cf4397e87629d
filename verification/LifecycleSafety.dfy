/** What holds in every reachable state of a run directory, crashes included. */
module LifecycleSafety {
  import opened Common
  import opened LifecycleModel
  import opened Reconcile
  import opened PlanGate
  import opened DeletionPoll
  import opened LifecycleRun

  datatype Step =
    | SavePlan(stage: Stage, planned: Planned, textOk: bool, versionOk: bool, now: real)
    | Apply(apply: ApplyInput)
    | ReconcileNow(show: Option<seq<Resource>>, sweep: Sweep, unlinked: bool)
    | PlanDestroy(plan: PlanDestroyInput)
    | Destroy(destroy: DestroyInput, confirm: Result<nat, Refusal>)
    | Recover(recover: RecoverInput)
      // Anyone may change the plan bytes, the configuration, the lock file, the
      // state, the commit or the variable file between operations.
    | OutsideEdit(plans: map<Stage, Bytes>, config: Option<Bytes>, lock: Option<Bytes>, state: Option<Bytes>,
                  commit: Option<string>, varFile: bool)

  // The states one step passes through, one for each write.
  function TraceOf(lab: Lab, r: Run, step: Step): seq<Run> {
    match step
    case SavePlan(stage, planned, textOk, versionOk, now) =>
      SavePlanRun(lab, r, stage, planned, textOk, versionOk, now).0
    case Apply(i) => ApplyRun(lab, r, i).0
    case ReconcileNow(show, sweep, unlinked) =>
      if ValidRunTag(lab.runTag) then ReconcileRun(lab, r, show, sweep, unlinked).0 else []
    case PlanDestroy(i) => PlanDestroyRun(lab, r, i).0
    case Destroy(i, confirm) => DestroyRun(lab, r, i, confirm).0
    case Recover(i) => RecoverRun(lab, r, i).0
    case OutsideEdit(plans, config, lock, state, commit, varFile) =>
      [r.(files := r.files.(
        plans := plans, config := config, lock := lock, state := state, commit := commit, varFile := varFile))]
  }

  // The state a step leaves when it stops after cut writes; a cut beyond the
  // last write is a step that ran to its end.
  function After(lab: Lab, r: Run, step: Step, cut: nat): Run {
    var trace := TraceOf(lab, r, step);
    if cut == 0 || trace == [] then r
    else if cut >= |trace| then trace[|trace| - 1]
    else trace[cut - 1]
  }

  function RunAll(lab: Lab, r: Run, script: seq<(Step, nat)>): Run {
    if script == [] then r
    else
      var n := |script| - 1;
      After(lab, RunAll(lab, r, script[..n]), script[n].0, script[n].1)
  }

  // A directory nothing has happened in yet.
  predicate Fresh(r: Run) {
    r.history == [] && r.files.metas == map[] && r.files.ledger.None? && r.files.pending.None?
  }

  // ---- what ends an operation ---------------------------------------------

  // State, ledger and both provider sweeps show nothing of the project.
  ghost predicate VerifiedEmpty(e: Happening)
    requires e.Swept?
  {
    && e.show == Some([]) && e.recorded == []
    && e.orphans.Some? && NothingOurs(e.orphans.value)
    && e.recheck.Some? && NothingOurs(e.recheck.value)
  }

  // Judged on the recorded answers alone: a reconciliation came out clean, a
  // recovery found nothing, or a polling confirmed the deletion.
  ghost predicate Resolves(lab: Lab, e: Happening) {
    match e
    case Reviewed(_) => false
    case Pended(_) => false
    case Started(_) => false
    case Inspected(show, sweep) => NewLedger(lab.runTag, show, sweep, None).reconciled
    case Swept(_, _, _, _) => VerifiedEmpty(e)
    case Polled(_, outcome) => outcome.Ok?
  }

  // Terraform was started and nothing that ends an operation happened since.
  ghost predicate Unresolved(lab: Lab, history: seq<Happening>) {
    exists k :: 0 <= k < |history| && history[k].Started? && NoneResolves(lab, history, k + 1)
  }

  ghost predicate NoneResolves(lab: Lab, history: seq<Happening>, from: nat) {
    forall j :: from <= j < |history| ==> !Resolves(lab, history[j])
  }

  lemma UnresolvedStep(lab: Lab, history: seq<Happening>, e: Happening)
    ensures Unresolved(lab, history + [e]) <==> e.Started? || (Unresolved(lab, history) && !Resolves(lab, e))
  {
    hide Resolves;
    var longer := history + [e];
    if e.Started? {
      assert longer[|history|].Started? && NoneResolves(lab, longer, |history| + 1);
    } else if Unresolved(lab, history) && !Resolves(lab, e) {
      var k :| 0 <= k < |history| && history[k].Started? && NoneResolves(lab, history, k + 1);
      assert longer[k].Started? && NoneResolves(lab, longer, k + 1);
    }
    if Unresolved(lab, longer) && !e.Started? {
      var k :| 0 <= k < |longer| && longer[k].Started? && NoneResolves(lab, longer, k + 1);
      assert longer[|history|] == e;
      assert history[k].Started? && forall j :: 0 <= j < |history| ==> history[j] == longer[j];
      assert NoneResolves(lab, history, k + 1);
    }
  }

  // ---- the invariant ------------------------------------------------------

  // The plan of a review passed the rules of its stage.
  ghost predicate Accepted(lab: Lab, review: Review) {
    var changes := lab.render(review.plan);
    changes.Some? && EnforceStageRules(review.stage, Classify(changes.value)).None?
  }

  ghost predicate Records(lab: Lab, meta: Meta, review: Review) {
    && meta.stage == review.stage
    && meta.planDigest == lab.hash(review.plan)
    && meta.configDigest == lab.hash(review.config)
    && meta.lockDigest == lab.hash(review.lock)
    && meta.stateDigest == OptionalDigest(lab, review.state)
    && meta.commit == review.commit
    && meta.createdAt == review.createdAt
  }

  // A terraform run agrees with a review in everything the review recorded,
  // and its approval names the digest of the reviewed plan.
  ghost predicate Authorized(lab: Lab, start: Start, review: Review) {
    && start.stage == review.stage
    && lab.hash(start.plan) == lab.hash(review.plan)
    && start.approval == Phrase(review.stage, lab.runTag, lab.hash(review.plan))
    && OptionalDigest(lab, start.config) == Some(lab.hash(review.config))
    && OptionalDigest(lab, start.lock) == Some(lab.hash(review.lock))
    && OptionalDigest(lab, start.state) == OptionalDigest(lab, review.state)
    && start.commit == Some(review.commit)
    && 0.0 <= start.at - review.createdAt <= MAX_PLAN_AGE_S
  }

  ghost predicate HasReview(lab: Lab, history: seq<Happening>, meta: Meta) {
    exists review :: Reviewed(review) in history && Records(lab, meta, review)
  }

  ghost predicate IsAuthorized(lab: Lab, history: seq<Happening>, start: Start) {
    exists review :: Reviewed(review) in history && Authorized(lab, start, review)
  }

  // The pending record is of this run and names a reviewed plan of its stage.
  ghost predicate NamesReview(lab: Lab, history: seq<Happening>, pending: Pending) {
    && pending.runTag == lab.runTag
    && exists review :: Reviewed(review) in history && review.stage == pending.operation
                        && lab.hash(review.plan) == pending.planDigest
  }

  // The pending record written last.
  function LastRecord(history: seq<Happening>): Option<Pending> {
    if history == [] then None
    else
      var n := |history| - 1;
      if history[n].Pended? then Some(history[n].record) else LastRecord(history[..n])
  }

  function RecordFor(lab: Lab, start: Start): Pending {
    Pending(lab.runTag, start.stage, lab.hash(start.plan))
  }

  // Reviews are of acceptable plans, pending records name reviewed plans, and a
  // start follows the review it needs and its own pending record.
  ghost predicate Sound(lab: Lab, before: seq<Happening>, e: Happening) {
    match e
    case Reviewed(review) => Accepted(lab, review)
    case Pended(record) => NamesReview(lab, before, record)
    case Started(start) => IsAuthorized(lab, before, start) && LastRecord(before) == Some(RecordFor(lab, start))
    case _ => true
  }

  ghost predicate SoundHistory(lab: Lab, history: seq<Happening>) {
    forall k :: 0 <= k < |history| ==> Sound(lab, history[..k], history[k])
  }

  // A clean inspection saw exactly these resources.
  ghost predicate CleanAt(lab: Lab, history: seq<Happening>, resources: seq<Resource>, k: int) {
    0 <= k < |history| && history[k].Inspected? && history[k].show == Some(resources) && Resolves(lab, history[k])
  }

  ghost predicate NoStart(history: seq<Happening>, from: nat) {
    forall j :: from <= j < |history| ==> !history[j].Started?
  }

  ghost predicate OnceClean(lab: Lab, history: seq<Happening>, resources: seq<Resource>) {
    exists k: nat :: CleanAt(lab, history, resources, k)
  }

  // Nothing was started since a clean inspection saw exactly these resources.
  ghost predicate StillClean(lab: Lab, history: seq<Happening>, resources: seq<Resource>) {
    exists k: nat :: CleanAt(lab, history, resources, k) && NoStart(history, k + 1)
  }

  ghost predicate CleanlyWritten(lab: Lab, r: Run, ledger: Ledger) {
    ledger.reconciled ==>
      && OnceClean(lab, r.history, ledger.resources)
      && (r.files.pending.None? && !ledger.destroyed ==> StillClean(lab, r.history, ledger.resources))
  }

  ghost predicate Inv(lab: Lab, r: Run) {
    && (Unresolved(lab, r.history) ==> r.files.pending.Some?)
    && SoundHistory(lab, r.history)
    && (forall stage :: stage in r.files.metas ==>
          r.files.metas[stage].stage == stage && HasReview(lab, r.history, r.files.metas[stage]))
    && (r.files.pending.Some? ==>
          NamesReview(lab, r.history, r.files.pending.value) && LastRecord(r.history) == r.files.pending)
    && (r.files.ledger.Some? ==> CleanlyWritten(lab, r, r.files.ledger.value))
  }

  // ---- single writes ------------------------------------------------------

  lemma QuietWrites(lab: Lab, r: Run, stage: Stage, bytes: Bytes, event: Event, receipt: Receipt)
    requires Inv(lab, r)
    ensures Inv(lab, PutPlan(r, stage, bytes)) && Inv(lab, PutReviewText(r, stage))
    ensures Inv(lab, PutEvent(r, event)) && Inv(lab, PutReceipt(r, receipt))
  {
    hide Unresolved, HasReview, NamesReview, SoundHistory, OnceClean, StillClean;
  }

  // The pending record may go once nothing is unresolved and the ledger, if it
  // claims to be reconciled, is up to date or marked destroyed.
  lemma PendingUnlinked(lab: Lab, r: Run, unlinked: bool)
    requires Inv(lab, r) && !Unresolved(lab, r.history)
    requires r.files.ledger.Some? && r.files.ledger.value.reconciled && !r.files.ledger.value.destroyed ==>
               StillClean(lab, r.history, r.files.ledger.value.resources)
    ensures Inv(lab, ClearPending(r, unlinked))
  {
    hide Unresolved, HasReview, NamesReview, SoundHistory, OnceClean, StillClean;
  }

  lemma LedgerWrite(lab: Lab, r: Run, ledger: Ledger)
    requires Inv(lab, r) && CleanlyWritten(lab, r, ledger)
    ensures Inv(lab, PutLedger(r, ledger))
  {
    hide Unresolved, HasReview, NamesReview, SoundHistory, OnceClean, StillClean;
  }

  // A longer history keeps what was sound and what was reviewed.
  lemma HistoryLonger(lab: Lab, r: Run, e: Happening)
    requires SoundHistory(lab, r.history) && Sound(lab, r.history, e)
    ensures SoundHistory(lab, r.history + [e])
    ensures forall meta :: HasReview(lab, r.history, meta) ==> HasReview(lab, r.history + [e], meta)
  {
    hide Accepted, Records, IsAuthorized, NamesReview, LastRecord;
    var h := r.history + [e];
    forall k | 0 <= k < |h| ensures Sound(lab, h[..k], h[k]) {
      assert h[..k] == if k < |r.history| then r.history[..k] else r.history;
    }
    forall meta | HasReview(lab, r.history, meta) ensures HasReview(lab, h, meta) {
      var review :| Reviewed(review) in r.history && Records(lab, meta, review);
      assert Reviewed(review) in h;
    }
  }

  lemma Longer(lab: Lab, r: Run, e: Happening)
    requires Inv(lab, r) && Sound(lab, r.history, e) && !e.Pended?
    requires e.Started? ==> r.files.pending.Some?
    ensures Inv(lab, See(r, e))
  {
    hide Sound, SoundHistory, HasReview, Unresolved, NamesReview, OnceClean, StillClean;
    HistoryLonger(lab, r, e);
    UnresolvedStep(lab, r.history, e);
    if r.files.pending.Some? {
      LongerNames(lab, r.history, e, r.files.pending.value);
    }
    if r.files.ledger.Some? {
      LongerClean(lab, r.history, e, r.files.ledger.value.resources);
    }
    assert (r.history + [e])[..|r.history|] == r.history;
  }

  lemma PendingWrite(lab: Lab, r: Run, pending: Pending)
    requires Inv(lab, r) && NamesReview(lab, r.history, pending)
    ensures Inv(lab, PutPending(r, pending)) && LastRecord(PutPending(r, pending).history) == Some(pending)
  {
    hide Unresolved, HasReview, NamesReview, SoundHistory, OnceClean, StillClean;
    assert Sound(lab, r.history, Pended(pending));
    HistoryLonger(lab, r, Pended(pending));
    LongerNames(lab, r.history, Pended(pending), pending);
    if r.files.ledger.Some? {
      LongerClean(lab, r.history, Pended(pending), r.files.ledger.value.resources);
    }
  }

  lemma LongerNames(lab: Lab, history: seq<Happening>, e: Happening, pending: Pending)
    requires NamesReview(lab, history, pending)
    ensures NamesReview(lab, history + [e], pending)
  {
    var review :| Reviewed(review) in history && review.stage == pending.operation
      && lab.hash(review.plan) == pending.planDigest;
    assert Reviewed(review) in history + [e];
  }

  lemma LongerClean(lab: Lab, history: seq<Happening>, e: Happening, resources: seq<Resource>)
    ensures OnceClean(lab, history, resources) ==> OnceClean(lab, history + [e], resources)
    ensures StillClean(lab, history, resources) && !e.Started? ==> StillClean(lab, history + [e], resources)
  {
    hide Resolves;
    if OnceClean(lab, history, resources) {
      var k: nat :| CleanAt(lab, history, resources, k);
      assert CleanAt(lab, history + [e], resources, k);
    }
    if StillClean(lab, history, resources) && !e.Started? {
      var k: nat :| CleanAt(lab, history, resources, k) && NoStart(history, k + 1);
      assert CleanAt(lab, history + [e], resources, k) && NoStart(history + [e], k + 1);
    }
  }

  lemma MetaWrite(lab: Lab, r: Run, meta: Meta, review: Review)
    requires Inv(lab, r) && Records(lab, meta, review) && Accepted(lab, review)
    ensures Inv(lab, PutMeta(r, meta, review))
  {
    Longer(lab, r, Reviewed(review));
    hide Accepted, Unresolved, SoundHistory, NamesReview, OnceClean, StillClean;
    var s := See(r, Reviewed(review));
    assert Reviewed(review) in s.history;
    forall stage | stage in PutMeta(r, meta, review).files.metas
      ensures HasReview(lab, s.history, PutMeta(r, meta, review).files.metas[stage])
    {
      if stage != meta.stage {
        assert stage in s.files.metas;
      }
    }
  }

  lemma TerraformWrite(lab: Lab, r: Run, start: Start, newState: Option<Bytes>)
    requires Inv(lab, r) && r.files.pending == Some(RecordFor(lab, start)) && IsAuthorized(lab, r.history, start)
    ensures Inv(lab, RanTerraform(r, start, newState))
  {
    hide IsAuthorized, SoundHistory, HasReview, Unresolved, NamesReview, CleanlyWritten;
    assert Sound(lab, r.history, Started(start));
    Longer(lab, r, Started(start));
    StateChanged(lab, See(r, Started(start)), newState);
  }

  lemma StateChanged(lab: Lab, r: Run, newState: Option<Bytes>)
    requires Inv(lab, r)
    ensures Inv(lab, r.(files := r.files.(state := newState)))
  {
    hide Unresolved, HasReview, NamesReview, SoundHistory, OnceClean, StillClean;
  }

  // A plan that passes verification is the reviewed one, under an approval that
  // names it, and so is the plan its pending record names.
  lemma VerifiedIsAuthorized(lab: Lab, r: Run, stage: Stage, approval: string, now: real)
    requires Inv(lab, r)
    requires VerifySavedPlan(lab, r.files, stage, now).Ok?
    requires approval == Phrase(stage, lab.runTag, VerifySavedPlan(lab, r.files, stage, now).value.planDigest)
    ensures stage in r.files.plans && IsAuthorized(lab, r.history, StartOf(r.files, stage, approval, now))
    ensures var record := Pending(lab.runTag, stage, VerifySavedPlan(lab, r.files, stage, now).value.planDigest);
            && NamesReview(lab, r.history, record)
            && record == RecordFor(lab, StartOf(r.files, stage, approval, now))
            && IsAuthorized(lab, PutPending(r, record).history, StartOf(r.files, stage, approval, now))
  {
    hide Accepted, CleanlyWritten, Unresolved, SoundHistory, ValidRunTag, Phrase;
    var meta := r.files.metas[stage];
    assert HasReview(lab, r.history, meta);
    var review :| Reviewed(review) in r.history && Records(lab, meta, review);
    assert Authorized(lab, StartOf(r.files, stage, approval, now), review);
    assert Reviewed(review) in PutPending(r, Pending(lab.runTag, stage, meta.planDigest)).history;
  }

  // ---- operations ---------------------------------------------------------

  ghost predicate AllInv(lab: Lab, trace: seq<Run>) {
    forall i :: 0 <= i < |trace| ==> Inv(lab, trace[i])
  }

  lemma SavePlanKeeps(lab: Lab, r: Run, stage: Stage, planned: Planned, textOk: bool, versionOk: bool, now: real)
    requires Inv(lab, r)
    ensures AllInv(lab, SavePlanRun(lab, r, stage, planned, textOk, versionOk, now).0)
  {
    hide Inv, ValidRunTag, Classify, EnforceStageRules, Targets;
    var (trace, result) := SavePlanRun(lab, r, stage, planned, textOk, versionOk, now);
    if planned.wrote.Some? {
      QuietWrites(lab, r, stage, planned.wrote.value, ApplyAborted, ApplyDiagnostic);
    }
    var r1 := if planned.wrote.Some? then PutPlan(r, stage, planned.wrote.value) else r;
    assert Inv(lab, r1);
    QuietWrites(lab, r1, stage, "", ApplyAborted, ApplyDiagnostic);
    var r2 := PutReviewText(r1, stage);
    if result.Ok? {
      var f := r1.files;
      var review := Review(stage, f.plans[stage], f.config.value, f.lock.value, f.state, f.commit.value, now);
      MetaWrite(lab, r2, result.value, review);
    }
  }

  lemma ReconcileKeeps(lab: Lab, r: Run, show: Option<seq<Resource>>, sweep: Sweep, unlinked: bool)
    requires Inv(lab, r)
    ensures AllInv(lab, ReconcileRun(lab, r, show, sweep, unlinked).0)
  {
    hide Inv, Reconciled, Clean, Unresolved, StillClean;
    var seen := Inspected(show, sweep);
    var ledger := NewLedger(lab.runTag, show, sweep, r.files.pending);
    var r1 := See(r, seen);
    Longer(lab, r, seen);
    CleanNeedsProvider(lab.runTag, show, sweep, r.files.pending);
    UnresolvedStep(lab, r.history, seen);
    JustClean(lab, r.history, seen);
    LedgerWrite(lab, r1, ledger);
    if ledger.reconciled {
      PendingUnlinked(lab, PutLedger(r1, ledger), unlinked);
    }
  }

  // What a clean inspection saw is up to date the moment it was seen.
  lemma JustClean(lab: Lab, history: seq<Happening>, seen: Happening)
    ensures seen.Inspected? && seen.show.Some? && Resolves(lab, seen) ==>
              OnceClean(lab, history + [seen], seen.show.value) && StillClean(lab, history + [seen], seen.show.value)
  {
    hide Resolves;
    if seen.Inspected? && seen.show.Some? && Resolves(lab, seen) {
      assert CleanAt(lab, history + [seen], seen.show.value, |history|);
      assert NoStart(history + [seen], |history| + 1);
    }
  }

  lemma CleanNeedsProvider(runTag: string, show: Option<seq<Resource>>, sweep: Sweep, pending: Option<Pending>)
    ensures var ledger := NewLedger(runTag, show, sweep, pending);
            && ledger.reconciled == NewLedger(runTag, show, sweep, None).reconciled
            && (ledger.reconciled ==>
                  sweep.Answered? && show == Some(ledger.resources) && ledger.reconciliation.providerChecked)
  {
    hide ExpectedShape, IdentityGaps, AllFindings, Unseen, Extras, Repeats;
  }

  lemma ReconcileTrace(lab: Lab, r: Run, show: Option<seq<Resource>>, sweep: Sweep, unlinked: bool)
    ensures var trace := ReconcileRun(lab, r, show, sweep, unlinked).0;
            trace != [] && Last(r, trace).files.ledger.Some?
            && Last(r, trace).files.ledger.value == NewLedger(lab.runTag, show, sweep, r.files.pending)
            && Last(r, trace).history == r.history + [Inspected(show, sweep)]
            && Last(r, trace).files.metas == r.files.metas
  {
    hide Reconciled, Clean;
  }

  lemma ApplyKeeps(lab: Lab, r: Run, i: ApplyInput)
    requires Inv(lab, r)
    ensures AllInv(lab, ApplyRun(lab, r, i).0)
  {
    hide Inv, ValidRunTag, VerifySavedPlan, Phrase, ReconcileRun, NamesReview;
    var gate := ApplyGate(lab, r.files, i);
    if gate.Ok? && ApplyStage in r.files.plans {
      var pending := Pending(lab.runTag, ApplyStage, gate.value.planDigest);
      VerifiedIsAuthorized(lab, r, ApplyStage, i.approval, i.now);
      PendingWrite(lab, r, pending);
      var r1 := PutPending(r, pending);
      TerraformWrite(lab, r1, StartOf(r1.files, ApplyStage, i.approval, i.now), i.newState);
      var r2 := RanTerraform(r1, StartOf(r1.files, ApplyStage, i.approval, i.now), i.newState);
      QuietWrites(lab, r2, ApplyStage, "", ApplyAborted, ApplyDiagnostic);
      var started := AttemptRun(lab, r, i, gate.value);
      AfterTerraformKeeps(lab, r, i, started);
    }
  }

  lemma AfterTerraformKeeps(lab: Lab, r: Run, i: ApplyInput, started: seq<Run>)
    requires started != [] && AllInv(lab, started)
    ensures var (reconciling, report) := ReconcileRun(lab, Last(r, started), i.show, i.sweep, i.unlinked);
            AllInv(lab, started + reconciling + FinishRun(Last(r, reconciling), i.exitOk, report).0)
  {
    hide Inv, ReconcileRun, FinishRun;
    var base := Last(r, started);
    assert Inv(lab, base);
    var (reconciling, report) := ReconcileRun(lab, base, i.show, i.sweep, i.unlinked);
    ReconcileKeeps(lab, base, i.show, i.sweep, i.unlinked);
    ReconcileTrace(lab, base, i.show, i.sweep, i.unlinked);
    assert Inv(lab, Last(r, reconciling));
    FinishKeeps(lab, Last(r, reconciling), i.exitOk, report);
  }

  lemma FinishKeeps(lab: Lab, r: Run, exitOk: bool, report: Report)
    requires Inv(lab, r)
    ensures AllInv(lab, FinishRun(r, exitOk, report).0)
  {
    hide Inv;
    QuietWrites(lab, r, ApplyStage, "", ApplyAttempted(exitOk), ApplyDiagnostic);
    var r1 := PutEvent(r, ApplyAttempted(exitOk));
    QuietWrites(lab, r1, ApplyStage, "", Provisioned(report.count), ApplyFailure(report.reconciled, report.count));
    var r2 := PutReceipt(r1, ApplyFailure(report.reconciled, report.count));
    if r2.files.ledger.Some? {
      AnnotatedLedger(lab, r2, AttachFailure(r2.files.ledger));
    }
  }

  // A ledger that only changes its annotations stays as clean as it was.
  lemma AnnotatedLedger(lab: Lab, r: Run, ledger: Ledger)
    requires Inv(lab, r) && r.files.ledger.Some?
    requires ledger.reconciled == r.files.ledger.value.reconciled && ledger.resources == r.files.ledger.value.resources
    requires r.files.ledger.value.destroyed ==> ledger.destroyed
    ensures Inv(lab, PutLedger(r, ledger))
  {
    hide Unresolved, HasReview, NamesReview, SoundHistory, OnceClean, StillClean;
    LedgerWrite(lab, r, ledger);
  }

  lemma ConfirmedKeeps(lab: Lab, r: Run, unlinked: bool, count: nat)
    requires Inv(lab, r) && r.files.ledger.Some? && !Unresolved(lab, r.history)
    ensures AllInv(lab, DestroyedRun(r, r.files.ledger.value, count, unlinked))
  {
    hide Inv, Unresolved, StillClean;
    var ledger := r.files.ledger.value.(destroyed := true);
    AnnotatedLedger(lab, r, ledger);
    var r1 := PutLedger(r, ledger);
    PendingUnlinked(lab, r1, unlinked);
    QuietWrites(lab, ClearPending(r1, unlinked), DestroyStage, "", DeletionConfirmed(count), ApplyDiagnostic);
  }

  lemma DestroyKeeps(lab: Lab, r: Run, i: DestroyInput, confirm: Result<nat, Refusal>)
    requires Inv(lab, r)
    ensures AllInv(lab, DestroyRun(lab, r, i, confirm).0)
  {
    hide Inv, ValidRunTag, VerifySavedPlan, VerifyTeardownIdentity, Phrase, ReconcileRun, Addresses, NamesReview,
         Unresolved, DestroyedRun;
    var gate := DestroyGate(lab, r.files, i);
    if gate.Ok? && DestroyStage in r.files.plans && r.files.ledger.Some? {
      var pending := Pending(lab.runTag, DestroyStage, gate.value.planDigest);
      VerifiedIsAuthorized(lab, r, DestroyStage, i.approval, i.now);
      PendingWrite(lab, r, pending);
      var r1 := PutPending(r, pending);
      QuietWrites(lab, r1, DestroyStage, "", TeardownStarted, ApplyDiagnostic);
      var r2 := PutEvent(r1, TeardownStarted);
      var start := StartOf(r2.files, DestroyStage, i.approval, i.now);
      TerraformWrite(lab, r2, start, i.newState);
      var r3 := RanTerraform(r2, start, i.newState);
      if !i.exitOk {
        ReconcileKeeps(lab, r3, i.showAfter, i.sweepAfter, i.unlinked);
      } else {
        var polled := Polled(r.files.ledger.value.resources, confirm);
        Longer(lab, r3, polled);
        UnresolvedStep(lab, r3.history, polled);
        if confirm.Ok? {
          ConfirmedKeeps(lab, See(r3, polled), i.unlinked, confirm.value);
        }
      }
    }
  }

  lemma RecoverKeeps(lab: Lab, r: Run, i: RecoverInput)
    requires Inv(lab, r)
    ensures AllInv(lab, RecoverRun(lab, r, i).0)
  {
    hide Inv, ValidRunTag, Blank, NothingOurs, Unresolved, StillClean, OnceClean;
    if RecoverGate(lab, r.files, i).None? && r.files.pending.Some? && r.files.ledger.Some? {
      var receipt := EmptyApplyRecovery(r.files.pending.value.planDigest);
      var seen := Swept(i.show, r.files.ledger.value.resources, i.orphans, i.recheck);
      Longer(lab, r, seen);
      UnresolvedStep(lab, r.history, seen);
      var r1 := See(r, seen);
      QuietWrites(lab, r1, ApplyStage, "", ApplyAborted, receipt);
      var r2 := PutReceipt(r1, receipt);
      LedgerWrite(lab, r2, RecoveredLedger(r.files.ledger.value));
      var r3 := PutLedger(r2, RecoveredLedger(r.files.ledger.value));
      PendingUnlinked(lab, r3, i.unlinked);
      QuietWrites(lab, ClearPending(r3, i.unlinked), ApplyStage, "", ApplyAborted, receipt);
    }
  }

  lemma EditKeeps(lab: Lab, r: Run, step: Step)
    requires Inv(lab, r) && step.OutsideEdit?
    ensures AllInv(lab, TraceOf(lab, r, step))
  {
    hide Unresolved, HasReview, NamesReview, SoundHistory, OnceClean, StillClean;
  }

  lemma StepKeeps(lab: Lab, r: Run, step: Step)
    requires Inv(lab, r)
    ensures AllInv(lab, TraceOf(lab, r, step))
  {
    hide Inv, SavePlanRun, ApplyRun, ReconcileRun, DestroyRun, RecoverRun, VerifyTeardownIdentity;
    match step
    case SavePlan(stage, planned, textOk, versionOk, now) =>
      SavePlanKeeps(lab, r, stage, planned, textOk, versionOk, now);
    case Apply(i) => ApplyKeeps(lab, r, i);
    case ReconcileNow(show, sweep, unlinked) => ReconcileKeeps(lab, r, show, sweep, unlinked);
    case PlanDestroy(i) => SavePlanKeeps(lab, r, DestroyStage, i.planned, i.textOk, i.versionOk, i.now);
    case Destroy(i, confirm) => DestroyKeeps(lab, r, i, confirm);
    case Recover(i) => RecoverKeeps(lab, r, i);
    case OutsideEdit(_, _, _, _, _, _) => EditKeeps(lab, r, step);
  }

  lemma {:induction false} EveryRunKeeps(lab: Lab, r: Run, script: seq<(Step, nat)>)
    requires Inv(lab, r)
    ensures Inv(lab, RunAll(lab, r, script))
  {
    hide Inv, TraceOf;
    if script != [] {
      var n := |script| - 1;
      EveryRunKeeps(lab, r, script[..n]);
      StepKeeps(lab, RunAll(lab, r, script[..n]), script[n].0);
    }
  }

  lemma FreshInv(lab: Lab, r: Run)
    requires Fresh(r)
    ensures Inv(lab, r)
  {
  }

  // ---- main results -------------------------------------------------------

  // The pending record is the one of this start, or was written after it.
  ghost predicate Covers(lab: Lab, history: seq<Happening>, k: nat, pending: Pending)
    requires k < |history| && history[k].Started?
  {
    pending == RecordFor(lab, history[k].start) || Pended(pending) in history[k + 1..]
  }

  lemma {:induction false} LastRecordCovers(lab: Lab, history: seq<Happening>, k: nat)
    requires k < |history| && history[k].Started? && LastRecord(history[..k]) == Some(RecordFor(lab, history[k].start))
    ensures LastRecord(history).Some? && Covers(lab, history, k, LastRecord(history).value)
  {
    var n := |history| - 1;
    if k < n {
      assert history[..n][..k] == history[..k];
      LastRecordCovers(lab, history[..n], k);
      assert history[k + 1..] == history[..n][k + 1..] + [history[n]];
    }
  }

  // In every reachable state, after any crash: if terraform was started and no
  // clean reconciliation, verified-empty recovery or confirmed polling followed,
  // the pending record is on disk. It is the record of that very start or one
  // written since, and it names a plan that was reviewed for its operation.
  lemma UnresolvedHasPending(lab: Lab, r: Run, script: seq<(Step, nat)>)
    requires Fresh(r)
    ensures var s := RunAll(lab, r, script);
            Unresolved(lab, s.history) ==> s.files.pending.Some? && NamesReview(lab, s.history, s.files.pending.value)
    ensures var s := RunAll(lab, r, script);
            forall k: nat :: k < |s.history| && s.history[k].Started? && NoneResolves(lab, s.history, k + 1) ==>
              s.files.pending.Some? && Covers(lab, s.history, k, s.files.pending.value)
  {
    hide RunAll, NamesReview, Covers, LastRecord, NoneResolves;
    FreshInv(lab, r);
    EveryRunKeeps(lab, r, script);
    var s := RunAll(lab, r, script);
    forall k: nat | k < |s.history| && s.history[k].Started? && NoneResolves(lab, s.history, k + 1)
      ensures s.files.pending.Some? && Covers(lab, s.history, k, s.files.pending.value)
    {
      assert Unresolved(lab, s.history);
      assert Sound(lab, s.history[..k], s.history[k]);
      LastRecordCovers(lab, s.history, k);
    }
  }

  // Terraform only ever starts on bytes that an earlier completed save_plan of
  // that stage accepted, with configuration, lock, state and commit as recorded
  // then, at most an hour later, under an approval that names the digest of
  // those bytes.
  lemma StartsAreReviewed(lab: Lab, r: Run, script: seq<(Step, nat)>, k: nat)
    requires Fresh(r) && CollisionFree(lab)
    requires k < |RunAll(lab, r, script).history| && RunAll(lab, r, script).history[k].Started?
    ensures var h := RunAll(lab, r, script).history;
            var start := h[k].start;
            && (exists review :: Reviewed(review) in h[..k]
                  && start.stage == review.stage && start.plan == review.plan
                  && start.config == Some(review.config) && start.lock == Some(review.lock)
                  && start.state == review.state && start.commit == Some(review.commit)
                  && 0.0 <= start.at - review.createdAt <= MAX_PLAN_AGE_S)
            && start.approval == Phrase(start.stage, lab.runTag, lab.hash(start.plan))
            && lab.render(start.plan).Some?
            && (start.stage == ApplyStage ==> CreatesExactlyExpected(lab.render(start.plan).value))
            && (start.stage == DestroyStage ==> DeletesOnlyExpected(lab.render(start.plan).value))
  {
    hide RunAll, EnforceStageRules, Classify, CleanlyWritten, Unresolved, Phrase;
    FreshInv(lab, r);
    EveryRunKeeps(lab, r, script);
    var h := RunAll(lab, r, script).history;
    var start := h[k].start;
    assert Sound(lab, h[..k], h[k]);
    var review :| Reviewed(review) in h[..k] && Authorized(lab, start, review);
    var j :| 0 <= j < k && h[j] == Reviewed(review);
    assert Sound(lab, h[..j], h[j]);
    assert start.plan == review.plan;
    ApplyRulesExactly(lab.render(review.plan).value);
    DestroyRulesExactly(lab.render(review.plan).value);
  }

  // An open pilot gate: nothing is unresolved, the recorded resources are what
  // some clean inspection saw, one to one with the provider where that answered
  // from one snapshot, and unless the ledger is marked destroyed, terraform was
  // not started since.
  lemma OpenGateIsReconciled(lab: Lab, r: Run, script: seq<(Step, nat)>)
    requires Fresh(r)
    requires var s := RunAll(lab, r, script);
             s.files.ledger.Some? && PilotBlockers(s.files.ledger.value, s.files.pending.Some?) == []
    ensures var s := RunAll(lab, r, script);
            var resources := s.files.ledger.value.resources;
            && !Unresolved(lab, s.history)
            && exists k: nat :: CleanAt(lab, s.history, resources, k) && s.history[k].sweep.Answered?
                 && (!s.files.ledger.value.destroyed ==> NoStart(s.history, k + 1))
                 && (Coherent(s.history[k].sweep.provider) ==>
                   Corresponds(lab.runTag, resources, s.history[k].sweep.provider))
  {
    hide RunAll, NewLedger, HasReview, SoundHistory, NamesReview, Unresolved, Coherent, Corresponds, NoStart;
    FreshInv(lab, r);
    EveryRunKeeps(lab, r, script);
    var s := RunAll(lab, r, script);
    var ledger := s.files.ledger.value;
    GateParts(ledger, s.files.pending.Some?);
    assert CleanlyWritten(lab, s, ledger);
    var k: nat :| CleanAt(lab, s.history, ledger.resources, k) && (!ledger.destroyed ==> NoStart(s.history, k + 1));
    var sweep := s.history[k].sweep;
    CleanNeedsProvider(lab.runTag, Some(ledger.resources), sweep, None);
    if Coherent(sweep.provider) {
      CleanIffCorresponds(lab.runTag, Some(ledger.resources), sweep, None);
    }
  }

  // The gate opens exactly on a reconciled, provider-checked ledger of one
  // instance and one firewall with nothing pending.
  lemma GateParts(ledger: Ledger, pending: bool)
    ensures PilotBlockers(ledger, pending) == [] <==>
            && !pending && ledger.reconciled && ledger.reconciliation.providerChecked
            && |OfKind(ledger.resources, INSTANCE)| == 1 && |OfKind(ledger.resources, FIREWALL)| == 1
  {
    hide OfKind;
  }

  // The gate does not say that the resources are still alive: after a confirmed
  // teardown whose pending record was removed it is open exactly when the
  // destroyed ledger was cleanly reconciled before.
  lemma ConfirmedTeardownKeepsGate(lab: Lab, r: Run, i: DestroyInput, confirm: Result<nat, Refusal>)
    requires DestroyRun(lab, r, i, confirm).1.Ok? && i.unlinked
    ensures var s := Last(r, DestroyRun(lab, r, i, confirm).0);
            && r.files.ledger.Some? && s.files.ledger.Some? && s.files.ledger.value.destroyed
            && (PilotBlockers(s.files.ledger.value, s.files.pending.Some?) == [] <==>
                PilotBlockers(r.files.ledger.value, false) == [])
  {
    hide ValidRunTag, VerifySavedPlan, VerifyTeardownIdentity, Phrase, Addresses, OfKind;
  }

  // ---- a spent plan -------------------------------------------------------

  lemma {:induction false} MetaKept(lab: Lab, r: Run, script: seq<(Step, nat)>, stage: Stage)
    requires stage in r.files.metas
    requires forall k :: 0 <= k < |script| ==> Unsaved(script[k].0, stage)
    ensures stage in RunAll(lab, r, script).files.metas
    ensures RunAll(lab, r, script).files.metas[stage] == r.files.metas[stage]
  {
    hide TraceOf;
    if script != [] {
      var n := |script| - 1;
      MetaKept(lab, r, script[..n], stage);
      MetaKeptByStep(lab, RunAll(lab, r, script[..n]), script[n].0, stage);
    }
  }

  // The step does not record a new plan for the stage.
  predicate Unsaved(step: Step, stage: Stage) {
    && (step.SavePlan? ==> step.stage != stage)
    && (step.PlanDestroy? ==> stage != DestroyStage)
  }

  ghost predicate MetasKept(r: Run, trace: seq<Run>) {
    forall k :: 0 <= k < |trace| ==> trace[k].files.metas == r.files.metas
  }

  lemma ReconcileMetas(lab: Lab, r: Run, show: Option<seq<Resource>>, sweep: Sweep, unlinked: bool)
    ensures MetasKept(r, ReconcileRun(lab, r, show, sweep, unlinked).0)
  {
    hide NewLedger, ReportOf;
  }

  lemma FinishMetas(r: Run, done: Run, exitOk: bool, report: Report)
    requires done.files.metas == r.files.metas
    ensures MetasKept(r, FinishRun(done, exitOk, report).0)
  {
    hide AttachFailure;
  }

  lemma ApplyMetas(lab: Lab, r: Run, i: ApplyInput)
    ensures MetasKept(r, ApplyRun(lab, r, i).0)
  {
    hide ApplyGate, ReconcileRun, FinishRun;
    var gate := ApplyGate(lab, r.files, i);
    if gate.Ok? && ApplyStage in r.files.plans {
      var started := AttemptRun(lab, r, i, gate.value);
      var (reconciling, report) := ReconcileRun(lab, Last(r, started), i.show, i.sweep, i.unlinked);
      ReconcileMetas(lab, Last(r, started), i.show, i.sweep, i.unlinked);
      ReconcileTrace(lab, Last(r, started), i.show, i.sweep, i.unlinked);
      FinishMetas(r, Last(r, reconciling), i.exitOk, report);
    }
  }

  lemma DestroyMetas(lab: Lab, r: Run, i: DestroyInput, confirm: Result<nat, Refusal>)
    ensures MetasKept(r, DestroyRun(lab, r, i, confirm).0)
  {
    hide DestroyGate, ReconcileRun;
    var gate := DestroyGate(lab, r.files, i);
    if gate.Ok? && DestroyStage in r.files.plans {
      var r2 := PutEvent(PutPending(r, Pending(lab.runTag, DestroyStage, gate.value.planDigest)), TeardownStarted);
      var r3 := RanTerraform(r2, StartOf(r2.files, DestroyStage, i.approval, i.now), i.newState);
      ReconcileMetas(lab, r3, i.showAfter, i.sweepAfter, i.unlinked);
    }
  }

  lemma SavePlanMetas(
      lab: Lab, r: Run, saved: Stage, planned: Planned, textOk: bool, versionOk: bool, now: real, stage: Stage)
    requires stage in r.files.metas && saved != stage
    ensures forall k :: 0 <= k < |SavePlanRun(lab, r, saved, planned, textOk, versionOk, now).0| ==>
              && stage in SavePlanRun(lab, r, saved, planned, textOk, versionOk, now).0[k].files.metas
              && SavePlanRun(lab, r, saved, planned, textOk, versionOk, now).0[k].files.metas[stage] ==
                r.files.metas[stage]
  {
    hide ValidRunTag, Classify, EnforceStageRules, Targets;
  }

  lemma MetaKeptByStep(lab: Lab, r: Run, step: Step, stage: Stage)
    requires stage in r.files.metas && Unsaved(step, stage)
    ensures forall k :: 0 <= k < |TraceOf(lab, r, step)| ==>
              && stage in TraceOf(lab, r, step)[k].files.metas
              && TraceOf(lab, r, step)[k].files.metas[stage] == r.files.metas[stage]
  {
    hide SavePlanRun, ApplyRun, ReconcileRun, DestroyRun, RecoverGate, VerifyTeardownIdentity, RecoveredLedger;
    match step
    case SavePlan(saved, planned, textOk, versionOk, now) =>
      SavePlanMetas(lab, r, saved, planned, textOk, versionOk, now, stage);
    case Apply(i) => ApplyMetas(lab, r, i);
    case ReconcileNow(show, sweep, unlinked) => ReconcileMetas(lab, r, show, sweep, unlinked);
    case PlanDestroy(i) => SavePlanMetas(lab, r, DestroyStage, i.planned, i.textOk, i.versionOk, i.now, stage);
    case Destroy(i, confirm) => DestroyMetas(lab, r, i, confirm);
    case Recover(i) =>
    case OutsideEdit(_, _, _, _, _, _) =>
  }

  // Once the state differs from the one a plan was saved for, that plan starts
  // nothing more, whatever else happens, until a new plan is saved or the state
  // is back to the recorded bytes.
  lemma SpentPlanStartsNothing(lab: Lab, r: Run, script: seq<(Step, nat)>, i: ApplyInput)
    requires CollisionFree(lab)
    requires ApplyStage in r.files.metas && r.files.metas[ApplyStage].stateDigest == OptionalDigest(lab, r.files.state)
    requires forall k :: 0 <= k < |script| ==> Unsaved(script[k].0, ApplyStage)
    requires RunAll(lab, r, script).files.state != r.files.state
    ensures var s := RunAll(lab, r, script);
            ApplyRun(lab, s, i).0 == [] && ApplyRun(lab, s, i).1.Err?
  {
    hide RunAll, ValidRunTag, Phrase, ReconcileRun;
    MetaKept(lab, r, script, ApplyStage);
    var s := RunAll(lab, r, script);
    var meta := r.files.metas[ApplyStage];
    assert s.files.metas[ApplyStage] == meta;
    assert OptionalDigest(lab, s.files.state) != meta.stateDigest;
  }

  // ---- what a step may forget ---------------------------------------------

  // Something seen since r ends the operation, and nothing was started after it.
  ghost predicate SeenSince(lab: Lab, r: Run, s: Run) {
    exists j: nat :: |r.history| <= j < |s.history| && Resolves(lab, s.history[j]) && NoStart(s.history, j + 1)
  }

  // No history is lost, and an absent pending record was either absent before,
  // with nothing started in between, or ended by something seen in between.
  ghost predicate EarnedBy(lab: Lab, r: Run, s: Run) {
    && r.history <= s.history
    && (s.files.pending.None? ==> (r.files.pending.None? && NoStart(s.history, |r.history|)) || SeenSince(lab, r, s))
  }

  ghost predicate Earned(lab: Lab, r: Run, trace: seq<Run>) {
    forall k :: 0 <= k < |trace| ==> EarnedBy(lab, r, trace[k])
  }

  lemma EarnedThrough(lab: Lab, r: Run, base: Run, trace: seq<Run>)
    requires base.files.pending.Some? && r.history <= base.history && Earned(lab, base, trace)
    ensures Earned(lab, r, trace)
  {
    hide Resolves, NoStart;
    forall k | 0 <= k < |trace| ensures EarnedBy(lab, r, trace[k]) {
      assert EarnedBy(lab, base, trace[k]);
    }
  }

  lemma ReconcileEarns(lab: Lab, r: Run, show: Option<seq<Resource>>, sweep: Sweep, unlinked: bool)
    ensures Earned(lab, r, ReconcileRun(lab, r, show, sweep, unlinked).0)
  {
    hide Reconciled, Clean;
    CleanNeedsProvider(lab.runTag, show, sweep, r.files.pending);
    SeenNow(lab, r, Inspected(show, sweep));
  }

  lemma SeenNow(lab: Lab, r: Run, e: Happening)
    requires !e.Started?
    ensures EarnedBy(lab, r, See(r, e)) && (Resolves(lab, e) ==> SeenSince(lab, r, See(r, e)))
  {
    hide Resolves;
    var h := r.history + [e];
    assert NoStart(h, |r.history|) && NoStart(h, |r.history| + 1) && h[|r.history|] == e;
  }

  // The writes after a reconciliation inside apply keep its verdict.
  lemma TailEarns(lab: Lab, r: Run, done: Run, event: Event, receipt: Receipt)
    requires EarnedBy(lab, r, done) && done.files.ledger.Some?
    ensures EarnedBy(lab, r, PutEvent(done, event)) && EarnedBy(lab, r, PutReceipt(done, receipt))
    ensures EarnedBy(lab, r, PutLedger(done, AttachFailure(done.files.ledger)))
  {
    hide Resolves;
  }

  lemma ApplyEarns(lab: Lab, r: Run, i: ApplyInput)
    ensures Earned(lab, r, ApplyRun(lab, r, i).0)
  {
    hide ApplyGate, ReconcileRun, EarnedBy, AttachFailure, NewLedger;
    var gate := ApplyGate(lab, r.files, i);
    if gate.Ok? && ApplyStage in r.files.plans {
      var r1 := PutPending(r, Pending(lab.runTag, ApplyStage, gate.value.planDigest));
      var r2 := RanTerraform(r1, StartOf(r1.files, ApplyStage, i.approval, i.now), i.newState);
      var started := AttemptRun(lab, r, i, gate.value);
      BeforeReconcileEarns(lab, r, r1, r2);
      var base := Last(r, started);
      var (reconciling, report) := ReconcileRun(lab, base, i.show, i.sweep, i.unlinked);
      ReconcileEarns(lab, base, i.show, i.sweep, i.unlinked);
      ReconcileTrace(lab, base, i.show, i.sweep, i.unlinked);
      EarnedThrough(lab, r, base, reconciling);
      var done := Last(r, reconciling);
      TailEarns(lab, r, done, ApplyAttempted(i.exitOk), ApplyDiagnostic);
      var r3 := PutEvent(done, ApplyAttempted(i.exitOk));
      TailEarns(lab, r, r3, Provisioned(report.count), ApplyFailure(report.reconciled, report.count));
      TailEarns(lab, r, PutReceipt(r3, ApplyFailure(report.reconciled, report.count)), ApplyAborted, ApplyDiagnostic);
    }
  }

  lemma BeforeReconcileEarns(lab: Lab, r: Run, r1: Run, r2: Run)
    requires r1.files.pending.Some? && r.history <= r1.history && r2.files.pending.Some? && r.history <= r2.history
    ensures EarnedBy(lab, r, r1) && EarnedBy(lab, r, r2) && EarnedBy(lab, r, PutReceipt(r2, ApplyDiagnostic))
  {
  }

  lemma DestroyEarns(lab: Lab, r: Run, i: DestroyInput, confirm: Result<nat, Refusal>)
    ensures Earned(lab, r, DestroyRun(lab, r, i, confirm).0)
  {
    hide DestroyGate, ReconcileRun, EarnedBy;
    var gate := DestroyGate(lab, r.files, i);
    if gate.Ok? && DestroyStage in r.files.plans && r.files.ledger.Some? {
      var r1 := PutPending(r, Pending(lab.runTag, DestroyStage, gate.value.planDigest));
      var r2 := PutEvent(r1, TeardownStarted);
      var r3 := RanTerraform(r2, StartOf(r2.files, DestroyStage, i.approval, i.now), i.newState);
      BeforeReconcileEarns(lab, r, r1, r3);
      BeforeReconcileEarns(lab, r, r2, r3);
      if !i.exitOk {
        ReconcileEarns(lab, r3, i.showAfter, i.sweepAfter, i.unlinked);
        EarnedThrough(lab, r, r3, ReconcileRun(lab, r3, i.showAfter, i.sweepAfter, i.unlinked).0);
      } else {
        PollEarns(lab, r3, r.files.ledger.value, confirm, i.unlinked);
        var polled := See(r3, Polled(r.files.ledger.value.resources, confirm));
        EarnedThrough(lab, r, r3, [polled]);
        if confirm.Ok? {
          var tail := DestroyedRun(polled, r.files.ledger.value, confirm.value, i.unlinked);
          EarnedThrough(lab, r, r3, [polled] + tail);
          assert forall k :: 0 <= k < |tail| ==> ([polled] + tail)[k + 1] == tail[k];
        }
      }
    }
  }

  lemma PollEarns(lab: Lab, r: Run, ledger: Ledger, confirm: Result<nat, Refusal>, unlinked: bool)
    ensures var polled := See(r, Polled(ledger.resources, confirm));
            && Earned(lab, r, [polled])
            && (confirm.Ok? ==> Earned(lab, r, [polled] + DestroyedRun(polled, ledger, confirm.value, unlinked)))
  {
    hide NoStart;
    SeenNow(lab, r, Polled(ledger.resources, confirm));
  }

  lemma RecoverEarns(lab: Lab, r: Run, i: RecoverInput)
    ensures Earned(lab, r, RecoverRun(lab, r, i).0)
  {
    hide ValidRunTag, Blank, NothingOurs, NoStart, RecoveredLedger;
    if RecoverGate(lab, r.files, i).None? {
      SeenNow(lab, r, Swept(i.show, r.files.ledger.value.resources, i.orphans, i.recheck));
    }
  }

  // Whatever the state, no step and no crash inside one loses the pending record
  // unless that very step saw what ends the operation after the last start, and
  // no step rewrites history.
  lemma ResolutionIsEarned(lab: Lab, r: Run, step: Step)
    ensures Earned(lab, r, TraceOf(lab, r, step))
  {
    hide SavePlanRun, ApplyRun, ReconcileRun, DestroyRun, RecoverRun, VerifyTeardownIdentity;
    match step
    case SavePlan(stage, planned, textOk, versionOk, now) =>
      SavePlanStartsNothing(lab, r, stage, planned, textOk, versionOk, now);
    case Apply(i) => ApplyEarns(lab, r, i);
    case ReconcileNow(show, sweep, unlinked) => ReconcileEarns(lab, r, show, sweep, unlinked);
    case PlanDestroy(i) => SavePlanStartsNothing(lab, r, DestroyStage, i.planned, i.textOk, i.versionOk, i.now);
    case Destroy(i, confirm) => DestroyEarns(lab, r, i, confirm);
    case Recover(i) => RecoverEarns(lab, r, i);
    case OutsideEdit(_, _, _, _, _, _) =>
  }

  lemma SavePlanStartsNothing(
      lab: Lab, r: Run, stage: Stage, planned: Planned, textOk: bool, versionOk: bool, now: real)
    ensures Earned(lab, r, SavePlanRun(lab, r, stage, planned, textOk, versionOk, now).0)
  {
    hide ValidRunTag, Classify, EnforceStageRules, Targets, Resolves;
  }

  // ---- teardown and recovery ----------------------------------------------

  lemma {:induction false} AddressesCount(resources: seq<Resource>, address: string)
    ensures address in Addresses(resources) <==> exists r :: r in resources && r.address == address
  {
    if resources != [] {
      var n := |resources| - 1;
      AddressesCount(resources[..n], address);
      assert resources == resources[..n] + [resources[n]];
      assert resources[n] in resources;
    }
  }

  // The target set of a plan cannot equal the ledger's address list unless the
  // ledger's addresses are distinct.
  lemma {:induction false} EqualTargetsMeanDistinct(resources: seq<Resource>, targets: set<string>)
    requires Addresses(resources) <= multiset(targets)
    ensures forall i, j :: 0 <= i < j < |resources| ==> resources[i].address != resources[j].address
  {
    if resources != [] {
      var n := |resources| - 1;
      var last := resources[n].address;
      EqualTargetsMeanDistinct(resources[..n], targets);
      AddressesCount(resources[..n], last);
      assert multiset(targets)[last] <= 1;
      assert Addresses(resources)[last] == Addresses(resources[..n])[last] + 1;
      forall i, j | 0 <= i < j < |resources| ensures resources[i].address != resources[j].address {
        if j < n {
          assert resources[..n][i].address != resources[..n][j].address;
        } else {
          assert resources[..n][i] in resources[..n];
        }
      }
    }
  }

  // destroy reports success only after every resource of the ledger, by the
  // provider reference recorded for it, was probed absent.
  lemma DestroyReportsAbsence(
    lab: Lab, r: Run, i: DestroyInput, o: Observed, interval: real, timeout: real, confirm: Result<nat, Refusal>,
    rounds: nat)
    requires interval > 0.0 && r.files.ledger.Some?
    requires PollEnds(r.files.ledger.value.resources, o, interval, timeout, confirm, rounds)
    requires DestroyRun(lab, r, i, confirm).1.Ok?
    ensures forall x :: x in r.files.ledger.value.resources ==>
              && (x.address, RefOf(x)) in PollTable(r.files.ledger.value.resources).Items
              && exists k: nat :: k < rounds && Answers(o, k, x.address, Absent)
  {
    hide ValidRunTag, VerifySavedPlan, VerifyTeardownIdentity, Phrase, Addresses, ReconcileRun, PollTable, Answers;
    var resources := r.files.ledger.value.resources;
    var gate := DestroyGate(lab, r.files, i);
    assert gate.Ok? && confirm.Ok?;
    assert multiset(gate.value.targets) == Addresses(resources);
    EqualTargetsMeanDistinct(resources, gate.value.targets);
    ConfirmedMeansAllAbsent(resources, o, rounds);
  }

  // Recovery removes a pending apply only when the state, the ledger and both
  // provider sweeps show nothing of ours, and it never opens the pilot gate.
  lemma RecoveryIsVerifiedEmpty(lab: Lab, r: Run, i: RecoverInput)
    requires RecoverRun(lab, r, i).1.None? && RecoverRun(lab, r, i).0 != []
    ensures r.files.pending.Some? && r.files.pending.value.operation == ApplyStage
    ensures i.show == Some([]) && r.files.ledger.Some? && r.files.ledger.value.resources == []
    ensures i.orphans.Some? && NothingOurs(i.orphans.value) && i.recheck.Some? && NothingOurs(i.recheck.value)
    ensures forall s :: s in RecoverRun(lab, r, i).0 ==>
              s.files.ledger.Some? && PilotBlockers(s.files.ledger.value, s.files.pending.Some?) != []
  {
    hide ValidRunTag, Blank, NothingOurs;
  }

  // A ledger resource that is the state's and the provider's: same type, id and
  // label, the project's tags in both, and one non-empty instance region.
  predicate TeardownMatch(l: Resource, s: Resource, v: Item, runTag: string) {
    && ExpectedKind(l.address) == Some(l.kind) && s.kind == l.kind
    && s.providerId == l.providerId == v.id && s.labelText == l.labelText == v.labelText && LABEL_PREFIX <= s.labelText
    && OwnTags(s.tags, runTag) && OwnTags(v.tags, runTag)
    && (l.kind == INSTANCE ==> l.region != "" && l.region == s.region == v.region)
  }

  ghost predicate TeardownVerified(
    runTag: string, ledger: Ledger, access: bool, show: Option<seq<Resource>>, views: map<Ref, Item>)
  {
    && ValidRunTag(runTag) && ledger.runTag == runTag && access && show.Some?
    && forall l :: l in ledger.resources ==>
         && l.address in ByAddress(show.value) && ViewOf(l, views).Some?
         && TeardownMatch(l, ByAddress(show.value)[l.address], ViewOf(l, views).value, runTag)
  }

  lemma TeardownMismatches(l: Resource, state: Option<Resource>, runTag: string, view: Option<Item>)
    ensures VerifyResourceIdentity(l, state, runTag, view, true) == [] <==>
            state.Some? && view.Some? && TeardownMatch(l, state.value, view.value, runTag)
  {
    if state.Some? && ExpectedKind(l.address).Some? {
      var s, kind := state.value, ExpectedKind(l.address).value;
      NoDifferences(l, s, kind, runTag);
      NoApiMismatches(l, s, runTag, view);
      hide ExpectedKind, Differences, ApiMismatches, OwnTags;
      var a, b, c := Differences(l, s, kind, runTag), ApiMismatches(l, s, runTag, view), RegionFaults(l, s);
      assert |VerifyResourceIdentity(l, state, runTag, view, true)| == |a| + |b| + |c|;
    }
  }

  lemma NoDifferences(l: Resource, s: Resource, kind: string, runTag: string)
    ensures Differences(l, s, kind, runTag) == [] <==>
            && l.kind == s.kind == kind && l.providerId == s.providerId && l.labelText == s.labelText
            && LABEL_PREFIX <= s.labelText && OwnTags(s.tags, runTag)
  {
  }

  lemma NoApiMismatches(l: Resource, s: Resource, runTag: string, view: Option<Item>)
    ensures ApiMismatches(l, s, runTag, view) == [] <==>
            && view.Some? && view.value.id == l.providerId && view.value.labelText == l.labelText
            && OwnTags(view.value.tags, runTag)
            && (l.kind == INSTANCE ==> view.value.region != "" && view.value.region == s.region == l.region)
  {
  }

  // Teardown identity holds exactly when every ledger resource is matched by
  // the current state and by the provider's own answer.
  lemma TeardownVerifiedExactly(
    runTag: string, ledger: Ledger, access: bool, show: Option<seq<Resource>>, views: map<Ref, Item>)
    ensures VerifyTeardownIdentity(runTag, ledger, access, show, views).None? <==>
            TeardownVerified(runTag, ledger, access, show, views)
  {
    hide ValidRunTag, VerifyResourceIdentity, TeardownMatch, ViewOf;
    if show.Some? {
      forall l: Resource
        ensures var state := Lookup(ByAddress(show.value), l.address);
                VerifyResourceIdentity(l, state, runTag, ViewOf(l, views), true) == [] <==>
                && l.address in ByAddress(show.value) && ViewOf(l, views).Some?
                && TeardownMatch(l, ByAddress(show.value)[l.address], ViewOf(l, views).value, runTag)
      {
        TeardownMismatches(l, Lookup(ByAddress(show.value), l.address), runTag, ViewOf(l, views));
      }
    }
  }

  // A teardown writes nothing and starts nothing unless it runs locally on a
  // verified ledger with distinct addresses.
  lemma TeardownStartsVerified(lab: Lab, r: Run, i: DestroyInput, confirm: Result<nat, Refusal>)
    requires DestroyRun(lab, r, i, confirm).0 != []
    ensures !i.hosted && r.files.ledger.Some? && r.files.ledger.value.resources != []
    ensures TeardownVerified(lab.runTag, r.files.ledger.value, i.access, i.show, i.views)
    ensures var resources := r.files.ledger.value.resources;
            forall j, k :: 0 <= j < k < |resources| ==> resources[j].address != resources[k].address
  {
    hide ValidRunTag, VerifySavedPlan, VerifyTeardownIdentity, Phrase, Addresses, TeardownVerified, ReconcileRun,
         StartDestroyRun, DestroyedRun;
    var ledger := r.files.ledger.value;
    TeardownVerifiedExactly(lab.runTag, ledger, i.access, i.show, i.views);
    EqualTargetsMeanDistinct(ledger.resources, DestroyGate(lab, r.files, i).value.targets);
  }

  // An apply writes nothing and starts nothing for a malformed or historical run
  // tag, on hosted infrastructure, or without the exact approval of a verified plan.
  lemma ApplyStartsGuarded(lab: Lab, r: Run, i: ApplyInput)
    requires ApplyRun(lab, r, i).0 != []
    ensures ValidRunTag(lab.runTag) && lab.runTag !in HISTORICAL_ABORTED_RUN_TAGS && !i.hosted
    ensures ApplyStage in r.files.metas && ApplyStage in r.files.plans
    ensures i.approval == Phrase(ApplyStage, lab.runTag, lab.hash(r.files.plans[ApplyStage]))
    ensures r.files.metas[ApplyStage].runTag == lab.runTag
    ensures 0.0 <= i.now - r.files.metas[ApplyStage].createdAt <= MAX_PLAN_AGE_S
  {
    hide ValidRunTag, Phrase, AttemptRun, ReconcileRun, FinishRun;
  }
}
