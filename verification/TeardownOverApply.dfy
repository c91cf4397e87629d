/** An apply that no reconciliation resolved loses its pending record to a
    confirmed teardown: exactly which steps do that, and a run that does. */
module TeardownOverApply {
  import opened Common
  import opened LifecycleModel
  import opened Reconcile
  import opened PlanGate
  import opened DeletionPoll
  import opened LifecycleRun
  import opened LifecycleSafety
  import opened OpenAfterTeardown

  // No inspection was clean and no recovery found nothing.
  ghost predicate Unsettled(lab: Lab, history: seq<Happening>, from: nat) {
    forall j :: from <= j < |history| && (history[j].Inspected? || history[j].Swept?) ==> !Resolves(lab, history[j])
  }

  // An apply was started and neither cleanly reconciled nor recovered since.
  ghost predicate Unreconciled(lab: Lab, history: seq<Happening>, k: nat) {
    k < |history| && history[k].Started? && history[k].start.stage == ApplyStage && Unsettled(lab, history, k + 1)
  }

  // A reachable state without a pending record and with an unreconciled apply
  // saw a confirmed polling after that apply.
  lemma UnreconciledMeansPolled(lab: Lab, r: Run, script: seq<(Step, nat)>, k: nat)
    requires Fresh(r)
    requires RunAll(lab, r, script).files.pending.None? && Unreconciled(lab, RunAll(lab, r, script).history, k)
    ensures var h := RunAll(lab, r, script).history;
            exists j :: k < j < |h| && h[j].Polled? && h[j].outcome.Ok?
  {
    hide RunAll;
    UnresolvedHasPending(lab, r, script);
    var h := RunAll(lab, r, script).history;
    assert !NoneResolves(lab, h, k + 1);
  }

  // ---- the steps that do it -----------------------------------------------

  // A teardown that passes its gate, exits well, is confirmed and can unlink.
  predicate ConfirmedTeardown(lab: Lab, r: Run, step: Step) {
    && step.Destroy? && DestroyGate(lab, r.files, step.destroy).Ok?
    && step.destroy.exitOk && step.confirm.Ok? && step.destroy.unlinked
  }

  // Pending record, session event, terraform, polling, ledger, unlink.
  const UNLINKED: nat := 6

  // The pending record is gone although nothing seen since r settles it.
  ghost predicate Dropped(lab: Lab, r: Run, s: Run) {
    s.files.pending.None? && Unsettled(lab, s.history, |r.history|)
  }

  ghost predicate NoneDropped(lab: Lab, r: Run, trace: seq<Run>) {
    forall k :: 0 <= k < |trace| ==> !Dropped(lab, r, trace[k])
  }

  lemma KeptPending(lab: Lab, r: Run, trace: seq<Run>)
    requires forall k :: 0 <= k < |trace| ==> trace[k].files.pending.Some?
    ensures NoneDropped(lab, r, trace)
  {
    hide Unsettled;
  }

  lemma SavePlanKeepsPending(
    lab: Lab, r: Run, stage: Stage, planned: Planned, textOk: bool, versionOk: bool, now: real)
    requires r.files.pending.Some?
    ensures NoneDropped(lab, r, SavePlanRun(lab, r, stage, planned, textOk, versionOk, now).0)
  {
    hide ValidRunTag, Classify, EnforceStageRules, Targets, Unsettled;
  }

  // A reconciliation only unlinks after a clean inspection, whenever it began.
  lemma ReconcileSettles(
    lab: Lab, r: Run, base: Run, show: Option<seq<Resource>>, sweep: Sweep, unlinked: bool)
    requires base.files.pending.Some? && |r.history| <= |base.history|
    ensures NoneDropped(lab, r, ReconcileRun(lab, base, show, sweep, unlinked).0)
    ensures !Dropped(lab, r, Last(base, ReconcileRun(lab, base, show, sweep, unlinked).0))
  {
    hide NewLedger;
    CleanNeedsProvider(lab.runTag, show, sweep, base.files.pending);
    var seen := Inspected(show, sweep);
    assert (base.history + [seen])[|base.history|] == seen;
  }

  lemma FinishDropsNothing(lab: Lab, r: Run, done: Run, exitOk: bool, report: Report)
    requires !Dropped(lab, r, done)
    ensures NoneDropped(lab, r, FinishRun(done, exitOk, report).0)
  {
    hide AttachFailure, Unsettled;
  }

  lemma ApplyDropsNothing(lab: Lab, r: Run, i: ApplyInput)
    ensures NoneDropped(lab, r, ApplyRun(lab, r, i).0)
  {
    hide ApplyGate, ReconcileRun, FinishRun, Dropped;
    var gate := ApplyGate(lab, r.files, i);
    if gate.Ok? && ApplyStage in r.files.plans {
      var started := AttemptRun(lab, r, i, gate.value);
      KeptPending(lab, r, started);
      var base := Last(r, started);
      var (reconciling, report) := ReconcileRun(lab, base, i.show, i.sweep, i.unlinked);
      ReconcileSettles(lab, r, base, i.show, i.sweep, i.unlinked);
      ReconcileTrace(lab, base, i.show, i.sweep, i.unlinked);
      FinishDropsNothing(lab, r, Last(r, reconciling), i.exitOk, report);
    }
  }

  lemma RecoverDropsNothing(lab: Lab, r: Run, i: RecoverInput)
    requires r.files.pending.Some?
    ensures NoneDropped(lab, r, RecoverRun(lab, r, i).0)
  {
    hide ValidRunTag, Blank, NothingOurs, RecoveredLedger;
    if RecoverGate(lab, r.files, i).None? && r.files.ledger.Some? {
      var seen := Swept(i.show, r.files.ledger.value.resources, i.orphans, i.recheck);
      assert (r.history + [seen])[|r.history|] == seen && Resolves(lab, seen);
    }
  }

  // The start of a teardown and its polling settle nothing.
  lemma TeardownIsUnsettled(lab: Lab, r: Run, i: DestroyInput, meta: Meta, e: Happening)
    requires DestroyStage in r.files.plans && e.Polled?
    ensures var base := Last(r, StartDestroyRun(lab, r, i, meta));
            && base.files.pending.Some? && r.history <= base.history
            && Unsettled(lab, See(base, e).history, |r.history|)
  {
    hide Resolves;
  }

  lemma ConfirmedDrops(lab: Lab, r: Run, polled: Run, ledger: Ledger, count: nat, unlinked: bool)
    requires polled.files.pending.Some? && Unsettled(lab, polled.history, |r.history|)
    ensures var tail := DestroyedRun(polled, ledger, count, unlinked);
            |tail| == 3 && forall k :: 0 <= k < 3 ==> (Dropped(lab, r, tail[k]) <==> unlinked && k >= 1)
  {
    hide Unsettled;
  }

  // A teardown drops the record exactly from its unlink on, and only when it is
  // confirmed; otherwise it keeps the record or inspects.
  lemma DestroyDrops(lab: Lab, r: Run, i: DestroyInput, confirm: Result<nat, Refusal>)
    requires r.files.pending.Some?
    ensures var trace := DestroyRun(lab, r, i, confirm).0;
            forall k :: 0 <= k < |trace| ==>
              (Dropped(lab, r, trace[k]) <==> ConfirmedTeardown(lab, r, Destroy(i, confirm)) && k + 1 >= UNLINKED)
    ensures ConfirmedTeardown(lab, r, Destroy(i, confirm)) ==> |DestroyRun(lab, r, i, confirm).0| == UNLINKED + 1
  {
    GateNeedsFiles(lab, r, i);
    hide DestroyGate, ReconcileRun, StartDestroyRun, DestroyedRun, Dropped, Unsettled;
    var gate := DestroyGate(lab, r.files, i);
    if gate.Ok? {
      var started := StartDestroyRun(lab, r, i, gate.value);
      var base := Last(r, started);
      var ledger := r.files.ledger.value;
      var e := Polled(ledger.resources, confirm);
      StartKeepsPending(lab, r, i, gate.value);
      TeardownIsUnsettled(lab, r, i, gate.value, e);
      ReconcileSettles(lab, r, base, i.showAfter, i.sweepAfter, i.unlinked);
      KeptPending(lab, r, [See(base, e)]);
      assert !Dropped(lab, r, [See(base, e)][0]);
      if confirm.Ok? {
        ConfirmedDrops(lab, r, See(base, e), ledger, confirm.value, i.unlinked);
      }
    }
  }

  lemma StartKeepsPending(lab: Lab, r: Run, i: DestroyInput, meta: Meta)
    requires DestroyStage in r.files.plans
    ensures |StartDestroyRun(lab, r, i, meta)| == 3 && NoneDropped(lab, r, StartDestroyRun(lab, r, i, meta))
  {
    hide Unsettled;
  }

  lemma GateNeedsFiles(lab: Lab, r: Run, i: DestroyInput)
    ensures DestroyGate(lab, r.files, i).Ok? ==> DestroyStage in r.files.plans && r.files.ledger.Some?
  {
    hide ValidRunTag, VerifyTeardownIdentity, Phrase, Addresses;
  }

  // From a state with a pending record, whichever step runs and wherever it is
  // cut: the record is gone without a clean inspection or an empty sweep seen in
  // that step exactly when the step is a confirmed teardown past its unlink.
  lemma DroppedExactly(lab: Lab, r: Run, step: Step, cut: nat)
    requires r.files.pending.Some?
    ensures Dropped(lab, r, After(lab, r, step, cut)) <==> ConfirmedTeardown(lab, r, step) && cut >= UNLINKED
  {
    hide Dropped, SavePlanRun, ApplyRun, ReconcileRun, DestroyRun, RecoverRun, VerifyTeardownIdentity, DestroyGate;
    KeptPending(lab, r, [r]);
    assert !Dropped(lab, r, [r][0]);
    match step
    case SavePlan(stage, planned, textOk, versionOk, now) =>
      SavePlanKeepsPending(lab, r, stage, planned, textOk, versionOk, now);
    case Apply(i) => ApplyDropsNothing(lab, r, i);
    case ReconcileNow(show, sweep, unlinked) => ReconcileSettles(lab, r, r, show, sweep, unlinked);
    case PlanDestroy(i) => SavePlanKeepsPending(lab, r, DestroyStage, i.planned, i.textOk, i.versionOk, i.now);
    case Destroy(i, confirm) => DestroyDrops(lab, r, i, confirm);
    case Recover(i) => RecoverDropsNothing(lab, r, i);
    case OutsideEdit(_, _, _, _, _, _) => KeptPending(lab, r, TraceOf(lab, r, step));
  }

  // ---- a run that does it -------------------------------------------------

  const BOTH_CREATED := [Change(INSTANCE_ADDRESS, ["create"]), Change(FIREWALL_ADDRESS, ["create"])]

  function Saving(creating: Bytes): Step {
    SavePlan(ApplyStage, Planned(true, Some(creating)), true, true, 0.0)
  }

  // An apply whose resources are in the state, and whose sweep answers this.
  function Attempting(lab: Lab, creating: Bytes, resources: seq<Resource>, sweep: Sweep): Step {
    Apply(ApplyInput(
      Phrase(ApplyStage, lab.runTag, lab.hash(creating)), false, 0.0, true, Some("applied"),
      Some(resources), sweep, true))
  }

  lemma BothCreatedAccepted()
    ensures EnforceStageRules(ApplyStage, Classify(BOTH_CREATED)).None?
  {
    ApplyRulesExactly(BOTH_CREATED);
    assert BOTH_CREATED[0] in BOTH_CREATED && BOTH_CREATED[1] in BOTH_CREATED;
  }

  predicate SameSetting(r: Run, s: Run) {
    && s.files.varFile == r.files.varFile && s.files.config == r.files.config
    && s.files.lock == r.files.lock && s.files.commit == r.files.commit
  }

  lemma Saved1(lab: Lab, r: Run, creating: Bytes)
    requires ValidRunTag(lab.runTag) && lab.runTag !in HISTORICAL_ABORTED_RUN_TAGS
    requires lab.render(creating) == Some(BOTH_CREATED)
    requires r.files.varFile && r.files.config.Some? && r.files.lock.Some? && r.files.commit.Some?
    ensures var s := After(lab, r, Saving(creating), WHOLE);
            && Grew(r, s, 1) && SameSetting(r, s) && ApplyStage in s.files.plans
            && VerifySavedPlan(lab, s.files, ApplyStage, 0.0).Ok?
            && VerifySavedPlan(lab, s.files, ApplyStage, 0.0).value.planDigest == lab.hash(creating)
  {
    hide ValidRunTag, Classify, EnforceStageRules, Targets;
    BothCreatedAccepted();
  }

  // A gated apply that exits well ends after its reconciliation and one event
  // when that is not clean.
  lemma UncleanApply(lab: Lab, r: Run, i: ApplyInput, meta: Meta)
    requires ApplyGate(lab, r.files, i) == Ok(meta) && ApplyStage in r.files.plans && i.exitOk
    requires !NewLedger(lab.runTag, i.show, i.sweep, None).reconciled
    ensures var base := Last(r, AttemptRun(lab, r, i, meta));
            After(lab, r, Apply(i), WHOLE) ==
            PutEvent(Last(base, ReconcileRun(lab, base, i.show, i.sweep, i.unlinked).0), ApplyAttempted(true))
  {
    var base := Last(r, AttemptRun(lab, r, i, meta));
    CleanNeedsProvider(lab.runTag, i.show, i.sweep, base.files.pending);
    hide ApplyGate, NewLedger;
  }

  lemma Attempted1(lab: Lab, r: Run, creating: Bytes, resources: seq<Resource>, sweep: Sweep)
    requires ValidRunTag(lab.runTag) && lab.runTag !in HISTORICAL_ABORTED_RUN_TAGS && ApplyStage in r.files.plans
    requires VerifySavedPlan(lab, r.files, ApplyStage, 0.0).Ok?
    requires VerifySavedPlan(lab, r.files, ApplyStage, 0.0).value.planDigest == lab.hash(creating)
    requires !NewLedger(lab.runTag, Some(resources), sweep, None).reconciled
    ensures var s := After(lab, r, Attempting(lab, creating, resources, sweep), WHOLE);
            && Grew(r, s, 3) && SameSetting(r, s)
            && s.files.ledger.Some? && s.files.ledger.value.runTag == lab.runTag
            && s.files.ledger.value.resources == resources
            && s.history[|r.history| + 1].Started? && s.history[|r.history| + 1].start.stage == ApplyStage
            && s.history[|r.history| + 2] == Inspected(Some(resources), sweep)
  {
    hide After, ValidRunTag, VerifySavedPlan, Phrase, NewLedger, ReconcileRun;
    var meta := VerifySavedPlan(lab, r.files, ApplyStage, 0.0).value;
    var i := Attempting(lab, creating, resources, sweep).apply;
    UncleanApply(lab, r, i, meta);
    var base := Last(r, AttemptRun(lab, r, i, meta));
    NewLedgerFacts(lab.runTag, resources, sweep, base.files.pending);
    ReconcileTrace(lab, base, i.show, i.sweep, i.unlinked);
    ReconcileSetting(lab, base, i.show, i.sweep, i.unlinked);
  }

  lemma ReconcileSetting(lab: Lab, r: Run, show: Option<seq<Resource>>, sweep: Sweep, unlinked: bool)
    ensures SameSetting(r, Last(r, ReconcileRun(lab, r, show, sweep, unlinked).0))
  {
    hide NewLedger;
  }

  lemma NewLedgerFacts(runTag: string, resources: seq<Resource>, sweep: Sweep, pending: Option<Pending>)
    ensures var ledger := NewLedger(runTag, Some(resources), sweep, pending);
            ledger.runTag == runTag && ledger.resources == resources
  {
    hide Clean, Reconciled;
  }

  // save_plan, apply with its unclean reconciliation, plan_destroy, destroy.
  function OverUncleanApply(
    lab: Lab, resources: seq<Resource>, p: Provider, sweep: Sweep, creating: Bytes, plan: Bytes): seq<(Step, nat)>
  {
    [(Saving(creating), WHOLE), (Attempting(lab, creating, resources, sweep), WHOLE),
     (Planning(resources, p, plan), WHOLE), (Removing(lab, resources, p, plan), WHOLE)]
  }

  lemma RunFour(lab: Lab, r: Run, script: seq<(Step, nat)>)
    requires |script| == 4
    ensures var early := After(lab, After(lab, r, script[0].0, script[0].1), script[1].0, script[1].1);
            RunAll(lab, r, script) ==
            After(lab, After(lab, early, script[2].0, script[2].1), script[3].0, script[3].1)
  {
    hide After;
    assert script[..3] == [script[0], script[1], script[2]];
    RunThree(lab, r, script[0], script[1], script[2]);
  }

  // From any prepared directory: an apply whose reconciliation is not clean,
  // then plan_destroy and a confirmed destroy. The pending record is gone and
  // the apply is unreconciled.
  lemma TeardownEndsUnreconciledApply(
    lab: Lab, r: Run, resources: seq<Resource>, p: Provider, sweep: Sweep, creating: Bytes, plan: Bytes)
    requires Ready(lab, r, plan) && Corresponds(lab.runTag, resources, p)
    requires lab.runTag !in HISTORICAL_ABORTED_RUN_TAGS && lab.render(creating) == Some(BOTH_CREATED)
    requires !NewLedger(lab.runTag, Some(resources), sweep, None).reconciled
    ensures var s := RunAll(lab, r, OverUncleanApply(lab, resources, p, sweep, creating, plan));
            s.files.pending.None? && exists k: nat :: Unreconciled(lab, s.history, k)
  {
    hide After, NewLedger, Corresponds, ValidRunTag, VerifySavedPlan, RunAll;
    var script := OverUncleanApply(lab, resources, p, sweep, creating, plan);
    RunFour(lab, r, script);
    Saved1(lab, r, creating);
    var r1 := After(lab, r, Saving(creating), WHOLE);
    Attempted1(lab, r1, creating, resources, sweep);
    var r2 := After(lab, r1, Attempting(lab, creating, resources, sweep), WHOLE);
    Planned1(lab, r2, resources, p, plan);
    var r3 := After(lab, r2, Planning(resources, p, plan), WHOLE);
    Removed1(lab, r3, resources, p, plan);
    assert Unreconciled(lab, RunAll(lab, r, script).history, |r1.history| + 1);
  }

  lemma PreparedForBoth() returns (lab: Lab, r: Run)
    ensures Ready(lab, r, "destroy") && Fresh(r) && CollisionFree(lab)
    ensures lab.runTag !in HISTORICAL_ABORTED_RUN_TAGS && lab.render("create") == Some(BOTH_CREATED)
  {
    lab := Lab("abcd", (b: Bytes) => b, (b: Bytes) => Some(if b == "create" then BOTH_CREATED else BOTH_DELETED));
    r := Run(
      Files(map[], {}, map[], None, true, Some("config"), Some("lock"), Some("commit"), None, None, [], []), []);
    assert PlainRunTag(lab.runTag) && "destroy"[0] != "create"[0];
  }

  // Such a run exists: the provider lookup fails while the apply reconciles.
  lemma UnreconciledApplyEnds() returns (lab: Lab, r: Run, script: seq<(Step, nat)>)
    ensures Fresh(r) && CollisionFree(lab)
    ensures var s := RunAll(lab, r, script);
            s.files.pending.None? && exists k: nat :: Unreconciled(lab, s.history, k)
  {
    hide RunAll, Corresponds, Coherent, Ready, Fresh, CollisionFree, OverUncleanApply, NewLedger, Unreconciled;
    lab, r := PreparedForBoth();
    var i, f, p := SharedNumericIdReconciles(lab.runTag, "1");
    CleanIffCorresponds(lab.runTag, Some([i, f]), Answered(p), None);
    CleanNeedsProvider(lab.runTag, Some([i, f]), LookupFailed, None);
    TeardownEndsUnreconciledApply(lab, r, [i, f], p, LookupFailed, "create", "destroy");
    script := OverUncleanApply(lab, [i, f], p, LookupFailed, "create", "destroy");
  }
}
