/** The run directory as the lifecycle operations update it in place. Every
    write is logged, so each method is proved to leave exactly the sequence of
    directory states LifecycleRun describes; a crash leaves a prefix of it. */
module RunDirectory {
  import opened Common
  import opened LifecycleModel
  import opened Reconcile
  import opened PlanGate
  import opened DeletionPoll
  import opened LifecycleRun

  lemma AttemptIsNonEmpty(lab: Lab, r: Run, i: ApplyInput, meta: Meta)
    requires ApplyStage in r.files.plans
    ensures AttemptRun(lab, r, i, meta) != []
  {
  }

  lemma ReconcileIsNonEmpty(lab: Lab, r: Run, show: Option<seq<Resource>>, sweep: Sweep, unlinked: bool)
    ensures ReconcileRun(lab, r, show, sweep, unlinked).0 != []
  {
    hide NewLedger;
  }

  lemma FinishIsNonEmpty(exitOk: bool, report: Report)
    ensures forall r :: FinishRun(r, exitOk, report).0 != []
  {
  }

  lemma StartIsNonEmpty(lab: Lab, r: Run, i: DestroyInput, meta: Meta)
    requires DestroyStage in r.files.plans
    ensures StartDestroyRun(lab, r, i, meta) != []
  {
  }

  lemma DestroyedIsNonEmpty(r: Run, ledger: Ledger, count: nat, unlinked: bool)
    ensures DestroyedRun(r, ledger, count, unlinked) != []
  {
  }

  class RunDirectory {
    const lab: Lab
    var files: Files
    ghost var history: seq<Happening>
    ghost var log: seq<Run>

    constructor (lab: Lab, files: Files)
      ensures this.lab == lab && this.files == files && log == []
      ensures View() == Run(files, [])
    {
      this.lab, this.files := lab, files;
      history, log := [], [];
    }

    ghost function View(): Run
      reads this
    {
      Run(files, history)
    }

    // The log grew by exactly these states, and the last one is current.
    twostate predicate Wrote(trace: seq<Run>)
      reads this
    {
      log == old(log) + trace && View() == Last(old(View()), trace)
    }

    // ---- single writes ----------------------------------------------------

    method RecordPlan(stage: Stage, planned: Planned)
      modifies this
      ensures Wrote([if planned.wrote.Some? then PutPlan(old(View()), stage, planned.wrote.value) else old(View())])
    {
      if planned.wrote.Some? {
        files := files.(plans := files.plans[stage := planned.wrote.value]);
      }
      log := log + [View()];
    }

    method WriteReviewText(stage: Stage)
      modifies this
      ensures Wrote([PutReviewText(old(View()), stage)])
    {
      files := files.(reviewTexts := files.reviewTexts + {stage});
      log := log + [View()];
    }

    method WriteMeta(meta: Meta, ghost review: Review)
      modifies this
      ensures Wrote([PutMeta(old(View()), meta, review)])
    {
      files := files.(metas := files.metas[meta.stage := meta]);
      history := history + [Reviewed(review)];
      log := log + [View()];
    }

    method WritePending(pending: Pending)
      modifies this
      ensures Wrote([PutPending(old(View()), pending)])
    {
      files := files.(pending := Some(pending));
      history := history + [Pended(pending)];
      log := log + [View()];
    }

    method UnlinkPending(unlinked: bool)
      modifies this
      ensures Wrote([ClearPending(old(View()), unlinked)])
    {
      if unlinked {
        files := files.(pending := None);
      }
      log := log + [View()];
    }

    method WriteLedger(ledger: Ledger)
      modifies this
      ensures Wrote([PutLedger(old(View()), ledger)])
    {
      files := files.(ledger := Some(ledger));
      log := log + [View()];
    }

    method RecordSessionEvent(event: Event)
      modifies this
      ensures Wrote([PutEvent(old(View()), event)])
    {
      files := files.(session := files.session + [event]);
      log := log + [View()];
    }

    method WriteReceipt(receipt: Receipt)
      modifies this
      ensures Wrote([PutReceipt(old(View()), receipt)])
    {
      files := files.(receipts := files.receipts + [receipt]);
      log := log + [View()];
    }

    ghost method NoteSeen(seen: Happening)
      modifies this
      ensures Wrote([See(old(View()), seen)])
    {
      history := history + [seen];
      log := log + [View()];
    }

    // terraform apply on the saved plan of a stage.
    method RunTerraform(stage: Stage, approval: string, now: real, newState: Option<Bytes>)
      requires stage in files.plans
      modifies this
      ensures Wrote([RanTerraform(old(View()), StartOf(old(files), stage, approval, now), newState)])
    {
      history := history + [Started(StartOf(files, stage, approval, now))];
      files := files.(state := newState);
      log := log + [View()];
    }

    // ---- operations -------------------------------------------------------

    method SavePlan(stage: Stage, planned: Planned, textOk: bool, versionOk: bool, now: real)
      returns (r: Result<Meta, Refusal>)
      modifies this
      ensures Wrote(SavePlanRun(lab, old(View()), stage, planned, textOk, versionOk, now).0)
      ensures r == SavePlanRun(lab, old(View()), stage, planned, textOk, versionOk, now).1
    {
      hide ValidRunTag, Classify, EnforceStageRules, Targets;
      if !ValidRunTag(lab.runTag) {
        return Err(BadRunTag);
      }
      if stage == ApplyStage && lab.runTag in HISTORICAL_ABORTED_RUN_TAGS {
        return Err(HistoricalRun);
      }
      if !files.varFile {
        return Err(VarFileMissing);
      }
      RecordPlan(stage, planned);
      if !planned.exitOk {
        return Err(PlanFailed);
      }
      if stage !in files.plans {
        return Err(PlanFileMissing);
      }
      var rendering := lab.render(files.plans[stage]);
      if rendering.None? {
        return Err(RenderFailed);
      }
      var classified := ClassifyPlanActions(rendering.value);
      var broken := EnforceStageRules(stage, classified);
      if broken.Some? {
        return Err(broken.value);
      }
      if !textOk {
        return Err(ReviewTextFailed);
      }
      WriteReviewText(stage);
      if files.commit.None? {
        return Err(NoCommit);
      }
      if !versionOk {
        return Err(WrongTerraform);
      }
      if files.lock.None? {
        return Err(NoLock);
      }
      if files.config.None? {
        return Err(NoConfig);
      }
      var meta := NewMeta(lab, files, stage, classified, now);
      WriteMeta(meta,
        Review(stage, files.plans[stage], files.config.value, files.lock.value, files.state, files.commit.value, now));
      return Ok(meta);
    }

    method InspectState(show: Option<seq<Resource>>, sweep: Sweep) returns (ledger: Ledger)
      ensures ledger == NewLedger(lab.runTag, show, sweep, files.pending)
    {
      hide TaggedRefs, StateRefs, AllFindings, Unseen, Extras, Repeats, IdentityGaps, ExpectedShape;
      var resources := if show.Some? then show.value else [];
      var rec := Reconciliation(false, sweep.LookupFailed?, multiset{}, multiset{}, {}, multiset{});
      if sweep.Answered? {
        var provider := sweep.provider;
        var extras, listDuplicates := SweepLists(provider, lab.runTag, StateRefs(resources));
        var missing, mismatches := InspectResources(resources, lab.runTag, provider.views);
        rec := Reconciliation(true, false, extras, missing, mismatches, listDuplicates);
      }
      var duplicateAddresses := RepeatedAddresses(resources);
      if duplicateAddresses != {} {
        rec := rec.(duplicates := rec.duplicates + multiset(AddressRefs(duplicateAddresses)));
      }
      assert duplicateAddresses == {} ==> multiset(AddressRefs(duplicateAddresses)) == multiset{};
      assert rec == Reconciled(lab.runTag, resources, sweep);
      var clean := Clean(lab.runTag, show, rec);
      var context := if show.None? || !rec.providerChecked then files.pending else None;
      ledger := Ledger(lab.runTag, show.Some?, clean, resources, rec, Recovery(context, false, false), false, false);
    }

    method ReconcileNow(show: Option<seq<Resource>>, sweep: Sweep, unlinked: bool) returns (report: Report)
      modifies this
      ensures Wrote(ReconcileRun(lab, old(View()), show, sweep, unlinked).0)
      ensures report == ReconcileRun(lab, old(View()), show, sweep, unlinked).1
    {
      hide NewLedger;
      var ledger := InspectState(show, sweep);
      NoteSeen(Inspected(show, sweep));
      WriteLedger(ledger);
      if ledger.reconciled {
        UnlinkPending(unlinked);
      }
      report := ReportOf(ledger);
    }

    method Attempt(i: ApplyInput, meta: Meta)
      requires ApplyStage in files.plans
      modifies this
      ensures Wrote(AttemptRun(lab, old(View()), i, meta))
    {
      WritePending(Pending(lab.runTag, ApplyStage, meta.planDigest));
      RunTerraform(ApplyStage, i.approval, i.now, i.newState);
      if !i.exitOk {
        WriteReceipt(ApplyDiagnostic);
      }
    }

    method Finish(exitOk: bool, report: Report) returns (r: Result<Report, Refusal>)
      modifies this
      ensures Wrote(FinishRun(old(View()), exitOk, report).0)
      ensures r == FinishRun(old(View()), exitOk, report).1
    {
      RecordSessionEvent(ApplyAttempted(exitOk));
      if !exitOk {
        WriteReceipt(ApplyFailure(report.reconciled, report.count));
        if files.ledger.Some? {
          WriteLedger(AttachFailure(files.ledger));
        }
        return Err(ApplyFailed);
      }
      if !report.reconciled {
        return Err(NotClean);
      }
      RecordSessionEvent(Provisioned(report.count));
      return Ok(report);
    }

    method Apply(i: ApplyInput) returns (r: Result<Report, Refusal>)
      modifies this
      ensures Wrote(ApplyRun(lab, old(View()), i).0)
      ensures r == ApplyRun(lab, old(View()), i).1
    {
      hide ReconcileRun, ApplyGate, AttemptRun, FinishRun;
      var gate := ApplyGate(lab, files, i);
      if gate.Err? {
        return Err(gate.error);
      }
      if ApplyStage !in files.plans {
        return Err(PlanFileMissing);
      }
      AttemptIsNonEmpty(lab, View(), i, gate.value);
      Attempt(i, gate.value);
      ReconcileIsNonEmpty(lab, View(), i.show, i.sweep, i.unlinked);
      var report := ReconcileNow(i.show, i.sweep, i.unlinked);
      r := Finish(i.exitOk, report);
      FinishIsNonEmpty(i.exitOk, report);
    }

    method PlanDestroy(i: PlanDestroyInput) returns (r: Result<Meta, Refusal>)
      modifies this
      ensures Wrote(PlanDestroyRun(lab, old(View()), i).0)
      ensures r == PlanDestroyRun(lab, old(View()), i).1
    {
      hide SavePlanRun, VerifyTeardownIdentity, Addresses;
      var loaded := LoadLedger(files);
      if loaded.None? {
        return Err(NoLedger);
      }
      var mismatch := VerifyTeardownIdentity(lab.runTag, loaded.value, i.access, i.show, i.views);
      if mismatch.Some? {
        return Err(mismatch.value);
      }
      r := SavePlan(DestroyStage, i.planned, i.textOk, i.versionOk, i.now);
      if r.Ok? && multiset(r.value.targets) != Addresses(loaded.value.resources) {
        r := Err(TargetsDiffer);
      }
    }

    method StartDestroy(i: DestroyInput, meta: Meta)
      requires DestroyStage in files.plans
      modifies this
      ensures Wrote(StartDestroyRun(lab, old(View()), i, meta))
      ensures log != old(log)
    {
      WritePending(Pending(lab.runTag, DestroyStage, meta.planDigest));
      RecordSessionEvent(TeardownStarted);
      RunTerraform(DestroyStage, i.approval, i.now, i.newState);
    }

    method RecordDestroyed(ledger: Ledger, count: nat, unlinked: bool)
      modifies this
      ensures Wrote(DestroyedRun(old(View()), ledger, count, unlinked))
    {
      WriteLedger(ledger.(destroyed := true));
      UnlinkPending(unlinked);
      RecordSessionEvent(DeletionConfirmed(count));
    }

    // The polling observes o; a confirmed teardown therefore means that every
    // provider reference of the ledger on disk was probed absent.
    method Destroy(i: DestroyInput, o: Observed, interval: real, timeout: real)
      returns (r: Result<nat, Refusal>, ghost confirm: Result<nat, Refusal>, ghost rounds: nat)
      requires interval > 0.0 && timeout >= 0.0 && SleepsAdvance(o, interval)
      modifies this
      ensures Wrote(DestroyRun(lab, old(View()), i, confirm).0)
      ensures r == DestroyRun(lab, old(View()), i, confirm).1
      ensures old(files.ledger).Some? && log != old(log) && i.exitOk ==>
                PollEnds(old(files.ledger).value.resources, o, interval, timeout, confirm, rounds)
      ensures r.Ok? ==> old(files.ledger).Some? && log != old(log) && i.exitOk
    {
      hide ReconcileRun, DestroyGate, PollEnds, StartDestroyRun, DestroyedRun, SleepsAdvance;
      confirm, rounds := Ok(0), 0;
      var gate := DestroyGate(lab, files, i);
      if gate.Err? {
        return Err(gate.error), confirm, rounds;
      }
      if DestroyStage !in files.plans || files.ledger.None? {
        return Err(PlanFileMissing), confirm, rounds;
      }
      var ledger := files.ledger.value;
      StartIsNonEmpty(lab, View(), i, gate.value);
      StartDestroy(i, gate.value);
      if !i.exitOk {
        ReconcileIsNonEmpty(lab, View(), i.showAfter, i.sweepAfter, i.unlinked);
        var _ := ReconcileNow(i.showAfter, i.sweepAfter, i.unlinked);
        return Err(DestroyFailed), confirm, rounds;
      }
      var outcome, polled := ConfirmDeletion(ledger.resources, o, interval, timeout);
      confirm, rounds := outcome, polled;
      NoteSeen(Polled(ledger.resources, outcome));
      if outcome.Err? {
        return Err(outcome.error), confirm, rounds;
      }
      DestroyedIsNonEmpty(View(), ledger, outcome.value, i.unlinked);
      RecordDestroyed(ledger, outcome.value, i.unlinked);
      r := outcome;
    }

    method RecoverVerifiedEmptyApply(i: RecoverInput) returns (refused: Option<Refusal>)
      modifies this
      ensures Wrote(RecoverRun(lab, old(View()), i).0)
      ensures refused == RecoverRun(lab, old(View()), i).1
    {
      hide RecoverGate;
      refused := RecoverGate(lab, files, i);
      if refused.Some? || files.pending.None? || files.ledger.None? {
        return;
      }
      var ledger := files.ledger.value;
      NoteSeen(Swept(i.show, ledger.resources, i.orphans, i.recheck));
      WriteReceipt(EmptyApplyRecovery(files.pending.value.planDigest));
      WriteLedger(RecoveredLedger(ledger));
      UnlinkPending(i.unlinked);
      RecordSessionEvent(ApplyAborted);
    }
  }
}
