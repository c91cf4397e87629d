/** What the lifecycle operations answer and leave behind, said of their inputs:
    when each one succeeds, with which result, and with which records. */
module LifecycleAnswers {
  import opened Common
  import opened LifecycleModel
  import opened Texts
  import opened Reconcile
  import opened PlanGate
  import opened DeletionPoll
  import opened LifecycleRun
  import opened LifecycleSafety

  // ---- the saved plan -----------------------------------------------------

  // The recorded plan is the one on disk, nothing it was planned from changed,
  // and it is at most an hour old.
  ghost predicate PlanHolds(lab: Lab, f: Files, stage: Stage, now: real) {
    && stage in f.metas && stage in f.plans && f.config.Some? && f.lock.Some? && f.commit.Some?
    && var m := f.metas[stage];
       && m.runTag == lab.runTag && m.stage == stage
       && m.planDigest == lab.hash(f.plans[stage])
       && m.configDigest == lab.hash(f.config.value) && m.lockDigest == lab.hash(f.lock.value)
       && m.stateDigest == (if f.state.None? then None else Some(lab.hash(f.state.value)))
       && m.commit == f.commit.value
       && m.createdAt <= now <= m.createdAt + 3600.0
  }

  lemma PlanHoldsExactly(lab: Lab, f: Files, stage: Stage, now: real)
    ensures VerifySavedPlan(lab, f, stage, now).Ok? <==> ValidRunTag(lab.runTag) && PlanHolds(lab, f, stage, now)
    ensures VerifySavedPlan(lab, f, stage, now).Ok? ==> VerifySavedPlan(lab, f, stage, now).value == f.metas[stage]
  {
    hide ValidRunTag;
  }

  // ---- approval phrases ---------------------------------------------------

  predicate NoSpace(s: string) {
    ' ' !in s
  }

  lemma SplitAtSpace(a: string, b: string, x: string, y: string)
    requires NoSpace(a) && NoSpace(b) && x != "" && y != "" && x[0] == ' ' && y[0] == ' ' && a + x == b + y
    ensures a == b && x == y
  {
    var s := a + x;
    assert s[|a|] == ' ' && forall k :: 0 <= k < |a| ==> s[k] == a[k] != ' ';
    assert s == b + y;
    assert s[|b|] == ' ' && forall k :: 0 <= k < |b| ==> s[k] == b[k] != ' ';
    assert a == (a + x)[..|a|] && b == (b + y)[..|b|];
    assert x == (a + x)[|a|..] && y == (b + y)[|b|..];
  }

  lemma RunTagsHaveNoSpace(tag: string)
    requires ValidRunTag(tag)
    ensures NoSpace(tag)
  {
    var plain := if PlainRunTag(tag) then tag else tag[..|tag| - 1];
    assert forall i :: 0 <= i < |tag| ==> tag[i] == '\n' || (i < |plain| && tag[i] == plain[i]);
  }

  lemma StageTexts()
    ensures |PhraseStart(ApplyStage)| > 10 && PhraseStart(ApplyStage)[10] == 'c'
    ensures |PhraseStart(DestroyStage)| > 10 && PhraseStart(DestroyStage)[10] == 'd'
    ensures forall stage :: PhraseMiddle(stage) != "" && PhraseMiddle(stage)[0] == ' '
  {
    assert "I approve creating "[10] == 'c' && "I approve deleting "[10] == 'd';
  }

  lemma PhraseParts(stage: Stage, runTag: string, digest: Digest)
    ensures Phrase(stage, runTag, digest) == PhraseStart(stage) + (runTag + (PhraseMiddle(stage) + digest))
  {
    hide PhraseStart, PhraseMiddle;
  }

  // A phrase approves one stage of one run with one plan, and nothing else.
  lemma PhraseBinds(stage: Stage, runTag: string, digest: Digest, other: Stage, otherTag: string, otherDigest: Digest)
    requires ValidRunTag(runTag) && ValidRunTag(otherTag)
    requires Phrase(stage, runTag, digest) == Phrase(other, otherTag, otherDigest)
    ensures stage == other && runTag == otherTag && digest == otherDigest
  {
    RunTagsHaveNoSpace(runTag);
    RunTagsHaveNoSpace(otherTag);
    PhraseParts(stage, runTag, digest);
    PhraseParts(other, otherTag, otherDigest);
    StageTexts();
    hide ValidRunTag, Phrase, PhraseStart, PhraseMiddle, NoSpace;
    var p, q := Phrase(stage, runTag, digest), Phrase(other, otherTag, otherDigest);
    assert p[10] == PhraseStart(stage)[10] && q[10] == PhraseStart(other)[10];
    assert stage == other;
    var n := |PhraseStart(stage)|;
    assert p[n..] == runTag + (PhraseMiddle(stage) + digest);
    assert q[n..] == otherTag + (PhraseMiddle(stage) + otherDigest);
    SplitAtSpace(runTag, otherTag, PhraseMiddle(stage) + digest, PhraseMiddle(stage) + otherDigest);
    assert digest == (PhraseMiddle(stage) + digest)[|PhraseMiddle(stage)|..];
    assert otherDigest == (PhraseMiddle(stage) + otherDigest)[|PhraseMiddle(stage)|..];
  }

  // ---- apply --------------------------------------------------------------

  // Everything apply asks for before it starts terraform.
  ghost predicate MayApply(lab: Lab, f: Files, i: ApplyInput) {
    && ValidRunTag(lab.runTag) && lab.runTag !in HISTORICAL_ABORTED_RUN_TAGS && !i.hosted
    && PlanHolds(lab, f, ApplyStage, i.now)
    && i.approval == Phrase(ApplyStage, lab.runTag, lab.hash(f.plans[ApplyStage]))
  }

  lemma ApplyGateExactly(lab: Lab, f: Files, i: ApplyInput)
    ensures ApplyGate(lab, f, i).Ok? <==> MayApply(lab, f, i)
    ensures ApplyGate(lab, f, i).Ok? ==> ApplyStage in f.plans
  {
    hide ValidRunTag, Phrase, VerifySavedPlan;
    PlanHoldsExactly(lab, f, ApplyStage, i.now);
  }

  // The state could be shown, the provider answered, and the two agree.
  predicate SeesClean(runTag: string, show: Option<seq<Resource>>, sweep: Sweep) {
    NewLedger(runTag, show, sweep, None).reconciled
  }

  function CountShown(show: Option<seq<Resource>>): nat {
    if show.Some? then |show.value| else 0
  }

  // What every reconciliation leaves alone, and what it reports.
  lemma ReconcileReports(lab: Lab, r: Run, show: Option<seq<Resource>>, sweep: Sweep, unlinked: bool)
    ensures var (trace, report) := ReconcileRun(lab, r, show, sweep, unlinked);
            var s := Last(r, trace);
            && trace != [] && s.files.session == r.files.session && s.files.receipts == r.files.receipts
            && s.files.ledger.Some? && s.files.ledger.value.resources == (if show.Some? then show.value else [])
            && report.count == CountShown(show)
            && (report.reconciled <==> SeesClean(lab.runTag, show, sweep))
            && (s.files.ledger.value.reconciled <==> SeesClean(lab.runTag, show, sweep))
            && (report.providerChecked <==> sweep.Answered?)
            && (SeesClean(lab.runTag, show, sweep) && unlinked ==> s.files.pending.None?)
            && (!SeesClean(lab.runTag, show, sweep) ==> s.files.pending == r.files.pending)
  {
    CleanNeedsProvider(lab.runTag, show, sweep, r.files.pending);
    LedgerReports(lab.runTag, show, sweep, r.files.pending);
    hide NewLedger;
  }

  lemma LedgerReports(runTag: string, show: Option<seq<Resource>>, sweep: Sweep, pending: Option<Pending>)
    ensures var ledger := NewLedger(runTag, show, sweep, pending);
            && ledger.resources == (if show.Some? then show.value else [])
            && (ledger.reconciliation.providerChecked <==> sweep.Answered?)
  {
    hide Clean, StateRefs, AllFindings, Unseen, Extras, Repeats, RepeatedAddresses;
  }

  // The ledger says whether the state could be read and the provider asked, and
  // keeps the pending operation exactly where one of them failed.
  lemma LedgerSaysWhatWasSeen(runTag: string, show: Option<seq<Resource>>, sweep: Sweep, pending: Option<Pending>)
    ensures var ledger := NewLedger(runTag, show, sweep, pending);
            && ledger.runTag == runTag && !ledger.aborted && !ledger.destroyed
            && (ledger.stateReadable <==> show.Some?)
            && (ledger.reconciliation.lookupFailed <==> sweep.LookupFailed?)
            && ledger.recovery.pendingContext == (if show.Some? && sweep.Answered? then None else pending)
            && !ledger.recovery.applyFailure && !ledger.recovery.emptyApply
  {
    hide Clean, StateRefs, AllFindings, Unseen, Extras, Repeats, RepeatedAddresses;
  }

  lemma AttemptLeaves(lab: Lab, r: Run, i: ApplyInput, meta: Meta)
    requires ApplyStage in r.files.plans
    ensures var s := Last(r, AttemptRun(lab, r, i, meta));
            && s.files.session == r.files.session
            && s.files.receipts == r.files.receipts + (if i.exitOk then [] else [ApplyDiagnostic])
  {
  }

  lemma ApplyEnd(lab: Lab, r: Run, i: ApplyInput)
    requires MayApply(lab, r.files, i)
    ensures var (trace, answer) := ApplyRun(lab, r, i);
            var s := Last(r, trace);
            var clean := SeesClean(lab.runTag, i.show, i.sweep);
            && trace != []
            && s.files.session == r.files.session + [ApplyAttempted(i.exitOk)]
                 + (if i.exitOk && clean then [Provisioned(CountShown(i.show))] else [])
            && s.files.receipts == r.files.receipts
                 + (if i.exitOk then [] else [ApplyDiagnostic, ApplyFailure(clean, CountShown(i.show))])
            && s.files.ledger.Some? && s.files.ledger.value.resources == (if i.show.Some? then i.show.value else [])
            && (s.files.ledger.value.reconciled <==> clean)
            && (!i.exitOk ==> s.files.ledger.value.recovery.applyFailure && answer == Err(ApplyFailed))
            && (i.exitOk && !clean ==> answer == Err(NotClean))
            && (i.exitOk && clean ==> answer == Ok(Report(true, CountShown(i.show), true)))
  {
    hide MayApply, ApplyGate, ReconcileRun, SeesClean;
    ApplyGateExactly(lab, r.files, i);
    var meta := ApplyGate(lab, r.files, i).value;
    var base := Last(r, AttemptRun(lab, r, i, meta));
    AttemptLeaves(lab, r, i, meta);
    ReconcileReports(lab, base, i.show, i.sweep, i.unlinked);
    CleanAnswers(lab.runTag, i.show, i.sweep);
    assert forall a: seq<Event>, x: Event, y: Event :: a + [x] + [y] == a + [x, y];
  }

  lemma CleanAnswers(runTag: string, show: Option<seq<Resource>>, sweep: Sweep)
    ensures SeesClean(runTag, show, sweep) ==> show.Some? && sweep.Answered?
    ensures sweep.Answered? && Coherent(sweep.provider) ==>
              (SeesClean(runTag, show, sweep) <==> show.Some? && Corresponds(runTag, show.value, sweep.provider))
  {
    hide NewLedger, Corresponds, Coherent;
    CleanNeedsProvider(runTag, show, sweep, None);
    if sweep.Answered? && Coherent(sweep.provider) {
      CleanIffCorresponds(runTag, show, sweep, None);
    }
  }

  // apply answers success exactly when it may run, terraform exits well, and
  // state and provider agree: one to one, where the provider answered from one
  // snapshot. An exit failure, an unclean reconciliation and a closed gate are
  // each refused with their own reason.
  lemma ApplySucceedsExactly(lab: Lab, r: Run, i: ApplyInput)
    ensures ApplyRun(lab, r, i).1.Ok? <==>
            MayApply(lab, r.files, i) && i.exitOk && SeesClean(lab.runTag, i.show, i.sweep)
    ensures i.sweep.Answered? && Coherent(i.sweep.provider) ==>
              (ApplyRun(lab, r, i).1.Ok? <==>
               && MayApply(lab, r.files, i) && i.exitOk && i.show.Some?
               && Corresponds(lab.runTag, i.show.value, i.sweep.provider))
    ensures !i.sweep.Answered? || i.show.None? ==> ApplyRun(lab, r, i).1.Err?
    ensures MayApply(lab, r.files, i) && !i.exitOk ==> ApplyRun(lab, r, i).1 == Err(ApplyFailed)
    ensures MayApply(lab, r.files, i) && i.exitOk && !SeesClean(lab.runTag, i.show, i.sweep) ==>
              ApplyRun(lab, r, i).1 == Err(NotClean)
    ensures !MayApply(lab, r.files, i) ==> ApplyRun(lab, r, i).0 == []
  {
    hide MayApply, ApplyGate, AttemptRun, ReconcileRun, FinishRun, SeesClean, Corresponds, Coherent;
    ApplyGateExactly(lab, r.files, i);
    CleanAnswers(lab.runTag, i.show, i.sweep);
    if MayApply(lab, r.files, i) {
      hide ApplyRun;
      ApplyEnd(lab, r, i);
    }
  }

  // What apply leaves: the attempt in the session log, then the provisioning of
  // exactly the resources shown on success; both failure receipts and the mark
  // in the ledger on an exit failure; and the resources shown in the ledger.
  lemma ApplyRecords(lab: Lab, r: Run, i: ApplyInput)
    requires MayApply(lab, r.files, i)
    ensures var s := Last(r, ApplyRun(lab, r, i).0);
            && s.files.ledger.Some? && s.files.ledger.value.resources == (if i.show.Some? then i.show.value else [])
            && (ApplyRun(lab, r, i).1.Ok? ==>
                  && i.show.Some? && ApplyRun(lab, r, i).1.value.count == |i.show.value|
                  && s.files.session == r.files.session + [ApplyAttempted(true), Provisioned(|i.show.value|)]
                  && s.files.receipts == r.files.receipts && s.files.ledger.value.reconciled)
            && (!i.exitOk ==>
                  && s.files.session == r.files.session + [ApplyAttempted(false)]
                  && s.files.receipts == r.files.receipts + [ApplyDiagnostic, ApplyFailure(
                       SeesClean(lab.runTag, i.show, i.sweep), if i.show.Some? then |i.show.value| else 0)]
                  && s.files.ledger.value.recovery.applyFailure)
            && (ApplyRun(lab, r, i).1 == Err(NotClean) ==>
                  && s.files.session == r.files.session + [ApplyAttempted(true)]
                  && s.files.receipts == r.files.receipts && !s.files.ledger.value.reconciled)
  {
    hide MayApply, SeesClean, ApplyRun;
    ApplyEnd(lab, r, i);
    CleanAnswers(lab.runTag, i.show, i.sweep);
  }

  // ---- save_plan ----------------------------------------------------------

  // The bytes the plan file holds once terraform plan is done.
  function PlanBytes(f: Files, stage: Stage, planned: Planned): Option<Bytes> {
    if planned.wrote.Some? then planned.wrote
    else if stage in f.plans then Some(f.plans[stage])
    else None
  }

  // The plan was made, can be rendered, and does what its stage allows.
  ghost predicate MaySave(lab: Lab, f: Files, stage: Stage, planned: Planned, textOk: bool, versionOk: bool) {
    && ValidRunTag(lab.runTag) && (stage == ApplyStage ==> lab.runTag !in HISTORICAL_ABORTED_RUN_TAGS)
    && f.varFile && planned.exitOk && textOk && versionOk
    && f.config.Some? && f.lock.Some? && f.commit.Some?
    && PlanBytes(f, stage, planned).Some?
    && var rendering := lab.render(PlanBytes(f, stage, planned).value);
       && rendering.Some?
       && (stage == ApplyStage ==> CreatesExactlyExpected(rendering.value))
       && (stage == DestroyStage ==> DeletesOnlyExpected(rendering.value))
  }

  // save_plan succeeds exactly for such a plan, and what it saved then verifies,
  // names exactly the addresses the plan acts on, and is the only metadata that
  // changed.
  lemma SavePlanSucceedsExactly(
      lab: Lab, r: Run, stage: Stage, planned: Planned, textOk: bool, versionOk: bool, now: real)
    ensures var (trace, answer) := SavePlanRun(lab, r, stage, planned, textOk, versionOk, now);
            && (answer.Ok? <==> MaySave(lab, r.files, stage, planned, textOk, versionOk))
            && (answer.Ok? ==>
                  var f := Last(r, trace).files;
                  && f.metas == r.files.metas[stage := answer.value]
                  && f.plans == r.files.plans[stage := PlanBytes(r.files, stage, planned).value]
                  && f.ledger == r.files.ledger && f.pending == r.files.pending && f.session == r.files.session
                  && f.state == r.files.state && answer.value.createdAt == now
                  && PlanHolds(lab, f, stage, now)
                  && ActsOn(lab.render(f.plans[stage]).value, answer.value.targets))
  {
    hide ValidRunTag, Classify, EnforceStageRules, Targets, CreatesExactlyExpected, DeletesOnlyExpected;
    var bytes := PlanBytes(r.files, stage, planned);
    if bytes.Some? && lab.render(bytes.value).Some? {
      ApplyRulesExactly(lab.render(bytes.value).value);
      DestroyRulesExactly(lab.render(bytes.value).value);
      TargetsExactly(lab.render(bytes.value).value);
    }
    assert bytes.Some? && planned.wrote.None? ==> r.files.plans[stage := bytes.value] == r.files.plans;
  }

  // The addresses of the entries that do something.
  ghost predicate ActsOn(changes: seq<Change>, targets: set<string>) {
    forall a :: a in targets <==> exists c :: c in changes && c.address == a && !Passive(c)
  }

  lemma TargetsExactly(changes: seq<Change>)
    ensures ActsOn(changes, Targets(Classify(changes)))
  {
    hide KindOf;
    var classified := Classify(changes);
    ClassifyMembers(changes);
    forall actions ensures KindOf(actions) in {NoOp, Read} <==> actions in [["no-op"], [], ["read"]] {
      KindMeaning(actions);
    }
    forall a ensures a in Targets(classified) <==> exists c :: c in changes && c.address == a && !Passive(c) {
      if a in Targets(classified) {
        var c :| c in classified && c.kind !in {NoOp, Read} && c.address == a;
        assert Change(c.address, c.actions) in changes && !Passive(Change(c.address, c.actions));
      }
      if c :| c in changes && c.address == a && !Passive(c) {
        assert Classified(c.address, c.actions, KindOf(c.actions)) in classified;
      }
    }
  }

  // ---- plan_destroy and destroy -------------------------------------------

  // The targets are exactly the ledger's addresses, each recorded once.
  ghost predicate TargetsMatch(targets: set<string>, resources: seq<Resource>) {
    && (forall a :: a in targets <==> exists r :: r in resources && r.address == a)
    && forall i, j :: 0 <= i < j < |resources| ==> resources[i].address != resources[j].address
  }

  lemma {:induction false} DistinctAddresses(resources: seq<Resource>, address: string)
    requires forall i, j :: 0 <= i < j < |resources| ==> resources[i].address != resources[j].address
    ensures Addresses(resources)[address] == if exists r :: r in resources && r.address == address then 1 else 0
  {
    if resources != [] {
      var n := |resources| - 1;
      DistinctAddresses(resources[..n], address);
      assert resources == resources[..n] + [resources[n]];
      assert resources[n] in resources;
      if resources[n].address == address {
        assert forall r :: r in resources[..n] ==> r.address != address;
      }
    }
  }

  lemma TargetsMatchExactly(targets: set<string>, resources: seq<Resource>)
    ensures multiset(targets) == Addresses(resources) <==> TargetsMatch(targets, resources)
  {
    if multiset(targets) == Addresses(resources) {
      EqualTargetsMeanDistinct(resources, targets);
      forall a ensures a in targets <==> exists r :: r in resources && r.address == a {
        AddressesCount(resources, a);
        assert a in targets <==> a in multiset(targets);
      }
    }
    if TargetsMatch(targets, resources) {
      forall a ensures multiset(targets)[a] == Addresses(resources)[a] {
        DistinctAddresses(resources, a);
        assert a in targets <==> a in multiset(targets);
      }
    }
  }

  // A non-empty ledger of this run whose every resource the state and the
  // provider confirm.
  ghost predicate MayTearDown(
    lab: Lab, f: Files, access: bool, show: Option<seq<Resource>>, views: map<Ref, Item>)
  {
    && f.ledger.Some? && f.ledger.value.resources != []
    && TeardownVerified(lab.runTag, f.ledger.value, access, show, views)
  }

  // plan_destroy succeeds exactly for a verified ledger and a plan that can be
  // saved and acts on exactly the ledger's distinct addresses.
  lemma PlanDestroySucceedsExactly(lab: Lab, r: Run, i: PlanDestroyInput)
    ensures PlanDestroyRun(lab, r, i).1.Ok? <==>
            && MayTearDown(lab, r.files, i.access, i.show, i.views)
            && MaySave(lab, r.files, DestroyStage, i.planned, i.textOk, i.versionOk)
            && TargetsMatch(
                 SavePlanRun(lab, r, DestroyStage, i.planned, i.textOk, i.versionOk, i.now).1.value.targets,
                 r.files.ledger.value.resources)
    ensures PlanDestroyRun(lab, r, i).1.Ok? ==>
              PlanDestroyRun(lab, r, i) == SavePlanRun(lab, r, DestroyStage, i.planned, i.textOk, i.versionOk, i.now)
    ensures !MayTearDown(lab, r.files, i.access, i.show, i.views) ==> PlanDestroyRun(lab, r, i).0 == []
  {
    hide SavePlanRun, MaySave, TeardownVerified, VerifyTeardownIdentity, TargetsMatch, Addresses;
    SavePlanSucceedsExactly(lab, r, DestroyStage, i.planned, i.textOk, i.versionOk, i.now);
    if r.files.ledger.Some? {
      var saved := SavePlanRun(lab, r, DestroyStage, i.planned, i.textOk, i.versionOk, i.now).1;
      TeardownVerifiedExactly(lab.runTag, r.files.ledger.value, i.access, i.show, i.views);
      if saved.Ok? {
        TargetsMatchExactly(saved.value.targets, r.files.ledger.value.resources);
      }
    }
  }

  // Everything destroy asks for before it starts terraform.
  ghost predicate MayDestroy(lab: Lab, f: Files, i: DestroyInput) {
    && !i.hosted && i.access && MayTearDown(lab, f, i.access, i.show, i.views)
    && PlanHolds(lab, f, DestroyStage, i.now)
    && TargetsMatch(f.metas[DestroyStage].targets, f.ledger.value.resources)
    && i.approval == Phrase(DestroyStage, lab.runTag, lab.hash(f.plans[DestroyStage]))
  }

  lemma DestroyGateExactly(lab: Lab, f: Files, i: DestroyInput)
    ensures DestroyGate(lab, f, i).Ok? <==> MayDestroy(lab, f, i)
    ensures DestroyGate(lab, f, i).Ok? ==> DestroyStage in f.plans && f.ledger.Some?
  {
    hide ValidRunTag, Phrase, VerifySavedPlan, VerifyTeardownIdentity, TeardownMatch, TargetsMatch, Addresses;
    PlanHoldsExactly(lab, f, DestroyStage, i.now);
    if f.ledger.Some? {
      TeardownVerifiedExactly(lab.runTag, f.ledger.value, i.access, i.show, i.views);
      if DestroyStage in f.metas {
        TargetsMatchExactly(f.metas[DestroyStage].targets, f.ledger.value.resources);
      }
    }
  }

  // destroy answers success exactly when it may run, terraform exits well and
  // the deletion is confirmed; the answer is the confirmed count. An exit failure
  // and an unconfirmed deletion are refused with their own reasons.
  lemma DestroySucceedsExactly(lab: Lab, r: Run, i: DestroyInput, confirm: Result<nat, Refusal>)
    ensures var answer := DestroyRun(lab, r, i, confirm).1;
            && (answer.Ok? <==> MayDestroy(lab, r.files, i) && i.exitOk && confirm.Ok?)
            && (answer.Ok? ==> answer.value == confirm.value)
            && (MayDestroy(lab, r.files, i) && !i.exitOk ==> answer == Err(DestroyFailed))
            && (MayDestroy(lab, r.files, i) && i.exitOk && confirm.Err? ==> answer == Err(confirm.error))
    ensures !MayDestroy(lab, r.files, i) ==> DestroyRun(lab, r, i, confirm).0 == []
  {
    hide MayDestroy, DestroyGate, StartDestroyRun, ReconcileRun, DestroyedRun;
    DestroyGateExactly(lab, r.files, i);
  }

  // What destroy leaves: the start and, on success, the confirmed deletion in
  // the session log; the ledger unchanged but for the mark of a confirmed
  // deletion, or as the reconciliation after an exit failure found it.
  lemma DestroyRecords(lab: Lab, r: Run, i: DestroyInput, confirm: Result<nat, Refusal>)
    requires MayDestroy(lab, r.files, i)
    ensures var s := Last(r, DestroyRun(lab, r, i, confirm).0);
            && s.files.receipts == r.files.receipts && s.files.ledger.Some?
            && s.files.session == r.files.session + [TeardownStarted]
                 + (if i.exitOk && confirm.Ok? then [DeletionConfirmed(confirm.value)] else [])
            && (i.exitOk && confirm.Ok? ==>
                  && s.files.ledger.value == r.files.ledger.value.(destroyed := true)
                  && (i.unlinked ==> s.files.pending.None?))
            && (i.exitOk && confirm.Err? ==> s.files.ledger == r.files.ledger && s.files.pending.Some?)
            && (!i.exitOk ==>
                  && s.files.ledger.value.resources == (if i.showAfter.Some? then i.showAfter.value else [])
                  && (s.files.ledger.value.reconciled <==> SeesClean(lab.runTag, i.showAfter, i.sweepAfter))
                  && (!SeesClean(lab.runTag, i.showAfter, i.sweepAfter) ==> s.files.pending.Some?))
  {
    DestroyGateExactly(lab, r.files, i);
    hide MayDestroy, DestroyGate, ReconcileRun, SeesClean;
    var started := StartDestroyRun(lab, r, i, DestroyGate(lab, r.files, i).value);
    var base := Last(r, started);
    ReconcileReports(lab, base, i.showAfter, i.sweepAfter, i.unlinked);
  }

  // ---- recovery -----------------------------------------------------------

  // No instance, volume or firewall carries the project's tag, and no untagged
  // GPU instance exists.
  predicate NothingTagged(v: Inventory) {
    && (forall b :: b in v.instances ==> "blackwell-lab" !in b.tags && (b.tags == [] ==> !b.gpuPlan))
    && (forall b :: b in v.volumes ==> "blackwell-lab" !in b.tags)
    && (forall b :: b in v.firewalls ==> "blackwell-lab" !in b.tags)
  }

  ghost predicate MayRecover(lab: Lab, f: Files, i: RecoverInput) {
    && ValidRunTag(lab.runTag) && i.access
    && f.pending.Some? && f.pending.value.runTag == lab.runTag && f.pending.value.operation == ApplyStage
    && (exists c :: c in f.pending.value.planDigest && c !in " \t\n\r")
    && i.show == Some([]) && f.ledger.Some? && f.ledger.value.resources == []
    && i.orphans.Some? && NothingTagged(i.orphans.value)
    && i.recheck.Some? && NothingTagged(i.recheck.value)
  }

  // The recovery runs exactly for a pending apply of this run over an empty
  // state, an empty ledger and two sweeps without anything of the project. It
  // then records the digest that was pending, marks the ledger aborted and not
  // reconciled, removes the record and logs the abort; otherwise it does nothing.
  lemma RecoverySucceedsExactly(lab: Lab, r: Run, i: RecoverInput)
    ensures var (trace, refused) := RecoverRun(lab, r, i);
            && (refused.None? <==> MayRecover(lab, r.files, i))
            && (refused.Some? ==> trace == [])
            && (refused.None? ==>
                  var f := Last(r, trace).files;
                  && f.receipts == r.files.receipts + [EmptyApplyRecovery(r.files.pending.value.planDigest)]
                  && f.session == r.files.session + [ApplyAborted]
                  && f.pending == (if i.unlinked then None else r.files.pending)
                  && f.ledger.Some? && f.ledger.value.resources == []
                  && f.ledger.value.aborted && !f.ledger.value.reconciled && f.ledger.value.stateReadable
                  && f.ledger.value.recovery.emptyApply && f.ledger.value.reconciliation.providerChecked
                  && f.ledger.value.recovery.applyFailure == r.files.ledger.value.recovery.applyFailure)
  {
    hide ValidRunTag;
    if i.orphans.Some? {
      NothingTaggedExactly(i.orphans.value);
    }
    if i.recheck.Some? {
      NothingTaggedExactly(i.recheck.value);
    }
    if r.files.pending.Some? {
      BlankExactly(r.files.pending.value.planDigest);
    }
    hide NothingOurs, NothingTagged, Blank;
  }

  lemma NothingTaggedExactly(v: Inventory)
    ensures NothingOurs(v) <==> NothingTagged(v)
  {
  }

  lemma BlankExactly(s: string)
    ensures Blank(s) <==> !exists c :: c in s && c !in " \t\n\r"
  {
    assert forall c: char :: c in " \t\n\r" <==> c in {' ', '\t', '\n', '\r'};
  }

  // ---- the pilot gate -----------------------------------------------------

  // Each blocker is reported exactly for its own fault, with its own count.
  lemma BlockersNameFaults(ledger: Ledger, pending: bool)
    ensures var blockers := PilotBlockers(ledger, pending);
            && (PendingExists in blockers <==> pending)
            && (NotReconciled in blockers <==> !ledger.reconciled)
            && (ProviderUnchecked in blockers <==> !ledger.reconciliation.providerChecked)
            && (forall n :: InstanceCount(n) in blockers <==>
                            n == |OfKind(ledger.resources, "linode_instance")| && n != 1)
            && (forall n :: FirewallCount(n) in blockers <==>
                            n == |OfKind(ledger.resources, "linode_firewall")| && n != 1)
  {
    var i, f := |OfKind(ledger.resources, INSTANCE)|, |OfKind(ledger.resources, FIREWALL)|;
    hide OfKind;
    forall b
      ensures b in PilotBlockers(ledger, pending) <==>
              || (b in When(pending, PendingExists)) || (b in When(!ledger.reconciled, NotReconciled))
              || (b in When(!ledger.reconciliation.providerChecked, ProviderUnchecked))
              || (b in When(i != 1, InstanceCount(i))) || (b in When(f != 1, FirewallCount(f)))
    {
    }
    hide PilotBlockers;
  }

  // ---- run tags -----------------------------------------------------------

  // A resource or provider item without this run's own tag, or without the
  // project's, keeps a reconciliation from being clean, whatever else it carries.
  lemma ForeignTagsAreNotClean(runTag: string, show: Option<seq<Resource>>, sweep: Sweep, r: Resource)
    requires show.Some? && r in show.value && ("blackwell-lab" !in r.tags || "run:" + runTag !in r.tags)
    ensures !SeesClean(runTag, show, sweep)
  {
    hide Reconciled, ExpectedShape;
    assert IdentityGaps(r, runTag) != [];
  }
}
