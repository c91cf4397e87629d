/** A complete run after which the pilot gate is open although every resource of
    the ledger is gone: a clean reconciliation, a reviewed destroy plan and a
    confirmed teardown. */
module OpenAfterTeardown {
  import opened Common
  import opened LifecycleModel
  import opened Reconcile
  import opened PlanGate
  import opened LifecycleRun
  import opened LifecycleSafety

  // Cut after more writes than any step has: the step runs to its end.
  const WHOLE: nat := 20

  const BOTH_DELETED := [Change(INSTANCE_ADDRESS, ["delete"]), Change(FIREWALL_ADDRESS, ["delete"])]

  // A directory terraform can plan from, and a plan that deletes both resources.
  predicate Ready(lab: Lab, r: Run, plan: Bytes) {
    && Fresh(r) && ValidRunTag(lab.runTag)
    && r.files.varFile && r.files.config.Some? && r.files.lock.Some? && r.files.commit.Some?
    && lab.render(plan) == Some(BOTH_DELETED)
  }

  function Inspecting(resources: seq<Resource>, p: Provider): Step {
    ReconcileNow(Some(resources), Answered(p), true)
  }

  function Planning(resources: seq<Resource>, p: Provider, plan: Bytes): Step {
    PlanDestroy(PlanDestroyInput(true, Some(resources), p.views, Planned(true, Some(plan)), true, true, 0.0))
  }

  function Removing(lab: Lab, resources: seq<Resource>, p: Provider, plan: Bytes): Step {
    Destroy(
      DestroyInput(Phrase(DestroyStage, lab.runTag, lab.hash(plan)), false, 0.0, true, Some(resources), p.views,
                   true, None, None, NotChecked, true),
      Ok(|resources|))
  }

  function Teardown(lab: Lab, resources: seq<Resource>, p: Provider, plan: Bytes): seq<(Step, nat)> {
    [(Inspecting(resources, p), WHOLE), (Planning(resources, p, plan), WHOLE),
      (Removing(lab, resources, p, plan), WHOLE)]
  }

  lemma RunThree(lab: Lab, r: Run, a: (Step, nat), b: (Step, nat), c: (Step, nat))
    ensures RunAll(lab, r, [a, b, c]) ==
            After(lab, After(lab, After(lab, r, a.0, a.1), b.0, b.1), c.0, c.1)
  {
    hide After;
    assert [a, b, c][..2] == [a, b] && [a, b][..1] == [a] && [a][..0] == [];
    assert RunAll(lab, r, [a]) == After(lab, RunAll(lab, r, []), a.0, a.1);
    assert RunAll(lab, r, [a, b]) == After(lab, RunAll(lab, r, [a]), b.0, b.1);
  }

  lemma PairTables(x: Resource, y: Resource, kind: string)
    ensures Addresses([x, y]) == multiset{x.address, y.address}
    ensures ByAddress([x, y]) == map[x.address := x, y.address := y]
    ensures OfKind([x, y], kind) == When(x.kind == kind, x) + When(y.kind == kind, y)
  {
    assert [x, y][..1] == [x] && [x][..0] == [];
    assert Addresses([x]) == multiset{x.address};
    assert ByAddress([]) == map[];
    assert ByAddress([x]) == map[x.address := x];
    assert OfKind([x], kind) == When(x.kind == kind, x);
  }

  lemma MatchesItself(
      l: Resource, items: seq<Item>, views: map<Ref, Item>, address: string, kind: string, runTag: string)
    requires ExpectedKind(address) == Some(kind) && kind in {INSTANCE, FIREWALL}
    requires Authentic(l, address, kind, runTag) && SoleMatch(l, items, views, runTag)
    ensures ViewOf(l, views).Some? && TeardownMatch(l, l, ViewOf(l, views).value, runTag)
  {
    hide OwnTags, Tagged;
  }

  lemma TwoAddresses()
    ensures INSTANCE_ADDRESS != FIREWALL_ADDRESS && INSTANCE != FIREWALL
    ensures multiset(EXPECTED_ADDRESSES) == multiset{INSTANCE_ADDRESS, FIREWALL_ADDRESS}
  {
    assert INSTANCE_ADDRESS[7] != FIREWALL_ADDRESS[7] && INSTANCE[7] != FIREWALL[7];
  }

  // Corresponding resources carry what a teardown compares.
  lemma CorrespondingMatch(runTag: string, resources: seq<Resource>, p: Provider)
    requires Corresponds(runTag, resources, p)
    ensures Addresses(resources) == multiset(EXPECTED_ADDRESSES)
    ensures forall l :: l in resources ==>
              && l.address in ByAddress(resources) && ViewOf(l, p.views).Some?
              && TeardownMatch(l, ByAddress(resources)[l.address], ViewOf(l, p.views).value, runTag)
    ensures |OfKind(resources, INSTANCE)| == 1 && |OfKind(resources, FIREWALL)| == 1
  {
    hide SoleMatch, TeardownMatch, ViewOf, Addresses, ByAddress, OfKind, OwnTags;
    var i, f :| (resources == [i, f] || resources == [f, i])
      && Authentic(i, INSTANCE_ADDRESS, INSTANCE, runTag) && Authentic(f, FIREWALL_ADDRESS, FIREWALL, runTag)
      && SoleMatch(i, p.instances, p.views, runTag) && SoleMatch(f, p.firewalls, p.views, runTag);
    TwoAddresses();
    MatchesItself(i, p.instances, p.views, INSTANCE_ADDRESS, INSTANCE, runTag);
    MatchesItself(f, p.firewalls, p.views, FIREWALL_ADDRESS, FIREWALL, runTag);
    var x, y := resources[0], resources[1];
    assert resources == [x, y];
    PairTables(x, y, INSTANCE);
    PairTables(x, y, FIREWALL);
  }

  lemma BothDeletedAccepted()
    ensures EnforceStageRules(DestroyStage, Classify(BOTH_DELETED)).None?
    ensures Targets(Classify(BOTH_DELETED)) == EXPECTED_ADDRESSES
  {
    assert DeletesOnlyExpected(BOTH_DELETED);
    DestroyRulesExactly(BOTH_DELETED);
    KindMeaning(["delete"]);
    var c := Classify(BOTH_DELETED);
    assert c == [Classified(INSTANCE_ADDRESS, ["delete"], Delete), Classified(FIREWALL_ADDRESS, ["delete"], Delete)];
    assert c[0] in c && c[1] in c;
  }

  // n more happenings.
  predicate Grew(r: Run, s: Run, n: nat) {
    r.history <= s.history && |s.history| == |r.history| + n
  }

  lemma Inspected1(lab: Lab, r: Run, resources: seq<Resource>, p: Provider)
    requires ValidRunTag(lab.runTag) && NewLedger(lab.runTag, Some(resources), Answered(p), r.files.pending).reconciled
    ensures var s := After(lab, r, Inspecting(resources, p), WHOLE);
            var ledger := NewLedger(lab.runTag, Some(resources), Answered(p), r.files.pending);
            s.files == r.files.(ledger := Some(ledger), pending := None)
  {
    hide NewLedger, ValidRunTag;
  }

  lemma Planned1(lab: Lab, r: Run, resources: seq<Resource>, p: Provider, plan: Bytes)
    requires ValidRunTag(lab.runTag) && lab.render(plan) == Some(BOTH_DELETED)
    requires r.files.varFile && r.files.config.Some? && r.files.lock.Some? && r.files.commit.Some?
    requires r.files.ledger.Some? && r.files.ledger.value.runTag == lab.runTag
    requires r.files.ledger.value.resources == resources
    requires Corresponds(lab.runTag, resources, p)
    ensures var s := After(lab, r, Planning(resources, p, plan), WHOLE);
            && s.files.ledger == r.files.ledger && DestroyStage in s.files.metas && DestroyStage in s.files.plans
            && s.files.pending == r.files.pending && Grew(r, s, 1) && s.history[|r.history|].Reviewed?
            && s.files.metas[DestroyStage].targets == EXPECTED_ADDRESSES
            && s.files.metas[DestroyStage].planDigest == lab.hash(plan)
            && VerifySavedPlan(lab, s.files, DestroyStage, 0.0) == Ok(s.files.metas[DestroyStage])
  {
    hide ValidRunTag, Classify, EnforceStageRules, Targets, VerifyTeardownIdentity, Addresses, Corresponds,
         TeardownMatch, ByAddress;
    CorrespondingMatch(lab.runTag, resources, p);
    TeardownVerifiedExactly(lab.runTag, r.files.ledger.value, true, Some(resources), p.views);
    BothDeletedAccepted();
  }

  lemma Removed1(lab: Lab, r: Run, resources: seq<Resource>, p: Provider, plan: Bytes)
    requires ValidRunTag(lab.runTag) && Corresponds(lab.runTag, resources, p)
    requires r.files.ledger.Some? && r.files.ledger.value.runTag == lab.runTag
    requires r.files.ledger.value.resources == resources
    requires DestroyStage in r.files.metas && DestroyStage in r.files.plans
    requires r.files.metas[DestroyStage].targets == EXPECTED_ADDRESSES
    requires r.files.metas[DestroyStage].planDigest == lab.hash(plan)
    requires VerifySavedPlan(lab, r.files, DestroyStage, 0.0) == Ok(r.files.metas[DestroyStage])
    ensures var s := After(lab, r, Removing(lab, resources, p, plan), WHOLE);
            && s.files.pending.None? && s.files.ledger == Some(r.files.ledger.value.(destroyed := true))
            && Grew(r, s, 3) && s.history[|r.history|].Pended? && s.history[|r.history| + 1].Started?
            && s.history[|r.history| + 2].Polled?
  {
    hide ValidRunTag, VerifySavedPlan, VerifyTeardownIdentity, Addresses, Corresponds, TeardownMatch, ByAddress,
         Phrase;
    CorrespondingMatch(lab.runTag, resources, p);
    TeardownVerifiedExactly(lab.runTag, r.files.ledger.value, true, Some(resources), p.views);
  }

  // From any prepared directory, and any resources in correspondence with the
  // provider: after reconcile, plan_destroy and a confirmed destroy the ledger
  // is marked destroyed and the pilot gate has no blocker.
  lemma TeardownLeavesGateOpen(lab: Lab, r: Run, resources: seq<Resource>, p: Provider, plan: Bytes)
    requires Ready(lab, r, plan) && Coherent(p) && Corresponds(lab.runTag, resources, p)
    ensures var s := RunAll(lab, r, Teardown(lab, resources, p, plan));
            && s.files.ledger.Some? && s.files.ledger.value.destroyed
            && PilotBlockers(s.files.ledger.value, s.files.pending.Some?) == []
  {
    hide After, NewLedger, Corresponds, Coherent, ValidRunTag, VerifySavedPlan, RunAll, OfKind;
    var script := Teardown(lab, resources, p, plan);
    RunThree(lab, r, script[0], script[1], script[2]);
    CleanIffCorresponds(lab.runTag, Some(resources), Answered(p), None);
    LedgerFacts(lab.runTag, resources, p);
    Inspected1(lab, r, resources, p);
    var r1 := After(lab, r, Inspecting(resources, p), WHOLE);
    Planned1(lab, r1, resources, p, plan);
    var r2 := After(lab, r1, Planning(resources, p, plan), WHOLE);
    Removed1(lab, r2, resources, p, plan);
    CorrespondingMatch(lab.runTag, resources, p);
    GateParts(RunAll(lab, r, script).files.ledger.value, false);
  }

  lemma LedgerFacts(runTag: string, resources: seq<Resource>, p: Provider)
    ensures var ledger := NewLedger(runTag, Some(resources), Answered(p), None);
            ledger.runTag == runTag && ledger.resources == resources && ledger.reconciliation.providerChecked
  {
    hide Clean, StateRefs, AllFindings, Unseen, Extras, Repeats, RepeatedAddresses;
  }

  lemma Prepared() returns (lab: Lab, r: Run)
    ensures Ready(lab, r, "plan") && Fresh(r) && CollisionFree(lab)
  {
    lab := Lab("abcd", (b: Bytes) => b, (b: Bytes) => Some(BOTH_DELETED));
    r := Run(
      Files(map[], {}, map[], None, true, Some("config"), Some("lock"), Some("commit"), None, None, [], []), []);
    assert PlainRunTag(lab.runTag);
  }

  // Such a run exists.
  lemma GateOpenAfterTeardown() returns (lab: Lab, r: Run, script: seq<(Step, nat)>)
    ensures Fresh(r) && CollisionFree(lab)
    ensures var s := RunAll(lab, r, script);
            && s.files.ledger.Some? && s.files.ledger.value.destroyed
            && PilotBlockers(s.files.ledger.value, s.files.pending.Some?) == []
  {
    hide RunAll, Corresponds, Coherent, PilotBlockers, Ready, Fresh, CollisionFree, Teardown, NewLedger;
    lab, r := Prepared();
    var i, f, p := SharedNumericIdReconciles(lab.runTag, "1");
    CleanIffCorresponds(lab.runTag, Some([i, f]), Answered(p), None);
    TeardownLeavesGateOpen(lab, r, [i, f], p, "plan");
    script := Teardown(lab, [i, f], p, "plan");
  }
}
