/** Classification of a saved plan and the fail-closed stage rules
    (lifecycle.py, classify_plan_actions and _enforce_stage_rules). */
module PlanGate {
  import opened Common
  import opened LifecycleModel

  datatype Change = Change(address: string, actions: seq<string>)

  datatype Kind = Create | Delete | Update | Replace | NoOp | Read | Unknown

  datatype Classified = Classified(address: string, actions: seq<string>, kind: Kind)

  datatype Refusal =
    | BadRunTag | HistoricalRun | Hosted | VarFileMissing
    | PlanFailed | PlanFileMissing | RenderFailed | Blocked | WrongCreates | NonDelete | OutsideTarget
    | ReviewTextFailed
    | NoConfig | NoLock | NoCommit | WrongTerraform
    | NoPlan | ForeignPlan | PlanChanged | ConfigChanged | LockChanged | StateChanged | CommitChanged | Stale
    | NotApproved
    | ApplyFailed | NotClean
    | NoLedger | ForeignLedger | NoProviderAccess | StateUnreadable | UnknownKind | IdentityMismatch | TargetsDiffer
    | DestroyFailed | ProbeFailed | NotConfirmed
    | NoPending | ForeignPending | OtherOperation | NoPendingDigest | StateNotEmpty | LedgerNotEmpty | SweepFailed
    | ResourcesRemain

  function KindOf(actions: seq<string>): Kind {
    if actions in [["delete", "create"], ["create", "delete"]] then Replace
    else if actions == ["create"] then Create
    else if actions == ["delete"] then Delete
    else if actions == ["update"] then Update
    else if actions in [["no-op"], []] then NoOp
    else if actions == ["read"] then Read
    else Unknown
  }

  function Classify(changes: seq<Change>): seq<Classified> {
    seq(|changes|, i requires 0 <= i < |changes| =>
      Classified(changes[i].address, changes[i].actions, KindOf(changes[i].actions)))
  }

  method ClassifyPlanActions(changes: seq<Change>) returns (classified: seq<Classified>)
    ensures classified == Classify(changes)
  {
    classified := [];
    for i := 0 to |changes|
      invariant classified == Classify(changes)[..i]
    {
      var c := changes[i];
      classified := classified + [Classified(c.address, c.actions, KindOf(c.actions))];
    }
  }

  function AddressesOf(classified: seq<Classified>, kind: Kind): set<string> {
    set c | c in classified && c.kind == kind :: c.address
  }

  // Addresses the plan acts on: neither no-op nor read.
  function Targets(classified: seq<Classified>): set<string> {
    set c | c in classified && c.kind !in {NoOp, Read} :: c.address
  }

  function EnforceStageRules(stage: Stage, classified: seq<Classified>): Option<Refusal> {
    match stage
    case ApplyStage =>
      if exists c :: c in classified
                     && (c.kind in {Delete, Replace, Update, Unknown}
                         || (c.kind !in {NoOp, Read} && c.address !in EXPECTED_ADDRESSES))
      then Some(Blocked)
      else if AddressesOf(classified, Create) != EXPECTED_ADDRESSES then Some(WrongCreates)
      else None
    case DestroyStage =>
      if exists c :: c in classified && c.kind !in {Delete, NoOp, Read} then Some(NonDelete)
      else if exists c :: c in classified && c.kind == Delete && c.address !in EXPECTED_ADDRESSES
      then Some(OutsideTarget)
      else None
  }

  ghost predicate Passive(change: Change) {
    change.actions in [["no-op"], [], ["read"]]
  }

  // What an accepted plan does, in terms of its raw actions.
  ghost predicate CreatesExactlyExpected(changes: seq<Change>) {
    && (forall c :: c in changes ==> Passive(c) || (c.actions == ["create"] && c.address in EXPECTED_ADDRESSES))
    && (forall a :: a in EXPECTED_ADDRESSES ==> Change(a, ["create"]) in changes)
  }

  ghost predicate DeletesOnlyExpected(changes: seq<Change>) {
    forall c :: c in changes ==> Passive(c) || (c.actions == ["delete"] && c.address in EXPECTED_ADDRESSES)
  }

  lemma KindMeaning(actions: seq<string>)
    ensures KindOf(actions) == Create <==> actions == ["create"]
    ensures KindOf(actions) == Delete <==> actions == ["delete"]
    ensures KindOf(actions) in {NoOp, Read} <==> actions in [["no-op"], [], ["read"]]
    ensures KindOf(actions) == Read <==> actions == ["read"]
    ensures KindOf(actions) == Update <==> actions == ["update"]
    ensures KindOf(actions) == Replace <==> actions in [["delete", "create"], ["create", "delete"]]
  {
    assert ["create"][0][0] == 'c' && ["delete"][0][0] == 'd' && ["read"][0][0] == 'r' && ["no-op"][0][0] == 'n';
    assert ["update"][0][0] == 'u';
    assert |["delete", "create"]| == |["create", "delete"]| == 2;
  }

  lemma ClassifyMembers(changes: seq<Change>)
    ensures forall c: Classified :: c in Classify(changes) <==>
      Change(c.address, c.actions) in changes && c.kind == KindOf(c.actions)
  {
    forall c: Classified | Change(c.address, c.actions) in changes && c.kind == KindOf(c.actions)
      ensures c in Classify(changes)
    {
      var i :| 0 <= i < |changes| && changes[i] == Change(c.address, c.actions);
      assert Classify(changes)[i] == c;
    }
  }

  // The stage rules accept exactly the plans that create the two expected
  // addresses and otherwise only read or do nothing.
  lemma ApplyRulesExactly(changes: seq<Change>)
    ensures EnforceStageRules(ApplyStage, Classify(changes)).None? <==> CreatesExactlyExpected(changes)
  {
    hide KindOf;
    var classified := Classify(changes);
    ClassifyMembers(changes);
    forall actions ensures KindOf(actions) == Create <==> actions == ["create"]
      ensures KindOf(actions) in {NoOp, Read} <==> actions in [["no-op"], [], ["read"]]
    {
      KindMeaning(actions);
    }
    if CreatesExactlyExpected(changes) {
      forall a | a in EXPECTED_ADDRESSES ensures a in AddressesOf(classified, Create) {
        assert Classified(a, ["create"], Create) in classified;
      }
      forall c | c in classified
        ensures c.kind in {NoOp, Read} || (c.kind == Create && c.address in EXPECTED_ADDRESSES)
      {
        assert Change(c.address, c.actions) in changes;
      }
    }
    if EnforceStageRules(ApplyStage, classified).None? {
      forall c | c in changes ensures Passive(c) || (c.actions == ["create"] && c.address in EXPECTED_ADDRESSES) {
        assert Classified(c.address, c.actions, KindOf(c.actions)) in classified;
      }
      forall a | a in EXPECTED_ADDRESSES ensures Change(a, ["create"]) in changes {
        assert a in AddressesOf(classified, Create);
        var c :| c in classified && c.kind == Create && c.address == a;
      }
    }
  }

  lemma DestroyRulesExactly(changes: seq<Change>)
    ensures EnforceStageRules(DestroyStage, Classify(changes)).None? <==> DeletesOnlyExpected(changes)
  {
    hide KindOf;
    var classified := Classify(changes);
    ClassifyMembers(changes);
    forall actions ensures KindOf(actions) == Delete <==> actions == ["delete"]
      ensures KindOf(actions) in {NoOp, Read} <==> actions in [["no-op"], [], ["read"]]
    {
      KindMeaning(actions);
    }
    if DeletesOnlyExpected(changes) {
      forall c | c in classified
        ensures c.kind in {NoOp, Read} || (c.kind == Delete && c.address in EXPECTED_ADDRESSES)
      {
        assert Change(c.address, c.actions) in changes;
      }
    }
    if EnforceStageRules(DestroyStage, classified).None? {
      forall c | c in changes ensures Passive(c) || (c.actions == ["delete"] && c.address in EXPECTED_ADDRESSES) {
        assert Classified(c.address, c.actions, KindOf(c.actions)) in classified;
      }
    }
  }

  // The creates are compared as a set: an accepted plan stays accepted when an
  // expected create is listed once more.
  lemma CreatesMayRepeat(changes: seq<Change>, address: string)
    requires address in EXPECTED_ADDRESSES && EnforceStageRules(ApplyStage, Classify(changes)).None?
    ensures EnforceStageRules(ApplyStage, Classify(changes + [Change(address, ["create"])])).None?
  {
    hide Classify, EnforceStageRules;
    ApplyRulesExactly(changes);
    ApplyRulesExactly(changes + [Change(address, ["create"])]);
  }

  // No number of deletes is required: nothing to do passes the destroy rules
  // and fails the apply rules.
  lemma IdlePlans(changes: seq<Change>)
    requires forall c :: c in changes ==> Passive(c)
    ensures EnforceStageRules(DestroyStage, Classify(changes)).None?
    ensures EnforceStageRules(ApplyStage, Classify(changes)).Some?
  {
    hide Classify, EnforceStageRules;
    ApplyRulesExactly(changes);
    DestroyRulesExactly(changes);
    KindMeaning(["create"]);
    var c := Change(INSTANCE_ADDRESS, ["create"]);
    assert !Passive(c) && c.address in EXPECTED_ADDRESSES;
    assert c !in changes;
  }
}
