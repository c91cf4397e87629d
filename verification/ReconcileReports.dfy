/** What a reconciliation reports, said of the state, the provider's lists and its
    per-id answers alone (lifecycle.py, reconcile): which references are
    untracked, missing or repeated, and which identity faults each resource has. */
module ReconcileReports {
  import opened Common
  import opened LifecycleModel
  import opened Reconcile

  // A list of the provider shows this reference under the run's own tag.
  predicate Shown(items: seq<Item>, runTag: string, id: string) {
    exists i :: 0 <= i < |items| && items[i].id == id && "run:" + runTag in items[i].tags
  }

  predicate ShownTwice(items: seq<Item>, runTag: string, id: string) {
    exists i, j :: 0 <= i < j < |items| && items[i].id == id == items[j].id
                   && "run:" + runTag in items[i].tags && "run:" + runTag in items[j].tags
  }

  predicate OnProvider(p: Provider, runTag: string, key: Ref) {
    || (key.kind == "linode_instance" && Shown(p.instances, runTag, key.id))
    || (key.kind == "linode_firewall" && Shown(p.firewalls, runTag, key.id))
  }

  predicate TwiceOnProvider(p: Provider, runTag: string, key: Ref) {
    || (key.kind == "linode_instance" && ShownTwice(p.instances, runTag, key.id))
    || (key.kind == "linode_firewall" && ShownTwice(p.firewalls, runTag, key.id))
  }

  // The state lists this reference.
  predicate Listed(resources: seq<Resource>, key: Ref) {
    exists i :: 0 <= i < |resources| && resources[i].kind == key.kind && resources[i].providerId == key.id
  }

  predicate InState(resources: seq<Resource>, key: Ref) {
    key.kind != "" && key.id != "" && Listed(resources, key)
  }

  predicate SharesAddress(resources: seq<Resource>, address: string) {
    address != ""
    && exists i, j :: 0 <= i < j < |resources| && resources[i].address == address == resources[j].address
  }

  // ---- the sweep ----------------------------------------------------------

  lemma {:induction false} TaggedExactly(items: seq<Item>, kind: string, runTag: string, key: Ref)
    ensures key in Tagged(items, kind, runTag) <==> key.kind == kind && Shown(items, runTag, key.id)
  {
    if items != [] {
      var n := |items| - 1;
      TaggedExactly(items[..n], kind, runTag, key);
      assert Shown(items, runTag, key.id) <==>
             Shown(items[..n], runTag, key.id) || (items[n].id == key.id && "run:" + runTag in items[n].tags) by {
        if i :| 0 <= i < n && items[i].id == key.id && "run:" + runTag in items[i].tags {
          assert items[..n][i] == items[i];
        }
        if i :| 0 <= i < |items[..n]| && items[..n][i].id == key.id && "run:" + runTag in items[..n][i].tags {
          assert items[i] == items[..n][i];
        }
      }
      hide Shown;
    }
  }

  lemma {:induction false} RepeatedExactly(items: seq<Item>, kind: string, runTag: string, key: Ref)
    ensures key in Repeats(Tagged(items, kind, runTag)) <==> key.kind == kind && ShownTwice(items, runTag, key.id)
  {
    if items != [] {
      var n := |items| - 1;
      var front := Tagged(items[..n], kind, runTag);
      RepeatedExactly(items[..n], kind, runTag, key);
      TaggedExactly(items[..n], kind, runTag, key);
      var last := Ref(kind, items[n].id);
      SweepStep(front, last, {});
      OneMoreShown(items, runTag, key.id);
      assert Tagged(items, kind, runTag) ==
             if "run:" + runTag in items[n].tags then front + [last] else front;
      hide Shown, ShownTwice, Repeats, Extras, Tagged;
    }
  }

  lemma OneMoreShown(items: seq<Item>, runTag: string, id: string)
    requires items != []
    ensures var n := |items| - 1;
            ShownTwice(items, runTag, id) <==>
            || ShownTwice(items[..n], runTag, id)
            || (Shown(items[..n], runTag, id) && items[n].id == id && "run:" + runTag in items[n].tags)
  {
    var n := |items| - 1;
    assert forall i :: 0 <= i < n ==> items[..n][i] == items[i];
    if i, j :| 0 <= i < j < |items| && items[i].id == id == items[j].id
               && "run:" + runTag in items[i].tags && "run:" + runTag in items[j].tags
    {
      assert items[..n][i] == items[i];
      if j < n {
        assert items[..n][j] == items[j];
      }
    }
  }

  lemma {:induction false} ExtrasExactly(refs: seq<Ref>, known: set<Ref>, key: Ref)
    ensures Extras(refs, known)[key] == if key in refs && key !in known then 1 else 0
  {
    if refs != [] {
      var n := |refs| - 1;
      ExtrasExactly(refs[..n], known, key);
      assert refs == refs[..n] + [refs[n]];
    }
  }

  // Every appearance after the first.
  lemma {:induction false} RepeatsExactly(refs: seq<Ref>, key: Ref)
    ensures Repeats(refs)[key] == if key in refs then multiset(refs)[key] - 1 else 0
  {
    if refs != [] {
      var n := |refs| - 1;
      RepeatsExactly(refs[..n], key);
      assert refs == refs[..n] + [refs[n]];
      assert multiset(refs) == multiset(refs[..n]) + multiset{refs[n]};
    }
  }

  lemma RepeatsAppend(a: seq<Ref>, b: seq<Ref>, key: Ref)
    requires key in a ==> key !in b
    ensures key in Repeats(a + b) <==> key in Repeats(a) || key in Repeats(b)
  {
    RepeatsExactly(a, key);
    RepeatsExactly(b, key);
    RepeatsExactly(a + b, key);
    hide Repeats;
    assert multiset(a + b) == multiset(a) + multiset(b);
  }

  lemma OneMoreListed(resources: seq<Resource>, key: Ref)
    requires resources != []
    ensures var n := |resources| - 1;
            Listed(resources, key) <==> Listed(resources[..n], key) || RefOf(resources[n]) == key
  {
    var n := |resources| - 1;
    if i :| 0 <= i < |resources| && resources[i].kind == key.kind && resources[i].providerId == key.id {
      assert i == n || resources[..n][i] == resources[i];
    }
    if i :| 0 <= i < n && resources[..n][i].kind == key.kind && resources[..n][i].providerId == key.id {
      assert resources[i] == resources[..n][i];
    }
  }

  lemma {:induction false} UnseenExactly(resources: seq<Resource>, views: map<Ref, Item>, key: Ref)
    ensures key in Unseen(resources, views) <==>
            key.kind in {"linode_instance", "linode_firewall"} && key !in views && Listed(resources, key)
  {
    if resources != [] {
      UnseenExactly(resources[..|resources| - 1], views, key);
      OneMoreListed(resources, key);
      hide Listed;
    }
  }

  // With the provider's answer, the reconciliation lists as untracked, once
  // each, exactly the run-tagged references the state does not know; as missing
  // exactly the managed state references without a per-id answer; and as
  // duplicates exactly the references a list repeats and the addresses two state
  // resources share.
  lemma ListsExactly(runTag: string, resources: seq<Resource>, p: Provider, key: Ref)
    ensures var rec := Reconciled(runTag, resources, Answered(p));
            && rec.providerChecked && !rec.lookupFailed
            && rec.untracked[key] == (if OnProvider(p, runTag, key) && !InState(resources, key) then 1 else 0)
            && (key in rec.missing <==>
                  key.kind in {"linode_instance", "linode_firewall"} && key !in p.views && Listed(resources, key))
            && (key in rec.duplicates <==>
                  || TwiceOnProvider(p, runTag, key)
                  || (key.kind == "terraform_address" && SharesAddress(resources, key.id)))
  {
    var a, b := Tagged(p.instances, INSTANCE, runTag), Tagged(p.firewalls, FIREWALL, runTag);
    ExtrasExactly(a + b, StateRefs(resources), key);
    TaggedExactly(p.instances, INSTANCE, runTag, key);
    TaggedExactly(p.firewalls, FIREWALL, runTag, key);
    KnownExactly(resources, key);
    UnseenExactly(resources, p.views, key);
    TaggedKind(p.instances, INSTANCE, runTag);
    TaggedKind(p.firewalls, FIREWALL, runTag);
    RepeatsAppend(a, b, key);
    RepeatedExactly(p.instances, INSTANCE, runTag, key);
    RepeatedExactly(p.firewalls, FIREWALL, runTag, key);
    AddressesExactly(resources, key);
    hide Extras, Repeats, Tagged, Unseen, AllFindings, StateRefs, RepeatedAddresses, AddressRefs, Shown, ShownTwice,
         InState, Listed, SharesAddress;
  }

  // A key of the state, unless its type or id is empty.
  lemma KnownExactly(resources: seq<Resource>, key: Ref)
    ensures key in StateRefs(resources) <==> InState(resources, key)
  {
    if key in StateRefs(resources) {
      var r :| r in resources && r.kind != "" && r.providerId != "" && RefOf(r) == key;
      var i :| 0 <= i < |resources| && resources[i] == r;
    }
    if InState(resources, key) {
      var i :| 0 <= i < |resources| && resources[i].kind == key.kind && resources[i].providerId == key.id;
      assert resources[i] in resources && RefOf(resources[i]) == key;
    }
  }

  lemma AddressesExactly(resources: seq<Resource>, key: Ref)
    ensures key in AddressRefs(RepeatedAddresses(resources)) <==>
            key.kind == "terraform_address" && SharesAddress(resources, key.id)
  {
    assert key.id in RepeatedAddresses(resources) <==> SharesAddress(resources, key.id);
    hide RepeatedAddresses, SharesAddress;
  }

  // ---- identity faults ----------------------------------------------------

  // What the provider's answer about one resource is faulted for, by its text.
  predicate ApiFault(m: Mismatch, l: Resource, s: Resource, runTag: string, view: Option<Item>) {
    if view.None? then m == NotVisible
    else
      var v, located := view.value, l.kind == "linode_instance";
      || (m == ApiIdDiffers && v.id != l.providerId)
      || (m == ApiLabelDiffers && v.labelText != l.labelText)
      || (m == ApiTagsMissing && !("blackwell-lab" in v.tags && "run:" + runTag in v.tags))
      || (m == ApiRegionMissing && located && v.region == "")
      || (m == ApiRegionDiffersFromState && located && v.region != "" && v.region != s.region)
      || (m == ApiRegionDiffersFromLedger && located && v.region != "" && v.region != l.region)
  }

  // What ledger and state are faulted for.
  predicate StateFault(m: Mismatch, l: Resource, s: Resource, runTag: string) {
    var located := l.kind == "linode_instance";
    || (m == KindDiffers && l.kind != s.kind)
    || (m == IdDiffers && l.providerId != s.providerId)
    || (m == LabelDiffers && l.labelText != s.labelText)
    || (m == UnexpectedKind && s.kind != ManagedKind(l.address))
    || (m == LabelPrefix && !("bwlab-" <= s.labelText))
    || (m == ProjectTagMissing && "blackwell-lab" !in s.tags)
    || (m == RunTagMissing && "run:" + runTag !in s.tags)
    || (m == LedgerRegionMissing && located && l.region == "")
    || (m == StateRegionMissing && located && s.region == "")
    || (m == RegionDiffers && located && l.region != "" && s.region != "" && l.region != s.region)
  }

  // The kind of one of the two managed addresses.
  function ManagedKind(address: string): string {
    if address == "linode_instance.gpu_baseline" then "linode_instance"
    else if address == "linode_firewall.gpu_baseline" then "linode_firewall"
    else ""
  }

  lemma ApiFaultsExactly(l: Resource, s: Resource, runTag: string, view: Option<Item>, m: Mismatch)
    ensures m in ApiMismatches(l, s, runTag, view) <==> ApiFault(m, l, s, runTag, view)
  {
  }

  lemma DifferencesExactly(l: Resource, s: Resource, kind: string, runTag: string, m: Mismatch)
    ensures m in Differences(l, s, kind, runTag) <==>
            || (m == KindDiffers && l.kind != s.kind)
            || (m == IdDiffers && l.providerId != s.providerId)
            || (m == LabelDiffers && l.labelText != s.labelText)
            || (m == UnexpectedKind && s.kind != kind)
            || (m == LabelPrefix && !("bwlab-" <= s.labelText))
            || (m == ProjectTagMissing && "blackwell-lab" !in s.tags)
            || (m == RunTagMissing && "run:" + runTag !in s.tags)
  {
  }

  // Every mismatch is reported exactly for its own fault, and those of the
  // provider's answer only when the provider was asked.
  lemma FaultsExactly(
      l: Resource, state: Option<Resource>, runTag: string, view: Option<Item>, checked: bool, m: Mismatch)
    ensures m in VerifyResourceIdentity(l, state, runTag, view, checked) <==>
            if state.None? then m == AbsentFromState
            else if ManagedKind(l.address) == "" then m == NotManaged
            else StateFault(m, l, state.value, runTag) || (checked && ApiFault(m, l, state.value, runTag, view))
  {
    hide ApiMismatches, ApiFault, When, Differences;
    match state
    case None =>
    case Some(s) =>
      ApiFaultsExactly(l, s, runTag, view, m);
      KindsAgree(l.address);
      if ExpectedKind(l.address).Some? {
        var kind := ExpectedKind(l.address).value;
        hide ExpectedKind, ManagedKind;
        DifferencesExactly(l, s, kind, runTag, m);
        RegionFaultsExactly(l, s, m);
        hide RegionFaults;
      }
  }

  lemma RegionFaultsExactly(l: Resource, s: Resource, m: Mismatch)
    ensures m in RegionFaults(l, s) <==>
            var located := l.kind == "linode_instance";
            || (m == LedgerRegionMissing && located && l.region == "")
            || (m == StateRegionMissing && located && s.region == "")
            || (m == RegionDiffers && located && l.region != "" && s.region != "" && l.region != s.region)
  {
  }

  lemma KindsAgree(address: string)
    ensures ManagedKind(address) == match ExpectedKind(address) case None => "" case Some(kind) => kind
  {
  }

  // What a resource lacks of a complete identity.
  predicate GapFault(g: Gap, r: Resource, runTag: string) {
    match g
    case NotAuthorized => ManagedKind(r.address) == ""
    case WrongType => ManagedKind(r.address) != "" && r.kind != ManagedKind(r.address)
    case NoProviderId => r.providerId == ""
    case NoLabel => r.labelText == ""
    case NoProjectTag => "blackwell-lab" !in r.tags
    case NoRunTag => "run:" + runTag !in r.tags
    case NoRegion => r.kind == "linode_instance" && r.region == ""
  }

  lemma GapFaultsExactly(r: Resource, runTag: string, g: Gap)
    ensures g in IdentityGaps(r, runTag) <==> GapFault(g, r, runTag)
  {
    KindsAgree(r.address);
    KindNamed(r.address);
    WhenHas(r.providerId == "", NoProviderId, g);
    WhenHas(r.labelText == "", NoLabel, g);
    WhenHas(!HasTag(r.tags, PROJECT_TAG), NoProjectTag, g);
    WhenHas(!HasTag(r.tags, RunLabel(runTag)), NoRunTag, g);
    WhenHas(r.kind == INSTANCE && r.region == "", NoRegion, g);
    var expected := ExpectedKind(r.address);
    if expected.Some? {
      WhenHas(r.kind != expected.value, WrongType, g);
    }
    hide ManagedKind, ExpectedKind, When;
  }

  lemma WhenHas<T>(condition: bool, x: T, y: T)
    ensures y in When(condition, x) <==> condition && y == x
  {
  }

  lemma KindNamed(address: string)
    ensures ExpectedKind(address).Some? ==> ExpectedKind(address).value != ""
  {
  }

  // The per-id answer about a resource, if it is of a kind that is asked for.
  function Answer(r: Resource, views: map<Ref, Item>): Option<Item> {
    if r.kind in {"linode_instance", "linode_firewall"} && Ref(r.kind, r.providerId) in views
    then Some(views[Ref(r.kind, r.providerId)])
    else None
  }

  predicate Faulted(m: Mismatch, r: Resource, runTag: string, views: map<Ref, Item>) {
    || (m.Incomplete? && GapFault(m.gap, r, runTag))
    || (if ManagedKind(r.address) == "" then m == NotManaged
        else StateFault(m, r, r, runTag) || ApiFault(m, r, r, runTag, Answer(r, views)))
  }

  lemma FindingParts(r: Resource, runTag: string, views: map<Ref, Item>, f: Finding)
    ensures f in Findings(r, runTag, views) <==>
            && f.address == r.address
            && (|| (f.mismatch.Incomplete? && f.mismatch.gap in IdentityGaps(r, runTag))
                || f.mismatch in VerifyResourceIdentity(r, Some(r), runTag, ViewOf(r, views), true))
  {
    hide VerifyResourceIdentity, IdentityGaps, ViewOf;
    var gaps, found := IdentityGaps(r, runTag), VerifyResourceIdentity(r, Some(r), runTag, ViewOf(r, views), true);
    var all := Findings(r, runTag, views);
    assert |all| == |gaps| + |found|;
    assert forall i :: 0 <= i < |gaps| ==> all[i] == Finding(r.address, Incomplete(gaps[i]));
    assert forall i :: 0 <= i < |found| ==> all[|gaps| + i] == Finding(r.address, found[i]);
    hide Findings;
    if f in all {
      var i :| 0 <= i < |all| && all[i] == f;
      assert i >= |gaps| ==> all[|gaps| + (i - |gaps|)] == f;
    }
    if f.address == r.address && f.mismatch.Incomplete? && f.mismatch.gap in gaps {
      var i :| 0 <= i < |gaps| && gaps[i] == f.mismatch.gap;
      assert all[i] == f;
    }
    if f.address == r.address && f.mismatch in found {
      var i :| 0 <= i < |found| && found[i] == f.mismatch;
      assert all[|gaps| + i] == f;
    }
  }

  lemma FindingExactly(r: Resource, runTag: string, views: map<Ref, Item>, f: Finding)
    ensures f in Findings(r, runTag, views) <==> f.address == r.address && Faulted(f.mismatch, r, runTag, views)
  {
    hide GapFault, StateFault, ApiFault, ManagedKind, VerifyResourceIdentity, IdentityGaps, Findings;
    FindingParts(r, runTag, views, f);
    FaultsExactly(r, Some(r), runTag, Answer(r, views), true, f.mismatch);
    assert ViewOf(r, views) == Answer(r, views);
    if f.mismatch.Incomplete? {
      GapFaultsExactly(r, runTag, f.mismatch.gap);
    }
  }

  // The identity mismatches of a reconciliation are exactly the faults of the
  // state's resources, each under the address of its own resource.
  lemma MismatchesExactly(runTag: string, resources: seq<Resource>, p: Provider, f: Finding)
    ensures f in Reconciled(runTag, resources, Answered(p)).mismatches <==>
            exists i :: 0 <= i < |resources| && resources[i].address == f.address
                        && Faulted(f.mismatch, resources[i], runTag, p.views)
  {
    AllFindingsExactly(resources, runTag, p.views, f);
    hide AllFindings, Extras, Repeats, Unseen, Faulted;
  }

  lemma {:induction false} AllFindingsExactly(
      resources: seq<Resource>, runTag: string, views: map<Ref, Item>, f: Finding)
    ensures f in AllFindings(resources, runTag, views) <==>
            exists i :: 0 <= i < |resources| && resources[i].address == f.address
                        && Faulted(f.mismatch, resources[i], runTag, views)
  {
    hide Findings, Faulted;
    if resources != [] {
      var n := |resources| - 1;
      AllFindingsExactly(resources[..n], runTag, views, f);
      FindingExactly(resources[n], runTag, views, f);
      assert forall i :: 0 <= i < n ==> resources[..n][i] == resources[i];
      if i :| 0 <= i < |resources| && resources[i].address == f.address
              && Faulted(f.mismatch, resources[i], runTag, views)
      {
        assert i == n || resources[..n][i] == resources[i];
      }
    }
  }
}
