/** Reconciliation of the recorded state with the provider by typed identity
    (lifecycle.py, reconcile and the helpers it calls). */
module Reconcile {
  import opened Common
  import opened LifecycleModel

  // ---- identity checks -----------------------------------------------------

  function When<T>(condition: bool, x: T): seq<T> {
    if condition then [x] else []
  }

  function IdentityGaps(r: Resource, runTag: string): seq<Gap> {
    var expected := ExpectedKind(r.address);
    (if expected.None? then [NotAuthorized] else When(r.kind != expected.value, WrongType))
    + When(r.providerId == "", NoProviderId)
    + When(r.labelText == "", NoLabel)
    + When(!HasTag(r.tags, PROJECT_TAG), NoProjectTag)
    + When(!HasTag(r.tags, RunLabel(runTag)), NoRunTag)
    + When(r.kind == INSTANCE && r.region == "", NoRegion)
  }

  function ApiMismatches(l: Resource, s: Resource, runTag: string, view: Option<Item>): seq<Mismatch> {
    match view
    case None => [NotVisible]
    case Some(v) =>
      When(v.id != l.providerId, ApiIdDiffers)
      + When(v.labelText != l.labelText, ApiLabelDiffers)
      + When(!OwnTags(v.tags, runTag), ApiTagsMissing)
      + if l.kind != INSTANCE then []
        else if v.region == "" then [ApiRegionMissing]
        else When(v.region != s.region, ApiRegionDiffersFromState)
             + When(v.region != l.region, ApiRegionDiffersFromLedger)
  }

  // Type, id and label of ledger and state, and the labels the state must carry.
  function Differences(l: Resource, s: Resource, kind: string, runTag: string): seq<Mismatch> {
    When(l.kind != s.kind, KindDiffers)
    + When(l.providerId != s.providerId, IdDiffers)
    + When(l.labelText != s.labelText, LabelDiffers)
    + When(s.kind != kind, UnexpectedKind)
    + When(!(LABEL_PREFIX <= s.labelText), LabelPrefix)
    + When(!HasTag(s.tags, PROJECT_TAG), ProjectTagMissing)
    + When(!HasTag(s.tags, RunLabel(runTag)), RunTagMissing)
  }

  function RegionFaults(l: Resource, s: Resource): seq<Mismatch> {
    if l.kind != INSTANCE then []
    else
      When(l.region == "", LedgerRegionMissing)
      + if s.region == "" then [StateRegionMissing]
        else When(l.region != "" && l.region != s.region, RegionDiffers)
  }

  // Every identity fact of a ledger resource, checked against the state and,
  // when the provider was asked, against its per-id answer.
  function VerifyResourceIdentity(
    l: Resource, state: Option<Resource>, runTag: string, view: Option<Item>, providerChecked: bool): seq<Mismatch>
  {
    match state
    case None => [AbsentFromState]
    case Some(s) =>
      var expected := ExpectedKind(l.address);
      if expected.None? then [NotManaged]
      else
        Differences(l, s, expected.value, runTag)
        + (if providerChecked then ApiMismatches(l, s, runTag, view) else [])
        + RegionFaults(l, s)
  }

  // A resource that carries the complete identity of its Terraform address.
  predicate Authentic(r: Resource, address: string, kind: string, runTag: string) {
    && r.address == address
    && r.kind == kind
    && r.providerId != ""
    && LABEL_PREFIX <= r.labelText
    && OwnTags(r.tags, runTag)
    && (kind == INSTANCE ==> r.region != "")
  }

  // The provider item describes the same thing as the state resource.
  predicate SameIdentity(r: Resource, item: Item, runTag: string) {
    && item.id == r.providerId
    && item.labelText == r.labelText
    && OwnTags(item.tags, runTag)
    && (r.kind == INSTANCE ==> item.region == r.region && item.region != "")
  }

  function RefOf(r: Resource): Ref {
    Ref(r.kind, r.providerId)
  }

  function ViewOf(r: Resource, views: map<Ref, Item>): Option<Item> {
    if r.kind in {INSTANCE, FIREWALL} && RefOf(r) in views then Some(views[RefOf(r)]) else None
  }

  // The two checks a resource goes through, as reconcile runs them: the state
  // resource plays both the ledger's and the state's part.
  function Findings(r: Resource, runTag: string, views: map<Ref, Item>): seq<Finding> {
    var gaps := IdentityGaps(r, runTag);
    var mismatches := VerifyResourceIdentity(r, Some(r), runTag, ViewOf(r, views), true);
    seq(|gaps|, i requires 0 <= i < |gaps| => Finding(r.address, Incomplete(gaps[i])))
    + seq(|mismatches|, i requires 0 <= i < |mismatches| => Finding(r.address, mismatches[i]))
  }

  lemma GapsExactly(r: Resource, runTag: string)
    ensures IdentityGaps(r, runTag) == [] <==>
            exists address, kind :: ExpectedKind(address) == Some(kind) && r.address == address && r.kind == kind
              && r.providerId != "" && r.labelText != "" && OwnTags(r.tags, runTag)
              && (kind == INSTANCE ==> r.region != "")
  {
    if IdentityGaps(r, runTag) == [] {
      assert ExpectedKind(r.address) == Some(r.kind);
    }
  }

  // No finding is reported for a resource exactly when it is authentic for its
  // address and the provider's per-id answer describes it.
  lemma NoFindingsExactly(r: Resource, runTag: string, views: map<Ref, Item>)
    ensures Findings(r, runTag, views) == [] <==>
            && (Authentic(r, INSTANCE_ADDRESS, INSTANCE, runTag) || Authentic(r, FIREWALL_ADDRESS, FIREWALL, runTag))
            && RefOf(r) in views && SameIdentity(r, views[RefOf(r)], runTag)
  {
    var gaps := IdentityGaps(r, runTag);
    var mismatches := VerifyResourceIdentity(r, Some(r), runTag, ViewOf(r, views), true);
    assert Findings(r, runTag, views) == [] <==> gaps == [] && mismatches == [] by {
      assert |Findings(r, runTag, views)| == |gaps| + |mismatches|;
    }
    assert LABEL_PREFIX <= r.labelText ==> r.labelText != "";
  }

  // ---- the list sweep ------------------------------------------------------

  // Run-tagged items of one list, as typed references, in list order.
  function Tagged(items: seq<Item>, kind: string, runTag: string): seq<Ref> {
    if items == [] then []
    else
      var n := |items| - 1;
      Tagged(items[..n], kind, runTag)
      + When(HasTag(items[n].tags, RunLabel(runTag)), Ref(kind, items[n].id))
  }

  function TaggedRefs(p: Provider, runTag: string): seq<Ref> {
    Tagged(p.instances, INSTANCE, runTag) + Tagged(p.firewalls, FIREWALL, runTag)
  }

  // state_keys: references with both a type and an id.
  function StateRefs(resources: seq<Resource>): set<Ref> {
    set r | r in resources && r.kind != "" && r.providerId != "" :: RefOf(r)
  }

  // References the state does not know, each at its first appearance.
  function Extras(refs: seq<Ref>, known: set<Ref>): multiset<Ref> {
    if refs == [] then multiset{}
    else
      var n := |refs| - 1;
      Extras(refs[..n], known) + if refs[n] in refs[..n] || refs[n] in known then multiset{} else multiset{refs[n]}
  }

  // Every appearance of a reference after its first.
  function Repeats(refs: seq<Ref>): multiset<Ref> {
    if refs == [] then multiset{}
    else
      var n := |refs| - 1;
      Repeats(refs[..n]) + if refs[n] in refs[..n] then multiset{refs[n]} else multiset{}
  }

  lemma {:induction false} NoExtras(refs: seq<Ref>, known: set<Ref>)
    ensures Extras(refs, known) == multiset{} <==> forall x :: x in refs ==> x in known
  {
    if refs != [] {
      var n := |refs| - 1;
      NoExtras(refs[..n], known);
      assert refs == refs[..n] + [refs[n]];
    }
  }

  lemma {:induction false} NoRepeats(refs: seq<Ref>)
    ensures Repeats(refs) == multiset{} <==> Distinct(refs)
  {
    if refs != [] {
      var n := |refs| - 1;
      var front := refs[..n];
      NoRepeats(front);
      if Distinct(refs) {
        forall i, j | 0 <= i < j < n ensures front[i] != front[j] {
          assert refs[i] != refs[j];
        }
        assert refs[n] !in front;
      }
      if Distinct(front) && refs[n] !in front {
        forall i, j | 0 <= i < j < |refs| ensures refs[i] != refs[j] {
          assert refs[i] == front[i];
        }
      }
    }
  }

  lemma SweepStep(refs: seq<Ref>, key: Ref, known: set<Ref>)
    ensures Repeats(refs + [key]) == Repeats(refs) + if key in refs then multiset{key} else multiset{}
    ensures Extras(refs + [key], known) ==
            Extras(refs, known) + if key in refs || key in known then multiset{} else multiset{key}
  {
    assert (refs + [key])[..|refs|] == refs;
  }

  lemma TaggedStep(items: seq<Item>, kind: string, runTag: string, i: nat)
    requires i < |items|
    ensures Tagged(items[..i + 1], kind, runTag) ==
            Tagged(items[..i], kind, runTag)
            + if HasTag(items[i].tags, RunLabel(runTag)) then [Ref(kind, items[i].id)] else []
  {
    assert items[..i + 1][..i] == items[..i];
  }

  lemma NothingSwept(p: Provider, runTag: string, known: set<Ref>)
    ensures Extras([], known) == multiset{} && Repeats([]) == multiset{}
    ensures forall kind :: Tagged(p.instances[..0], kind, runTag) == [] && Tagged(p.firewalls[..0], kind, runTag) == []
  {
  }

  method SweepLists(p: Provider, runTag: string, stateKeys: set<Ref>)
    returns (extras: multiset<Ref>, listDuplicates: multiset<Ref>)
    ensures extras == Extras(TaggedRefs(p, runTag), stateKeys)
    ensures listDuplicates == Repeats(TaggedRefs(p, runTag))
  {
    hide HasTag, RunLabel, Extras, Repeats, Tagged;
    NothingSwept(p, runTag, stateKeys);
    extras, listDuplicates := multiset{}, multiset{};
    var seen: set<Ref> := {};
    ghost var done: seq<Ref> := [];
    var lists := [(INSTANCE, p.instances), (FIREWALL, p.firewalls)];
    var n := 0;
    while n < |lists|
      invariant 0 <= n <= 2
      invariant done == if n == 0 then [] else if n == 1 then Tagged(p.instances, INSTANCE, runTag)
        else TaggedRefs(p, runTag)
      invariant forall x :: x in seen <==> x in done
      invariant extras == Extras(done, stateKeys) && listDuplicates == Repeats(done)
    {
      var kind: string, items: seq<Item> := lists[n].0, lists[n].1;
      ghost var before := done;
      var i := 0;
      assert items[..0] == p.instances[..0];
      while i < |items|
        invariant 0 <= i <= |items|
        invariant done == before + Tagged(items[..i], kind, runTag)
        invariant forall x :: x in seen <==> x in done
        invariant extras == Extras(done, stateKeys) && listDuplicates == Repeats(done)
      {
        var item := items[i];
        TaggedStep(items, kind, runTag, i);
        i := i + 1;
        if HasTag(item.tags, RunLabel(runTag)) {
          var key := Ref(kind, item.id);
          SweepStep(done, key, stateKeys);
          done := done + [key];
          if key in seen {
            listDuplicates := listDuplicates + multiset{key};
            continue;
          }
          seen := seen + {key};
          if key !in stateKeys {
            extras := extras + multiset{key};
          }
        }
      }
      assert items[..i] == items;
      n := n + 1;
    }
  }

  // ---- the per-resource inspection ----------------------------------------

  function Unseen(resources: seq<Resource>, views: map<Ref, Item>): multiset<Ref> {
    if resources == [] then multiset{}
    else
      var n := |resources| - 1;
      var r := resources[n];
      Unseen(resources[..n], views)
      + if r.kind in {INSTANCE, FIREWALL} && ViewOf(r, views).None? then multiset{RefOf(r)} else multiset{}
  }

  function AllFindings(resources: seq<Resource>, runTag: string, views: map<Ref, Item>): set<Finding> {
    if resources == [] then {}
    else
      var n := |resources| - 1;
      AllFindings(resources[..n], runTag, views) + Elements(Findings(resources[n], runTag, views))
  }

  lemma {:induction false} NoFindingsAnywhere(resources: seq<Resource>, runTag: string, views: map<Ref, Item>)
    ensures AllFindings(resources, runTag, views) == {} <==>
            forall r :: r in resources ==> Findings(r, runTag, views) == []
  {
    hide Findings;
    if resources != [] {
      var n := |resources| - 1;
      NoFindingsAnywhere(resources[..n], runTag, views);
      assert resources == resources[..n] + [resources[n]];
      var last := Findings(resources[n], runTag, views);
      if last != [] {
        assert last[0] in Elements(last);
        assert resources[n] in resources;
      }
    }
  }

  method InspectResources(resources: seq<Resource>, runTag: string, views: map<Ref, Item>)
    returns (missing: multiset<Ref>, mismatches: set<Finding>)
    ensures missing == Unseen(resources, views)
    ensures mismatches == AllFindings(resources, runTag, views)
  {
    hide IdentityGaps, VerifyResourceIdentity, Findings;
    missing, mismatches := multiset{}, {};
    var i := 0;
    while i < |resources|
      invariant 0 <= i <= |resources|
      invariant missing == Unseen(resources[..i], views)
      invariant mismatches == AllFindings(resources[..i], runTag, views)
    {
      var r := resources[i];
      assert resources[..i + 1][..i] == resources[..i];
      var view := None;
      if r.kind in {INSTANCE, FIREWALL} {
        if RefOf(r) in views {
          view := Some(views[RefOf(r)]);
        }
        if view.None? {
          missing := missing + multiset{RefOf(r)};
        }
      }
      mismatches := mismatches + Elements(Findings(r, runTag, views));
      i := i + 1;
    }
    assert resources[..i] == resources;
  }

  // ---- the verdict ---------------------------------------------------------

  function RepeatedAddresses(resources: seq<Resource>): set<string> {
    set i, j | 0 <= i < j < |resources| && resources[i].address == resources[j].address && resources[i].address != ""
      :: resources[i].address
  }

  function AddressRefs(addresses: set<string>): set<Ref> {
    set a | a in addresses :: Ref("terraform_address", a)
  }

  function OfKind(resources: seq<Resource>, kind: string): seq<Resource> {
    if resources == [] then []
    else
      var n := |resources| - 1;
      OfKind(resources[..n], kind) + When(resources[n].kind == kind, resources[n])
  }

  predicate ExpectedShape(resources: seq<Resource>) {
    && (set r | r in resources :: r.address) == EXPECTED_ADDRESSES
    && |resources| == 2
    && |OfKind(resources, INSTANCE)| == 1
    && |OfKind(resources, FIREWALL)| == 1
    && RepeatedAddresses(resources) == {}
  }

  function Reconciled(runTag: string, resources: seq<Resource>, sweep: Sweep): Reconciliation {
    var addressRepeats := multiset(AddressRefs(RepeatedAddresses(resources)));
    match sweep
    case NotChecked => Reconciliation(false, false, multiset{}, multiset{}, {}, addressRepeats)
    case LookupFailed => Reconciliation(false, true, multiset{}, multiset{}, {}, addressRepeats)
    case Answered(p) =>
      Reconciliation(
        true, false,
        Extras(TaggedRefs(p, runTag), StateRefs(resources)),
        Unseen(resources, p.views),
        AllFindings(resources, runTag, p.views),
        Repeats(TaggedRefs(p, runTag)) + addressRepeats)
  }

  predicate Clean(runTag: string, show: Option<seq<Resource>>, rec: Reconciliation) {
    && show.Some?
    && rec.providerChecked
    && ExpectedShape(show.value)
    && (forall r :: r in show.value ==> IdentityGaps(r, runTag) == [])
    && rec.untracked == multiset{}
    && rec.missing == multiset{}
    && rec.mismatches == {}
    && rec.duplicates == multiset{}
  }

  // The ledger a reconciliation writes.
  function NewLedger(runTag: string, show: Option<seq<Resource>>, sweep: Sweep, pending: Option<Pending>): Ledger {
    var resources := if show.Some? then show.value else [];
    var rec := Reconciled(runTag, resources, sweep);
    Ledger(
      runTag, show.Some?, Clean(runTag, show, rec), resources, rec,
      Recovery(if show.None? || !rec.providerChecked then pending else None, false, false), false, false)
  }

  // ---- clean means corresponds --------------------------------------------

  function ListOf(p: Provider, kind: string): seq<Item> {
    if kind == INSTANCE then p.instances else if kind == FIREWALL then p.firewalls else []
  }

  // Lists and per-id reads come from one snapshot of the provider.
  ghost predicate Coherent(p: Provider) {
    && (forall key :: key in p.views ==> p.views[key] in ListOf(p, key.kind) && p.views[key].id == key.id)
    && (forall item :: item in p.instances ==> Ref(INSTANCE, item.id) in p.views)
    && (forall item :: item in p.firewalls ==> Ref(FIREWALL, item.id) in p.views)
  }

  // The only run-tagged item of a list is the one the resource describes.
  predicate SoleMatch(r: Resource, items: seq<Item>, views: map<Ref, Item>, runTag: string) {
    && Tagged(items, r.kind, runTag) == [RefOf(r)]
    && RefOf(r) in views
    && SameIdentity(r, views[RefOf(r)], runTag)
  }

  // State and provider are in one-to-one correspondence: one instance and one
  // firewall in the state, each the only run-tagged item of its own list.
  ghost predicate Corresponds(runTag: string, resources: seq<Resource>, p: Provider) {
    exists i, f ::
      && (resources == [i, f] || resources == [f, i])
      && Authentic(i, INSTANCE_ADDRESS, INSTANCE, runTag)
      && Authentic(f, FIREWALL_ADDRESS, FIREWALL, runTag)
      && SoleMatch(i, p.instances, p.views, runTag)
      && SoleMatch(f, p.firewalls, p.views, runTag)
  }

  lemma {:induction false} TaggedHas(items: seq<Item>, kind: string, runTag: string, item: Item)
    requires item in items && HasTag(item.tags, RunLabel(runTag))
    ensures Ref(kind, item.id) in Tagged(items, kind, runTag)
  {
    var n := |items| - 1;
    if item != items[n] {
      assert item in items[..n];
      TaggedHas(items[..n], kind, runTag, item);
    }
  }

  lemma {:induction false} TaggedKind(items: seq<Item>, kind: string, runTag: string)
    ensures forall key :: key in Tagged(items, kind, runTag) ==> key.kind == kind
  {
    if items != [] {
      TaggedKind(items[..|items| - 1], kind, runTag);
    }
  }

  // A repetition-free list whose members all equal x, and which has x, is [x].
  lemma OnlyMember(refs: seq<Ref>, x: Ref)
    requires x in refs && (forall y :: y in refs ==> y == x) && Distinct(refs)
    ensures refs == [x]
  {
    DistinctSize(refs);
    assert Elements(refs) == {x};
  }

  lemma ShapeOfTwo(resources: seq<Resource>, runTag: string)
    requires ExpectedShape(resources)
    requires forall r :: r in resources ==>
               Authentic(r, INSTANCE_ADDRESS, INSTANCE, runTag) || Authentic(r, FIREWALL_ADDRESS, FIREWALL, runTag)
    ensures exists i, f :: (resources == [i, f] || resources == [f, i])
              && Authentic(i, INSTANCE_ADDRESS, INSTANCE, runTag) && Authentic(f, FIREWALL_ADDRESS, FIREWALL, runTag)
  {
    var a, b := resources[0], resources[1];
    assert resources == [a, b];
    assert a in resources && b in resources;
    assert resources[0].address == resources[1].address ==> a.address in RepeatedAddresses(resources);
    assert a.address != b.address;
  }

  lemma UnseenNone(resources: seq<Resource>, views: map<Ref, Item>)
    requires forall r :: r in resources ==> RefOf(r) in views
    ensures Unseen(resources, views) == multiset{}
  {
    if resources != [] {
      var n := |resources| - 1;
      forall r | r in resources[..n] ensures RefOf(r) in views {
        assert r in resources;
      }
      UnseenNone(resources[..n], views);
      assert resources[n] in resources;
    }
  }

  // One side: a clean verdict forces the run-tagged items of a list to be
  // exactly the state resource of that type, whatever ids the other type uses.
  lemma CleanSide(r: Resource, other: Resource, items: seq<Item>, p: Provider, runTag: string, refs: seq<Ref>)
    requires r.kind in {INSTANCE, FIREWALL} && items == ListOf(p, r.kind) && other.kind != r.kind
    requires refs == Tagged(items, r.kind, runTag) && Distinct(refs)
    requires forall key :: key in refs ==> key in {RefOf(r), RefOf(other)}
    requires RefOf(r) in p.views && SameIdentity(r, p.views[RefOf(r)], runTag)
    requires Coherent(p)
    ensures SoleMatch(r, items, p.views, runTag)
  {
    var view := p.views[RefOf(r)];
    assert view in items;
    TaggedHas(items, r.kind, runTag, view);
    TaggedKind(items, r.kind, runTag);
    OnlyMember(refs, RefOf(r));
  }

  lemma FindingFreeResources(runTag: string, resources: seq<Resource>, p: Provider)
    requires AllFindings(resources, runTag, p.views) == {}
    ensures forall r :: r in resources ==>
              && (Authentic(r, INSTANCE_ADDRESS, INSTANCE, runTag) || Authentic(r, FIREWALL_ADDRESS, FIREWALL, runTag))
              && RefOf(r) in p.views && SameIdentity(r, p.views[RefOf(r)], runTag)
  {
    hide Findings, Authentic, SameIdentity;
    NoFindingsAnywhere(resources, runTag, p.views);
    forall r | r in resources
      ensures Authentic(r, INSTANCE_ADDRESS, INSTANCE, runTag) || Authentic(r, FIREWALL_ADDRESS, FIREWALL, runTag)
      ensures RefOf(r) in p.views && SameIdentity(r, p.views[RefOf(r)], runTag)
    {
      NoFindingsExactly(r, runTag, p.views);
    }
  }

  lemma CleanGivesCorrespondence(runTag: string, resources: seq<Resource>, p: Provider)
    requires Coherent(p)
    requires NewLedger(runTag, Some(resources), Answered(p), None).reconciled
    ensures Corresponds(runTag, resources, p)
  {
    hide Tagged, Repeats, Extras, Unseen, AllFindings, IdentityGaps, RepeatedAddresses, AddressRefs, OwnTags, Coherent;
    FindingFreeResources(runTag, resources, p);
    ShapeOfTwo(resources, runTag);
    SweepIsExact(runTag, resources, p);
    var i, f :| (resources == [i, f] || resources == [f, i])
                && Authentic(i, INSTANCE_ADDRESS, INSTANCE, runTag) && Authentic(f, FIREWALL_ADDRESS, FIREWALL, runTag);
    BothSides(runTag, resources, p, i, f);
  }

  lemma BothSides(runTag: string, resources: seq<Resource>, p: Provider, i: Resource, f: Resource)
    requires Coherent(p)
    requires resources == [i, f] || resources == [f, i]
    requires i.kind == INSTANCE && f.kind == FIREWALL
    requires forall r :: r in resources ==> RefOf(r) in p.views && SameIdentity(r, p.views[RefOf(r)], runTag)
    requires forall key :: key in TaggedRefs(p, runTag) ==> key in StateRefs(resources)
    requires Distinct(Tagged(p.instances, INSTANCE, runTag)) && Distinct(Tagged(p.firewalls, FIREWALL, runTag))
    ensures SoleMatch(i, p.instances, p.views, runTag) && SoleMatch(f, p.firewalls, p.views, runTag)
  {
    hide Tagged, SameIdentity, Coherent, SoleMatch;
    assert i in resources && f in resources;
    var a, b := Tagged(p.instances, INSTANCE, runTag), Tagged(p.firewalls, FIREWALL, runTag);
    forall key | key in a || key in b ensures key in {RefOf(i), RefOf(f)} {
      assert key in a + b;
      assert key in StateRefs(resources);
    }
    CleanSide(i, f, p.instances, p, runTag, a);
    CleanSide(f, i, p.firewalls, p, runTag, b);
  }

  lemma SweepIsExact(runTag: string, resources: seq<Resource>, p: Provider)
    requires NewLedger(runTag, Some(resources), Answered(p), None).reconciled
    ensures forall key :: key in TaggedRefs(p, runTag) ==> key in StateRefs(resources)
    ensures Distinct(Tagged(p.instances, INSTANCE, runTag)) && Distinct(Tagged(p.firewalls, FIREWALL, runTag))
  {
    hide Findings, IdentityGaps, Tagged, Unseen, AllFindings, ExpectedShape, RepeatedAddresses, AddressRefs;
    var a, b := Tagged(p.instances, INSTANCE, runTag), Tagged(p.firewalls, FIREWALL, runTag);
    NoExtras(a + b, StateRefs(resources));
    assert Repeats(a + b) == multiset{} by {
      assert Repeats(a + b) <= Reconciled(runTag, resources, Answered(p)).duplicates;
    }
    NoRepeats(a + b);
    forall i, j | 0 <= i < j < |a| ensures a[i] != a[j] {
      assert (a + b)[i] != (a + b)[j];
    }
    forall i, j | 0 <= i < j < |b| ensures b[i] != b[j] {
      assert (a + b)[|a| + i] != (a + b)[|a| + j];
    }
  }

  lemma ShapeOfPair(resources: seq<Resource>, i: Resource, f: Resource)
    requires resources == [i, f] || resources == [f, i]
    requires i.address == INSTANCE_ADDRESS && i.kind == INSTANCE && f.address == FIREWALL_ADDRESS && f.kind == FIREWALL
    ensures ExpectedShape(resources)
  {
    assert resources[..1] == [resources[0]];
    assert [resources[0]][..0] == [];
    assert forall r :: r in resources <==> r == i || r == f;
    assert |OfKind([resources[0]], INSTANCE)| + |OfKind([resources[0]], FIREWALL)| == 1;
  }

  lemma CorrespondenceIsClean(runTag: string, resources: seq<Resource>, p: Provider)
    requires Corresponds(runTag, resources, p)
    ensures NewLedger(runTag, Some(resources), Answered(p), None).reconciled
  {
    hide NewLedger, Authentic, SoleMatch;
    var i, f :|
      && (resources == [i, f] || resources == [f, i])
      && Authentic(i, INSTANCE_ADDRESS, INSTANCE, runTag)
      && Authentic(f, FIREWALL_ADDRESS, FIREWALL, runTag)
      && SoleMatch(i, p.instances, p.views, runTag)
      && SoleMatch(f, p.firewalls, p.views, runTag);
    PairIsClean(runTag, resources, p, i, f);
  }

  lemma PairIsClean(runTag: string, resources: seq<Resource>, p: Provider, i: Resource, f: Resource)
    requires resources == [i, f] || resources == [f, i]
    requires Authentic(i, INSTANCE_ADDRESS, INSTANCE, runTag) && Authentic(f, FIREWALL_ADDRESS, FIREWALL, runTag)
    requires SoleMatch(i, p.instances, p.views, runTag) && SoleMatch(f, p.firewalls, p.views, runTag)
    ensures NewLedger(runTag, Some(resources), Answered(p), None).reconciled
  {
    hide Findings, NewLedger, Tagged, Unseen, AllFindings, ExpectedShape, Repeats, Extras, OwnTags;
    assert forall r :: r in resources <==> r == i || r == f;
    ShapeOfPair(resources, i, f);
    NoFindingsExactly(i, runTag, p.views);
    NoFindingsExactly(f, runTag, p.views);
    NoFindingsAnywhere(resources, runTag, p.views);
    UnseenNone(resources, p.views);
    SweepOfPair(resources, TaggedRefs(p, runTag), i, f);
    CleanFromParts(runTag, resources, p);
  }

  lemma SweepOfPair(resources: seq<Resource>, refs: seq<Ref>, i: Resource, f: Resource)
    requires resources == [i, f] || resources == [f, i]
    requires i.kind == INSTANCE && f.kind == FIREWALL && i.providerId != "" && f.providerId != ""
    requires refs == [RefOf(i), RefOf(f)]
    ensures Repeats(refs) == multiset{} && Extras(refs, StateRefs(resources)) == multiset{}
  {
    hide Repeats, Extras;
    assert i in resources && f in resources;
    NoRepeats(refs);
    assert RefOf(i) in StateRefs(resources) && RefOf(f) in StateRefs(resources);
    NoExtras(refs, StateRefs(resources));
  }

  lemma CleanFromParts(runTag: string, resources: seq<Resource>, p: Provider)
    requires ExpectedShape(resources)
    requires forall r :: r in resources ==> Findings(r, runTag, p.views) == []
    requires AllFindings(resources, runTag, p.views) == {}
    requires Unseen(resources, p.views) == multiset{}
    requires Repeats(TaggedRefs(p, runTag)) == multiset{}
    requires Extras(TaggedRefs(p, runTag), StateRefs(resources)) == multiset{}
    ensures NewLedger(runTag, Some(resources), Answered(p), None).reconciled
  {
    hide VerifyResourceIdentity, IdentityGaps, Tagged, Unseen, AllFindings, Repeats, Extras;
    assert AddressRefs(RepeatedAddresses(resources)) == {};
    forall r | r in resources ensures IdentityGaps(r, runTag) == [] {
      assert |Findings(r, runTag, p.views)| >= |IdentityGaps(r, runTag)|;
    }
  }

  // The main result: a reconciliation over one provider snapshot is clean
  // exactly when the state and the run-tagged provider items correspond one to
  // one by type, id, label, tags and instance region. A shared numeric id of an
  // instance and a firewall does not blur the two, because references are typed.
  lemma CleanIffCorresponds(runTag: string, show: Option<seq<Resource>>, sweep: Sweep, pending: Option<Pending>)
    requires sweep.Answered? ==> Coherent(sweep.provider)
    ensures NewLedger(runTag, show, sweep, pending).reconciled <==>
            show.Some? && sweep.Answered? && Corresponds(runTag, show.value, sweep.provider)
  {
    if show.Some? && sweep.Answered? {
      if NewLedger(runTag, show, sweep, None).reconciled {
        CleanGivesCorrespondence(runTag, show.value, sweep.provider);
      }
      if Corresponds(runTag, show.value, sweep.provider) {
        CorrespondenceIsClean(runTag, show.value, sweep.provider);
      }
    }
  }

  // Shared numeric ids do occur in a clean run, whatever the id is.
  lemma SharedNumericIdReconciles(runTag: string, id: string) returns (i: Resource, f: Resource, p: Provider)
    requires id != ""
    ensures i.providerId == f.providerId == id && Coherent(p)
    ensures NewLedger(runTag, Some([i, f]), Answered(p), None).reconciled
  {
    hide NewLedger;
    var tags := [PROJECT_TAG, RunLabel(runTag)];
    var text := LABEL_PREFIX + runTag;
    assert tags[0] == PROJECT_TAG && tags[1] == RunLabel(runTag);
    var vi, vf := Item(id, text, "ca-central", tags), Item(id, text, "", tags);
    i := Resource(INSTANCE_ADDRESS, INSTANCE, id, text, "ca-central", tags);
    f := Resource(FIREWALL_ADDRESS, FIREWALL, id, text, "", tags);
    p := Provider([vi], [vf], map[Ref(INSTANCE, id) := vi, Ref(FIREWALL, id) := vf]);
    SoleTagged(vi, INSTANCE, runTag);
    SoleTagged(vf, FIREWALL, runTag);
    PairIsClean(runTag, [i, f], p, i, f);
  }

  lemma SoleTagged(item: Item, kind: string, runTag: string)
    requires OwnTags(item.tags, runTag)
    ensures Tagged([item], kind, runTag) == [Ref(kind, item.id)]
  {
    assert [item][..0] == [];
  }
}
