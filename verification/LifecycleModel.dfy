/** Entities of the infrastructure lifecycle (src/blackwell_lab/cloud/lifecycle.py). */
module LifecycleModel {
  import opened Common
  import opened Texts

  type Bytes = string
  type Digest = string

  const PROJECT_TAG := "blackwell-lab"
  const INSTANCE := "linode_instance"
  const FIREWALL := "linode_firewall"
  const INSTANCE_ADDRESS := "linode_instance.gpu_baseline"
  const FIREWALL_ADDRESS := "linode_firewall.gpu_baseline"
  const EXPECTED_ADDRESSES := {INSTANCE_ADDRESS, FIREWALL_ADDRESS}
  const LABEL_PREFIX := "bwlab-"
  const HISTORICAL_ABORTED_RUN_TAGS := {"w1-dev-20261008a"}
  const MAX_PLAN_AGE_S := 3600.0

  // An absent field of the rendered state is the empty text.
  datatype Resource = Resource(
    address: string,
    kind: string,
    providerId: string,
    labelText: string,
    region: string,
    tags: seq<string>)

  // One row of a provider list, or the answer of a per-id read.
  datatype Item = Item(id: string, labelText: string, region: string, tags: seq<string>)

  datatype Ref = Ref(kind: string, id: string)

  // What the provider answers: two lists and the per-id reads that succeed.
  datatype Provider = Provider(instances: seq<Item>, firewalls: seq<Item>, views: map<Ref, Item>)

  datatype Sweep = NotChecked | LookupFailed | Answered(provider: Provider)

  datatype Gap =
    | NotAuthorized | WrongType | NoProviderId | NoLabel | NoProjectTag | NoRunTag | NoRegion

  datatype Mismatch =
    | Incomplete(gap: Gap)
    | AbsentFromState | NotManaged | KindDiffers | IdDiffers | LabelDiffers | UnexpectedKind
    | LabelPrefix | ProjectTagMissing | RunTagMissing
    | NotVisible | ApiIdDiffers | ApiLabelDiffers | ApiTagsMissing
    | ApiRegionMissing | ApiRegionDiffersFromState | ApiRegionDiffersFromLedger
    | LedgerRegionMissing | StateRegionMissing | RegionDiffers

  datatype Finding = Finding(address: string, mismatch: Mismatch)

  // The lists a reconciliation reports are stored sorted, so a multiset (or,
  // for the de-duplicated identity mismatches, a set) carries the same content.
  datatype Reconciliation = Reconciliation(
    providerChecked: bool,
    lookupFailed: bool,
    untracked: multiset<Ref>,
    missing: multiset<Ref>,
    mismatches: set<Finding>,
    duplicates: multiset<Ref>)

  datatype Stage = ApplyStage | DestroyStage

  datatype Pending = Pending(runTag: string, operation: Stage, planDigest: Digest)

  datatype Recovery = Recovery(pendingContext: Option<Pending>, applyFailure: bool, emptyApply: bool)

  datatype Ledger = Ledger(
    runTag: string,
    stateReadable: bool,
    reconciled: bool,
    resources: seq<Resource>,
    reconciliation: Reconciliation,
    recovery: Recovery,
    aborted: bool,
    destroyed: bool)

  function RunLabel(runTag: string): string {
    "run:" + runTag
  }

  // EXPECTED_RESOURCE_TYPES.get(address)
  function ExpectedKind(address: string): Option<string> {
    if address == INSTANCE_ADDRESS then Some(INSTANCE)
    else if address == FIREWALL_ADDRESS then Some(FIREWALL)
    else None
  }

  predicate PlainRunTag(tag: string) {
    && 4 <= |tag| <= 41
    && AlphaNumeric(tag[0])
    && forall i :: 1 <= i < |tag| ==> AlphaNumeric(tag[i]) || tag[i] == '-'
  }

  // The pattern ends in "$", which also matches before one trailing newline.
  predicate ValidRunTag(tag: string) {
    || PlainRunTag(tag)
    || (tag != "" && tag[|tag| - 1] == '\n' && PlainRunTag(tag[..|tag| - 1]))
  }

  // Every plain tag is also accepted with one newline after it, and nothing
  // else beyond the plain tags is.
  lemma NewlineTagsAreAccepted(tag: string)
    ensures ValidRunTag(tag) && !PlainRunTag(tag) <==> exists plain :: PlainRunTag(plain) && tag == plain + "\n"
  {
    if ValidRunTag(tag) && !PlainRunTag(tag) {
      var plain := tag[..|tag| - 1];
      assert PlainRunTag(plain) && tag == plain + "\n";
    }
    if exists plain :: PlainRunTag(plain) && tag == plain + "\n" {
      var plain :| PlainRunTag(plain) && tag == plain + "\n";
      assert tag[..|tag| - 1] == plain;
      assert tag[|tag| - 1] == '\n' && !AlphaNumeric('\n');
    }
  }

  predicate HasTag(tags: seq<string>, tag: string) {
    tag in tags
  }

  predicate OwnTags(tags: seq<string>, runTag: string) {
    HasTag(tags, PROJECT_TAG) && HasTag(tags, RunLabel(runTag))
  }
}
