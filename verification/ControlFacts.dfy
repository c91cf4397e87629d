/** What a captured session and an authenticated control are, said of the ledger's
    resources, the section and the stored record alone
    (src/blackwell_lab/cloud/matched_control.py). */
module ControlFacts {
  import opened Common
  import opened LifecycleModel
  import opened Ordering
  import opened Texts
  import opened MatchedControl

  // ---- the session --------------------------------------------------------

  // One resource of the session, tagged for this project, run, lifetime and phase.
  predicate OwnResource(r: Resource, runTag: string, address: string, kind: string, labelText: string) {
    && r.address == address && r.kind == kind && r.labelText == labelText && r.providerId != ""
    && "blackwell-lab" in r.tags && "run:" + runTag in r.tags && "ttl-hours:6" in r.tags && "phase:3" in r.tags
  }

  predicate OwnInstance(r: Resource, runTag: string) {
    && OwnResource(r, runTag, "linode_instance.gpu_baseline", "linode_instance", "bwlab-" + runTag)
    && r.region == "ca-central"
  }

  predicate OwnFirewall(r: Resource, runTag: string) {
    && OwnResource(r, runTag, "linode_firewall.gpu_baseline", "linode_firewall", "bwlab-fw-" + runTag)
    && (r.region == "" || r.region == "ca-central")
  }

  // The run's own instance and its own firewall, in either order.
  predicate OwnPair(resources: seq<Resource>, runTag: string) {
    && |resources| == 2
    && (|| (OwnInstance(resources[0], runTag) && OwnFirewall(resources[1], runTag))
        || (OwnFirewall(resources[0], runTag) && OwnInstance(resources[1], runTag)))
  }

  lemma Names(runTag: string)
    ensures INSTANCE_ADDRESS != FIREWALL_ADDRESS
    ensures LABEL_PREFIX + "fw-" + runTag == "bwlab-fw-" + runTag
  {
    assert INSTANCE_ADDRESS[7] == 'i' && FIREWALL_ADDRESS[7] == 'f';
    assert LABEL_PREFIX + "fw-" == "bwlab-fw-";
  }

  // Resources identify a session exactly when they are that pair.
  lemma IdentifiedExactly(lab: Lab, resources: seq<Resource>, runTag: string)
    ensures ProductionIdentity(lab, resources, runTag).Some? <==> OwnPair(resources, runTag)
  {
    if SessionRegionOk(resources) && IdentityOk(resources) && LabelsOk(resources, runTag) {
      IdentifiedIsPair(resources, runTag);
    }
    if OwnPair(resources, runTag) {
      PairIsIdentified(resources, runTag);
    }
    hide SessionRegionOk, IdentityOk, LabelsOk, OwnPair, IdentityRows;
  }

  lemma IdentifiedIsPair(resources: seq<Resource>, runTag: string)
    requires SessionRegionOk(resources) && IdentityOk(resources) && LabelsOk(resources, runTag)
    ensures OwnPair(resources, runTag)
  {
    Names(runTag);
    assert resources[0] in resources && resources[1] in resources;
  }

  lemma PairIsIdentified(resources: seq<Resource>, runTag: string)
    requires OwnPair(resources, runTag)
    ensures SessionRegionOk(resources) && IdentityOk(resources) && LabelsOk(resources, runTag)
  {
    Names(runTag);
    assert forall r :: r in resources <==> r == resources[0] || r == resources[1];
  }

  function RowFor(lab: Lab, r: Resource): IdentityRow {
    IdentityRow(address := r.address, kind := r.kind, region := r.region, labelText := r.labelText,
                providerDigest := lab.hash(r.providerId))
  }

  // The rows that are hashed are the firewall's and the instance's, in address
  // order, each with the digest of its provider id.
  lemma RowsOfPair(lab: Lab, instance: Resource, firewall: Resource, runTag: string)
    requires OwnInstance(instance, runTag) && OwnFirewall(firewall, runTag)
    ensures IdentityRows(lab, [instance, firewall]) == [RowFor(lab, firewall), RowFor(lab, instance)]
    ensures IdentityRows(lab, [firewall, instance]) == [RowFor(lab, firewall), RowFor(lab, instance)]
  {
    Names(runTag);
    SortedPair(instance, firewall);
    FirewallFirst(instance, firewall);
    hide OwnInstance, OwnFirewall, AddressLeq;
  }

  lemma AddressOrder()
    ensures LexLeq("linode_firewall.gpu_baseline", "linode_instance.gpu_baseline")
    ensures !LexLeq("linode_instance.gpu_baseline", "linode_firewall.gpu_baseline")
  {
    var a, b := "linode_firewall.gpu_baseline", "linode_instance.gpu_baseline";
    assert a[..7] == "linode_" == b[..7] && a[7] == 'f' && b[7] == 'i';
    hide LexLeq;
    LexDecidedAt(a, b, 7);
    LexDecidedAt(b, a, 7);
  }

  lemma FirewallFirst(instance: Resource, firewall: Resource)
    requires instance.address == "linode_instance.gpu_baseline" && firewall.address == "linode_firewall.gpu_baseline"
    ensures Sort([instance, firewall], AddressLeq) == [firewall, instance]
  {
    AddressOrder();
    hide LexLeq;
    assert AddressLeq(firewall, instance) && !AddressLeq(instance, firewall);
    hide AddressLeq;
    SortTwo(instance, firewall);
  }

  lemma SortTwo(a: Resource, b: Resource)
    requires !AddressLeq(a, b)
    ensures Sort([a, b], AddressLeq) == [b, a]
  {
    hide AddressLeq;
    assert [a, b][1..] == [b] && [b][1..] == [];
    assert Sort([b], AddressLeq) == [b];
  }

  // A session is captured exactly from a reconciled, provider-checked ledger of
  // a run that was not aborted, with nothing pending and just that pair.
  lemma SessionExactly(lab: Lab, s: Store, runTag: string)
    ensures CaptureSession(lab, s, runTag).Ok? <==>
            && ValidRunTag(runTag) && runTag !in HISTORICAL_ABORTED_RUN_TAGS
            && runTag in s.ledgers && runTag !in s.pendings && lab.parseLedger(s.ledgers[runTag]).Some?
            && var ledger := lab.parseLedger(s.ledgers[runTag]).value;
               && ledger.runTag == runTag && ledger.reconciled && ledger.reconciliation.providerChecked
               && OwnPair(ledger.resources, runTag)
  {
    hide ValidRunTag, ProductionIdentity, OwnPair;
    if runTag in s.ledgers && lab.parseLedger(s.ledgers[runTag]).Some? {
      IdentifiedExactly(lab, lab.parseLedger(s.ledgers[runTag]).value.resources, runTag);
    }
  }

  // ---- the terminal event -------------------------------------------------

  // An event of the control's development stage under this name.
  predicate OfControl(e: Event, control: string, name: string) {
    e.Event? && e.detail.candidate == Some(control) && e.detail.stage == Some("development") && e.name == name
  }

  // The control is reported stopped, by a stop or by a completion that says so.
  predicate Stops(e: Event, control: string) {
    || OfControl(e, control, "qualification_stopped")
    || (OfControl(e, control, "qualification_completed") && e.detail.stopped == Some(true))
  }

  predicate Closes(e: Event, control: string) {
    OfControl(e, control, "qualification_completed") && e.detail.stopped == Some(false)
  }

  predicate ClosesOnlyAt(events: seq<Event>, k: nat, control: string) {
    && k < |events| && Closes(events[k], control)
    && forall j :: 0 <= j < |events| && j != k ==> !Closes(events[j], control)
  }

  lemma EventsExactly(e: Event, control: string)
    ensures IsStop(e, control) <==> Stops(e, control)
    ensures IsCompletion(e, control) <==> Closes(e, control)
    ensures Closes(e, control) ==> e.Event?
  {
    assert COMPLETED[14] == 'c' && STOPPED[14] == 's';
  }

  lemma {:induction false} NoneClose(events: seq<Event>, control: string)
    requires forall j :: 0 <= j < |events| ==> !Closes(events[j], control)
    ensures Completions(events, control) == []
  {
    hide IsCompletion, Closes;
    if events != [] {
      var n := |events| - 1;
      NoneClose(events[..n], control);
      EventsExactly(events[n], control);
    }
  }

  lemma {:induction false} OnlyOneCloses(events: seq<Event>, k: nat, control: string)
    requires ClosesOnlyAt(events, k, control)
    ensures Completions(events, control) == [events[k]]
  {
    hide IsCompletion, Closes;
    var n := |events| - 1;
    EventsExactly(events[n], control);
    if k == n {
      NoneClose(events[..n], control);
    } else {
      assert events[..n][k] == events[k];
      OnlyOneCloses(events[..n], k, control);
    }
  }

  lemma {:induction false} OneCompletionCloses(events: seq<Event>, control: string) returns (k: nat)
    requires |Completions(events, control)| == 1
    ensures ClosesOnlyAt(events, k, control)
  {
    hide IsCompletion, Closes;
    var n := |events| - 1;
    EventsExactly(events[n], control);
    if IsCompletion(events[n], control) {
      NoCompletionsExactly(events[..n], control);
      forall j | 0 <= j < n ensures !Closes(events[j], control) {
        EventsExactly(events[j], control);
        assert events[..n][j] == events[j];
      }
      k := n;
    } else {
      k := OneCompletionCloses(events[..n], control);
      assert forall j :: 0 <= j < n ==> events[..n][j] == events[j];
    }
  }

  // The terminal event is found exactly in a log of this run in which nothing
  // stops the control and exactly one event closes it, under this label and
  // configuration; its digest is that of the event.
  lemma TerminalEventExactly(
      lab: Lab, session: Session, runTag: string, runLabel: string, configDigest: string, pair: Pair, digest: string)
    ensures TerminalEvent(lab, session, runTag, runLabel, configDigest, pair) == Ok(digest) <==>
            && session.runTag == runTag
            && (forall i :: 0 <= i < |session.events| ==> !Stops(session.events[i], pair.control))
            && exists k: nat :: ClosesOnlyAt(session.events, k, pair.control)
                 && session.events[k].detail.runLabel == Some(runLabel)
                 && session.events[k].detail.configDigest == Some(configDigest)
                 && digest == lab.hash(lab.eventText(session.events[k]))
  {
    hide IsCompletion, Closes, IsStop, Stops;
    var events, control := session.events, pair.control;
    forall e ensures (IsStop(e, control) <==> Stops(e, control)) && (Closes(e, control) ==> e.Event?) {
      EventsExactly(e, control);
    }
    if |Completions(events, control)| == 1 {
      var k := OneCompletionCloses(events, control);
      OnlyOneCloses(events, k, control);
    }
    if k: nat :| ClosesOnlyAt(events, k, control) {
      OnlyOneCloses(events, k, control);
      assert forall j: nat :: ClosesOnlyAt(events, j, control) ==> j == k;
    }
  }

  // ---- the section and the stored record ----------------------------------

  predicate HexText(s: string, n: nat) {
    |s| == n && forall c :: c in s ==> c in "0123456789abcdef"
  }

  lemma HexExactly(s: string)
    ensures IsHex64(s) <==> HexText(s, 64)
    ensures IsCommit(s) <==> HexText(s, 40)
  {
    forall c: char ensures IsHex(c) <==> c in "0123456789abcdef" {
      HexDigits(c);
    }
    if AllHex(s) {
      assert forall c :: c in s ==> IsHex(c);
    }
    if forall c :: c in s ==> c in "0123456789abcdef" {
      assert forall i :: 0 <= i < |s| ==> s[i] in s;
    }
  }

  lemma HexDigits(c: char)
    ensures IsHex(c) <==> c in "0123456789abcdef"
  {
    var digits := "0123456789abcdef";
    assert forall i: nat :: i < 16 ==> digits[i] == (if i < 10 then '0' + i as char else 'a' + (i - 10) as char);
    if IsHex(c) {
      assert digits[if c <= '9' then c as int - 48 else c as int - 87] == c;
    }
  }

  // A control authenticates only under a section of its pair's own schema, with
  // full digests and commit, and the evidence contract of that schema alone.
  lemma SectionIsWellFormed(
      lab: Lab, s: Store, config: Config, runTag: string, treatmentLabel: string, pair: Pair)
    requires Authenticate(lab, s, config, runTag, treatmentLabel, pair).Ok?
    ensures config.section.Some?
    ensures var section := config.section.value;
            && section.schemaVersion == pair.schemaVersion
            && section.evidenceContract ==
               (if pair.schemaVersion == "2.0.0" then lab.pins(pair).evidenceContract else None)
            && ValidRunTag(section.runTag) && lab.safeLabel(section.runLabel) && HexText(section.commit, 40)
            && HexText(section.configDigest, 64) && HexText(section.resultDigest, 64)
            && HexText(section.recordDigest, 64) && HexText(section.resourceIdentity, 64)
            && HexText(section.ledgerDigest, 64)
            && config.cloudRegion == Some("ca-central")
  {
    hide CaptureSession, SnapshotFault, RecordFault, ResultBytes, CompletionFault, ReceiptBlock, IsCommit, IsHex64,
         HexText, ValidRunTag;
    var section := config.section.value;
    HexExactly(section.commit);
    HexExactly(section.configDigest);
    HexExactly(section.resultDigest);
    HexExactly(section.recordDigest);
    HexExactly(section.resourceIdentity);
    HexExactly(section.ledgerDigest);
  }

  // The record it read is valid, names the control of this pair, and claims a
  // completed, verified run without failure under the pair's frozen pins.
  lemma StoredRecordIsOwn(
      lab: Lab, s: Store, config: Config, runTag: string, treatmentLabel: string, pair: Pair)
    requires Authenticate(lab, s, config, runTag, treatmentLabel, pair).Ok?
    ensures config.section.Some?
    ensures var section := config.section.value;
            var cell := lab.outputLabel(section.runLabel, pair.control);
            && cell.Some? && cell.value in s.records && lab.hash(s.records[cell.value]) == section.recordDigest
            && lab.parseRecord(s.records[cell.value]).Some?
            && var r := lab.parseRecord(s.records[cell.value]).value;
               && lab.recordValid(r) && r.kind == pair.kind && r.candidate == pair.control
               && r.completed && r.verified && !r.failure && !r.stopped
               && r.runTag == runTag && r.runLabel == section.runLabel && r.commit == section.commit
               && lab.evaluatorAgrees && r.pins == lab.pins(pair)
               && cell.value !in s.failures && cell.value in s.results && |s.results[cell.value]| == 1
               && lab.hash(s.results[cell.value][0]) == section.resultDigest
  {
    var block := Authenticate(lab, s, config, runTag, treatmentLabel, pair).value;
    AuthenticatedExactly(lab, s, config, runTag, treatmentLabel, pair, block);
    hide Authenticate, CaptureSession, SectionShapeOk, CompleteReceipt, TerminalEvent, ReceiptBlock;
    var cell, r :| Genuine(lab, s, config, runTag, treatmentLabel, pair, cell, r)
                   && block == ReceiptBlock(r, config.section.value.recordDigest, pair);
  }

  // A record is minted exactly when the session still is the one captured, the
  // receipt on disk is the one named and claims a completed control, the log has
  // its terminal event, there is one result and no failure, and the record made
  // of these is valid; that record is the answer.
  lemma MintSucceedsExactly(
      lab: Lab, s: Store, runTag: string, runLabel: string, commit: string, configDigest: string,
      receiptDigest: string, snapshot: Snapshot, pair: Pair, r: Record)
    ensures MintRecord(lab, s, runTag, runLabel, commit, configDigest, receiptDigest, snapshot, pair) == Ok(r) <==>
            && CaptureSession(lab, s, runTag) == Ok(snapshot) && lab.evaluatorAgrees
            && var cell, pins := lab.outputLabel(runLabel, pair.control), lab.pins(pair);
               && cell.Some? && cell.value in s.receipts && lab.hash(s.receipts[cell.value]) == receiptDigest
               && lab.parseReceipt(s.receipts[cell.value]).Some?
               && CompleteReceipt(lab, lab.parseReceipt(s.receipts[cell.value]).value, runLabel, configDigest,
                                  pins.identity, pins.workload, pair)
               && runTag in s.sessions && lab.parseSession(s.sessions[runTag]).Some?
               && TerminalEvent(lab, lab.parseSession(s.sessions[runTag]).value, runTag, runLabel, configDigest, pair)
                  == Ok(r.eventDigest)
               && cell.value !in s.failures && cell.value in s.results && |s.results[cell.value]| == 1
               && lab.recordValid(r)
               && r == Record(
                         schemaVersion := pair.schemaVersion, kind := pair.kind, runTag := runTag,
                         runLabel := runLabel, candidate := pair.control, commit := commit,
                         configDigest := configDigest, resultDigest := lab.hash(s.results[cell.value][0]),
                         ledgerDigest := snapshot.ledgerDigest, resourceIdentity := snapshot.resourceIdentity,
                         receiptDigest := receiptDigest, eventDigest := r.eventDigest, pins := pins,
                         completed := true, verified := true, stopped := false,
                         terminalEvent := "qualification_completed", failure := false)
  {
    CapturedTag(lab, s, runTag);
    CapturedTag(lab, s, snapshot.runTag);
    var cell, pins := lab.outputLabel(runLabel, pair.control), lab.pins(pair);
    if cell.Some? && cell.value in s.receipts && lab.parseReceipt(s.receipts[cell.value]).Some? {
      ReceiptAcceptedExactly(lab, lab.parseReceipt(s.receipts[cell.value]).value, runLabel, configDigest,
                             pins.identity, pins.workload, pair);
    }
    hide CaptureSession, TerminalEvent, ReceiptFault, CompleteReceipt;
  }
}
