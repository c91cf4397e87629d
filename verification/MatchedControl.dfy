/** Same-session control binding (src/blackwell_lab/cloud/matched_control.py): a
    completed control run mints a record that a later treatment run must
    authenticate against the ledger, the receipt and the growing session log. */
module MatchedControl {
  import opened Common
  import opened LifecycleModel
  import opened Ordering
  import opened Texts

  const SCHEMA_V1 := "1.0.0"
  const SCHEMA_V2 := "2.0.0"
  const DEVELOPMENT := "development"
  const COMPLETED := "qualification_completed"
  const STOPPED := "qualification_stopped"
  const FROZEN_REGION := "ca-central"

  datatype Pair = Pair(control: string, treatment: string, kind: string, prefix: string, schemaVersion: string)

  const P1_P2C := Pair("P1", "P2C", "matched-p1-development-control", "p1", SCHEMA_V1)
  const W1_W2 := Pair("W1", "W2", "matched-w1-development-control", "w1", SCHEMA_V1)
  const W3_W4 := Pair("W3", "W4", "matched-w3-development-control", "w3", SCHEMA_V1)
  const W5_W6 := Pair("W5", "W6", "matched-w5-development-control", "w5", SCHEMA_V2)

  const CONTROL_PAIRS := [P1_P2C, W1_W2, W3_W4, W5_W6]

  datatype Refusal =
    | RunTagUnsafe | HistoricalTag | ControlSession | PendingOperation | SessionChanged | Missing | Failed
    | DigestMismatch
    | Malformed | LabelMismatch | PinsMismatch | StoppedControl | EventMismatch | RunTagMismatch | OwnLabel
    | CommitMismatch
    | HistoricalRegion | ResourceMismatch | BadSection | UnsafeLabel

  // The frozen values a record repeats; evidenceContract only in schema 2.0.0.
  datatype Pins = Pins(
    evaluator: string, catalog: string, schedule: string, region: string, precision: string, identity: string,
    workload: string, evidenceContract: Option<string>, others: seq<string>)

  datatype Record = Record(
    schemaVersion: string, kind: string, runTag: string, runLabel: string, candidate: string, commit: string,
    configDigest: string, resultDigest: string, ledgerDigest: string, resourceIdentity: string, receiptDigest: string,
    eventDigest: string, pins: Pins, completed: bool, verified: bool, stopped: bool, terminalEvent: string,
    failure: bool)

  datatype Section = Section(
    schemaVersion: string, runTag: string, runLabel: string, commit: string, region: string, configDigest: string,
    resultDigest: string, recordDigest: string, resourceIdentity: string, ledgerDigest: string,
    evidenceContract: Option<string>)

  datatype Config = Config(section: Option<Section>, commit: string, cloudRegion: Option<string>)

  datatype Block = Block(
    schemaVersion: string, kind: string, prefix: string, runLabel: string, recordDigest: string, configDigest: string,
    resultDigest: string, identity: string, resourceIdentity: string, ledgerDigest: string, catalog: string,
    schedule: string, precision: string, region: string, commit: string, receiptDigest: string, eventDigest: string,
    stopped: bool, terminalEvent: string, evidenceContract: Option<string>)

  datatype Detail = Detail(
    candidate: Option<string>, stage: Option<string>, runLabel: Option<string>, configDigest: Option<string>,
    stopped: Option<bool>)

  datatype Event = NotAnObject | Event(name: string, detail: Detail)

  datatype Session = Session(runTag: string, events: seq<Event>)

  // The claims of a run receipt.
  datatype RunReceipt = RunReceipt(
    candidate: string, stage: string, runLabel: string, configDigest: string, identity: string, workload: string,
    controller: Option<string>, diagnostic: bool, evidenceContract: Option<string>, stopped: Option<bool>,
    gatesStopped: Option<bool>, gatesContinue: Option<bool>)

  datatype IdentityRow = IdentityRow(
    address: string, kind: string, region: string, labelText: string, providerDigest: string)

  // The files the binding reads, by run tag or by the control's output label.
  datatype Store = Store(
    ledgers: map<string, string>, pendings: set<string>, sessions: map<string, string>, receipts: map<string, string>,
    results: map<string, seq<string>>, failures: set<string>, records: map<string, string>)

  // Digest, texts and parsers, the frozen pins, and the validators.
  datatype Lab = Lab(
    hash: string -> string,
    parseLedger: string -> Option<Ledger>,
    parseSession: string -> Option<Session>,
    parseReceipt: string -> Option<RunReceipt>,
    recordText: Record -> string,
    parseRecord: string -> Option<Record>,
    eventText: Event -> string,
    rowsText: seq<IdentityRow> -> string,
    pins: Pair -> Pins,
    evaluatorAgrees: bool,
    controllerOf: string -> Option<string>,
    recordValid: Record -> bool,
    outputLabel: (string, string) -> Option<string>,
    safeLabel: string -> bool)

  // ---- the session the control is bound to --------------------------------

  datatype Snapshot = Snapshot(runTag: string, ledgerDigest: string, resourceIdentity: string, region: string)

  predicate SessionRegionOk(resources: seq<Resource>) {
    && (exists r :: r in resources && r.address == INSTANCE_ADDRESS)
    && (forall r :: r in resources && r.address == INSTANCE_ADDRESS ==> r.region == FROZEN_REGION)
    && (forall r :: r in resources && r.address == FIREWALL_ADDRESS ==> r.region == "" || r.region == FROZEN_REGION)
  }

  predicate IdentityOk(resources: seq<Resource>) {
    && |resources| == 2
    && resources[0].address != resources[1].address
    && (forall r :: r in resources ==>
          && r.address in EXPECTED_ADDRESSES && r.providerId != "" && r.labelText != ""
          && (r.address == INSTANCE_ADDRESS ==> r.region != "")
          && ExpectedKind(r.address) == Some(r.kind))
  }

  predicate LabelsOk(resources: seq<Resource>, runTag: string) {
    forall r :: r in resources ==>
      && (r.address == INSTANCE_ADDRESS ==> r.labelText == LABEL_PREFIX + runTag)
      && (r.address == FIREWALL_ADDRESS ==> r.labelText == LABEL_PREFIX + "fw-" + runTag)
      && OwnTags(r.tags, runTag) && HasTag(r.tags, "ttl-hours:6") && HasTag(r.tags, "phase:3")
  }

  predicate AddressLeq(a: Resource, b: Resource) {
    LexLeq(a.address, b.address)
  }

  function IdentityRows(lab: Lab, resources: seq<Resource>): seq<IdentityRow> {
    var sorted := Sort(resources, AddressLeq);
    seq(|sorted|, i requires 0 <= i < |sorted| =>
      IdentityRow(sorted[i].address, sorted[i].kind, sorted[i].region, sorted[i].labelText,
        lab.hash(sorted[i].providerId)))
  }

  function ProductionIdentity(lab: Lab, resources: seq<Resource>, runTag: string): Option<string> {
    if SessionRegionOk(resources) && IdentityOk(resources) && LabelsOk(resources, runTag)
    then Some(lab.hash(lab.rowsText(IdentityRows(lab, resources))))
    else None
  }

  function CaptureSession(lab: Lab, s: Store, runTag: string): Result<Snapshot, Refusal> {
    if !ValidRunTag(runTag) then Err(RunTagUnsafe)
    else if runTag in HISTORICAL_ABORTED_RUN_TAGS then Err(HistoricalTag)
    else if runTag !in s.ledgers then Err(ControlSession)
    else if runTag in s.pendings then Err(PendingOperation)
    else
      var ledger := lab.parseLedger(s.ledgers[runTag]);
      if ledger.None? || ledger.value.runTag != runTag || !ledger.value.reconciled
        || !ledger.value.reconciliation.providerChecked
      then Err(ControlSession)
      else
        var identity := ProductionIdentity(lab, ledger.value.resources, runTag);
        if identity.None? then Err(ControlSession)
        else Ok(Snapshot(runTag, lab.hash(s.ledgers[runTag]), identity.value, FROZEN_REGION))
  }

  // Which of the two resources comes first in the state does not matter.
  lemma IdentityIgnoresOrder(lab: Lab, a: Resource, b: Resource, runTag: string)
    requires a.address != b.address
    ensures ProductionIdentity(lab, [a, b], runTag) == ProductionIdentity(lab, [b, a], runTag)
  {
    ChecksIgnoreOrder(a, b, runTag);
    SortedPair(a, b);
    hide SessionRegionOk, IdentityOk, LabelsOk, AddressLeq, Sort;
  }

  lemma ChecksIgnoreOrder(a: Resource, b: Resource, runTag: string)
    requires a.address != b.address
    ensures SessionRegionOk([a, b]) <==> SessionRegionOk([b, a])
    ensures IdentityOk([a, b]) <==> IdentityOk([b, a])
    ensures LabelsOk([a, b], runTag) <==> LabelsOk([b, a], runTag)
  {
    hide OwnTags, HasTag, ExpectedKind, EXPECTED_ADDRESSES, INSTANCE_ADDRESS, FIREWALL_ADDRESS, LABEL_PREFIX,
         FROZEN_REGION;
    assert forall r :: r in [a, b] <==> r in [b, a] by {
      assert [a, b][0] == a && [a, b][1] == b && [b, a][0] == b && [b, a][1] == a;
    }
  }

  lemma SortedPair(a: Resource, b: Resource)
    requires a.address != b.address
    ensures Sort([a, b], AddressLeq) == Sort([b, a], AddressLeq)
  {
    LexTotal(a.address, b.address);
    if LexLeq(a.address, b.address) && LexLeq(b.address, a.address) {
      LexAntisymmetric(a.address, b.address);
      assert false;
    }
    hide LexLeq;
    assert [a, b][1..] == [b] && [b, a][1..] == [a];
    assert Sort([b], AddressLeq) == [b] && Sort([a], AddressLeq) == [a];
  }

  // ---- the terminal event -------------------------------------------------

  predicate IsRelevant(e: Event, control: string) {
    && e.Event? && e.detail.candidate == Some(control) && e.detail.stage == Some(DEVELOPMENT)
    && (e.name == COMPLETED || e.name == STOPPED)
  }

  predicate IsStop(e: Event, control: string) {
    IsRelevant(e, control) && (e.name == STOPPED || e.detail.stopped == Some(true))
  }

  predicate IsCompletion(e: Event, control: string) {
    IsRelevant(e, control) && e.name == COMPLETED && e.detail.stopped == Some(false)
  }

  function Completions(events: seq<Event>, control: string): seq<Event> {
    if events == [] then []
    else
      var last := events[|events| - 1];
      Completions(events[..|events| - 1], control) + (if IsCompletion(last, control) then [last] else [])
  }

  predicate HasStop(events: seq<Event>, control: string) {
    exists i :: 0 <= i < |events| && IsStop(events[i], control)
  }

  function TerminalEvent(lab: Lab, session: Session, runTag: string, runLabel: string, configDigest: string, pair: Pair)
    : Result<string, Refusal>
  {
    if session.runTag != runTag then Err(EventMismatch)
    else if HasStop(session.events, pair.control) then Err(StoppedControl)
    else
      var completed := Completions(session.events, pair.control);
      if |completed| != 1 then Err(EventMismatch)
      else
        var e := completed[0];
        if e.Event? && e.detail.runLabel == Some(runLabel) && e.detail.configDigest == Some(configDigest)
        then Ok(lab.hash(lab.eventText(e)))
        else Err(EventMismatch)
  }

  // The loop over the session log: the first stop refuses at once, completions
  // are collected.
  method RequireTerminalEvent(
      lab: Lab, session: Session, runTag: string, runLabel: string, configDigest: string, pair: Pair)
    returns (r: Result<string, Refusal>)
    ensures r == TerminalEvent(lab, session, runTag, runLabel, configDigest, pair)
  {
    if session.runTag != runTag {
      return Err(EventMismatch);
    }
    var events, completed: seq<Event>, i := session.events, [], 0;
    while i < |events|
      invariant 0 <= i <= |events|
      invariant forall k :: 0 <= k < i ==> !IsStop(events[k], pair.control)
      invariant completed == Completions(events[..i], pair.control)
    {
      var e := events[i];
      assert events[..i + 1][..i] == events[..i];
      if e.Event? && e.detail.candidate == Some(pair.control) && e.detail.stage == Some(DEVELOPMENT)
         && (e.name == COMPLETED || e.name == STOPPED)
      {
        if e.name == STOPPED || e.detail.stopped == Some(true) {
          assert IsStop(events[i], pair.control);
          return Err(StoppedControl);
        }
        if e.name == COMPLETED && e.detail.stopped == Some(false) {
          completed := completed + [e];
        }
      }
      i := i + 1;
    }
    assert events[..i] == events;
    if |completed| != 1 {
      return Err(EventMismatch);
    }
    var e := completed[0];
    if !e.Event? || e.detail.runLabel != Some(runLabel) || e.detail.configDigest != Some(configDigest) {
      return Err(EventMismatch);
    }
    return Ok(lab.hash(lab.eventText(e)));
  }

  lemma {:induction false} CompletionsAppend(a: seq<Event>, b: seq<Event>, control: string)
    ensures Completions(a + b, control) == Completions(a, control) + Completions(b, control)
  {
    hide IsCompletion;
    if b == [] {
      assert a + b == a;
    } else {
      var n := |b| - 1;
      CompletionsAppend(a, b[..n], control);
      assert (a + b)[..|a| + n] == a + b[..n] && (a + b)[|a| + n] == b[n];
    }
  }

  lemma {:induction false} NoCompletionsExactly(events: seq<Event>, control: string)
    ensures Completions(events, control) == [] <==> forall i :: 0 <= i < |events| ==> !IsCompletion(events[i], control)
  {
    hide IsCompletion;
    if events != [] {
      var n := |events| - 1;
      NoCompletionsExactly(events[..n], control);
      assert forall i :: 0 <= i < n ==> events[..n][i] == events[i];
    }
  }

  // An event that closes or stops the control's development run.
  predicate Terminal(e: Event, control: string) {
    IsCompletion(e, control) || IsStop(e, control)
  }

  predicate AddsNothingTerminal(more: seq<Event>, control: string) {
    forall i :: 0 <= i < |more| ==> !Terminal(more[i], control)
  }

  lemma StopsAppend(a: seq<Event>, b: seq<Event>, control: string)
    ensures HasStop(a + b, control) <==> HasStop(a, control) || HasStop(b, control)
  {
    hide IsStop;
    if k :| 0 <= k < |a| && IsStop(a[k], control) {
      assert IsStop((a + b)[k], control);
    }
    if k :| 0 <= k < |b| && IsStop(b[k], control) {
      assert IsStop((a + b)[|a| + k], control);
    }
    if k :| 0 <= k < |a + b| && IsStop((a + b)[k], control) {
      assert k < |a| || IsStop(b[k - |a|], control);
    }
  }

  lemma NothingTerminalExactly(more: seq<Event>, control: string)
    ensures AddsNothingTerminal(more, control) <==> Completions(more, control) == [] && !HasStop(more, control)
  {
    hide IsCompletion, IsStop;
    NoCompletionsExactly(more, control);
  }

  // Once the terminal event is found, it stays found, with the same digest,
  // exactly as long as no completion or stop of the control is appended. A stop
  // is reported as a stopped control, a further completion as a mismatch.
  lemma GrowingLog(
    lab: Lab, before: Session, more: seq<Event>, runTag: string, runLabel: string, configDigest: string, pair: Pair)
    requires TerminalEvent(lab, before, runTag, runLabel, configDigest, pair).Ok?
    ensures var after := Session(before.runTag, before.events + more);
            TerminalEvent(lab, after, runTag, runLabel, configDigest, pair) ==
              if AddsNothingTerminal(more, pair.control)
                then TerminalEvent(lab, before, runTag, runLabel, configDigest, pair)
              else if HasStop(more, pair.control) then Err(StoppedControl)
              else Err(EventMismatch)
  {
    CompletionsAppend(before.events, more, pair.control);
    StopsAppend(before.events, more, pair.control);
    NothingTerminalExactly(more, pair.control);
    hide HasStop, Completions, AddsNothingTerminal;
    var found := Completions(before.events, pair.control);
    assert Completions(more, pair.control) == [] ==> Completions(before.events + more, pair.control) == found;
  }

  // ---- the receipt and the result -----------------------------------------

  function ReceiptFault(
    lab: Lab, r: RunReceipt, runLabel: string, configDigest: string, identity: string, workload: string, pair: Pair)
    : Option<Refusal>
  {
    if r.candidate != pair.control || r.stage != DEVELOPMENT then Some(Failed)
    else if lab.outputLabel(runLabel, pair.control) != Some(r.runLabel) then Some(LabelMismatch)
    else if r.configDigest != configDigest || r.identity != identity then Some(DigestMismatch)
    else if r.workload != workload || r.controller != lab.controllerOf(pair.control) then Some(PinsMismatch)
    else if pair.schemaVersion == SCHEMA_V2 && r.diagnostic then Some(Failed)
    else if pair.schemaVersion == SCHEMA_V2 && r.evidenceContract != lab.pins(pair).evidenceContract
      then Some(PinsMismatch)
    else if r.stopped != Some(false) || r.gatesStopped != Some(false) || r.gatesContinue != Some(true)
      then Some(StoppedControl)
    else None
  }

  // The one result of the control's cell, when nothing marks it failed.
  function ResultBytes(s: Store, cell: string): Option<string> {
    if cell in s.failures || cell !in s.results || |s.results[cell]| != 1 then None else Some(s.results[cell][0])
  }

  // ---- minting the record -------------------------------------------------

  function ComposeRecord(
    lab: Lab, snapshot: Snapshot, runLabel: string, commit: string, configDigest: string, resultDigest: string,
    receiptDigest: string, eventDigest: string, pair: Pair): Record
  {
    Record(pair.schemaVersion, pair.kind, snapshot.runTag, runLabel, pair.control, commit, configDigest, resultDigest,
           snapshot.ledgerDigest, snapshot.resourceIdentity, receiptDigest, eventDigest, lab.pins(pair),
           true, true, false, COMPLETED, false)
  }

  predicate RecordAccepted(lab: Lab, r: Record, pair: Pair) {
    lab.recordValid(r) && r.kind == pair.kind && r.candidate == pair.control
  }

  // A record is admitted by one registered pair at most, so a control of one
  // comparison is never taken for that of another.
  lemma RecordsBelongToOnePair(lab: Lab, r: Record, p: Pair, q: Pair)
    requires p in CONTROL_PAIRS && q in CONTROL_PAIRS
    requires RecordAccepted(lab, r, p) && RecordAccepted(lab, r, q)
    ensures p == q
  {
    assert |p.control| == 2 && |q.control| == 2;
    assert p.control[0] == q.control[0] && p.control[1] == q.control[1];
  }

  function MintRecord(
    lab: Lab, s: Store, runTag: string, runLabel: string, commit: string, configDigest: string, receiptDigest: string,
    snapshot: Snapshot, pair: Pair): Result<Record, Refusal>
  {
    if snapshot.runTag != runTag then Err(SessionChanged)
    else
      var current := CaptureSession(lab, s, snapshot.runTag);
      if current.Err? then Err(current.error)
      else if current.value != snapshot then Err(SessionChanged)
      else
        var cell := lab.outputLabel(runLabel, pair.control);
        if cell.None? then Err(UnsafeLabel)
        else if cell.value !in s.receipts then Err(Failed)
        else if lab.hash(s.receipts[cell.value]) != receiptDigest then Err(DigestMismatch)
        else
          var receipt := lab.parseReceipt(s.receipts[cell.value]);
          if receipt.None? then Err(Malformed)
          else if !lab.evaluatorAgrees then Err(PinsMismatch)
          else
            var pins := lab.pins(pair);
            var fault := ReceiptFault(lab, receipt.value, runLabel, configDigest, pins.identity, pins.workload, pair);
            if fault.Some? then Err(fault.value)
            else if runTag !in s.sessions then Err(Failed)
            else
              var session := lab.parseSession(s.sessions[runTag]);
              if session.None? then Err(Malformed)
              else
                var event := TerminalEvent(lab, session.value, runTag, runLabel, configDigest, pair);
                if event.Err? then Err(event.error)
                else
                  var result := ResultBytes(s, cell.value);
                  if result.None? then Err(Failed)
                  else
                    var r := ComposeRecord(lab, snapshot, runLabel, commit, configDigest, lab.hash(result.value),
                                           receiptDigest, event.value, pair);
                    if RecordAccepted(lab, r, pair) then Ok(r) else Err(Malformed)
  }

  // ---- authentication -----------------------------------------------------

  function SectionFrom(r: Record, recordDigest: string, pair: Pair): Section {
    Section(pair.schemaVersion, r.runTag, r.runLabel, r.commit, r.pins.region, r.configDigest, r.resultDigest,
      recordDigest,
            r.resourceIdentity, r.ledgerDigest,
            if pair.schemaVersion == SCHEMA_V2 then r.pins.evidenceContract else None)
  }

  function ReceiptBlock(r: Record, recordDigest: string, pair: Pair): Block {
    Block(pair.schemaVersion, pair.kind, pair.prefix, r.runLabel, recordDigest, r.configDigest, r.resultDigest,
          r.pins.identity, r.resourceIdentity, r.ledgerDigest, r.pins.catalog, r.pins.schedule, r.pins.precision,
          r.pins.region, r.commit, r.receiptDigest, r.eventDigest, r.stopped, r.terminalEvent,
          if pair.schemaVersion == SCHEMA_V2 then r.pins.evidenceContract else None)
  }

  // The shape of a development_control section.
  predicate SectionShapeOk(lab: Lab, s: Section, pair: Pair) {
    && s.schemaVersion == pair.schemaVersion
    && (if pair.schemaVersion == SCHEMA_V2 then s.evidenceContract == lab.pins(pair).evidenceContract
      else s.evidenceContract.None?)
    && ValidRunTag(s.runTag) && lab.safeLabel(s.runLabel) && IsCommit(s.commit) && s.region == FROZEN_REGION
    && IsHex64(s.configDigest) && IsHex64(s.resultDigest) && IsHex64(s.recordDigest)
    && IsHex64(s.resourceIdentity) && IsHex64(s.ledgerDigest)
  }

  // What must hold before any file of the control is opened.
  function ConfigFault(lab: Lab, config: Config, runTag: string, treatmentLabel: string, pair: Pair): Option<Refusal> {
    if config.section.None? || !SectionShapeOk(lab, config.section.value, pair) then Some(BadSection)
    else
      var s := config.section.value;
      if s.runTag != runTag then Some(RunTagMismatch)
      else if s.runLabel == treatmentLabel then Some(OwnLabel)
      else if s.commit != config.commit then Some(CommitMismatch)
      else if config.cloudRegion != Some(FROZEN_REGION) then Some(HistoricalRegion)
      else None
  }

  function SnapshotFault(snapshot: Snapshot, s: Section): Option<Refusal> {
    if snapshot.ledgerDigest != s.ledgerDigest then Some(DigestMismatch)
    else if snapshot.resourceIdentity != s.resourceIdentity then Some(ResourceMismatch)
    else if snapshot.region != s.region then Some(HistoricalRegion)
    else None
  }

  function RecordFault(lab: Lab, r: Record, s: Section, runTag: string, pair: Pair): Option<Refusal> {
    if !RecordAccepted(lab, r, pair) then Some(Malformed)
    else if !r.completed || !r.verified || r.failure then Some(Failed)
    else if r.runTag != runTag then Some(RunTagMismatch)
    else if r.runLabel != s.runLabel then Some(LabelMismatch)
    else if r.commit != s.commit then Some(CommitMismatch)
    else if r.pins.region != FROZEN_REGION then Some(HistoricalRegion)
    else if r.configDigest != s.configDigest || r.resultDigest != s.resultDigest || r.ledgerDigest != s.ledgerDigest
    then Some(DigestMismatch)
    else if r.resourceIdentity != s.resourceIdentity then Some(ResourceMismatch)
    else if !lab.evaluatorAgrees || r.pins != lab.pins(pair) then Some(PinsMismatch)
    else None
  }

  // The record's receipt and terminal event, read again.
  function CompletionFault(lab: Lab, s: Store, r: Record, cell: string, runTag: string, pair: Pair): Option<Refusal> {
    if r.stopped || r.terminalEvent != COMPLETED then Some(StoppedControl)
    else if cell !in s.receipts then Some(Failed)
    else if lab.hash(s.receipts[cell]) != r.receiptDigest then Some(DigestMismatch)
    else
      var receipt := lab.parseReceipt(s.receipts[cell]);
      if receipt.None? then Some(Malformed)
      else
        var fault :=
          ReceiptFault(lab, receipt.value, r.runLabel, r.configDigest, r.pins.identity, r.pins.workload, pair);
        if fault.Some? then fault
        else if runTag !in s.sessions then Some(Failed)
        else
          var session := lab.parseSession(s.sessions[runTag]);
          if session.None? then Some(Malformed)
          else
            var event := TerminalEvent(lab, session.value, runTag, r.runLabel, r.configDigest, pair);
            if event.Err? then Some(event.error)
            else if event.value != r.eventDigest then Some(DigestMismatch)
            else None
  }

  function Authenticate(lab: Lab, s: Store, config: Config, runTag: string, treatmentLabel: string, pair: Pair)
    : Result<Block, Refusal>
  {
    var early := ConfigFault(lab, config, runTag, treatmentLabel, pair);
    if early.Some? then Err(early.value)
    else
      var section := config.section.value;
      var snapshot := CaptureSession(lab, s, runTag);
      if snapshot.Err? then Err(snapshot.error)
      else if SnapshotFault(snapshot.value, section).Some? then Err(SnapshotFault(snapshot.value, section).value)
      else
        var cell := lab.outputLabel(section.runLabel, pair.control);
        if cell.None? then Err(UnsafeLabel)
        else if cell.value !in s.records then Err(Missing)
        else if lab.hash(s.records[cell.value]) != section.recordDigest then Err(DigestMismatch)
        else
          var record := lab.parseRecord(s.records[cell.value]);
          if record.None? then Err(Malformed)
          else
            var fault := RecordFault(lab, record.value, section, runTag, pair);
            if fault.Some? then Err(fault.value)
            else
              var result := ResultBytes(s, cell.value);
              if result.None? then Err(Failed)
              else if lab.hash(result.value) != record.value.resultDigest then Err(DigestMismatch)
              else
                var broken := CompletionFault(lab, s, record.value, cell.value, runTag, pair);
                if broken.Some? then Err(broken.value) else Ok(ReceiptBlock(record.value, section.recordDigest, pair))
  }

  // ---- binding survives ---------------------------------------------------

  // The records read back, and digests are 64 hexadecimal digits.
  ghost predicate Faithful(lab: Lab) {
    && (forall r :: lab.parseRecord(lab.recordText(r)) == Some(r))
    && (forall s :: IsHex64(lab.hash(s)))
  }

  // The files of this control and this session's ledger are as they were; the
  // session log and everything of other runs may have changed.
  predicate Kept(a: Store, b: Store, runTag: string, cell: string) {
    && runTag in a.ledgers && runTag in b.ledgers && b.ledgers[runTag] == a.ledgers[runTag]
    && (runTag in b.pendings <==> runTag in a.pendings)
    && cell in a.receipts && cell in b.receipts && b.receipts[cell] == a.receipts[cell]
    && ResultBytes(b, cell) == ResultBytes(a, cell)
    && cell in a.records && cell in b.records && b.records[cell] == a.records[cell]
  }

  // The store right after the record was written.
  function Persisted(lab: Lab, s: Store, r: Record, cell: string): Store {
    s.(records := s.records[cell := lab.recordText(r)])
  }

  // A treatment configuration bound to this record.
  predicate BoundTo(lab: Lab, config: Config, r: Record, pair: Pair) {
    && config.section == Some(SectionFrom(r, lab.hash(lab.recordText(r)), pair))
    && config.commit == r.commit && config.cloudRegion == Some(FROZEN_REGION)
  }

  lemma MintedParts(
    lab: Lab, s: Store, runTag: string, runLabel: string, commit: string, configDigest: string, receiptDigest: string,
    snapshot: Snapshot, pair: Pair, r: Record)
    requires MintRecord(lab, s, runTag, runLabel, commit, configDigest, receiptDigest, snapshot, pair) == Ok(r)
    ensures CaptureSession(lab, s, runTag) == Ok(snapshot) && snapshot.runTag == runTag
    ensures lab.outputLabel(runLabel, pair.control).Some? && lab.evaluatorAgrees && RecordAccepted(lab, r, pair)
    ensures var cell := lab.outputLabel(runLabel, pair.control).value;
            && ResultBytes(s, cell).Some?
            && runTag in s.sessions && lab.parseSession(s.sessions[runTag]).Some?
            && CompletionFault(lab, s, r, cell, runTag, pair).None?
            && r == ComposeRecord(lab, snapshot, runLabel, commit, configDigest, lab.hash(ResultBytes(s, cell).value),
                                  receiptDigest, r.eventDigest, pair)
            && TerminalEvent(lab, lab.parseSession(s.sessions[runTag]).value, runTag, runLabel, configDigest, pair) ==
              Ok(r.eventDigest)
  {
    hide CaptureSession, TerminalEvent, ReceiptFault, RecordAccepted;
  }

  lemma CaptureKept(lab: Lab, a: Store, b: Store, runTag: string, cell: string)
    requires Kept(a, b, runTag, cell)
    ensures CaptureSession(lab, b, runTag) == CaptureSession(lab, a, runTag)
  {
    hide ProductionIdentity, ValidRunTag, ResultBytes;
  }

  lemma CapturedSection(lab: Lab, s: Store, runTag: string, snapshot: Snapshot)
    requires Faithful(lab) && CaptureSession(lab, s, runTag) == Ok(snapshot)
    ensures ValidRunTag(runTag) && snapshot.runTag == runTag && snapshot.region == FROZEN_REGION
    ensures IsHex64(snapshot.ledgerDigest) && IsHex64(snapshot.resourceIdentity)
  {
    hide ValidRunTag, IsHex64, SessionRegionOk, IdentityOk, LabelsOk, IdentityRows;
  }

  // The configuration's own checks pass for a section made from the record.
  lemma BoundConfigIsAccepted(
      lab: Lab, config: Config, s: Store, runTag: string, treatmentLabel: string, snapshot: Snapshot, pair: Pair,
      r: Record)
    requires Faithful(lab) && BoundTo(lab, config, r, pair) && CaptureSession(lab, s, runTag) == Ok(snapshot)
    requires r.runTag == runTag && r.runLabel != treatmentLabel
    requires r.pins == lab.pins(pair) && r.pins.region == FROZEN_REGION
    requires r.ledgerDigest == snapshot.ledgerDigest && r.resourceIdentity == snapshot.resourceIdentity
    requires lab.safeLabel(r.runLabel) && IsCommit(r.commit) && IsHex64(r.configDigest) && IsHex64(r.resultDigest)
    ensures ConfigFault(lab, config, runTag, treatmentLabel, pair).None?
    ensures SnapshotFault(snapshot, config.section.value).None?
  {
    CapturedSection(lab, s, runTag, snapshot);
    hide ValidRunTag, IsCommit, CaptureSession;
    assert IsHex64(lab.hash(lab.recordText(r)));
    hide IsHex64;
  }

  // A control persisted after a completed run authenticates for its own pair,
  // under a treatment label of its own, and yields exactly the block of the
  // stored record. That survives any growth of the session log without a
  // control-development completion or stop, and no other: one more completion
  // or any stop makes it refuse.
  lemma PersistedControlAuthenticates(
    lab: Lab, s: Store, runTag: string, runLabel: string, commit: string, configDigest: string, receiptDigest: string,
    snapshot: Snapshot, pair: Pair, r: Record, later: Store, more: seq<Event>, config: Config, treatmentLabel: string)
    requires Faithful(lab)
    requires MintRecord(lab, s, runTag, runLabel, commit, configDigest, receiptDigest, snapshot, pair) == Ok(r)
    requires lab.pins(pair).region == FROZEN_REGION
    requires lab.safeLabel(runLabel) && IsCommit(commit) && IsHex64(configDigest)
    requires Kept(Persisted(lab, s, r, lab.outputLabel(runLabel, pair.control).value), later, runTag,
                  lab.outputLabel(runLabel, pair.control).value)
    requires runTag in later.sessions && lab.parseSession(s.sessions[runTag]).Some?
    requires var before := lab.parseSession(s.sessions[runTag]).value;
             lab.parseSession(later.sessions[runTag]) == Some(Session(before.runTag, before.events + more))
    requires BoundTo(lab, config, r, pair) && treatmentLabel != runLabel
    ensures var authenticated := Authenticate(lab, later, config, runTag, treatmentLabel, pair);
            && (authenticated.Ok? <==> AddsNothingTerminal(more, pair.control))
            && (authenticated.Ok? ==> authenticated.value == ReceiptBlock(r, lab.hash(lab.recordText(r)), pair))
  {
    var cell := lab.outputLabel(runLabel, pair.control).value;
    var before := lab.parseSession(s.sessions[runTag]).value;
    MintedParts(lab, s, runTag, runLabel, commit, configDigest, receiptDigest, snapshot, pair, r);
    hide MintRecord, IsCommit;
    assert CaptureSession(lab, Persisted(lab, s, r, cell), runTag) == CaptureSession(lab, s, runTag);
    CaptureKept(lab, Persisted(lab, s, r, cell), later, runTag, cell);
    assert IsHex64(lab.hash(ResultBytes(s, cell).value));
    assert ResultBytes(Persisted(lab, s, r, cell), cell) == ResultBytes(s, cell);
    hide CaptureSession, IsHex64, ResultBytes;
    BoundConfigIsAccepted(lab, config, later, runTag, treatmentLabel, snapshot, pair, r);
    GrowingLog(lab, before, more, runTag, runLabel, configDigest, pair);
    assert lab.parseRecord(later.records[cell]) == Some(r);
    hide TerminalEvent, AddsNothingTerminal, ConfigFault, SnapshotFault, ReceiptFault, Faithful, RecordAccepted;
    assert RecordFault(lab, r, config.section.value, runTag, pair).None?;
    CompletionLater(lab, s, later, r, cell, runTag, pair);
  }

  // The completion check on the grown log differs only in the terminal event.
  lemma CompletionLater(lab: Lab, s: Store, later: Store, r: Record, cell: string, runTag: string, pair: Pair)
    requires CompletionFault(lab, s, r, cell, runTag, pair).None?
    requires cell in later.receipts && later.receipts[cell] == s.receipts[cell]
    requires runTag in later.sessions && lab.parseSession(later.sessions[runTag]).Some?
    ensures CompletionFault(lab, later, r, cell, runTag, pair).None? <==>
            TerminalEvent(lab, lab.parseSession(later.sessions[runTag]).value, runTag, r.runLabel, r.configDigest, pair)
            == Ok(r.eventDigest)
  {
    hide TerminalEvent, ReceiptFault;
  }

  // ---- what is refused ----------------------------------------------------

  // The files an authenticated control is bound to.
  function BoundTexts(s: Store, runTag: string, cell: string): set<string> {
    (if runTag in s.ledgers then {s.ledgers[runTag]} else {})
    + (if cell in s.records then {s.records[cell]} else {})
    + (if cell in s.receipts then {s.receipts[cell]} else {})
    + (if cell in s.results && |s.results[cell]| == 1 then {s.results[cell][0]} else {})
  }

  predicate SameBoundFiles(a: Store, b: Store, runTag: string, cell: string) {
    && runTag in a.ledgers && runTag in b.ledgers && b.ledgers[runTag] == a.ledgers[runTag]
    && cell in a.records && cell in b.records && b.records[cell] == a.records[cell]
    && cell in a.receipts && cell in b.receipts && b.receipts[cell] == a.receipts[cell]
    && cell in a.results && cell in b.results && b.results[cell] == a.results[cell]
  }

  // The section pins the bytes of the ledger, the record, the receipt and the
  // result: any two stores it authenticates against agree on all four, and it
  // yields the same block for both.
  lemma SectionPinsFiles(
    lab: Lab, s: Store, later: Store, config: Config, runTag: string, treatmentLabel: string, pair: Pair, cell: string)
    requires Authenticate(lab, s, config, runTag, treatmentLabel, pair).Ok?
    requires Authenticate(lab, later, config, runTag, treatmentLabel, pair).Ok?
    requires config.section.Some? && lab.outputLabel(config.section.value.runLabel, pair.control) == Some(cell)
    requires NoCollision(lab.hash, BoundTexts(s, runTag, cell) + BoundTexts(later, runTag, cell))
    ensures SameBoundFiles(s, later, runTag, cell)
    ensures Authenticate(lab, later, config, runTag, treatmentLabel, pair) ==
      Authenticate(lab, s, config, runTag, treatmentLabel, pair)
  {
    AuthenticatedParts(lab, s, config, runTag, treatmentLabel, pair, cell);
    AuthenticatedParts(lab, later, config, runTag, treatmentLabel, pair, cell);
    hide Authenticate, ReceiptBlock;
    assert s.results[cell] == [s.results[cell][0]] && later.results[cell] == [later.results[cell][0]];
  }

  lemma AuthenticatedParts(
    lab: Lab, s: Store, config: Config, runTag: string, treatmentLabel: string, pair: Pair, cell: string)
    requires Authenticate(lab, s, config, runTag, treatmentLabel, pair).Ok?
    requires config.section.Some? && lab.outputLabel(config.section.value.runLabel, pair.control) == Some(cell)
    ensures runTag in s.ledgers && lab.hash(s.ledgers[runTag]) == config.section.value.ledgerDigest
    ensures cell in s.records && lab.hash(s.records[cell]) == config.section.value.recordDigest
    ensures cell in s.results && |s.results[cell]| == 1 && lab.parseRecord(s.records[cell]).Some?
    ensures var r := lab.parseRecord(s.records[cell]).value;
            && lab.hash(s.results[cell][0]) == r.resultDigest
            && cell in s.receipts && lab.hash(s.receipts[cell]) == r.receiptDigest
            && Authenticate(lab, s, config, runTag, treatmentLabel, pair)
               == Ok(ReceiptBlock(r, config.section.value.recordDigest, pair))
  {
    hide ProductionIdentity, ValidRunTag, SectionShapeOk, RecordFault, ReceiptFault, TerminalEvent, ReceiptBlock;
  }

  // ---- what authentication means ------------------------------------------

  // A run receipt whose claims are those of a completed, non-stopped control.
  predicate CompleteReceipt(
    lab: Lab, r: RunReceipt, runLabel: string, configDigest: string, identity: string, workload: string, pair: Pair)
  {
    && r.candidate == pair.control && r.stage == DEVELOPMENT
    && Some(r.runLabel) == lab.outputLabel(runLabel, pair.control)
    && r.configDigest == configDigest && r.identity == identity && r.workload == workload
    && r.controller == lab.controllerOf(pair.control)
    && r.stopped == Some(false) && r.gatesStopped == Some(false) && r.gatesContinue == Some(true)
    && (pair.schemaVersion == SCHEMA_V2 ==> !r.diagnostic && r.evidenceContract == lab.pins(pair).evidenceContract)
  }

  lemma ReceiptAcceptedExactly(
    lab: Lab, r: RunReceipt, runLabel: string, configDigest: string, identity: string, workload: string, pair: Pair)
    ensures ReceiptFault(lab, r, runLabel, configDigest, identity, workload, pair).None? <==>
            CompleteReceipt(lab, r, runLabel, configDigest, identity, workload, pair)
  {
  }

  // A session is captured exactly from a reconciled, provider-checked ledger of
  // this run with nothing pending, whose two resources are the run's own.
  lemma CapturedExactly(lab: Lab, s: Store, runTag: string, snapshot: Snapshot)
    ensures CaptureSession(lab, s, runTag) == Ok(snapshot) <==>
            && ValidRunTag(runTag) && runTag !in HISTORICAL_ABORTED_RUN_TAGS && runTag in s.ledgers
            && runTag !in s.pendings
            && lab.parseLedger(s.ledgers[runTag]).Some?
            && (var ledger := lab.parseLedger(s.ledgers[runTag]).value;
                && ledger.runTag == runTag && ledger.reconciled && ledger.reconciliation.providerChecked
                && SessionRegionOk(ledger.resources) && IdentityOk(ledger.resources)
                && LabelsOk(ledger.resources, runTag)
                && snapshot == Snapshot(runTag, lab.hash(s.ledgers[runTag]),
                                        lab.hash(lab.rowsText(IdentityRows(lab, ledger.resources))), FROZEN_REGION))
  {
    hide ValidRunTag, SessionRegionOk, IdentityOk, LabelsOk, IdentityRows;
  }

  // The stored record is the completed, verified control the section names.
  predicate RecordMatches(lab: Lab, r: Record, section: Section, runTag: string, pair: Pair) {
    && RecordAccepted(lab, r, pair)
    && r.completed && r.verified && !r.failure && !r.stopped && r.terminalEvent == COMPLETED
    && r.runTag == runTag && r.runLabel == section.runLabel && r.commit == section.commit
    && r.configDigest == section.configDigest && r.resultDigest == section.resultDigest
    && r.ledgerDigest == section.ledgerDigest && r.resourceIdentity == section.resourceIdentity
    && lab.evaluatorAgrees && r.pins == lab.pins(pair) && r.pins.region == FROZEN_REGION
  }

  // Result, receipt and terminal event are the ones the record was minted from.
  predicate EvidenceMatches(lab: Lab, s: Store, r: Record, cell: string, runTag: string, pair: Pair) {
    && ResultBytes(s, cell).Some? && lab.hash(ResultBytes(s, cell).value) == r.resultDigest
    && cell in s.receipts && lab.hash(s.receipts[cell]) == r.receiptDigest && lab.parseReceipt(s.receipts[cell]).Some?
    && CompleteReceipt(lab, lab.parseReceipt(s.receipts[cell]).value, r.runLabel, r.configDigest, r.pins.identity,
                       r.pins.workload, pair)
    && runTag in s.sessions && lab.parseSession(s.sessions[runTag]).Some?
    && TerminalEvent(lab, lab.parseSession(s.sessions[runTag]).value, runTag, r.runLabel, r.configDigest, pair) ==
      Ok(r.eventDigest)
  }

  predicate Genuine(
    lab: Lab, s: Store, config: Config, runTag: string, treatmentLabel: string, pair: Pair, cell: string, r: Record)
  {
    && config.section.Some?
    && (var section := config.section.value;
        && SectionShapeOk(lab, section, pair)
        && section.runTag == runTag && section.runLabel != treatmentLabel
        && section.commit == config.commit && config.cloudRegion == Some(section.region)
        && CaptureSession(lab, s, runTag) ==
          Ok(Snapshot(runTag, section.ledgerDigest, section.resourceIdentity, section.region))
        && lab.outputLabel(section.runLabel, pair.control) == Some(cell)
        && cell in s.records && lab.hash(s.records[cell]) == section.recordDigest
        && lab.parseRecord(s.records[cell]) == Some(r)
        && RecordMatches(lab, r, section, runTag, pair)
        && EvidenceMatches(lab, s, r, cell, runTag, pair))
  }

  lemma CompletionExactly(lab: Lab, s: Store, r: Record, cell: string, runTag: string, pair: Pair)
    requires !r.stopped && r.terminalEvent == COMPLETED
    ensures (ResultBytes(s, cell).Some? && lab.hash(ResultBytes(s, cell).value) == r.resultDigest
             && CompletionFault(lab, s, r, cell, runTag, pair).None?) <==>
               EvidenceMatches(lab, s, r, cell, runTag, pair)
  {
    if cell in s.receipts && lab.parseReceipt(s.receipts[cell]).Some? {
      ReceiptAcceptedExactly(lab, lab.parseReceipt(s.receipts[cell]).value, r.runLabel, r.configDigest, r.pins.identity,
                             r.pins.workload, pair);
    }
    hide ReceiptFault, CompleteReceipt, TerminalEvent, ResultBytes;
  }

  // Authentication succeeds exactly for a genuine control of this pair, commit,
  // region and session, and then yields the block of its record.
  lemma AuthenticatedExactly(
      lab: Lab, s: Store, config: Config, runTag: string, treatmentLabel: string, pair: Pair, block: Block)
    ensures Authenticate(lab, s, config, runTag, treatmentLabel, pair) == Ok(block) <==>
            exists cell, r :: Genuine(lab, s, config, runTag, treatmentLabel, pair, cell, r)
                              && block == ReceiptBlock(r, config.section.value.recordDigest, pair)
  {
    hide CaptureSession, SectionShapeOk, EvidenceMatches, CompletionFault, RecordAccepted, ReceiptBlock, ResultBytes;
    if Authenticate(lab, s, config, runTag, treatmentLabel, pair) == Ok(block) {
      var section := config.section.value;
      var cell := lab.outputLabel(section.runLabel, pair.control).value;
      var r := lab.parseRecord(s.records[cell]).value;
      RegionFrozen(lab, section, pair);
      CapturedTag(lab, s, runTag);
      StoppedRefused(lab, s, r, cell, runTag, pair);
      CompletionExactly(lab, s, r, cell, runTag, pair);
      assert Genuine(lab, s, config, runTag, treatmentLabel, pair, cell, r);
    }
    if cell, r :| Genuine(lab, s, config, runTag, treatmentLabel, pair, cell, r)
                  && block == ReceiptBlock(r, config.section.value.recordDigest, pair)
    {
      RegionFrozen(lab, config.section.value, pair);
      CompletionExactly(lab, s, r, cell, runTag, pair);
    }
  }

  lemma RegionFrozen(lab: Lab, section: Section, pair: Pair)
    requires SectionShapeOk(lab, section, pair)
    ensures section.region == FROZEN_REGION
  {
    hide ValidRunTag, IsHex64, IsCommit;
  }

  lemma CapturedTag(lab: Lab, s: Store, runTag: string)
    ensures CaptureSession(lab, s, runTag).Ok? ==> CaptureSession(lab, s, runTag).value.runTag == runTag
  {
    hide ProductionIdentity, ValidRunTag;
  }

  lemma StoppedRefused(lab: Lab, s: Store, r: Record, cell: string, runTag: string, pair: Pair)
    requires CompletionFault(lab, s, r, cell, runTag, pair).None?
    ensures !r.stopped && r.terminalEvent == COMPLETED
  {
    hide ReceiptFault, TerminalEvent;
  }

  // ---- what the block and the record carry --------------------------------

  // Every value of the block is bound from outside the record: by the section,
  // the frozen pins of the pair, the receipt on disk or the session log.
  lemma BlockIsBound(
      lab: Lab, s: Store, config: Config, runTag: string, treatmentLabel: string, pair: Pair, block: Block)
    requires Authenticate(lab, s, config, runTag, treatmentLabel, pair) == Ok(block)
    ensures config.section.Some?
    ensures var section := config.section.value;
            && section.runTag == runTag && block.runLabel == section.runLabel != treatmentLabel
            && block.commit == section.commit == config.commit
            && block.region == section.region == "ca-central"
            && block.recordDigest == section.recordDigest && block.configDigest == section.configDigest
            && block.resultDigest == section.resultDigest && block.ledgerDigest == section.ledgerDigest
            && block.resourceIdentity == section.resourceIdentity
    ensures var pins := lab.pins(pair);
            && block.schemaVersion == pair.schemaVersion && block.kind == pair.kind && block.prefix == pair.prefix
            && block.identity == pins.identity && block.catalog == pins.catalog && block.schedule == pins.schedule
            && block.precision == pins.precision
            && block.evidenceContract == (if pair.schemaVersion == "2.0.0" then pins.evidenceContract else None)
    ensures !block.stopped && block.terminalEvent == "qualification_completed"
    ensures var cell := lab.outputLabel(config.section.value.runLabel, pair.control);
            && cell.Some? && cell.value in s.receipts && block.receiptDigest == lab.hash(s.receipts[cell.value])
            && runTag in s.sessions && lab.parseSession(s.sessions[runTag]).Some?
            && TerminalEvent(lab, lab.parseSession(s.sessions[runTag]).value, runTag, block.runLabel,
                             block.configDigest, pair) == Ok(block.eventDigest)
  {
    hide Authenticate, CaptureSession, SectionShapeOk, CompleteReceipt, RecordAccepted, ResultBytes, TerminalEvent;
    AuthenticatedExactly(lab, s, config, runTag, treatmentLabel, pair, block);
    var cell, r :| Genuine(lab, s, config, runTag, treatmentLabel, pair, cell, r)
                   && block == ReceiptBlock(r, config.section.value.recordDigest, pair);
    RegionFrozen(lab, config.section.value, pair);
  }

  // A minted record repeats the call's own values, the digests of the files it
  // was minted from and the pins of the pair, and claims a completed, verified
  // run that was not stopped.
  lemma MintedRecord(
      lab: Lab, s: Store, runTag: string, runLabel: string, commit: string, configDigest: string,
      receiptDigest: string, snapshot: Snapshot, pair: Pair, r: Record)
    requires MintRecord(lab, s, runTag, runLabel, commit, configDigest, receiptDigest, snapshot, pair) == Ok(r)
    ensures r.schemaVersion == pair.schemaVersion && r.kind == pair.kind && r.candidate == pair.control
    ensures r.runTag == runTag && r.runLabel == runLabel && r.commit == commit && r.configDigest == configDigest
    ensures r.pins == lab.pins(pair) && r.completed && r.verified && !r.stopped && !r.failure
    ensures r.terminalEvent == "qualification_completed"
    ensures runTag in s.ledgers && r.ledgerDigest == lab.hash(s.ledgers[runTag])
    ensures lab.parseLedger(s.ledgers[runTag]).Some?
    ensures Some(r.resourceIdentity) ==
            ProductionIdentity(lab, lab.parseLedger(s.ledgers[runTag]).value.resources, runTag)
    ensures var cell := lab.outputLabel(runLabel, pair.control);
            && cell.Some? && cell.value in s.receipts && r.receiptDigest == lab.hash(s.receipts[cell.value])
            && cell.value in s.results && |s.results[cell.value]| == 1
            && r.resultDigest == lab.hash(s.results[cell.value][0]) && cell.value !in s.failures
  {
    MintedParts(lab, s, runTag, runLabel, commit, configDigest, receiptDigest, snapshot, pair, r);
    hide MintRecord, ProductionIdentity, CompletionFault, TerminalEvent, RecordAccepted, ValidRunTag;
    MintedReceipt(lab, s, runTag, runLabel, commit, configDigest, receiptDigest, snapshot, pair);
  }

  lemma MintedReceipt(
      lab: Lab, s: Store, runTag: string, runLabel: string, commit: string, configDigest: string,
      receiptDigest: string, snapshot: Snapshot, pair: Pair)
    requires MintRecord(lab, s, runTag, runLabel, commit, configDigest, receiptDigest, snapshot, pair).Ok?
    ensures var cell := lab.outputLabel(runLabel, pair.control);
            cell.Some? && cell.value in s.receipts && lab.hash(s.receipts[cell.value]) == receiptDigest
  {
    hide CaptureSession, TerminalEvent, ReceiptFault, RecordAccepted, ComposeRecord, ResultBytes;
  }

  // The five facts of a resource that its identity row holds.
  predicate SameFacts(a: Resource, b: Resource) {
    && a.address == b.address && a.kind == b.kind && a.region == b.region && a.labelText == b.labelText
    && a.providerId == b.providerId
  }

  function ProviderIds(resources: seq<Resource>): set<string> {
    set r | r in resources :: r.providerId
  }

  // Without a collision the resource identity pins the resources: whatever a
  // ledger with the same identity lists, the other lists too, with the same
  // provider ids.
  lemma IdentityPinsResources(lab: Lab, a: seq<Resource>, b: seq<Resource>, runTag: string, r: Resource)
    requires ProductionIdentity(lab, a, runTag).Some?
    requires ProductionIdentity(lab, b, runTag) == ProductionIdentity(lab, a, runTag)
    requires forall x, y :: lab.rowsText(x) == lab.rowsText(y) ==> x == y
    requires NoCollision(lab.hash, {lab.rowsText(IdentityRows(lab, a)), lab.rowsText(IdentityRows(lab, b))})
    requires NoCollision(lab.hash, ProviderIds(a) + ProviderIds(b))
    requires r in a
    ensures exists q :: q in b && SameFacts(r, q)
  {
    hide SessionRegionOk, IdentityOk, LabelsOk, Sort, AddressLeq;
    assert IdentityRows(lab, a) == IdentityRows(lab, b);
    var x, y := Sort(a, AddressLeq), Sort(b, AddressLeq);
    SortMembers(a, AddressLeq);
    SortMembers(b, AddressLeq);
    var i :| 0 <= i < |x| && x[i] == r;
    assert IdentityRows(lab, a)[i] == IdentityRows(lab, b)[i];
    var q := y[i];
    assert q in b && r.providerId in ProviderIds(a) && q.providerId in ProviderIds(b);
    assert SameFacts(r, q);
  }

  // ---- the store as it is written -----------------------------------------

  class ControlStore {
    const lab: Lab
    var store: Store

    constructor (lab: Lab, store: Store)
      ensures this.lab == lab && this.store == store
    {
      this.lab, this.store := lab, store;
    }

    // Re-read the session, the receipt, the log and the result, then write the
    // record; a refusal writes nothing.
    method PersistCompletedControl(
        runTag: string, runLabel: string, commit: string, configDigest: string, receiptDigest: string,
        snapshot: Snapshot, pair: Pair)
      returns (r: Result<Record, Refusal>)
      modifies this
      ensures r == MintRecord(lab, old(store), runTag, runLabel, commit, configDigest, receiptDigest, snapshot, pair)
      ensures r.Ok? ==> lab.outputLabel(runLabel, pair.control).Some?
                        && store == Persisted(lab, old(store), r.value, lab.outputLabel(runLabel, pair.control).value)
      ensures r.Err? ==> store == old(store)
    {
      hide CaptureSession, ReceiptFault, TerminalEvent, RecordAccepted, ComposeRecord;
      if snapshot.runTag != runTag {
        return Err(SessionChanged);
      }
      var current := CaptureSession(lab, store, snapshot.runTag);
      if current.Err? {
        return Err(current.error);
      }
      if current.value != snapshot {
        return Err(SessionChanged);
      }
      var cell := lab.outputLabel(runLabel, pair.control);
      if cell.None? {
        return Err(UnsafeLabel);
      }
      if cell.value !in store.receipts {
        return Err(Failed);
      }
      if lab.hash(store.receipts[cell.value]) != receiptDigest {
        return Err(DigestMismatch);
      }
      var receipt := lab.parseReceipt(store.receipts[cell.value]);
      if receipt.None? {
        return Err(Malformed);
      }
      if !lab.evaluatorAgrees {
        return Err(PinsMismatch);
      }
      var pins := lab.pins(pair);
      var fault := ReceiptFault(lab, receipt.value, runLabel, configDigest, pins.identity, pins.workload, pair);
      if fault.Some? {
        return Err(fault.value);
      }
      if runTag !in store.sessions {
        return Err(Failed);
      }
      var session := lab.parseSession(store.sessions[runTag]);
      if session.None? {
        return Err(Malformed);
      }
      var event := RequireTerminalEvent(lab, session.value, runTag, runLabel, configDigest, pair);
      if event.Err? {
        return Err(event.error);
      }
      var result := ResultBytes(store, cell.value);
      if result.None? {
        return Err(Failed);
      }
      var record := ComposeRecord(lab, snapshot, runLabel, commit, configDigest, lab.hash(result.value), receiptDigest,
                                  event.value, pair);
      if !RecordAccepted(lab, record, pair) {
        return Err(Malformed);
      }
      store := store.(records := store.records[cell.value := lab.recordText(record)]);
      return Ok(record);
    }
  }
}
