# Blackwell lab operator tooling: verified model

A Dafny 4.11 model of the fail-closed protocols and the accounting in the operator tooling of a GPU inference
benchmark, with proofs of what they guarantee over all inputs and all runs.

- **Resource lifecycle** (`LifecycleModel`, `PlanGate`, `Reconcile`, `DeletionPoll`, `LifecycleRun`, `RunDirectory`,
  `LifecycleSafety`, `LifecycleAnswers`, `ReconcileReports`, `OpenAfterTeardown`, `TeardownOverApply`). Saved plans
  bound by digest, pending records around each operation, reconciliation of a ledger against a provider by typed
  identity, and destruction confirmed by polling. `RunDirectory` updates the files in place and is proved to pass
  through exactly the states of `LifecycleRun`; `LifecycleSafety` proves what every reachable state satisfies when a
  crash can follow any single write and files may be edited between operations; `LifecycleAnswers` says of the inputs
  alone when each operation succeeds and what it records. Each state carries a history of what was reviewed, started
  and seen, recorded when it happened and whatever came of it.
- **Sealed sets** (`SealedModel`, `SealedEncoding`, `CustodyTree`, `CustodyExtras`, `Custody`, `StageLoader`,
  `SealedPayload`, `SealedFields`, `SealedFacts`, `Materialize`). Two bundles of opaque members are imported as a
  stage-separated tree bound by a public manifest, and later loaded one stage at a time. The tree is a map from paths
  to modes and bytes; every mkdir and write of an import may fail.
- **Control binding** (`MatchedControl`, `ControlFacts`). A completed control run mints a record that a later
  treatment run must authenticate against the ledger, the receipt and a growing session log.
- **Agent loop** (`AgentLoop`, `AgentRecords`). A bounded loop over an arbitrary event stream, tool latency and
  controller verdict.
- **Accounting** (`Evaluator`, `EvidenceNaming`, `RealResult`, `Qualification`, `Telemetry`, `RepetitionLoop`). Gates,
  counts, rates, weighted means, trapezoidal energy, nearest-rank percentiles and the files a measured cell leaves.
- **Flag scanner** (`FlagScanner`). The token scanner behind the parser-flag check.

`Common`, `Texts`, `Ordering`, `RealAverages`, `JsonValues` and `JsonCodecs` hold shared definitions. Digests are an
arbitrary function parameter. The lifecycle proofs that need it assume a collision-free digest; the sealed-set and
control proofs say among which finite set of texts no collision occurs. `sorted()` is a stable insertion sort, and
text is ordered by code points. `dafny verify dfyconfig.toml` checks the project.

The main results are `UnresolvedHasPending`, `StartsAreReviewed`, `OpenGateIsReconciled`, `ResolutionIsEarned`,
`DroppedExactly`, `SpentPlanStartsNothing`, `DestroyReportsAbsence`, `ApplySucceedsExactly`, `DestroySucceedsExactly`,
`RecoverySucceedsExactly` and `PhraseBinds` (lifecycle), `CleanIffCorresponds` and `ListsExactly` (reconciliation),
`SameManifestSameContents`, `VerifiedExactly`, `UnnoticedExactly`, `ImportAuthorizedSet`, `StageNonInterference`,
`VerifiedStageLoads`, `DecodingInvertsEncoding`, `FieldsAreRead`, `DocumentDecidesGates` and
`LoadedStageIsTheSchedule` (sealed sets), `PersistedControlAuthenticates`, `SectionPinsFiles`, `BlockIsBound` and
`MintSucceedsExactly` (control binding), `ConversationsAreWellFormed`, `CompletedExactly`, `GradedIds` and `RunTask`
(agent loop), `NamedValueDecides`, `AccountingAgrees`, `ReportCounts`, `StudyEntryExactly`, `AggregateIsWeightedMean`,
`LinearPowerIsExact`, `RunCellIsHonest` and `FailureRecordExactly` (accounting), and `EmptyExactly` (flag scanner). A
row that starts with "Helper fact" reads a condition off the definitions and serves those results.

Where code and documentation differ, the model follows the code:

- A confirmed destroy copies the ledger with its `reconciled` flag still set, so the pilot gate can be open after the
  resources are gone (`LifecycleSafety.ConfirmedTeardownKeepsGate` says exactly when, and
  `OpenAfterTeardown.GateOpenAfterTeardown` gives a run).
- Only a clean reconciliation or the verified-empty recovery should clear the pending record of an apply, but a
  confirmed teardown removes it too, also after an apply whose reconciliation was not clean
  (`TeardownOverApply.DroppedExactly` says exactly which steps do that, and `TeardownOverApply.UnreconciledApplyEnds`
  gives a run).
- `confirm_deletion` keys its table by address, so a repeated address hides a provider id
  (`DeletionPoll.ShadowedIdIsNotPolled`); the plan and ledger equality check excludes that
  (`LifecycleSafety.EqualTargetsMeanDistinct`).
- The run-tag pattern also accepts one trailing newline (`LifecycleModel.NewlineTagsAreAccepted`).
- A repetition whose pass raises, or whose manifest or result write fails, leaves no failure record
  (`RepetitionLoop.UnrecordedExactly`, and `RepetitionLoop.UnrecordedFailures` for the three cases).
- A sampler started again after a stop keeps its old samples (`Telemetry.RestartedSampler`).
- Full custody verification lists nothing outside the private directory: exactly the added entries of private mode
  outside it are missed (`CustodyExtras.UnnoticedExactly`, with `CustodyTree.RootFileGoesUnnoticed` as a witness).

## Model

| member | source | states |
|---|---|---|
| `LifecycleSafety.UnresolvedHasPending` | src/blackwell_lab/cloud/lifecycle.py:910-935 | In every state reachable from a fresh run directory by any sequence of operations and outside edits, with a crash after any single write: if terraform was started and no clean reconciliation, verified-empty recovery or confirmed polling happened since, as judged on the answers recorded when they arrived, the pending record is on disk; it is the record of that start or one written after it, and names a reviewed plan of its stage. |
| `LifecycleSafety.StartsAreReviewed` | src/blackwell_lab/cloud/lifecycle.py:830-904 | In every reachable state, each terraform apply that was started ran on bytes that an earlier completed save_plan of that stage accepted, with the configuration, lock file, state and commit seen then, at most an hour later, under an approval that names the digest of those bytes; an apply-stage plan creates the two expected addresses and otherwise does nothing, and a destroy plan deletes only expected ones. |
| `LifecycleSafety.OpenGateIsReconciled` | src/blackwell_lab/cloud/lifecycle.py:1305-1322 | Whenever the pilot gate has no blocker, nothing is unresolved and the recorded resources are what a clean inspection saw, one to one with the provider if that answered from one snapshot; unless the ledger is marked destroyed, terraform was not started since that inspection. |
| `LifecycleSafety.GateParts` | src/blackwell_lab/cloud/lifecycle.py:1305-1322 | Helper fact: the gate is empty exactly when nothing is pending, the ledger is reconciled and provider-checked, and it lists one instance and one firewall. |
| `LifecycleSafety.ConfirmedTeardownKeepsGate` | src/blackwell_lab/cloud/lifecycle.py:1613-1618 | After a confirmed destroy the gate is open exactly when the destroyed ledger had been cleanly reconciled: an open gate does not say the resources are alive. |
| `OpenAfterTeardown.TeardownLeavesGateOpen` | src/blackwell_lab/cloud/lifecycle.py:1590-1618 | From any prepared fresh directory and any resources in correspondence with the provider, the run reconcile, plan_destroy, confirmed destroy ends with a destroyed ledger and no pilot blocker. |
| `OpenAfterTeardown.GateOpenAfterTeardown` | src/blackwell_lab/cloud/lifecycle.py:1305-1322 | Such a run exists, with a collision-free digest. |
| `TeardownOverApply.DroppedExactly` | src/blackwell_lab/cloud/lifecycle.py:1590-1618 | From any state with a pending record, for every step and every crash point: the record is gone although that step saw no clean inspection and no empty sweep exactly when the step is a destroy that passes its gate, exits well, is confirmed and can unlink, cut at or after its unlink. |
| `TeardownOverApply.UnreconciledMeansPolled` | src/blackwell_lab/cloud/lifecycle.py:1605-1618 | In a reachable state without a pending record, a started apply that no clean reconciliation and no verified-empty recovery followed was followed by a confirmed polling. |
| `TeardownOverApply.TeardownEndsUnreconciledApply` | src/blackwell_lab/cloud/lifecycle.py:1216-1293 | The ordinary run: save_plan, an apply whose reconciliation is not clean, plan_destroy and a confirmed destroy leave no pending record, and the apply unreconciled; from any prepared directory and for any resources, provider and sweep that is not clean. |
| `TeardownOverApply.UnreconciledApplyEnds` | src/blackwell_lab/cloud/lifecycle.py:1605-1618 | Such a run exists, with a collision-free digest and a provider lookup that fails while the apply reconciles. |
| `LifecycleSafety.SpentPlanStartsNothing` | src/blackwell_lab/cloud/lifecycle.py:881-885 | Once the state differs from the one a saved apply plan recorded, that plan starts nothing after any further sequence of steps that saves no new apply plan, until the state is back. |
| `LifecycleSafety.ResolutionIsEarned` | src/blackwell_lab/cloud/lifecycle.py:1189-1191 | From any state, wherever a step is cut: if no pending record is left, either there was none before and nothing was started, or that very step saw a clean reconciliation, a verified-empty inventory or a confirmed deletion after its last start; and no step rewrites history. |
| `LifecycleSafety.StepKeeps` | src/blackwell_lab/cloud/lifecycle.py:747-1959 | Every write of every operation keeps the invariant that ties plan metadata, starts and pending records to earlier reviews, pending records to unresolved starts, and reconciled ledgers to clean inspections with no start since. |
| `LifecycleSafety.EveryRunKeeps` | src/blackwell_lab/cloud/lifecycle.py:747-1959 | The invariant holds after any run of steps, each cut after any number of its writes. |
| `LifecycleSafety.EqualTargetsMeanDistinct` | src/blackwell_lab/cloud/lifecycle.py:1576-1581 | Equality of a plan target set with the address list of the ledger forces the ledger addresses to be distinct. |
| `LifecycleSafety.DestroyReportsAbsence` | src/blackwell_lab/cloud/lifecycle.py:1572-1618 | destroy reports success only after every resource of the ledger, under its recorded provider reference, was probed absent. |
| `LifecycleSafety.TeardownVerifiedExactly` | src/blackwell_lab/cloud/lifecycle.py:1398-1463 | Helper fact: teardown identity holds exactly when every ledger resource is matched in type, id, label, tags and instance region by the current state and by the provider answer. |
| `LifecycleSafety.TeardownStartsVerified` | src/blackwell_lab/cloud/lifecycle.py:1540-1590 | A teardown writes and starts nothing unless it runs locally on a verified ledger with distinct addresses. |
| `LifecycleSafety.ApplyStartsGuarded` | src/blackwell_lab/cloud/lifecycle.py:1216-1246 | Helper fact: an apply writes and starts nothing for a malformed or historical tag, on hosted infrastructure, or without the exact approval of the plan on disk within its hour. |
| `LifecycleSafety.RecoveryIsVerifiedEmpty` | src/blackwell_lab/cloud/lifecycle.py:1795-1959 | Helper fact: recovery removes a pending apply only when state, ledger and both provider sweeps show nothing of the project, and every state it passes through keeps the pilot gate closed. |
| `LifecycleSafety.MetaKept` | src/blackwell_lab/cloud/lifecycle.py:747-827 | Plan metadata of a stage is changed by nothing but saving a plan of that stage. |
| `LifecycleModel.NewlineTagsAreAccepted` | src/blackwell_lab/cloud/lifecycle.py:215-222 | The run tags accepted beyond the documented form are exactly the documented ones with one newline after them. |
| `LifecycleAnswers.ApplySucceedsExactly` | src/blackwell_lab/cloud/lifecycle.py:1216-1289 | apply answers success exactly when tag, host, saved plan and approval allow it, terraform exits well, and state and provider agree: over a coherent provider, when the state shown corresponds to it one to one. An exit failure and an unclean reconciliation are refused each with its own reason, and a closed gate leaves no write. |
| `LifecycleAnswers.ApplyRecords` | src/blackwell_lab/cloud/lifecycle.py:1253-1289 | On success the answer and the last session event count exactly the resources shown; an exit failure leaves both receipts and the mark in the ledger; an unclean reconciliation only the attempt; the ledger holds the resources shown. |
| `LifecycleAnswers.PhraseBinds` | src/blackwell_lab/cloud/lifecycle.py:97-104 | An approval phrase determines stage, run tag and plan digest: no phrase approves two plans, runs or stages. |
| `LifecycleAnswers.SavePlanSucceedsExactly` | src/blackwell_lab/cloud/lifecycle.py:747-827 | save_plan succeeds exactly for a plan that was made, renders and does what its stage allows; what it saved then verifies for an hour, names exactly the addresses the plan acts on and changes nothing else. |
| `LifecycleAnswers.PlanDestroySucceedsExactly` | src/blackwell_lab/cloud/lifecycle.py:1466-1491 | plan_destroy succeeds exactly for a non-empty verified ledger and a plan that can be saved and whose targets are exactly the distinct ledger addresses. |
| `LifecycleAnswers.DestroySucceedsExactly` | src/blackwell_lab/cloud/lifecycle.py:1540-1627 | destroy answers success exactly when run locally on a verified ledger with a current approved plan for its addresses, terraform exits well and the deletion is confirmed, and then with the confirmed count; other ends have their own refusals. |
| `LifecycleAnswers.DestroyRecords` | src/blackwell_lab/cloud/lifecycle.py:1590-1627 | A confirmed deletion adds its session event and marks the ledger destroyed, changing nothing else in it; an unconfirmed one keeps ledger and pending record; an exit failure leaves the reconciliation seen afterwards. |
| `LifecycleAnswers.RecoverySucceedsExactly` | src/blackwell_lab/cloud/lifecycle.py:1795-1959 | Recovery runs exactly for a pending apply of this run with a digest, over an empty state, an empty ledger and two sweeps without anything of the project; it records the pending digest, marks the ledger aborted and unreconciled, and otherwise writes nothing. |
| `LifecycleAnswers.BlockersNameFaults` | src/blackwell_lab/cloud/lifecycle.py:1305-1322 | Helper fact: each pilot blocker is reported exactly for its own fault, with its own count. |
| `LifecycleAnswers.ForeignTagsAreNotClean` | src/blackwell_lab/cloud/lifecycle.py:965-985 | A resource without the project tag or without the tag of this run keeps every reconciliation from being clean. |
| `LifecycleAnswers.LedgerSaysWhatWasSeen` | src/blackwell_lab/cloud/lifecycle.py:1142-1187 | Helper fact: the ledger says whether the state was readable and the provider asked, and keeps the pending operation exactly where one of them failed. |
| `RunDirectory.RunDirectory.SavePlan` | src/blackwell_lab/cloud/lifecycle.py:747-827 | Passes through exactly the directory states of the specification: plan bytes, review text, metadata, with the same refusals in the same order. |
| `RunDirectory.RunDirectory.InspectState` | src/blackwell_lab/cloud/lifecycle.py:1019-1187 | Computes the ledger of one reconciliation from state and provider sweeps with the loops of the source. |
| `RunDirectory.RunDirectory.ReconcileNow` | src/blackwell_lab/cloud/lifecycle.py:1189-1210 | Writes the ledger, and removes the pending record only after a clean result. |
| `RunDirectory.RunDirectory.Apply` | src/blackwell_lab/cloud/lifecycle.py:1216-1289 | Pending record, terraform, diagnostics, reconciliation, session event and failure receipt in the order and under the gates of the source, as one logged sequence of states. |
| `RunDirectory.RunDirectory.PlanDestroy` | src/blackwell_lab/cloud/lifecycle.py:1466-1491 | Identity check, destroy plan, and refusal when its targets are not the ledger addresses. |
| `RunDirectory.RunDirectory.Destroy` | src/blackwell_lab/cloud/lifecycle.py:1540-1627 | The teardown writes in order; success requires the polling outcome that every reference is gone. |
| `RunDirectory.RunDirectory.RecoverVerifiedEmptyApply` | src/blackwell_lab/cloud/lifecycle.py:1795-1959 | Receipt, ledger, unlink and session event, only when every emptiness check passed. |
| `Reconcile.CleanIffCorresponds` | src/blackwell_lab/cloud/lifecycle.py:1052-1140 | With lists and per-id reads from one snapshot, a reconciliation is clean exactly when the state shape is the expected pair and the run-tagged provider items correspond to it one to one in type, id, label, tags and instance region. |
| `Reconcile.CleanGivesCorrespondence` | src/blackwell_lab/cloud/lifecycle.py:1052-1140 | A clean reconciliation over a coherent provider gives the correspondence. |
| `Reconcile.CorrespondenceIsClean` | src/blackwell_lab/cloud/lifecycle.py:1052-1140 | A state that matches the provider always reconciles clean. |
| `Reconcile.SharedNumericIdReconciles` | src/blackwell_lab/cloud/lifecycle.py:957-962 | An instance and a firewall that share a numeric id still reconcile clean, because references are typed. |
| `Reconcile.NoFindingsExactly` | src/blackwell_lab/cloud/lifecycle.py:1325-1387 | Helper fact: a resource raises no identity finding exactly when it is authentic against state and provider view. |
| `Reconcile.GapsExactly` | src/blackwell_lab/cloud/lifecycle.py:965-985 | Helper fact: no identity gap is reported exactly for an authorized, complete, correctly tagged resource. |
| `Reconcile.SweepLists` | src/blackwell_lab/cloud/lifecycle.py:1054-1075 | The loop over both provider lists returns exactly the run-tagged references absent from the state and the repeated ones. |
| `Reconcile.InspectResources` | src/blackwell_lab/cloud/lifecycle.py:1077-1105 | The loop over state resources returns exactly the invisible references and the identity findings. |
| `ReconcileReports.ListsExactly` | src/blackwell_lab/cloud/lifecycle.py:1052-1119 | Said of the provider and the state alone: untracked are, once each, exactly the run-tagged references the state does not know; missing exactly the managed state references without a per-id answer; duplicates exactly the references a list repeats and the addresses two state resources share. |
| `ReconcileReports.MismatchesExactly` | src/blackwell_lab/cloud/lifecycle.py:1077-1105 | The identity mismatches of a reconciliation are exactly the faults of the state resources, each under the address of its own resource. |
| `ReconcileReports.FaultsExactly` | src/blackwell_lab/cloud/lifecycle.py:1325-1387 | Each identity mismatch is reported exactly for its own fault between ledger, state and provider answer, and those of the provider answer only when it was asked. |
| `PlanGate.ClassifyPlanActions` | src/blackwell_lab/cloud/lifecycle.py:671-697 | The loop classifies each change in order by its action list. |
| `PlanGate.KindMeaning` | src/blackwell_lab/cloud/lifecycle.py:671-697 | Helper fact: which action lists are creates, deletes, updates, replaces, reads and idle entries. |
| `PlanGate.ApplyRulesExactly` | src/blackwell_lab/cloud/lifecycle.py:700-744 | The apply rules accept exactly the renderings in which each expected address is created and every entry is such a create or does nothing. |
| `PlanGate.DestroyRulesExactly` | src/blackwell_lab/cloud/lifecycle.py:700-744 | The destroy rules accept exactly the renderings in which every entry deletes an expected address or does nothing. |
| `PlanGate.CreatesMayRepeat` | src/blackwell_lab/cloud/lifecycle.py:719-726 | Creates are compared as a set: listing an expected create once more keeps an accepted apply plan accepted. |
| `PlanGate.IdlePlans` | src/blackwell_lab/cloud/lifecycle.py:700-744 | A plan that does nothing passes the destroy rules, which require no number of deletes, and fails the apply rules. |
| `DeletionPoll.ConfirmDeletion` | src/blackwell_lab/cloud/lifecycle.py:1494-1537 | The polling loop over the remaining table ends within floor(timeout/interval)+2 rounds when each sleep advances the clock by the interval, and reports exactly absence, a probe failure or a timeout. |
| `DeletionPoll.ConfirmedMeansAllAbsent` | src/blackwell_lab/cloud/lifecycle.py:1494-1537 | For a ledger with distinct addresses a confirmed deletion means every provider reference was answered absent in some round. |
| `DeletionPoll.TableHolds` | src/blackwell_lab/cloud/lifecycle.py:1517 | The table polled holds every resource reference exactly when no later resource repeats the address with another reference. |
| `DeletionPoll.ShadowedIdIsNotPolled` | src/blackwell_lab/cloud/lifecycle.py:1517 | Two ledger resources under one address: the first provider id is never polled. |
| `DeletionPoll.PollRound` | src/blackwell_lab/cloud/lifecycle.py:1519-1531 | One round deletes from the table exactly the references answered absent and stops at the first probe failure. |
| `FlagScanner.ValuesFor` | src/blackwell_lab/cloud/bootstrap_pins.py:262-275 | The while-loop scanner returns one entry for each occurrence of a flag: the next token, or nothing when that is missing or itself a flag. |
| `FlagScanner.OneEntryPerOccurrence` | src/blackwell_lab/cloud/bootstrap_pins.py:262-275 | As many entries as occurrences, whatever the tokens. |
| `FlagScanner.DashesAreNoValue` | src/blackwell_lab/cloud/bootstrap_pins.py:262-275 | Helper fact: the token after an occurrence is its value unless it starts with two dashes, alone or not. |
| `FlagScanner.ValidateVllmParserFlags` | src/blackwell_lab/cloud/bootstrap_pins.py:252-300 | The problems are exactly the faults of the three flags, in order. |
| `FlagScanner.EmptyExactly` | src/blackwell_lab/cloud/bootstrap_pins.py:252-300 | No problem exactly when each flag occurs once and the two valued flags are immediately followed by their approved values. |
| `FlagScanner.OnceWithIsOnlyValue` | src/blackwell_lab/cloud/bootstrap_pins.py:262-275 | The scanner sees exactly one entry with the approved value exactly when the flag occurs once and that value follows it. |
| `AgentLoop.OutcomeIsBounded` | src/blackwell_lab/workload/agent.py:483-686 | For every stream, latency and verdict: entries traced at most turns recorded, at most conversations sent, at most max_turns; for a run that no exception leaves, completed exactly without an error category, timeout exactly with task_timeout, a recommendation exactly on completion. |
| `AgentLoop.ConversationsAreWellFormed` | src/blackwell_lab/workload/agent.py:461-674 | Every conversation sent is the system and task prompts followed by one assistant call and one tool reply under the same call id for each earlier entry, in order. The same loop is src/blackwell_lab/workload/catalog_agent.py. |
| `AgentLoop.CompletedExactly` | src/blackwell_lab/workload/agent.py:655-662 | A run is completed exactly when some turn within the budget makes one accepted terminal call with every deadline check passed and every earlier turn went on. |
| `AgentLoop.CompletedAnswer` | src/blackwell_lab/workload/agent.py:658-662 | The recommendation is made of the diagnosis_id, rationale and remediation_id arguments of the completing call, each in its own field, and that call is the last entry traced. |
| `AgentLoop.ExhaustedExactly` | src/blackwell_lab/workload/agent.py:675-686 | The budget is exhausted exactly when every turn goes on, and the category then follows from the controller and its rejections. |
| `AgentLoop.RejectedSomething` | src/blackwell_lab/workload/agent.py:675-686 | On exhaustion the controller has rejected something exactly when some turn made a terminal call. |
| `AgentLoop.RejectionCounts` | src/blackwell_lab/workload/agent.py:586-674 | Helper fact: a turn that goes on traces the one call with the payload shown to the model: the rejection for a rejected terminal call, the annotated or plain result otherwise. |
| `AgentLoop.EscapesExactly` | src/blackwell_lab/workload/agent.py:586-662 | An exception leaves the loop exactly when the workflow controller raises while judging schema-invalid terminal arguments or an accepted terminal call lacks a recommendation field. |
| `AgentLoop.FirstOutputIsEarliest` | src/blackwell_lab/workload/agent.py:505-511 | The first-output time is that of the earliest event that starts the clock. |
| `AgentLoop.GapsTelescope` | src/blackwell_lab/workload/agent.py:258-268 | One gap between consecutive tokens, adding up to the time from first to last token. |
| `AgentLoop.RecordIsConsistent` | src/blackwell_lab/workload/agent.py:247-273 | On a monotonic clock the time to first token lies within the serving time, and gaps are reported exactly with two tokens or more. |
| `AgentRecords.GradedIds` | src/blackwell_lab/workload/agent.py:655-662 | The ids graded for a completed run are the diagnosis_id and remediation_id arguments of its completing call, and each id gate of the evaluator passes exactly when its own argument is among its own accepted ids. |
| `AgentRecords.ObservationsCompose` | src/blackwell_lab/workload/agent.py:502-522 | Calls, token times, output counts, characters, last usage and queue report and first output of a stream compose over its parts; with AgentRecords.OneEvent this fixes them for every stream. |
| `AgentRecords.OneEvent` | src/blackwell_lab/workload/agent.py:502-522 | Helper fact: what each kind of event contributes to the turn record. |
| `AgentRecords.RecordTimes` | src/blackwell_lab/workload/agent.py:247-273 | Helper fact: serving time runs from dispatch to the end of the stream, and time to first token from dispatch to the first event with output, in milliseconds. |
| `AgentRecords.RecordCounts` | src/blackwell_lab/workload/agent.py:247-273 | Helper fact: counts, usage and queue time of a record are those of its stream, and gap k lies between token k and token k+1. |
| `AgentRecords.StreamEndings` | src/blackwell_lab/workload/agent.py:523-585 | Helper fact: how a turn ends before its call runs: timeout at any late event or check, endpoint, runtime, native-tool and malformed-call failures, each with its own category. |
| `AgentRecords.CallEndings` | src/blackwell_lab/workload/agent.py:586-674 | Helper fact: how a turn ends once it made a single call in time: unknown tool, crash, invalid arguments, raising verdict and late completion, each with its own category. |
| `AgentRecords.RecommendationEnds` | src/blackwell_lab/workload/agent.py:655-662 | An accepted recommendation in time completes the run with its three arguments, each in its own field, and one that lacks any of them makes an exception escape. |
| `AgentRecords.DecidingTurn` | src/blackwell_lab/workload/agent.py:483-674 | The first turn that does not go on decides the outcome of the run. |
| `AgentRecords.UsedUpBudget` | src/blackwell_lab/workload/agent.py:675-686 | A used-up budget is blamed on the missing recommendation when no turn made a terminal call, and otherwise on the controller that rejected it. |
| `AgentLoop.TaskExecution.Consume` | src/blackwell_lab/workload/agent.py:502-522 | The event loop observes first output, counts, calls, token times, usage and queue time as specified, and stops at the first event at or after the deadline. |
| `AgentLoop.TaskExecution.RunTask` | src/blackwell_lab/workload/catalog_agent.py:111-387 | The loop as it runs reaches exactly the specified outcome. |
| `Evaluator.Evaluate` | src/blackwell_lab/workload/evaluator.py:161-235 | One gate for completion, each id and each predicate in order; success is all of them, the score is 1 exactly on success, and a success has every component at 1. |
| `Evaluator.GatesDecideSuccess` | src/blackwell_lab/workload/evaluator.py:220-224 | All gates pass exactly when the attempt completed with accepted ids and every predicate is satisfied. |
| `Evaluator.OnlyReturnedFieldsCount` | src/blackwell_lab/workload/evaluator.py:88-139 | Helper fact: a constraint depends on its returned fields only: echoed queries and listings never satisfy evidence. |
| `Evaluator.RefusingResponsesNeverCount` | src/blackwell_lab/workload/evaluator.py:88-139 | Helper fact: a zero-match search, a lookup that was not found and an empty listing never satisfy a constraint. |
| `Evaluator.EvidenceIsMonotone` | src/blackwell_lab/workload/evaluator.py:152-158 | More trace entries never lose evidence. |
| `Evaluator.SuccessIgnoresOrder` | src/blackwell_lab/workload/evaluator.py:152-158 | Order and repetition of trace entries do not influence success. |
| `EvidenceNaming.NamedValueDecides` | src/blackwell_lab/workload/evaluator.py:88-139 | For each of the five kinds, a constraint holds exactly when the response found something and the named value is among those it returns: a line whose folded message contains the folded text, a change under that id, a remediation id of the runbook, the metric itself, a service with that component status. |
| `EvidenceNaming.DifferentValuesDiffer` | src/blackwell_lab/workload/evaluator.py:88-139 | Every constraint can be satisfied, and two of one kind that name different values are told apart by a response that shows one of them. |
| `EvidenceNaming.EvidencedExactly` | src/blackwell_lab/workload/evaluator.py:142-158 | A predicate is satisfied exactly when some entry of the trace is one of its alternatives: same tool, each named argument containing its text, and the named value returned. |
| `EvidenceNaming.SuccessExactly` | src/blackwell_lab/workload/evaluator.py:161-235 | Success, said of the attempt alone: completed, both ids accepted, and every predicate evidenced by some entry. |
| `EvidenceNaming.GatesInOrder` | src/blackwell_lab/workload/evaluator.py:161-224 | Completion, diagnosis, remediation and one gate for each predicate under its own id, in order, each passed exactly for its own condition. |
| `RealResult.AccountingAgrees` | src/blackwell_lab/cloud/realbench.py:438-535 | attempted = succeeded + quality_failed + errored + timed_out; the taxonomy sums to errored + timed_out and its task_timeout count is timed_out; SLO-attaining never exceeds succeeded; the mean score is the success rate. |
| `RealResult.AttemptsAreConsistent` | src/blackwell_lab/workload/agent.py:466-481 | Every attempt that the agent loop returns (a run that no exception leaves) and the evaluator scores meets the conditions of the accounting. |
| `RealResult.BuildRealResult` | src/blackwell_lab/cloud/realbench.py:421-617 | Refuses with the first missing measurement in the order of the source, and otherwise reports exactly the specified counts. |
| `RealResult.CountCategories` | src/blackwell_lab/cloud/realbench.py:451-455 | The dictionary loop yields exactly the categories that occur, with their counts. |
| `RealResult.ReportCounts` | src/blackwell_lab/cloud/realbench.py:438-535 | Attempted, succeeded, quality-failed, errored, timed-out, SLO-attaining and every taxonomy count is the number of outcomes of that description; SLO-attaining ones succeed within the task limit and with every first token in time. |
| `RealResult.TokensAddUp` | src/blackwell_lab/cloud/realbench.py:493-494 | Helper fact: output tokens add over outcomes and over turns, a turn without a usage report counting none. |
| `RealResult.RatesAreShares` | src/blackwell_lab/cloud/realbench.py:533-534 | The success rate is the share of the attempts that succeeded and the mean score that of the scores, which RealResult.ScoresAddUp adds over the attempts; also for outcomes whose score disagrees with their success. |
| `RealResult.MeasuredExactly` | src/blackwell_lab/cloud/realbench.py:440-506 | No measurement is missing exactly with at least one outcome, a positive wall time, telemetry, a first-token time where the profile limits it, and a token count for every turn of the completed attempts. |
| `Qualification.ComputeQualificationMetrics` | src/blackwell_lab/cloud/qualification.py:1660-1741 | The counting loop yields exactly the specified counts, rates and percentiles, and refuses exactly without observations or tool-call attempts. |
| `Qualification.AggregateIsWeightedMean` | src/blackwell_lab/cloud/qualification.py:1708-1725 | Scenario attempts sum to the total exactly when every observed template is listed; the attempt-weighted mean of scenario qualities is the aggregate exactly when every template with an observed success is listed. |
| `Qualification.EveryScenarioBoundsAggregate` | src/blackwell_lab/cloud/qualification.py:1708-1725 | When the listed templates cover the observations, a bound every scenario meets is met by the aggregate. |
| `Qualification.UnlistedTemplateLowersAggregate` | src/blackwell_lab/cloud/qualification.py:1708-1716 | With an unlisted template the aggregate can be below every listed scenario. |
| `Qualification.ProductionImpliesStudyEntry` | src/blackwell_lab/cloud/qualification.py:1799-1858 | Meeting the production-like target implies passing the study-entry gate. |
| `Qualification.ProductionExactly` | src/blackwell_lab/cloud/qualification.py:1844-1858 | The production-like target is equivalent to study entry with nine tenths of the attempts and eight tenths of those of every reported scenario successful. |
| `Qualification.StudyEntryQuality` | src/blackwell_lab/cloud/qualification.py:1799-1841 | Passing study entry means at least three fifths of the attempts and two fifths of every reported scenario succeed. |
| `Qualification.StudyEntryExactly` | src/blackwell_lab/cloud/qualification.py:1775-1841 | Passing study entry is equivalent to the limits counted over the observations themselves, with provenance and verification. |
| `Qualification.TalliesCompose` | src/blackwell_lab/cloud/qualification.py:1660-1741 | Attempts, successes, tool calls and timings compose over parts of the observations; with Qualification.OneObservation this fixes every count. |
| `Qualification.StudyEntryStructure` | src/blackwell_lab/cloud/qualification.py:1775-1796 | Passing study entry means no timeout, no invalid tool name, and at most one invalid argument list, endpoint error or structural failure in a hundred. |
| `Qualification.StudyEntryTimings` | src/blackwell_lab/cloud/qualification.py:1733-1741 | Passing study entry means at least 95 percent of the observed first-token and end-to-end times are within their limits. |
| `Telemetry.EnergyBounds` | src/blackwell_lab/cloud/telemetry.py:315-319 | Trapezoidal energy lies between the least and greatest sampled power over the covered span. |
| `Telemetry.EnergySplits` | src/blackwell_lab/cloud/telemetry.py:315-319 | Splitting a series at a sample adds the energies. |
| `Telemetry.LinearPowerIsExact` | src/blackwell_lab/cloud/telemetry.py:315-319 | The integral is exact for power that changes at a constant rate: the power at the middle of the span, over the span. |
| `Telemetry.EnergyIsReversible` | src/blackwell_lab/cloud/telemetry.py:315-319 | Energy does not depend on the direction of time. |
| `Telemetry.IntervalsPartition` | src/blackwell_lab/cloud/telemetry.py:305-315 | The intervals are positive and sum to the covered span. |
| `Telemetry.P95IsThePercentile` | src/blackwell_lab/cloud/telemetry.py:320-325 | The reported value has at least 95 percent of the samples at or below it and fewer than 95 percent strictly below it, and no other sample does. |
| `Telemetry.P95RankIsLeast` | src/blackwell_lab/cloud/telemetry.py:320-325 | The rank is the least one covering 95 percent and always a position. |
| `Telemetry.RanksAgree` | src/blackwell_lab/workload/stats.py:34-41 | The sampler rank is the nearest-rank percentile of the latency summaries. |
| `Telemetry.SummaryExistsExactly` | src/blackwell_lab/cloud/telemetry.py:291-313 | Helper fact: a summary exists exactly for at least two increasing samples, a positive window and enough coverage. |
| `Telemetry.SummaryEnergy` | src/blackwell_lab/cloud/telemetry.py:315-329 | Reported energy and mean power agree with the sampled powers. |
| `Telemetry.SummaryOfLinearPower` | src/blackwell_lab/cloud/telemetry.py:315-329 | For power that changes at a constant rate the reported mean is the mean of the first and the last sample and fills the reported energy over the covered span. |
| `Telemetry.SummaryColumns` | src/blackwell_lab/cloud/telemetry.py:320-339 | Peak memory and temperature are the greatest of their own columns, mean utilization accounts for all of the utilization, and the energy of a task is its equal share. |
| `Telemetry.SummaryIntervals` | src/blackwell_lab/cloud/telemetry.py:332-339 | The mean interval times the number of intervals is the covered span and is at most the maximum. |
| `Telemetry.SummaryPercentile` | src/blackwell_lab/cloud/telemetry.py:320-336 | The reported percentile is that of the samples as taken; coverage is positive, and at most 1 exactly when the samples span no more than the window, as they do inside it. |
| `Telemetry.GpuSampler.Sample` | src/blackwell_lab/cloud/telemetry.py:389-397 | One turn of the sampling loop appends a reading or records the first failure. |
| `Telemetry.GpuSampler.Summary` | src/blackwell_lab/cloud/telemetry.py:399-409 | Coverage is positive and is at most 1 exactly when first and last sample are no further apart than start and stop; all samples lie in the window exactly when none is kept from before the last start or the first does not precede it. |
| `Telemetry.RestartedSampler` | src/blackwell_lab/cloud/telemetry.py:374-387 | A stopped sampler started again keeps its old samples and can report coverage above 1. |
| `RepetitionLoop.RunCellIsHonest` | src/blackwell_lab/cloud/realbench.py:667-843 | After every write of every run, however it fails: no run id with both a failure record and a result, every result backed by its manifest and observations under their digests and validated, earlier files untouched, and the report of every record the one of the outcomes observed; a label holding artifacts is refused unchanged. |
| `RepetitionLoop.RepetitionHonest` | src/blackwell_lab/cloud/realbench.py:726-843 | One repetition adds only its own files, honest after each write, and yields a record exactly when its result is on disk. |
| `RepetitionLoop.FailureRecordExactly` | src/blackwell_lab/cloud/realbench.py:742-825 | A run leaves a failure record for a repetition exactly when all before it finished, its pass returned, the telemetry, the observations or their writes, the manifest, a required measurement or a validator failed, and the record could be written; it succeeds exactly when all finish. |
| `RepetitionLoop.UnrecordedExactly` | src/blackwell_lab/cloud/realbench.py:732-830 | The repetition that ends a run leaves no failure record, although one could be written, exactly when its pass raised, or the manifest or result write failed after everything else went well. |
| `RepetitionLoop.UnrecordedFailures` | src/blackwell_lab/cloud/realbench.py:827-830 | Three concrete runs that fail without a failure record: the pass raises, the manifest write fails, the result write fails; the last leaves a manifest, so its run label is refused from then on. |
| `RepetitionLoop.RunLabelDirectory.RunRealCell` | src/blackwell_lab/cloud/realbench.py:620-843 | The loop as it runs writes exactly the specified sequence of directory states. |
| `SealedPayload.DecodingInvertsEncoding` | src/blackwell_lab/cloud/sealed_payload.py:251-318 | A document decodes to a sealed task exactly when it is within the schema limits, the decoded value is valid under the expected id and the document is its encoding. |
| `SealedPayload.PayloadRoundTrip` | src/blackwell_lab/cloud/sealed_payload.py:251-318 | Encoding then decoding a valid value within the limits returns the same id, instance and scenario, and under any other id is refused. |
| `SealedPayload.ScenarioInverse` | src/blackwell_lab/cloud/sealed_payload.py:198-248 | Scenario decoding accepts exactly the encodings of scenarios with unique disjoint answer sets, an accepted root cause, known tools and distinct predicate ids. |
| `SealedPayload.AlternativeInverse` | src/blackwell_lab/cloud/sealed_payload.py:156-168 | Alternatives: known tool, non-empty argument names, one of the five constraint kinds. |
| `SealedPayload.ConstraintInverse` | src/blackwell_lab/cloud/sealed_payload.py:142-153 | The five constraint kinds with exact keys and non-empty texts. |
| `SealedPayload.Predicates` | src/blackwell_lab/cloud/sealed_payload.py:171-186 | The loop that refuses a repeated predicate id decodes exactly as specified. |
| `SealedPayload.AnswersInverse` | src/blackwell_lab/cloud/sealed_payload.py:199-208 | The answer sets and the root cause. |
| `SealedFields.FieldsAreRead` | src/blackwell_lab/cloud/sealed_payload.py:251-277 | Whatever decodes: every field of the task is what the document says under the key of that field, down to each log line, series point, tool step, evidence alternative and constraint; stated on the document, without the encoder. |
| `SealedFields.AnswersAreRead` | src/blackwell_lab/cloud/sealed_payload.py:198-248 | Root cause, accepted and distractor diagnoses and accepted and distractor remediations are the texts under their own keys, in order, with the accepted ones distinct and apart from the distractors. |
| `SealedFields.SurfaceIsRead` | src/blackwell_lab/cloud/sealed_payload.py:209-248 | Helper fact: health, metrics, logs, runbooks and recent changes are those under their own keys. |
| `SealedFields.EvidenceIsRead` | src/blackwell_lab/cloud/sealed_payload.py:171-248 | Helper fact: predicates and the two tool sequences are those under their own keys. |
| `SealedFields.DocumentDecidesGates` | src/blackwell_lab/cloud/sealed_payload.py:198-248 | A completed attempt at a decoded task passes the diagnosis gate exactly for ids the document lists as accepted diagnoses, and the remediation gate exactly for those it lists as accepted remediations; a distractor passes neither. |
| `SealedModel.ComputeStageDigest` | src/blackwell_lab/sealed_sets/model.py:173-195 | The loop with its seen sets returns the first refusal in bundle order or the digest of the id-sorted rows. |
| `SealedModel.BundleAcceptedExactly` | src/blackwell_lab/sealed_sets/model.py:173-195 | A bundle is accepted exactly when it has twenty well-formed members with distinct ids and distinct content digests. |
| `SealedFacts.TasksAcceptedExactly` | src/blackwell_lab/sealed_sets/model.py:162-195 | A bundle is accepted exactly when it has twenty tasks with safe ids and non-empty contents of at most a mebibyte, no two with the same id or the same content digest. |
| `SealedModel.BundlesAcceptedExactly` | src/blackwell_lab/sealed_sets/model.py:198-211 | Two bundles are accepted exactly when each is valid and they share no id and no content digest. |
| `SealedModel.IndexAcceptedExactly` | src/blackwell_lab/sealed_sets/model.py:289-359 | A stage index is accepted exactly when its layout, counts, row order, contents, aggregate and digest agree with the public facts of its stage. |
| `SealedFacts.AcceptedRows` | src/blackwell_lab/sealed_sets/model.py:289-359 | The rows of an accepted index are twenty safe ids and digests, none twice, the order holds just those digests, and kind, schema and layout are the fixed ones. |
| `SealedFacts.ManifestAcceptedExactly` | src/blackwell_lab/sealed_sets/custody.py:125-142 | Helper fact: a public manifest is accepted exactly when it has this kind, schema and layout and carries its own digest. |
| `SealedModel.BuiltIndexIsAccepted` | src/blackwell_lab/sealed_sets/model.py:254-281 | The index built for a valid bundle is accepted against a manifest that describes it and yields the sorted rows and the supplied order. |
| `SealedModel.CheckRows` | src/blackwell_lab/sealed_sets/model.py:330-346 | The row loop accepts exactly well-formed rows with distinct ids and digests. |
| `SealedModel.ManifestDescribes` | src/blackwell_lab/sealed_sets/model.py:431-504 | For valid separate bundles every manifest check passes, and the manifest carries both aggregates, both index digests, the set identity and the request digest. |
| `SealedModel.ManifestBindsRequest` | src/blackwell_lab/sealed_sets/model.py:431-504 | Helper fact: a manifest is built exactly for the request that these bundles, commit and controller make, and carries it unchanged. |
| `SealedModel.RequestDigestPins` | src/blackwell_lab/sealed_sets/model.py:406-428 | Without a collision, equal request digests mean the same commit, controller, set identity, counts and aggregates. |
| `SealedModel.ManifestDigestPins` | src/blackwell_lab/sealed_sets/model.py:431-504 | Without a collision, two valid manifests with one digest are equal. |
| `SealedEncoding.RowsDecode` | src/blackwell_lab/sealed_sets/model.py:190-193 | The aggregate preimage determines its rows. |
| `SealedEncoding.AggregatePinsRows` | src/blackwell_lab/sealed_sets/model.py:247-251 | Without a collision, equal aggregates mean equal sorted rows. |
| `SealedEncoding.IdentityDecodes` | src/blackwell_lab/sealed_sets/model.py:388-391 | The set-identity preimage determines both orders. |
| `SealedEncoding.IdentityPinsOrder` | src/blackwell_lab/sealed_sets/model.py:388-403 | Without a collision, equal set identities mean equal orders in both stages. |
| `SealedEncoding.ReorderingChangesIdentityOnly` | src/blackwell_lab/sealed_sets/model.py:394-403 | Reordering either stage or both keeps both aggregates and, without a collision, keeps the set identity exactly when neither order changed. |
| `SealedEncoding.SourcesDecode` | src/blackwell_lab/sealed_sets/model.py:95-121 | The controller preimage determines paths, modes and blob digests in order, although raw digests may contain the separator. |
| `SealedEncoding.ControllerDigest` | src/blackwell_lab/sealed_sets/model.py:95-121 | The hashing loop digests the preimage of four regular sources and refuses any other input. |
| `SealedEncoding.ControllerDigestPinsSources` | src/blackwell_lab/sealed_sets/model.py:95-121 | Without a collision, equal controller digests mean equal sources. |
| `CustodyTree.SameManifestSameContents` | src/blackwell_lab/sealed_sets/custody.py:308-338 | Without a collision among the files present, two sets that verify against the same public manifest have the same index in each stage and agree on everything under the private directory. |
| `CustodyTree.StageAcceptedExactly` | src/blackwell_lab/sealed_sets/custody.py:427-463 | A stage tree is accepted exactly when modes, canonical index and every named blob agree. |
| `CustodyTree.StagesAcceptedExactly` | src/blackwell_lab/sealed_sets/custody.py:466-492 | The cross-stage checks pass exactly when both stages verify, share no id and no content, and give the set identity, file digests and listings of the manifest. |
| `CustodyTree.VerifiedExactly` | src/blackwell_lab/sealed_sets/custody.py:308-338 | Full verification succeeds exactly on private modes, a self-consistent manifest of the commit and controller, agreeing stages and its own receipt. |
| `SealedFacts.ReceiptDescribesTree` | src/blackwell_lab/sealed_sets/custody.py:308-338 | The receipt of a full verification names the commit and controller asked for and, for each stage, the number of tasks and the aggregate of the canonical index on disk, whose every blob is there under its digest, with the set identity of both orders; the stages share no id and no digest. |
| `CustodyTree.OnlyStagePaths` | src/blackwell_lab/sealed_sets/custody.py:482-492 | In a listed stage nothing lies below the stage directory but its index and named blobs. |
| `CustodyExtras.UnnoticedExactly` | src/blackwell_lab/sealed_sets/custody.py:466-492 | Whatever is added to a verified set, full verification still succeeds, with the same receipt, exactly when every mode is private and nothing new lies in the private directory. |
| `CustodyExtras.EntryUnnoticedExactly` | src/blackwell_lab/sealed_sets/custody.py:618-634 | One added entry is missed exactly when it is a directory of mode 0700 or a file of mode 0600 outside the private directory. |
| `CustodyExtras.AcceptedIsPrivate` | src/blackwell_lab/sealed_sets/custody.py:618-634 | Every entry of a verified tree is a directory its owner alone can use or a file its owner alone can read and write. |
| `CustodyTree.RootFileGoesUnnoticed` | src/blackwell_lab/sealed_sets/custody.py:482-492 | Witness: an extra private file at the custody root goes unnoticed by full verification. |
| `Custody.ImportVerifies` | src/blackwell_lab/sealed_sets/custody.py:371-424 | The tree an import writes verifies in full with exactly the counts, aggregates, identity and digests of the bundles. |
| `Custody.ApprovedExactly` | src/blackwell_lab/sealed_sets/custody.py:265-279 | The destination is touched only for valid separate bundles, the expected controller and exact request, under the phrase naming its digest. |
| `Custody.ReplayIsRefused` | src/blackwell_lab/sealed_sets/custody.py:567-580 | Helper fact: a destination holding a set of the same identity or request is a replay, any other finished set is a non-empty destination. |
| `Custody.CustodyRoot.ImportAuthorizedSet` | src/blackwell_lab/sealed_sets/custody.py:247-305 | All or nothing under a fault at any mkdir or write, removals assumed to succeed: success leaves exactly the imported tree; a failure once the destination was prepared restores the prior tree; before that, only a mkdir of an absent destination that fails midway leaves something; an existing set is never altered; and without faults an approved import into an empty destination succeeds. |
| `Custody.CustodyRoot.WriteTree` | src/blackwell_lab/sealed_sets/custody.py:371-424 | Directories, blobs, read-back, indexes, manifest and receipt in order; success leaves exactly the imported tree. |
| `Custody.CustodyRoot.PrepareDestination` | src/blackwell_lab/sealed_sets/custody.py:561-585 | Accepts exactly an absent destination or an empty private directory. |
| `Custody.CustodyRoot.Scrub` | src/blackwell_lab/sealed_sets/custody.py:637-647 | Removals assumed to succeed: removes what the import created, its own root only if it made it. |
| `StageLoader.StageNonInterference` | src/blackwell_lab/cloud/sealed_binding.py:262-337 | Two trees that differ only under the other stage give the same result or refusal through the same reads. |
| `StageLoader.LoadAvoidsOtherStage` | src/blackwell_lab/cloud/sealed_binding.py:262-279 | No path under the other stage is touched. |
| `SealedFacts.TouchesPrivateDirectories` | src/blackwell_lab/cloud/sealed_binding.py:237-337 | Whatever the tree, a load touches something inside a directory only when that directory has mode 0700. |
| `StageLoader.LoadDependsOnTrace` | src/blackwell_lab/cloud/sealed_binding.py:262-337 | Result and read trace are determined by what is at the touched paths. |
| `StageLoader.VerifiedStageLoads` | src/blackwell_lab/cloud/sealed_binding.py:321-337 | A fully verified set loads, stage by stage, to exactly the decoded values of its index in id order. |
| `StageLoader.LoadSealedStage` | src/blackwell_lab/cloud/sealed_binding.py:237-337 | The loader as it runs returns the specified result and read trace. |
| `StageLoader.LoadsExactly` | src/blackwell_lab/cloud/sealed_binding.py:262-337 | A stage loads exactly when manifest, receipt and index are the bound ones, every blob of the index decodes under its id and the results are consistent. |
| `StageLoader.RequireConsistentTasks` | src/blackwell_lab/cloud/sealed_binding.py:384-404 | The loop returns the first inconsistency in order. |
| `StageLoader.ConsistentExactly` | src/blackwell_lab/cloud/sealed_binding.py:384-404 | No inconsistency exactly when ids and surfaces are distinct and each scenario id has one scenario. |
| `SealedFacts.TasksDifferExactly` | src/blackwell_lab/cloud/sealed_binding.py:384-404 | Loaded tasks pass exactly when ids differ, template, tracking id and minute do not all agree, and a scenario id stands for one scenario. |
| `StageLoader.EvidenceIsEachTaskOnce` | src/blackwell_lab/cloud/sealed_binding.py:358-371 | Stage evidence is accepted exactly when the observations are the sealed ids, each once, over the same scenarios. |
| `SealedFacts.EvidenceExactly` | src/blackwell_lab/cloud/sealed_binding.py:358-371 | Evidence for a stage is accepted exactly when it observes each task once, in any order and nothing else, and a template is observed exactly when it is the scenario of some task. |
| `Materialize.SlotOrder` | src/blackwell_lab/cloud/sealed_materialize.py:269-277 | Zero-padded slot ids order exactly as their slots. |
| `Materialize.PaddedValue` | src/blackwell_lab/cloud/sealed_materialize.py:269-277 | Helper fact: a padded slot is four decimal digits that stand for the slot. |
| `Materialize.AnyOrderReadsBack` | src/blackwell_lab/cloud/sealed_materialize.py:682-694 | A materialized bundle read in any order and sorted is the materialized sequence. |
| `Materialize.LoadedBundleExactly` | src/blackwell_lab/cloud/sealed_materialize.py:682-694 | A directory loads exactly when it is some arrangement of the fixed members of one stage. |
| `Materialize.IdentityIsPredicted` | src/blackwell_lab/cloud/sealed_materialize.py:478-489 | The set identity computed at import is the one predicted from the schedule. |
| `Materialize.MaterializeStage` | src/blackwell_lab/cloud/sealed_materialize.py:406-451 | The slot loop yields the schedule as payloads that decode to it, and succeeds when every slot is encodable. |
| `Materialize.ImportThenLoad` | src/blackwell_lab/cloud/sealed_materialize.py:713-741 | An imported set loads to the decoded members of its bundle in id order. |
| `Materialize.LoadedStageIsTheSchedule` | src/blackwell_lab/cloud/sealed_materialize.py:406-451 | Materialize, read back in any order, import and load: each stage is the frozen schedule, slot by slot, with the catalog scenarios. |
| `Materialize.LoadedSlot` | src/blackwell_lab/cloud/sealed_materialize.py:406-451 | Task i of a stage has the id of slot i, the template, seed, tracking id and minute of that slot of its own schedule, and the catalog scenario of the template. |
| `MatchedControl.PersistedControlAuthenticates` | src/blackwell_lab/cloud/matched_control.py:1161-1231 | A persisted control authenticates for its own pair under another label and yields exactly the block of the stored record; appended session events keep that exactly when none is a control-development completion or stop. |
| `MatchedControl.GrowingLog` | src/blackwell_lab/cloud/matched_control.py:734-773 | A found terminal event stays found with the same digest exactly as long as no completion or stop is appended; a stop and a further completion are refused each with its own reason. |
| `MatchedControl.RequireTerminalEvent` | src/blackwell_lab/cloud/matched_control.py:734-773 | The loop over the log finds the one completion and refuses at the first stop. |
| `ControlFacts.TerminalEventExactly` | src/blackwell_lab/cloud/matched_control.py:734-773 | The terminal event is found exactly in a log of this run where nothing stops the control and exactly one development event closes it, under this label and configuration; its digest is that of the event. |
| `MatchedControl.SectionPinsFiles` | src/blackwell_lab/cloud/matched_control.py:1186-1231 | Any two stores one section authenticates against have the same ledger, record, receipt and result bytes and yield the same block. |
| `MatchedControl.BlockIsBound` | src/blackwell_lab/cloud/matched_control.py:1186-1231 | Each field of an authenticated block: run label, commit, region and digests are those of the section, kind and pins those of the pair, the receipt digest is that of the receipt on disk, and the terminal event is the one in the session log. |
| `MatchedControl.MintedRecord` | src/blackwell_lab/cloud/matched_control.py:980-1044 | Each field of a minted record: it names its own run, label, commit and pair, with the digests of the ledger, receipt and only result on disk, and is completed, verified, not stopped and without failure. |
| `ControlFacts.MintSucceedsExactly` | src/blackwell_lab/cloud/matched_control.py:980-1044 | A record is minted exactly when the session is still the one captured, the receipt on disk is the one named and claims a completed control, the log has its terminal event, there is one result and no failure, and the record of these facts, field by field, is valid; that record is the answer. |
| `ControlFacts.StoredRecordIsOwn` | src/blackwell_lab/cloud/matched_control.py:1161-1231 | Whatever authenticates, the record on disk is valid, names the control of the pair, claims a completed, verified run without failure under the pins of the pair, and its only result has the digest of the section. |
| `ControlFacts.SectionIsWellFormed` | src/blackwell_lab/cloud/matched_control.py:582-646 | A control authenticates only under a section of the schema of its pair, with full digests and commit, a safe label, the frozen region and the evidence contract of that schema alone. |
| `MatchedControl.AuthenticatedExactly` | src/blackwell_lab/cloud/matched_control.py:1161-1231 | Authentication succeeds exactly for a genuine control of the pair, label, commit, region and live session, with matching record, pins, result, receipt and terminal event, and yields the block of its record. |
| `MatchedControl.ReceiptAcceptedExactly` | src/blackwell_lab/cloud/matched_control.py:688-731 | Helper fact: a receipt is accepted exactly when its claims are those of a completed, non-stopped control of the pair. |
| `MatchedControl.CapturedExactly` | src/blackwell_lab/cloud/matched_control.py:407-445 | Helper fact: a session is captured exactly from a reconciled, provider-checked ledger of the run with nothing pending, whose two resources are its own. |
| `ControlFacts.SessionExactly` | src/blackwell_lab/cloud/matched_control.py:407-445 | A session is captured exactly from a reconciled, provider-checked ledger of a run that was not aborted, with nothing pending and just the instance and firewall of the run, each with its own type, label, region and tags. |
| `ControlFacts.IdentifiedExactly` | src/blackwell_lab/cloud/matched_control.py:371-404 | Resources identify a session exactly when they are that pair, in either order. |
| `ControlFacts.RowsOfPair` | src/blackwell_lab/cloud/matched_control.py:258-297 | Helper fact: the identity hashes the row of the firewall and then that of the instance, each with address, type, region, label and the digest of its provider id. |
| `MatchedControl.RecordsBelongToOnePair` | src/blackwell_lab/cloud/matched_control.py:1119-1127 | Helper fact: a record is admitted by at most one registered pair. |
| `MatchedControl.IdentityIgnoresOrder` | src/blackwell_lab/cloud/matched_control.py:258-297 | The resource identity does not depend on the order of the two resources. |
| `MatchedControl.IdentityPinsResources` | src/blackwell_lab/cloud/matched_control.py:258-297 | Without a collision, two sessions with one identity have resources of the same address, type, provider id, label, tags and region. |
| `MatchedControl.ControlStore.PersistCompletedControl` | src/blackwell_lab/cloud/matched_control.py:980-1044 | Writes the record exactly after every re-check passed, and nothing on a refusal. |

## Left out

- Edits by others during an operation: files are edited between operations; within one, reads and writes are the operation's own.
- Outside edits of ledger, pending record, plan metadata and session log: only plan bytes, configuration, lock file, state, commit and variable file are edited by others.
- RunDirectory.RunDirectory.Destroy: the ledger argument is the one on disk, as the command line loads it; a caller passing another ledger is not modelled.
- Reconcile.NoFindingsExactly: the text of messages, redaction and the rendering of absent fields as null are not modelled; an absent field is the empty text.
- DeletionPoll.PollRound: the order in which references are probed within one round is that of the table and not observable.
- Subprocess, network and provider calls: their answers are parameters.
- SHA-256, JSON text, regular expressions and JSON Schema: parameters with the laws each proof names; size and pattern limits of the payload schema are one predicate on documents.
- `session_summary`, `orphan_report` and the diagnostic classification of apply output: reporting only.
- Floating-point rounding: all quantities are exact reals, and the reported values are those before rounding.
- AgentLoop.OutcomeIsBounded: exceptions from `note_turn`, `mark_exhausted` and the controller summary are not modelled, and prompts are two texts.
- AgentLoop.EscapesExactly: a failing `consume_latency` on a rejected terminal call is not modelled; the terminal tool always has a latency. Whether the controllers of the repository can raise on arguments they receive is not modelled either: the controller is arbitrary.
- Evaluator.OnlyReturnedFieldsCount: a `lines` or `changes` field that is no list counts as empty, where the source would raise on a number or null; the simulated tools always return lists.
- RealResult.BuildRealResult: latency summaries, throughput and cost figures are left out; they are quotients of counts already modelled.
- Qualification.ComputeQualificationMetrics: the choice between attributes and dictionary keys when reading an observation is left out; an observation is the record it reads.
- Frozen pin tables, configuration equality checks, candidate identities and stage specifications: long lists of constants.
- Telemetry.GpuSampler.Stop: the thread is joined before stop returns; a join that times out is not modelled.
- RepetitionLoop.RunCellIsHonest: run ids are distinct and unused, as uuid4 draws them; an abandoned temporary file of a failed atomic write is not modelled.
- SealedPayload.DecodingInvertsEncoding: repeated keys and non-finite numbers are refused by the parser parameter, and the refusals of an unknown version by schema and by decoder are one refusal.
- CustodyTree.SameManifestSameContents: which of several mode faults is reported first depends on directory order and is not modelled; the constant `finalized`, statement and scope fields of the manifest are omitted.
- Custody.CustodyRoot.ImportAuthorizedSet: the clean-checkout and bound-controller checks are parameters, removal during a scrub succeeds, an interrupt that is no `Exception` (such as a keyboard interrupt), which skips the scrub in the source and leaves a partial tree, is not modelled, and umask, fsync and symbolic-link races are not modelled.
- StageLoader.LoadSealedStage: an extra JSON member that the manifest record does not have makes parsing fail instead of the schema check.
- Materialize.MaterializeStage: the check of historical sources and the writing of the two bundle directories are left out; the generator is any schedule of twenty slots.
- MatchedControl.PersistedControlAuthenticates: path safety of the results directory and the audit over all receipts are left out; labels map to output labels by a parameter.
- `install_verified_p1_development_control`: a fixture writer made of the same pieces.
- `freeze_template_split`, `require_complete_stage_evidence` and the distribution checks: easy members beside the ones proved.
