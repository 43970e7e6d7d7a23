# Verification model of vsc-relay

vsc-relay sits between coding agents and a person on Telegram. This project models, in Dafny 4.11, the parts
of it whose correctness rests on state that outlives one call, and proves what they keep over every run.
`dafny verify dfyconfig.toml` checks the whole project.

| modules | what they model |
|---|---|
| `GateTypes`, `ArtifactStore`, `GateController`, `GateLaws`, `GateRuns`, `GateClearance`, `GateLadder`, `GateProbes`, `GateEntry` | the pre-mutation gate: a persistent list of gate records driven by the pre-tool and post-tool hooks, controller probes, the supervisor's poll, replans, expiry and restarts of the agent, under three modes with attempt and probe budgets |
| `HookDedup`, `HookPolicy`, `HookProtocol`, `HookAnswer`, `HookOutcome` | the hook decision protocol: leaders, followers and replays of one tool call, composed with the gate's answer, the danger policy, a human's answer and the timeout |
| `Lines`, `ReductionCache`, `CacheRuns`, `LineCounter`, `IncrementalCalls`, `OpenTools`, `ToolReports` | the incremental transcript reduction: appended bytes, an early flush of an unterminated record, resets and a 64-entry cache, against one pass over the file; the reducer's map of open tool calls, and what it returns of that map |
| `StepText`, `Transcript`, `TranscriptParser`, `TranscriptLaws`, `TranscriptContent` | the two readers of a Claude transcript, one of which compacts aged steps while it reads, against what the records say |
| `RotatingLog`, `CrashSafety`, `KeyClaim` | durable files: log rotation read back by generation, main and backup writes with crashes between them, and the racing first use of a key file |
| `Decimals`, `CallbackStore`, `Pairing`, `Continuations` | bounded stores: callback ids that wrap, the pairing lockout, and continuation links with a hop-limited cycle check |
| `ShellQuote` | shell quoting, read back by the rules of sections 2.2, 2.3 and 2.6.3 of the Shell Command Language in POSIX.1-2017 |

The source's mutable objects (the store, the controller, the de-duplication table, the cache and its entries,
the log, the callback store, the pairing guard, the link store) are classes; each method's contract equates the
new state with a function of the old one, and the lemmas are about those functions. The reading loops are
methods with loops. Protocols with several processes or crashes are machines over their steps.

## Where the code and its promises differ

- The test named "strictly one shot" (crates/relay-agent/src/gate_controller.rs:1245) suggests that a lease
  clears at most once. A held evaluation overwrites `ClearedAbsent`, so it clears again: `ClearanceRecurs`
  builds that run for any length, `RobotClearanceRecurs` the same for Robot, `ClearanceAlternatesWithHolds` proves what does hold.
- The incremental reduction is not transparent for every transcript. `push_line` counts blank lines
  (crates/relay-core/src/state.rs:129-134), an early flush leaves one behind, and tool calls without an id are
  named by the count (crates/relay-core/src/state.rs:215-222). `ToolsAgreeExactly` says when the map the reducer
  holds is the same. What it returns (crates/relay-core/src/state.rs:304-325) can still be the same:
  `FedIsRenaming` shows that the map is always the same up to the made-up names, `CountsAgree` that the counts
  always agree, and `ReportsAgreeExactly` says when everything returned does. `QuestionIsRenamed` shows a question
  that is returned under another id, `ToolIsReportedAlike` a tool held under another name and returned alike,
  `OrderChanges` two tools of which the other one is returned.
- A turn that must stop is remembered by the process only, the gates on disk
  (crates/relay-agent/src/gate_controller.rs:203-204). After a restart the turn is stopped again by a call on a
  quarantined lease (`RestartedTurnStopsAgain`) and goes on with a call on a new one (`RestartFreesTheTurn`).
- The two transcript readers disagree on task notifications: the noise test
  (crates/relay-compass/src/lib.rs:163-183) lets them through and only the step parser takes them for delegate
  results. `ReadersAgreeExactly` says for which lines, `NotificationDivides` gives a record.
- A Robot call can reach a human. The mode is resolved three times in one hook call: by the hook on entry, by the
  gate, and by the danger policy. The readings are at three times, and the gate takes the session and the workspace
  from the payload in its own way (crates/relay-agent/src/gate_controller.rs:520-537 against
  crates/relay-agent/src/ingress.rs:190-195 and 512-517). `RobotIsDeniedExactly` gives the exact condition;
  `ExpiringRobotReachesHuman`, `RootRobotReachesHuman` and `NamelessRobotReachesHuman` are inputs that fail it, the
  last two with nothing expired.
- A save decodes the main file and then reads it again. Garbage that lands between the two is copied to the
  backup, and a crash then loses both copies: `LoadFinds` says exactly when, `GarbledWindowLosesAll` shows it.
- The dossier key is claimed by a hard link, the artifact key is written over. `AgreementExactly` says from which
  initial files each keeps all callers on one key; a key file that starts out invalid defeats the claim as well.
- Cycles of more than 32 continuation links pass the cycle check: `LongCycleIsReachable`.
- `record.attempts + 1` is 8-bit arithmetic on a saturating counter. The model wraps it at 256; what is stored and
  answered does not depend on it (`StoreAndHookAgree`).

## Model

| member | source | states |
|---|---|---|
| ArtifactStore.Position | crates/relay-agent/src/artifact_store.rs:1066-1104 | the forward search finds the first record with the session and action digests, and finds none only if there is none |
| ArtifactStore.LastPosition | crates/relay-agent/src/artifact_store.rs:1048-1064 | the reverse search finds the last such record |
| ArtifactStore.LastOfSession | crates/relay-agent/src/artifact_store.rs:1106-1139 | the last record of a session, or that there is none |
| ArtifactStore.LastWaiting | crates/relay-agent/src/artifact_store.rs:871-877 | the last record of a session that waits for proof, or that there is none |
| ArtifactStore.Store.ExpireStaleGates | crates/relay-agent/src/artifact_store.rs:822-852 | exactly the waiting gates older than their lifetime go stale |
| ArtifactStore.Store.RecordGate | crates/relay-agent/src/artifact_store.rs:748-818 | the whole new list and the record returned: a repeated identity changes no counter, the list stays within 128, the oldest are dropped, stale gates expire |
| ArtifactStore.Store.NotePostTool | crates/relay-agent/src/artifact_store.rs:854-912 | which waiting gate a post-tool call is charged to, and its new counters |
| ArtifactStore.Store.NoteControllerProbe | crates/relay-agent/src/artifact_store.rs:914-958 | a probe signature counts once, up to three |
| ArtifactStore.Store.SetGateResolution | crates/relay-agent/src/artifact_store.rs:1066-1104 | the named record gets the state and decision, whatever it held; nothing else changes |
| ArtifactStore.Store.AdmitAbsenceToGate | crates/relay-agent/src/artifact_store.rs:1167-1190 | the named record is cleared and its pass not yet consumed |
| ArtifactStore.Store.AdmitAbsenceToLatestGate | crates/relay-agent/src/artifact_store.rs:1141-1165 | the same for the session's latest waiting record |
| ArtifactStore.Store.MarkReplanDelivered | crates/relay-agent/src/artifact_store.rs:1106-1139 | the session's last record goes from rejected to replanning, and only from there |
| ArtifactStore.Store.RobotGateControl | crates/relay-agent/src/artifact_store.rs:969-1046 | the supervisor's answer for the session's last record, which is quarantined when its budget is spent |
| GateController.Controller.MarkTerminalTurn | crates/relay-agent/src/gate_controller.rs:223-233 | the turn is marked, one member makes room when the set is full |
| GateController.Controller.RegisterRobotProbe | crates/relay-agent/src/gate_controller.rs:242-276 | one lease per session; a lease for the same action keeps its delivery mark |
| GateController.Controller.MarkTargetProbeDelivered | crates/relay-agent/src/gate_controller.rs:278-286 | only the session's own lease is marked delivered |
| GateController.Controller.AdvanceRobotProbe | crates/relay-agent/src/gate_controller.rs:288-428 | what a controller probe makes of the lease, the store and the turn, for each outcome |
| GateController.Controller.PreTool | crates/relay-agent/src/gate_controller.rs:658-950 | reply and whole new state of a pre-tool call, through every bypass, sticky, clearance and evaluation branch |
| GateController.Controller.PostTool | crates/relay-agent/src/gate_controller.rs:952-1069 | whole new state after a post-tool call |
| GateLaws.SearchesAgree | crates/relay-agent/src/artifact_store.rs:1048-1104 | with unique keys the forward and the reverse search meet at the same record |
| GateLaws.RecordLaw | crates/relay-agent/src/artifact_store.rs:748-818 | after a record step the store is in good order, the lease holds the record returned, and every other lease left is settled or cleared as before |
| GateLaws.PostToolLaw | crates/relay-agent/src/artifact_store.rs:854-912 | a post-tool note keeps good order and settles, unsettles and clears nothing |
| GateLaws.LatestAbsenceLaw | crates/relay-agent/src/artifact_store.rs:1141-1165 | admitting absence keeps good order and touches no settled lease |
| GateLaws.ControlLaw | crates/relay-agent/src/artifact_store.rs:969-1046 | the supervisor's poll keeps good order and touches no settled lease |
| GateLaws.SettledLaw | crates/relay-agent/src/gate_controller.rs:288-428 | a controller probe, run on a waiting lease as its caller checks, keeps good order and every settled lease although the store operations write unconditionally |
| GateRuns.StoreAndHookAgree | crates/relay-agent/src/gate_controller.rs:745-781 | after an evaluation the stored state and decision are the policy on the stored counters, and the reply's; the provisional guess does not matter |
| GateRuns.PreToolLaw | crates/relay-agent/src/gate_controller.rs:658-950 | every pre-tool call keeps good order, and its event (held, cleared, other) says all that happened to any lease |
| GateRuns.StepEvolves | crates/relay-agent/src/gate_controller.rs:288-950 | under any step a quarantined lease stays so, a rejected one leaves only to replanning by a replan of its session, a consumed clearance ends only in a hold |
| GateRuns.ReachableStoresAreGood | crates/relay-agent/src/artifact_store.rs:766-814 | every reachable store has unique keys, at most 128 gates, duplicate-free lists, attempts = min(255, identities) and probe steps = min(3, probes) |
| GateRuns.QuarantineIsFinal | crates/relay-agent/src/gate_controller.rs:637-656 | over any stretch of a run in which its record stays, a quarantined lease is quarantined |
| GateRuns.RejectionEndsInReplan | crates/relay-agent/src/artifact_store.rs:1106-1139 | a rejected lease that is no longer rejected had a replan delivered to its session at that moment |
| GateRuns.ClearanceAlternatesWithHolds | crates/relay-agent/src/gate_controller.rs:444-452 | between two clearance passes of an Auto or Robot lease whose record stays there is a call that was held |
| GateRuns.RobotBudget | crates/relay-agent/src/gate_controller.rs:493-510 | at most three distinct native identities are ever held for a target or controller probe of one stored lease |
| GateRuns.ModesAndReplies | crates/relay-agent/src/gate_controller.rs:454-513 | whatever the store holds, Manual gets no reply and Robot none that asks a person |
| GateRuns.TerminalTurnsPersist | crates/relay-agent/src/gate_controller.rs:203-240 | a marked turn stays marked over any run until the agent restarts or the full set drops it |
| GateRuns.TerminalTurnsAreBlocked | crates/relay-agent/src/gate_controller.rs:694-704 | until then every enforced Robot call of a marked turn that is not read-only is denied, and only its controller probe writes |
| GateRuns.QuarantineStopsTheTurn | crates/relay-agent/src/gate_controller.rs:782-794 | any Robot call answered as quarantined, a read-only one too, has its turn marked |
| GateRuns.RestartedTurnStopsAgain | crates/relay-agent/src/gate_controller.rs:454-513 | however often the agent restarts, a Robot call on a lease that was quarantined is denied and marks its turn again |
| GateRuns.RestartFreesTheTurn | crates/relay-agent/src/gate_controller.rs:203-204 | right after a restart a Robot call on a lease not seen before is answered with a target probe, whether or not its turn was to stop |
| GateClearance.OpenCallClearsExactly | crates/relay-agent/src/gate_controller.rs:844-872 | in every mode an open call on an unsettled lease clears exactly when no pass is consumed, and is otherwise held |
| GateClearance.ClearanceRecurs | crates/relay-agent/src/gate_controller.rs:1245-1265 | for every n a run of n open Auto or Manual calls alternates clearance and hold, so one lease clears any number of times |
| GateClearance.RobotClearanceRecurs | crates/relay-agent/src/ingress.rs:243-247 | the same for a Robot call replayed under one native identity, its probe marked delivered after each hold and finding absence, or never marked as for a payload without a session; so the number of identities does not bound the number of passes |
| GateClearance.RobotClearanceBudget | crates/relay-agent/src/gate_controller.rs:844-872 | from its first call on, while its record stays and it is not rejected, a Robot lease is cleared for at most four distinct native identities |
| GateLadder.HeldCallsClimbTheLadder | crates/relay-agent/src/gate_controller.rs:454-513 | over every run a held Robot call is answered target probe, controller probe or quarantine by the distinct identities and probes its lease has seen, a held Auto call asks a person exactly after three probes or 110 seconds, and a present artifact rejects both |
| GateLadder.ProbeSettlesLease | crates/relay-agent/src/gate_controller.rs:288-428 | a delivered controller probe leaves its waiting lease rejected, with one unspent pass, or quarantined with its turn stopped, by what it found |
| GateLadder.DirectiveIsIssuedOnce | crates/relay-agent/src/artifact_store.rs:969-1046 | the poll after a directive reports the same state and no directive |
| GateLadder.NothingWaitsForever | crates/relay-agent/src/artifact_store.rs:820-852 | after a record step no gate has waited half an hour or more for its proof |
| GateLadder.RecordKeepsOthers | crates/relay-agent/src/artifact_store.rs:748-852 | a record step leaves every other lease as it is, but that a waiting one unused for half an hour goes stale, and the oldest of 128 goes when a new one comes |
| GateLadder.ControlIsExact | crates/relay-agent/src/artifact_store.rs:969-1046 | the supervisor's poll: the state found, by three probes or four identities, whether a directive is due, and that only the session's last lease is touched |
| GateLadder.ReplanIsExact | crates/relay-agent/src/artifact_store.rs:1106-1139 | a delivered replan frees the session's last lease exactly if that is rejected |
| GateProbes.NoteIsCharged | crates/relay-agent/src/artifact_store.rs:854-912 | a post-tool note changes the session's last waiting lease alone: a new read adds exactly its signature and leaves it in target probe, a mutation of its own target makes it stale, anything else leaves state and counters |
| GateProbes.PostCallIsExact | crates/relay-agent/src/gate_controller.rs:952-1069 | which post-tool calls are noted, what they and an admitted absence make of that lease, and that all others change nothing |
| GateProbes.ReadsStay | crates/relay-agent/src/artifact_store.rs:888-896 | over any run a read charged to a lease is among its probes while its record stays |
| GateProbes.ProbesAreReads | crates/relay-agent/src/artifact_store.rs:888-896 | over any run the probes of an Auto or Manual lease are exactly the reads charged to it since its first call, and its window runs from that call |
| GateProbes.AutoAsksExactly | crates/relay-agent/src/gate_controller.rs:472-492 | over any run a held Auto call, its target not seen present, asks a person if and only if three different reads were charged to its lease since the lease's first call or that call is 110 seconds old |
| GateEntry.GateStaysOutExactly | crates/relay-agent/src/gate_controller.rs:658-720 | a call that is switched off, control plane or shadowed, or that is unbound or cannot be judged and meets neither a stopped turn nor a settled lease, gets no reply and changes nothing but what the session's own controller probe may; every other call is decided |
| GateEntry.StoppedTurnIsDenied | crates/relay-agent/src/gate_controller.rs:694-704 | the first exception: a stopped turn is denied even an unbound call, and nothing is recorded |
| GateEntry.SettledLeaseDenies | crates/relay-agent/src/gate_controller.rs:622-656 | the second: a bound call on a quarantined or rejected lease is denied with that state and records nothing but a quarantined turn |
| GateEntry.JudgeableCallIsJudged | crates/relay-agent/src/gate_controller.rs:705-950 | the converse: any other bound call that can be judged is cleared, exactly if its target is shown absent and no pass is consumed, or held and answered from the ladder; with the lease, the probe registration and the turn it leaves |
| GateEntry.ProbeWaitsForDelivery | crates/relay-agent/src/gate_controller.rs:288-325 | a controller probe does nothing before it is delivered, and is dropped when its gate no longer waits |
| GateEntry.ProbeRunsExactly | crates/relay-agent/src/gate_controller.rs:326-428 | a delivered one settles its lease and counts what it looked at; every other lease, probe and turn stays, but for one turn when 512 are marked |
| HookDedup.HookDedup.Arrive | crates/relay-agent/src/ingress.rs:94-143 | an arriving call leads, follows or replays, and the table after it |
| HookDedup.HookDedup.Finish | crates/relay-agent/src/ingress.rs:144-157 | the leader's completion and exactly the waiters to answer |
| HookDedup.ArrivesKeeps | crates/relay-agent/src/ingress.rs:94-143 | an arrival keeps the invariant that ties leaders, waiters, replies and verdicts together |
| HookDedup.FinishesKeeps | crates/relay-agent/src/ingress.rs:144-157 | so does a completion |
| HookDedup.OneLeaderPerIdentity | crates/relay-agent/src/ingress.rs:94-143 | at most one leader runs per identity |
| HookDedup.EveryCallerIsServed | crates/relay-agent/src/ingress.rs:126-157 | each caller is answered exactly once, with its leader's verdict, exactly when that verdict exists |
| HookDedup.NewLeaderAfterForgetting | crates/relay-agent/src/ingress.rs:98-101 | a new leader appears only for an identity never led or whose last leader finished over 130 seconds ago |
| HookPolicy.ModeIsStable | crates/relay-agent/src/automation.rs:403-417 | two readings of the mode agree unless an entry they depend on expired in between |
| HookPolicy.NeverAllowsAlone | crates/relay-agent/src/ingress.rs:182-326 | no branch of the hook allows without a human |
| HookPolicy.OutcomesAreExact | crates/relay-agent/src/ingress.rs:182-326 | exactly when one call is put before a person, left to the local prompt, or denied |
| HookPolicy.RobotIsAutonomous | crates/relay-agent/src/ingress.rs:437-450 | with one mode, Robot, no human is asked and a dangerous call is denied, whatever the gate store has come to hold |
| HookPolicy.ManualIsNeverHeld | crates/relay-agent/src/gate_controller.rs:637-656 | under Manual the outcome is the one without a gate, for any store |
| HookPolicy.RobotReachesHumanExactly | crates/relay-agent/src/ingress.rs:182-326 | exactly when a dangerous call that entered as Robot is forwarded to a human |
| HookPolicy.DangerIsDeniedExactly | crates/relay-agent/src/ingress.rs:182-326 | for every configuration, payload and clock, over all replies the gate can give: a dangerous call is always denied if and only if the gate does not read Auto and the danger policy reads Robot or the call entered as Auto under a guard |
| HookPolicy.DangerousRobotIsDenied | crates/relay-agent/src/ingress.rs:190-264 | if gate and hook name the same session and workspace and no entry of theirs expires between the three readings, a dangerous Robot call is denied whatever the gate store holds |
| HookPolicy.RobotIsDeniedExactly | crates/relay-agent/src/ingress.rs:182-326 | for every configuration, payload and clock: over all replies the gate can give to that payload at that time on a store it can have reached, a dangerous call that entered as Robot is always denied if and only if the gate does not read Auto and the danger policy reads Robot |
| HookPolicy.HarmlessStaysLocalExactly | crates/relay-agent/src/ingress.rs:182-326 | over the same replies, a call that is not dangerous, in whatever mode it entered, is never put before a human if and only if the gate does not read Auto |
| HookPolicy.FileNameIsLast | crates/relay-agent/src/gate_controller.rs:535-537 | the name of a directory is its last component, past slashes and dots at the end, and none after two dots |
| HookPolicy.AliasesDifferExactly | crates/relay-agent/src/ingress.rs:512-517 | hook and gate name the workspace differently exactly for a directory that is given, not empty and without a file name |
| HookPolicy.SameScopeResolvesAlike | crates/relay-agent/src/gate_controller.rs:520-537 | with the same session and workspace name the two resolve the same mode at any one time |
| HookPolicy.RootRobotReachesHuman | crates/relay-agent/src/gate_controller.rs:535-537 | at the root directory a Robot workspace entry is not the one the gate looks up, and a dangerous call can reach a human with nothing expired |
| HookPolicy.NamelessRobotReachesHuman | crates/relay-agent/src/gate_controller.rs:520-525 | the same for a payload without a session, against an entry for the session the gate makes up |
| HookPolicy.ExpiringRobotReachesHuman | crates/relay-agent/src/automation.rs:465-470 | a configuration whose entry expires between the readings sends a dangerous Robot call to a human |
| HookProtocol.Reachable | crates/relay-agent/src/ingress.rs:94-435 | de-duplication, request desk and verdicts are in order in every reachable state, under any interleaving |
| HookProtocol.EveryRunServesEveryCaller | crates/relay-agent/src/ingress.rs:94-157 | over every run: one leader per identity, every caller answered once with its leader's verdict |
| HookProtocol.LeadersAreSpaced | crates/relay-agent/src/ingress.rs:98-101 | over every run, leaders of one identity are over 130 seconds apart |
| HookProtocol.ApprovalsAreDelivered | crates/relay-agent/src/ingress.rs:499-510 | an approval on record was delivered by a resolve that found the request pending and its leader listening |
| HookProtocol.AllowComesFromApproval | crates/relay-agent/src/ingress.rs:340-435 | a caller is allowed only on an approval delivered under the request id that its own leader, and no other, forwarded |
| HookAnswer.ArrivalsAreExact | crates/relay-agent/src/ingress.rs:94-143 | over every run an arriving caller leads exactly if its identity never had a leader or the last one finished over 130 seconds ago, follows exactly while the last one runs, and is told its decision exactly if it finished at most 130 seconds ago |
| HookAnswer.ForwardedCallWaits | crates/relay-agent/src/ingress.rs:340-402 | over every run a call that must be put before a person is, under a request that is its leader's alone |
| HookAnswer.AnswerReachesAll | crates/relay-agent/src/ingress.rs:402-413 | over every run the first answer to a forwarded request counts: once collected, all who depend on the leader are told Allow if it was an approval and Deny if not |
| HookAnswer.TimeoutReachesAll | crates/relay-agent/src/ingress.rs:414-433 | over every run, if the wait times out all who depend on the leader are told Ask, whatever is answered |
| HookAnswer.RepliesHaveReasons | crates/relay-agent/src/ingress.rs:340-435 | over every run, for a forwarded request Allow and Deny come from an answer to it and Ask from its timeout |
| HookAnswer.NextMoveIsOpen | crates/relay-agent/src/ingress.rs:340-435 | in each phase exactly the leader's own next moves are open |
| HookOutcome.FinalDecisionReachesAll | crates/relay-agent/src/ingress.rs:144-157 | a leader decided without a human is never put before one, and all its dependents get exactly that decision |
| HookOutcome.DangerousRobotIsDeniedToAll | crates/relay-agent/src/ingress.rs:437-450 | over every run a dangerous call that entered as Robot, with the gate not reading Auto and the danger policy reading Robot, is denied to every caller that shares its identity, and no human is asked |
| HookOutcome.HarmlessCallNeedsNoHuman | crates/relay-agent/src/ingress.rs:309-314 | over every run a call that is not dangerous, with the gate reading Robot or Manual, is never put before a human, and all who asked get the gate's denial or the local prompt |
| Lines.SplitIsRight | crates/relay-adapters/src/claude.rs:912-930 | splitting loses no byte and cuts at every newline |
| Lines.SplitIsUnique | crates/relay-adapters/src/claude.rs:912-930 | and no other cut does |
| ReductionCache.ScanConcat | crates/relay-adapters/src/claude.rs:912-930 | where chunks end does not matter |
| ReductionCache.ScanIsFold | crates/relay-adapters/src/claude.rs:912-930 | scanning whole files is folding their lines |
| ReductionCache.GrowthTracks | crates/relay-adapters/src/claude.rs:966-1007 | one incremental read, early flush included, gives the reduction of the grown file and can be continued |
| ReductionCache.CachedReduction.PushCompleteLines | crates/relay-adapters/src/claude.rs:912-930 | the in-place buffer and cursor do what a byte-by-byte scan does |
| ReductionCache.CachedReduction.FlushTrailingLine | crates/relay-adapters/src/claude.rs:932-948 | an unterminated line is reduced exactly if it parses |
| ReductionCache.CachedReduction.BringUpTo | crates/relay-adapters/src/claude.rs:966-1007 | growth, truncation and rewriting all leave the entry showing the file as it is; growth is read from where the last call ended |
| ReductionCache.Cache.EvictColdEntry | crates/relay-adapters/src/claude.rs:950-964 | below 64 entries nothing goes; a full cache is left with 63, the path in use among them, and drops only entries used no later than any other that stays |
| ReductionCache.Cache.IncrementalReduction | crates/relay-adapters/src/claude.rs:966-1007 | one call: the result is the plain reduction of the current content, the entry is the old one brought up to the file, every other entry that stays is unchanged, and the number of entries |
| CacheRuns.ReduceAll | crates/relay-adapters/src/claude.rs:898-1007 | for every sequence of calls over any files on an empty cache, each file honest against what was last read at its path: every result is the reduction of that call's content, and the cache never exceeds 64 |
| LineCounter.IndexFreeIsTransparent | crates/relay-core/src/state.rs:129-134 | a reducer whose records never use the line count meets the hypotheses of the cache |
| LineCounter.TransparentExactlyWhenSteady | crates/relay-adapters/src/claude.rs:932-948 | for every reducer: all transcripts are reduced like in one pass, whatever the early reductions, if and only if no record's effect changes with a later count |
| LineCounter.AgreesExactlyWhenUnmoved | crates/relay-adapters/src/claude.rs:932-948 | for any one transcript and its early reductions: every call agrees with one pass if and only if no record's effect is moved by the count it is given |
| IncrementalCalls.CallsFollowFed | crates/relay-adapters/src/claude.rs:966-1007 | for any transcript, whichever of its records were read before their newline was written: the next call returns the reducer that `Fed` gives, the state `AgreesExactlyWhenUnmoved`, `ToolsAgreeExactly` and `ReportsAgreeExactly` speak of |
| OpenTools.ToolsAgreeExactly | crates/relay-core/src/state.rs:215-245 | for the map of open tool calls that the reducer holds, and any transcript of genuine ids or none: after every incremental call it is that of one pass if and only if no call without an id follows an early reduction |
| OpenTools.OpenExactly | crates/relay-core/src/state.rs:215-271 | for any transcript: the map of one pass holds under each name its last call that no later result has closed |
| ToolReports.FedIsRenaming | crates/relay-core/src/state.rs:215-271 | for any transcript without forged ids and any early reductions: the map held is that of one pass with every made-up name moved by the early reductions before its line, and all else held is the same |
| ToolReports.CountsAgree | crates/relay-core/src/state.rs:304-306 | so the number of open calls returned is always that of one pass |
| ToolReports.ReportsAgreeInOrder | crates/relay-core/src/state.rs:304-340 | with any number of such calls open, as long as the moved names keep their places in the map: everything returned is what one pass returns if and only if the question shown, if any, was not asked without an id after an early reduction |
| ToolReports.ReportsAgreeExactly | crates/relay-core/src/state.rs:304-340 | the same if and only if, whenever at most one call without an id is open |
| ToolReports.NoLateAnonymousIsTransparent | crates/relay-core/src/state.rs:304-340 | if no call without an id follows an early reduction, everything returned is what one pass returns, however many are open |
| ToolReports.QuestionIsRenamed | crates/relay-core/src/state.rs:315-325 | a question with something to ask, asked without an id after an early reduction, is returned under another id than in one pass |
| ToolReports.EmptyQuestionIsWork | crates/relay-core/src/state.rs:315-325 | a question with nothing to ask shows no id, wherever it is asked |
| ToolReports.ToolIsReportedAlike | crates/relay-core/src/state.rs:310-313 | any other call made so is held under another name and returned alike |
| ToolReports.OrderChanges | crates/relay-core/src/state.rs:310-313 | two calls without an id at the tenth and eleventh lines: an early reduction changes which of the two tools is returned, because the names sort as text |
| StepText.TruncateKeepsExactly | crates/relay-core/src/state.rs:560-568 | a truncated text keeps its prefix and exactly the texts within the cap are kept whole |
| StepText.ExcerptIsIdempotent | crates/relay-adapters/src/claude.rs:485-498 | excerpting an excerpt changes nothing, although a cut one is one character over its limit |
| TranscriptParser.ParseClaude | crates/relay-adapters/src/claude.rs:612-853 | the streaming loop returns the plain parse with exactly its first `CompactedUntil` steps compacted |
| TranscriptParser.UserTurns | crates/relay-adapters/src/claude.rs:281-354 | the second loop returns the user turns of the specification |
| TranscriptParser.CompactAged | crates/relay-adapters/src/claude.rs:526-535 | one pass of compaction extends the compacted prefix and touches nothing else |
| TranscriptParser.FlushAssistant | crates/relay-adapters/src/stepbuild.rs:31-40 | pending assistant text becomes one step at the next index |
| TranscriptParser.RecentStepsAreFull | crates/relay-adapters/src/claude.rs:612-853 | the compacted prefix never reaches the last 512 steps |
| TranscriptContent.ParseIsExact | crates/relay-adapters/src/claude.rs:612-853 | for every transcript the steps are those of its records alone: each call, result, error, notice, user text and answer in order with its fields, a result with the kind of the last earlier call of its id, and between them what the assistant said, joined and cut at the cap |
| TranscriptContent.SaidIsVoiced | crates/relay-adapters/src/claude.rs:511-524 | appending and truncating step by step is joining once and cutting at 65536, with an ellipsis unless the cap fell between two texts |
| TranscriptContent.ToolUsesAreCalls | crates/relay-adapters/src/claude.rs:661-690 | the tool uses are all tool calls of the records, in order, with name, id, target and kind |
| TranscriptContent.TurnsAreItems | crates/relay-adapters/src/claude.rs:281-354 | the turns of the second reader, task notifications left out, are the user texts and answers of the records, with turn number, block, origin and flags |
| TranscriptLaws.ParseIsIndexedAndAlternates | crates/relay-adapters/src/stepbuild.rs:21-40 | every step's index is its position and no two assistant steps are adjacent |
| TranscriptLaws.StreamedParseIsFaithful | crates/relay-adapters/src/claude.rs:526-535 | compaction alters only text, never a user step, never the last 512, and compacting again changes nothing |
| TranscriptLaws.CompactionIsExact | crates/relay-adapters/src/claude.rs:485-535 | a compacted text keeps its head and tail around an ellipsis, at 2048 characters for narrative and 512 for receipts; shorter ones and user texts stay |
| TranscriptLaws.AgedStepsAreCompacted | crates/relay-adapters/src/claude.rs:843-848 | after each record but errors, malformed and meta ones, all but the last 512 steps are compacted |
| TranscriptLaws.ReadersAgreeExactly | crates/relay-adapters/src/claude.rs:281-354 | the parser's human turns are the other reader's less the task notifications; they agree if and only if no counted line retains a notification |
| TranscriptLaws.NotificationDivides | crates/relay-adapters/src/claude.rs:281-354 | one record that holds a retained notification: no human for the parser, one for the other reader |
| RotatingLog.Log.Rotate | crates/relay-agent/src/log_file.rs:58-74 | the in-place shift leaves at each generation the next younger file, for any set of existing files |
| RotatingLog.Log.Write | crates/relay-agent/src/log_file.rs:78-88 | a write appends to the live file and rotates at the limit; the 64-bit counter saturates without effect |
| RotatingLog.RotationLosesOldestOnly | crates/relay-agent/src/log_file.rs:58-74 | for any existing generations, reading back after a rotation gives the same bytes less the oldest file, lost only if one takes its place |
| RotatingLog.FilesAreIntervals | crates/relay-agent/src/log_file.rs:58-88 | each generation holds one interval of everything ever written |
| RotatingLog.RotationKeepsSuffix | crates/relay-agent/src/decision_log.rs:93-108 | reading all generations gives a suffix of all bytes ever written |
| RotatingLog.SuffixIsLongAndWhole | crates/relay-agent/src/log_file.rs:58-88 | the suffix starts between two records, and is everything or at least generations times the limit |
| RotatingLog.FilesStaySmall | crates/relay-agent/src/log_file.rs:78-88 | no file outgrows the limit by more than one record |
| RotatingLog.ReportSeesNewest | crates/relay-agent/src/decision_log.rs:110-121 | the report reads exactly the newest decisions, each once and whole, in order |
| CrashSafety.StoreFile.Load | crates/relay-agent/src/artifact_store.rs:252-256 | a load is what the crash machine's load is |
| CrashSafety.StoreFile.Save | crates/relay-agent/src/artifact_store.rs:258-273 | an undisturbed save is the machine's four steps in a row |
| CrashSafety.LoadFinds | crates/relay-agent/src/compass.rs:444-476 | after any saves, crashes and damage to the main file a load returns the last completed, the previous, or the last backed-up payload; it is empty exactly if the main file is bad and the backup was taken in a struck window |
| CrashSafety.UndisturbedNeverLoadsEmpty | crates/relay-agent/src/artifact_store.rs:240-273 | if no garbage lands between a save's check and read, nothing is ever lost entirely |
| CrashSafety.CompletedIsLoaded | crates/relay-agent/src/compass.rs:465-476 | right after a completed save its payload is what loads |
| CrashSafety.GarbledWindowLosesAll | crates/relay-agent/src/artifact_store.rs:265-271 | a run in which a completed save is lost |
| KeyClaim.AgreementExactly | crates/relay-agent/src/compass.rs:240-260 | for any number of callers and any interleaving all keys agree with the file, if and only if the file starts valid, or starts missing and keys are claimed |
| KeyClaim.OnceHandedOutItStays | crates/relay-agent/src/fsutil.rs:57-74 | once a claimed key is handed out it is the file's key from then on |
| KeyClaim.TwoCallersDisagree | crates/relay-agent/src/artifact_store.rs:136-148 | two alternating callers end with different keys from any other start |
| CallbackStore.Store.PutData | crates/relay-agent/src/actions.rs:22-37 | the id returned and the whole new table, eviction loop included |
| CallbackStore.StoreHoldsTheLast | crates/relay-agent/src/actions.rs:22-37 | after any number of puts, wraps included, the table holds exactly the last 4096, each under its own id, in order |
| CallbackStore.KeysAreTheQueue | crates/relay-agent/src/actions.rs:22-37 | keys and queue agree, without duplicates, at most 4096 consecutive ids in the cycle 1 to 2^32 - 1 |
| CallbackStore.PutIsRetrievable | crates/relay-agent/src/actions.rs:39-41 | each of the last 4096 puts is found with its own data; older ones are not |
| CallbackStore.HandleRoundTrip | crates/relay-agent/src/actions.rs:63-73 | decoding an encoded text returns it until 4096 further puts and nothing for inline text |
| CallbackStore.StoredExactly | crates/relay-agent/src/actions.rs:63-68 | a text is stored exactly if it is longer than 60 bytes or begins like a handle |
| CallbackStore.EncodeFits | crates/relay-agent/src/actions.rs:63-68 | an encoded text never exceeds 64 bytes |
| Pairing.Auth.TryPair | crates/relay-agent/src/auth.rs:67-113 | result and whole new guard of one attempt |
| Pairing.ResultsAreExact | crates/relay-agent/src/auth.rs:67-113 | each result in terms of the guard: the right key authorizes its own chat and no other when it is compared, no other attempt authorizes, and no other chat's attempts change |
| Pairing.LockIsTold | crates/relay-agent/src/auth.rs:74-112 | an attempt is answered as throttled exactly if the chat is locked after it, with a wait that ends at most a second after the lock |
| Pairing.AuthorizedExactly | crates/relay-agent/src/auth.rs:67-113 | over any run exactly those chats are authorized that were at the start or brought the right key while not locked out |
| Pairing.AtMostNineWrongKeys | crates/relay-agent/src/auth.rs:74-112 | for every chat and every attempts in time order, at most nine wrong keys are compared in any 900-second interval |
| Pairing.NineIsReached | crates/relay-agent/src/auth.rs:74-112 | nine is attained |
| Continuations.ContinuationStore.Link | crates/relay-agent/src/compass.rs:713-738 | result and new links, every refusal included |
| Continuations.ContinuationStore.Unlink | crates/relay-agent/src/compass.rs:740-752 | result and new links |
| Continuations.LinksAreExact | crates/relay-agent/src/compass.rs:713-738 | a link is made exactly if it names two different sessions, the parent has a ledger and the child is not among the first 32 of its walk; each refusal says what fails first and changes nothing |
| Continuations.UnlinksAreExact | crates/relay-agent/src/compass.rs:740-752 | unlinking takes away the child's own link and no other |
| Continuations.SafeIdIsExact | crates/relay-agent/src/compass.rs:159-170 | ids are stored trimmed, every character kept but those that are no letter, digit, dash, dot or underscore |
| Continuations.SeesIsReach | crates/relay-agent/src/compass.rs:725-734 | the hop-limited loop finds the child exactly if it is among the first 32 members of the parent walk |
| Continuations.NoShortCycles | crates/relay-agent/src/compass.rs:713-752 | no reachable store has a cycle of 32 or fewer links |
| Continuations.FewLinksWalksEnd | crates/relay-agent/src/compass.rs:713-752 | with at most 32 links every parent walk ends within as many steps |
| Continuations.CyclesExactlyWhenFar | crates/relay-agent/src/compass.rs:725-735 | an accepted link closes a cycle exactly if the parent already reached the child, then 32 or more steps away |
| Continuations.LongCycleIsReachable | crates/relay-agent/src/compass.rs:725-735 | a sequence of calls that builds a cycle of 33 links |
| ShellQuote.QuoteReads | crates/relay-agent/src/handoff.rs:343-345 | in any context a quoted text adds exactly its own characters to the current word |
| ShellQuote.QuotedListRoundTrips | crates/relay-agent/src/handoff.rs:371-375 | the shell reads the joined list back as exactly the arguments if and only if none holds a NUL |
| ShellQuote.ArgWordsAreArgs | crates/relay-agent/src/handoff.rs:371-375 | different lists are different words |
| ShellQuote.CommandLineReads | crates/relay-agent/src/handoff.rs:400-421 | the launcher's line runs exactly the program, the flags, and as one last argument the output of `cat` on exactly the prompt file |

## Left out

- I/O failures other than a crash between two writes, a failing open of the log, partial writes, file
  permissions and the rename retries on Windows; a failed write ends a save like a crash.
- The store lock is taken as exclusive: saves do not interleave. On Windows it is empty.
- The multi-repository scan in `robot_gate_control` and `mark_replan_delivered`: one store. Each gate call is one
  atomic step over it, and the clock is read once per store operation.
- `classify`, the ledger's proof and the artifact snapshot are inputs; proof coverage is the coverage the hook
  asks about, as crates/relay-compass/src/ledger.rs:294-368 has it. Census counters, tracing and the decision-log
  side effects of the gate.
- Digests, checksums and JSON text: digests are injective, an envelope is good or bad, a transcript line is the
  fields the readers look up.
- Which member a full hash set or lease map drops is an input of the step.
- The mapping from a hook payload to its identity, and request ids beyond their being fresh: ids count up.
- A restart of the agent while hook calls are open, which drops their connections and begins the request ids again
  (crates/relay-agent/src/hooks.rs:9): the hook protocol is that of one process. The gate's runs include restarts.
- A leader task that is aborted, which would degrade its followers to the local prompt.
- The capacity limit of released pending requests, the wording of prompts and the translation of a decision into
  each agent's dialect.
- Config parsing and the other operations of the automation scopes; danger patterns are a boolean input.
- The read that ends early with `UnexpectedEof` (crates/relay-adapters/src/claude.rs:992-998), which leaves the
  reducer ahead of the recorded length.
- Telegram, sockets, terminals, process launching, windows, self-update and the Swift app.
- The rest of the launcher script (`cd`, the status lines, the window commands) and double quotes in it beyond the
  prompt argument.
- TranscriptContent.ParseIsExact: assumes that empty assistant text counts as noise, as crates/relay-compass/src/lib.rs:163-187
  has it.
- CacheRuns.ReduceAll: the files are assumed to be records of which no proper prefix is complete JSON, to keep their
  old bytes when they grow, and to change their time when rewritten at equal length; the reducer, seen through a view,
  to ignore blank lines.
- OpenTools.ToolsAgreeExactly: an id that a call carries is assumed not to begin with `missing:`, the prefix of the
  names the reducer makes up; with such ids two different namings can meet in one map.
- ToolReports.ReportsAgreeInOrder: speaks of moments at which the made-up names keep their places in the map, as one alone
  always does; two can change places (OrderChanges), and then the tool or question returned can differ. What else the reducer returns is one part that does not depend
  on the open calls beyond their number. Ids in results are assumed genuine as well.
- GateClearance.RobotClearanceBudget: bounds the identities a lease is cleared for, not the number of passes, which
  `RobotClearanceRecurs` shows to be unbounded.
- LineCounter.TransparentExactlyWhenSteady: covers calls that end at record ends; calls that end elsewhere flush nothing and are
  covered by GrowthTracks for reducers that ignore the count.
- CrashSafety.UndisturbedNeverLoadsEmpty: damage to the backup file is not modelled, as the source keeps no third copy.
- Continuations.FewLinksWalksEnd: beyond 32 links nothing is promised, because longer cycles are reachable.
- RotatingLog.ReportSeesNewest: the grouping and window of the report are left out; it states which lines reach them.
- HookDedup.EveryCallerIsServed: a dropped connection of a waiting caller is not modelled; sending to it counts as an answer.
