# Verified model of the dashboard, its browser extension and its Host engine

This project models the parts of the system whose correctness depends on more than one function or more than one
store, and proves what they promise over every input, every run and every crash.

| area | modules |
|---|---|
| browser delivery: backend command table, extension ledger, service worker, page | `DeliveryCommands`, `DeliveryOutcomes`, `ClaimLedger`, `BrowserProtocol`, `Executor` |
| browser presence and lane bindings | `BrowserBinding`, `PresenceContinuity` |
| both together, from confirmation to click | `EndToEnd`, `Withdrawal` |
| Host turn runtime and its recovery | `TurnState`, `TurnEngine` |
| publication of a Candidate to the Change branch | `Publication` |
| worker results, command status, refresh | `WorkerResults`, `CommandStatus`, `CommandRefresh`, `ResultProjection` |
| workflow commands linked to browser deliveries, and what retires a QA binding | `DeliveryLinks`, `QaRetirement` |
| workflow derivation: markers, comments, blockers, routes | `MarkdownScanner`, `MarkdownLines`, `CommentCanon`, `BlockerQueue`, `WorkflowRoute`, `RouteConditions` |
| evidence of a prompt context | `BoundedEvidence` |

`dafny verify dfyconfig.toml` checks everything.

## How things are modelled

* Identifiers, hashes and SHA values are values that are only compared for equality; hashes are injective. A random
  presence token is renamed to the draw that made it. Row identifiers are renamed to row positions.
* A SQL transaction is one step. Everything a transaction reads from outside its tables is a parameter of the step. The
  observation of a snapshot, which the source makes of many statements, is one step of a run as well.
* `BrowserProtocol` puts backend, ledger, service worker, page and the requests under way into one transition system.
  The service worker may die at every await, requests may be lost, delayed or repeated, clocks are arbitrary, claim
  request identifiers may repeat. `Executor` is the control flow of `execute` and `acknowledge`, written as a class whose
  every await is one step of that system; what fails and what is answered in one execution is a parameter (`Executor.Fate`).
* `DeliveryLinks` joins that system with the worker loop and the links between the two: a coordinator request reads a
  delivery status and records it some time later, so that nothing ever commits across the stores.
* `EndToEnd` runs presence and browser over one command table and ties what each of them leaves open: a claim sees the
  binding the presence of that moment projects to, time never goes back, a service worker that starts draws a session no
  delivery is frozen to, and the content script clicks only while the page shows the target of the message. Plan and
  context authority, and what the user does to the page, stay arbitrary.
* In `TurnEngine` and `Publication` every durable effect is followed by a point where the process may die, which is an
  early return; every save and every call may fail. Reading the durable evidence of a turn does not. The constant
  `faults` says whether such mishaps can happen, so that a contract can also say what is reached when none does. What a
  process leaves on disk when it dies is what the next one starts from.
* `Publication` keeps the history of the remote ref, every change of it chained to the next and to the present head, and
  places every reading in that history; what is said of pushes and of read-back is said over it.
* `DeliveryOutcomes`, `CommandStatus`, `RouteConditions` and `MarkdownLines` say of every decision exactly on what evidence it is
  taken, without the functions that take it and without the order in which they look.
* Time is a natural number. Targets, labels and mergeable states are taken after normalisation. Bodies of comments are
  sequences of characters, and positions count characters.

## Where code and documentation or expectation part

* `MarkdownScanner.PrefixIff`: the spans of a prefix ending at a newline need not be a prefix of the whole body's spans; the
  scanner sees one more, empty line at the end of the prefix. The lemma says exactly when they are, and
  `MarkdownScanner.PrefixSpans` what always holds.
* `WorkflowRoute.NonLeadUnderBlockerIff`: under an active blocker the derived route can still dispatch QA, in exactly one
  arm that is taken before the blocker is looked at; `WorkflowRoute.QaRetryUnderBlocker` is an input that takes it.
* `WorkerResults.SecondObservationIff`: observing an unchanged snapshot again may change a status once, on the second
  observation, in exactly one situation; `WorkerResults.SecondObservationMayChange` is an input, and
  `WorkerResults.ReplayStabilises` shows that it never happens later.
* `TurnEngine.AtMostOneCommentIff`: at most one blocker comment is posted exactly when the open pull request an attempt finds
  is found by every later attempt; `TurnEngine.SecondCommentIff` says when a second one appears if no attempt fails.
* `CommentCanon.OrderMattersIff`: the result depends on the order of the records exactly when two best records of one
  identity differ in the author, which the preference does not look at; `CommentCanon.AuthorsMatter` is the smallest case.
* `Withdrawal.WithdrawalIff`: a confirmation can fail after its delivery exists, and the delivery may still be sent, linked or
  not. A pending delivery is kept from the page for good exactly when its withdrawal takes effect, or when the page can no
  longer get it anyway: its service worker has started again, it is expired, its binding row or presence token is gone, or
  its session was not heard of within the time to live (`Withdrawal.StillReaches`). A withdrawal that comes after a claim
  changes nothing; `Withdrawal.TooLate` is such a run, and `Withdrawal.SessionLost` one in which a delivery whose
  withdrawal failed can be clicked, and no longer once the service worker has started again. So the statements about
  workflow commands speak of the one delivery a command is linked to.
* `TurnState.FailedReadIff`: an exit status that is there but cannot be read at one recovery changes where the turn ends
  exactly when the turn exited well with a valid result, its bound status is not already that of an unknown completion,
  and the disposition of the result is already recorded or belongs to publication; `TurnState.FailedReadChangesEnd` is
  such a turn.

## Model

| member | source | states |
|---|---|---|
| DeliveryCommands.RunSafe | backend/internal/delivery/service.go:72-427 | over any run of transactions no row is removed, a command keeps its frozen fields and its only claim, keys, claim ids and claim requests stay unique, and no status goes back |
| DeliveryCommands.CreateIsIdempotent | backend/internal/delivery/service.go:72-111 | after an accepted confirmation and any further transactions, an identical one gets that command in its current status, a different one under the key is refused, and neither writes |
| DeliveryCommands.AuthorizedFingerprint | backend/internal/delivery/service.go:113-142 | the fingerprint rebuilt from an authorised command is that of its confirmation |
| DeliveryCommands.FindKey | backend/internal/delivery/service.go:87-87 | finds a row of the idempotency key if and only if there is one |
| DeliveryCommands.FindRequest | backend/internal/delivery/service.go:152-161 | finds a row of the worker and claim request if and only if there is one |
| DeliveryCommands.WonIsCurrent | backend/internal/delivery/service.go:180-278 | a claim is won only on a pending, unexpired row whose frozen plan, context, route and binding are current at that instant |
| DeliveryCommands.ClaimLoopIsRun | backend/internal/delivery/service.go:170-278 | the candidate loop is a sequence of single-candidate transactions of its own request |
| DeliveryCommands.ClaimNextGrants | backend/internal/delivery/service.go:144-278 | whatever a poll is handed is a claimed row of that worker, session and request |
| DeliveryCommands.ClaimRetry | backend/internal/delivery/service.go:150-170 | a retried claim request gets the same claim while the row is claimed, a conflict afterwards, and never a second command |
| DeliveryCommands.OldestFirst | backend/internal/delivery/service.go:162-278 | a new claim is on the oldest row of the worker that waited and was neither expired nor out of date: every older one that waited was passed over as expired or invalidated, every younger one is untouched; an empty answer leaves none waiting |
| DeliveryCommands.Candidates | backend/internal/delivery/service.go:165-182 | the identifiers of exactly the pending rows of the worker, strictly rising |
| DeliveryCommands.ClaimIsReachable | backend/internal/delivery/service.go:144-278 | a current unexpired row of the requesting session is won and can be completed |
| DeliveryCommands.CompletionSettles | backend/internal/delivery/service.go:314-362 | a completion answered with success or conflict leaves the command terminal, with the reported outcome before the deadline and uncertain after it |
| DeliveryCommands.ClaimSafe | backend/internal/delivery/service.go:180-278 | the claim transaction keeps the table invariant: the claim id and request are unused |
| DeliveryCommands.FinishSafe | backend/internal/delivery/store.go:47-66 | a compare-and-set that finishes one row keeps the table invariant |
| DeliveryOutcomes.AuthorizeIff | backend/internal/delivery/service.go:113-142 | a confirmation is authorised exactly when plan, context, route and a steady binding are the confirmed ones; what is then frozen, and which error each failure gives |
| DeliveryOutcomes.StaleIff | backend/internal/delivery/service.go:429-461 | a pending command is current exactly when plan, route and binding are the frozen ones, and which error each difference gives |
| DeliveryOutcomes.ClaimIff | backend/internal/delivery/service.go:180-278 | one candidate is expired, invalidated, left alone with an error, found a duplicate, or won, each exactly when, and no other row changes |
| DeliveryOutcomes.TakenIff | backend/internal/delivery/service.go:150-161 | a claim request is found exactly when a row of the worker carries it |
| DeliveryOutcomes.CompleteIff | backend/internal/delivery/service.go:314-362 | a completion is refused as malformed, unknown or of another claim, answered again, settled as late, or accepted, each exactly when |
| DeliveryOutcomes.ReconcileIff | backend/internal/delivery/service.go:382-396 | a row ends by its expiry or its deadline exactly when that has passed, with its reason and time |
| DeliveryOutcomes.WithdrawIff | backend/internal/delivery/service.go:398-427 | cancellation and withdrawal end exactly a pending row |
| DeliveryCommands.DeliveryService.CreateCommand | backend/internal/delivery/service.go:72-111 | the service state becomes the result of the confirmation transaction, or is untouched when disabled or invalid |
| DeliveryCommands.DeliveryService.ClaimNext | backend/internal/delivery/service.go:144-278 | the loop over the pending rows, oldest first, computes the claim specification, keeps the invariant, and hands out only granted rows |
| DeliveryCommands.DeliveryService.CompleteClaim | backend/internal/delivery/service.go:314-362 | the completion transaction with its conflict, deadline and replay cases |
| DeliveryCommands.DeliveryService.ReconcileDeadlines | backend/internal/delivery/service.go:382-396 | afterwards no pending row is past its expiry and no claimed row past its deadline |
| DeliveryCommands.DeliveryService.CancelCommand | backend/internal/delivery/service.go:398-427 | only a pending row is cancelled |
| ClaimLedger.ClaimLedger.Reserve | extension/src/ledger.js:86-99 | a claim is reserved at most once; a second reservation reports the entry that is there |
| ClaimLedger.ClaimLedger.Mark | extension/src/ledger.js:101-114 | only an existing entry gets a terminal state, and acknowledgement is unchanged |
| ClaimLedger.ClaimLedger.Acknowledge | extension/src/ledger.js:116-128 | acknowledges an existing entry without touching its state |
| ClaimLedger.ClaimLedger.RecoverReserved | extension/src/ledger.js:130-145 | after a restart no entry is reserved; the others are unchanged |
| ClaimLedger.ClaimLedger.Prune | extension/src/ledger.js:147-158 | forgets exactly as many of the oldest settled entries as exceed the limit, and nothing else |
| ClaimLedger.ReserveIff | extension/src/ledger.js:86-99 | a reservation is refused without identifiers, repeats what is there, or adds exactly one fresh reserved entry |
| ClaimLedger.MarkIff | extension/src/ledger.js:101-114 | marking writes state, cut-off diagnostic and time of an existing entry and nothing else |
| ClaimLedger.AcknowledgeIff | extension/src/ledger.js:116-128 | acknowledging writes the flag, the time and a diagnostic that is not blank, and nothing else |
| ClaimLedger.RecoverIff | extension/src/ledger.js:130-145 | recovery makes exactly the reserved entries uncertain, with its reason |
| ClaimLedger.PruneKeepsUnsettled | extension/src/ledger.js:150-155 | an unfinished or unacknowledged entry survives pruning unchanged |
| ClaimLedger.PruneReachesLimit | extension/src/ledger.js:150-155 | pruning reaches the limit or drops every settled entry |
| ClaimLedger.TakenIsPruned | extension/src/ledger.js:150-155 | dropping a prefix of the settled keys sorted by age is pruning |
| BrowserProtocol.StepKeepsJoint | extension/src/executor.js:44-152 | every step of backend, page and service worker keeps the joint invariant of the two stores, the wire and the page |
| BrowserProtocol.RunKeepsJoint | extension/src/service-worker.js:92-238 | so does every run |
| BrowserProtocol.AtMostOneClick | extension/src/executor.js:88-152 | in every run the Send control is clicked at most once for a command, and only for a claim reserved before |
| BrowserProtocol.OneClaimPerCommand | backend/internal/delivery/service.go:144-278 | in every run all claims ever reserved for a command, then and later, are one claim, the one of its row, which is never pending again |
| BrowserProtocol.OutcomesAreHonest | extension/src/executor.js:44-66 | in every run a delivered row means one acknowledged click for its claim, a failed row means no click ever |
| BrowserProtocol.AcknowledgedIsTerminal | extension/src/executor.js:44-58 | an acknowledged or forgotten ledger entry means that the backend row is no longer claimed |
| BrowserProtocol.CrashSurfacesAsUncertain | extension/src/ledger.js:130-145 | once the service worker dies holding a reservation, that claim can end only as uncertain |
| BrowserProtocol.DeliveryIsReachable | extension/src/executor.js:68-152 | a run from the empty state ends with one click, a delivered row and a forgotten entry |
| BrowserProtocol.ReserveKeeps | extension/src/executor.js:88-103 | reservation, first or repeated, keeps the joint invariant |
| BrowserProtocol.PostKeeps | extension/src/adapter.js:102-113 | handing the page one message for an owned reservation keeps the joint invariant |
| BrowserProtocol.PhaseKeeps | extension/src/content.js:87-107 | refusing, clicking, confirming and timing out in the page keep the joint invariant |
| BrowserProtocol.PageDoes | extension/src/content.js:87-107 | a step of the page moves exactly one message, and only a click is a click |
| BrowserProtocol.ReplayDoes | backend/internal/delivery/service.go:150-170 | a claim request answered again gives the waiting poll the execution it got before |
| BrowserProtocol.MarkFaultsDoes | extension/src/executor.js:145-148 | an outcome that could not be stored leaves the entry as it was or marked, and nothing else changed |
| BrowserProtocol.ReserveFaultsDoes | extension/src/executor.js:88-94 | a reservation that failed leaves the ledger as it was or with that one reserved entry |
| BrowserProtocol.AnswerKeeps | extension/src/adapter.js:102-113 | the outcome read from the page's answer is true of the page |
| BrowserProtocol.MarkKeeps | extension/src/executor.js:142-148 | storing that outcome keeps the joint invariant |
| BrowserProtocol.MarkFaultsKeeps | extension/src/executor.js:145-148 | so does giving up when it cannot be stored, whether or not it was |
| BrowserProtocol.ReserveFaultsKeeps | extension/src/executor.js:88-94 | so does giving up when the reservation fails, whether or not it was stored |
| BrowserProtocol.PruneKeeps | extension/src/ledger.js:147-158 | pruning keeps the joint invariant: a forgotten claim is settled in the backend |
| BrowserProtocol.RecoverKeeps | extension/src/ledger.js:130-145 | recovery after a restart keeps the joint invariant |
| BrowserProtocol.ServeCompletionKeeps | backend/internal/delivery/service.go:314-362 | a completion processed late or twice keeps the joint invariant |
| BrowserProtocol.ServeClaimKeeps | backend/internal/delivery/service.go:144-278 | a claim request processed late or twice keeps the joint invariant |
| Executor.ExecutionCoordinator.Execute | extension/src/executor.js:68-152 | one execution is a run of the protocol; a known claim posts nothing and is reported as it is recorded, a new one posts at most one message and is reported as what was heard of it, the backend is told that outcome, and it is true of the page |
| Executor.ExecutionCoordinator.ExecuteKnown | extension/src/executor.js:79-86 | a claim in the ledger is refused for another command, in progress while reserved, and otherwise reported as recorded and acknowledged again |
| Executor.ExecutionCoordinator.ExecuteNew | extension/src/executor.js:88-151 | a new claim is reserved, sent, stored and reported, or reported as uncertain when the ledger fails |
| Executor.ExecutionCoordinator.Send | extension/src/executor.js:105-140 | exactly when a message is posted, and the outcome to store is sent exactly for a confirmed answer, failed exactly for a refusal or an error before sending |
| Executor.ExecutionCoordinator.Post | extension/src/executor.js:112-121 | posts one message; a confirmed answer becomes sent, a refusal failed, anything else uncertain |
| Executor.ExecutionCoordinator.SendOwned | extension/src/executor.js:105-140 | the owner of a fresh reservation posts at most one message; once the outcome is stored a confirmed answer is stored, reported and sent as delivered, a refusal or an error before sending as failed, and anything else as uncertain |
| Executor.ExecutionCoordinator.StoreOutcome | extension/src/executor.js:142-151 | the outcome is stored, sent to the backend and reported, or reported and sent as uncertain when it cannot be stored; nothing more is posted |
| Executor.ExecutionCoordinator.Acknowledge | extension/src/executor.js:44-58 | sends the completion of a terminal entry that is not acknowledged yet, with its outcome; an answer acknowledges it; no entry changes its state or command and nothing is posted |
| Executor.ExecutionCoordinator.ResultForEntry | extension/src/executor.js:60-66 | a sent entry is reported delivered, one that failed before sending failed, any other uncertain; delivered only after an acknowledged click, failed only when nothing can be clicked |
| BrowserBinding.HoldsOrGone | backend/internal/browserbinding/service.go:122-164 | at every step either the worker still has only the token's session, unconflicted, on the target and inside its time to live, or the token is gone |
| BrowserBinding.GoneForever | backend/internal/browserbinding/service.go:361-393 | a token that is gone never comes back |
| BrowserBinding.GoneEverywhere | backend/internal/browserbinding/service.go:122-164 | in a consistent presence a token that left its session is carried by no session |
| BrowserBinding.StepKeepsOk | backend/internal/browserbinding/service.go:122-272 | every step keeps conflicts marked, tokens distinct, targets served once across all projects and lanes, and raises the version of every row it changes |
| BrowserBinding.PruneWorker | backend/internal/browserbinding/service.go:361-393 | pruning drops exactly the lapsed sessions of a worker and draws no token |
| BrowserBinding.RegisterFacts | backend/internal/browserbinding/service.go:122-164 | a registration leaves presence consistent |
| BrowserBinding.SeenIff | backend/internal/browserbinding/service.go:122-164 | a session keeps its token exactly while it is known and shows the same target; no other session changes |
| BrowserBinding.StepDoes | backend/internal/browserbinding/service.go:122-272 | a restart forgets all presence and nothing else does; a retirement changes exactly the enabled rows it captured |
| BrowserBinding.AloneOrConflict | backend/internal/browserbinding/service.go:149-163 | a lone session keeps its token only when it reports the same target; another session or target replaces it |
| BrowserBinding.RetireRowSafe | backend/internal/workerloop/qa_binding.go:55-62 | retirement disables only the captured identity and version; every other row is untouched |
| BrowserBinding.PutRowSafe | backend/internal/browserbinding/service.go:208-246 | a written row keeps identities and enabled targets unique and versions rising |
| BrowserBinding.DisableRowSafe | backend/internal/browserbinding/service.go:249-272 | disabling keeps them too |
| BrowserBinding.BrowserBindingService.MarkConflictLocked | backend/internal/browserbinding/service.go:375-393 | the two loops mark the conflict, and replace every token exactly when it begins |
| BrowserBinding.BrowserBindingService.PruneLocked | backend/internal/browserbinding/service.go:361-374 | the loops over workers and sessions compute the pruned presence |
| BrowserBinding.BrowserBindingService.RegisterSession | backend/internal/browserbinding/service.go:122-171 | registration and heartbeat, with blank identifiers refused |
| BrowserBinding.BrowserBindingService.RequireFreshTarget | backend/internal/browserbinding/service.go:312-326 | answers whether the worker has a single unconflicted session on the target |
| BrowserBinding.BrowserBindingService.EnsureTargetFree | backend/internal/browserbinding/service.go:301-311 | answers whether no other enabled row serves the worker and target |
| BrowserBinding.BrowserBindingService.WriteRow | backend/internal/browserbinding/service.go:208-246 | inserts at version one or replaces at the next version, or refuses |
| BrowserBinding.BrowserBindingService.PutBinding | backend/internal/browserbinding/service.go:197-247 | writes only after the presence check passed and the transaction did not conflict |
| BrowserBinding.BrowserBindingService.DisableBinding | backend/internal/browserbinding/service.go:249-272 | not found, version conflict, or disabled at the next version |
| BrowserBinding.BrowserBindingService.RetireCaptured | backend/internal/workerloop/qa_binding.go:55-62 | the loop of guarded updates disables exactly the enabled rows still at a captured identity and version |
| QaRetirement.RetireAcceptedTerminalQA | backend/internal/workerloop/qa_binding.go:18-62 | disables exactly the enabled bindings that are still what a delivery of an ended QA command with an accepted result was frozen to |
| QaRetirement.Capture | backend/internal/workerloop/qa_binding.go:18-54 | the query yields each such identity and version once, and no other |
| QaRetirement.CapturesIff | backend/internal/workerloop/qa_binding.go:18-54 | a binding is captured exactly when an ended, not superseded QA command with an accepted result is linked to a delivery frozen to it |
| PresenceContinuity.ClaimProvesContinuity | backend/internal/delivery/service.go:429-462 | in every run a claimed command kept, from confirmation to claim, the same enabled row at the same version and the worker's only unconflicted session on the frozen target, never found lapsed |
| PresenceContinuity.OneRowPerTarget | backend/internal/browserbinding/service.go:301-311 | in every run at most one enabled row serves a worker and target |
| PresenceContinuity.StepKeepsOrBreaks | backend/internal/browserbinding/service.go:122-393 | one step keeps the frozen authority or breaks it for good |
| PresenceContinuity.ReadyIsSteady | backend/internal/browserbinding/service.go:327-360 | a binding that projects as ready has that row, session, target and token |
| PresenceContinuity.StepKeepsJoint | backend/internal/delivery/service.go:72-278 | every step keeps the trace of every command |
| PresenceContinuity.ClaimIsReached | backend/internal/delivery/service.go:144-278 | a run registers, binds, confirms and claims |
| EndToEnd.EveryClick | extension/src/content.js:98-107 | in every run each click was made for a claim of its command, while the page showed the target the command was frozen to, and from confirmation to that claim the worker kept the frozen row and its only unconflicted session on that target |
| EndToEnd.EveryClickedCommand | extension/src/executor.js:10-152 | in every run each clicked command was clicked once, by such a click |
| EndToEnd.StepKeepsJoined | backend/internal/delivery/service.go:144-278 | every step of the whole system keeps presence, command table, extension and page in agreement |
| EndToEnd.MovesKeepAimed | extension/src/adapter.js:84-113 | the execution in progress, and every message, aims at the target its command was frozen to |
| TurnState.FinishSettles | backend/cmd/cddm-change/recovery.go:99-150 | finishing a decided turn is idempotent, counts the turn exactly once and leaves the books balanced |
| TurnState.BoundBook | backend/cmd/cddm-change/recovery.go:153-197 | binding or rotating the thread conserves the counts and numbers the generations |
| TurnState.BoundExactly | backend/cmd/cddm-change/recovery.go:153-197 | when the thread of the event log can be bound, and what that changes: a rotation records the retired thread with its settings, its turns and the reason, and starts counting afresh |
| TurnState.EndsAs | backend/cmd/cddm-change/dispatch.go:30-69 | the status and return code a decided turn ends with, for each exit status and result file |
| TurnState.CountedBook | backend/cmd/cddm-change/codex_engine.go:632-639 | counting a turn balances the books and happens once per result |
| TurnState.BindOnTrack | backend/cmd/cddm-change/recovery.go:153-197 | a state with its thread bound ends as before |
| TurnState.CountOnTrack | backend/cmd/cddm-change/codex_engine.go:632-639 | a counted state ends as before |
| TurnState.OutcomeOnTrack | backend/cmd/cddm-change/dispatch.go:30-69 | a disposed state whose turn is still recorded ends as before |
| TurnState.FinishOnTrack | backend/cmd/cddm-change/recovery.go:99-150 | a finished state ends as before |
| TurnState.PublicationOnTrack | backend/cmd/cddm-change/dispatch.go:209-433 | whatever publication writes leaves thread and counts of the turn on track |
| TurnState.EarlyOnTrack | backend/cmd/cddm-change/codex_engine.go:196-251 | every state saved before the exit status ends as the intent does, whatever evidence follows |
| TurnState.SameEnd | backend/cmd/cddm-change/recovery.go:49-151 | whatever is on track ends as the turn would have, unless the turn exited well with a result that asks for publication |
| TurnState.OnTrackTransitive | backend/cmd/cddm-change/recovery.go:49-151 | states left by one crashed attempt after another still end as the first |
| TurnState.FailedReadIff | backend/cmd/cddm-change/recovery.go:73-97 | an exit status that cannot be read once, after the thread was bound, leaves the end of the turn as it was unless it exited well with a valid result whose disposition is already recorded, or belongs to publication |
| TurnState.FailedReadChangesEnd | backend/cmd/cddm-change/recovery.go:73-97 | a first turn, its thread not bound yet, whose end it does change |
| TurnEngine.Engine.DispatchResult | backend/cmd/cddm-change/dispatch.go:17-82 | every save is on track; a blocked result is disposed only once a comment names it, and posting starts only when the disk says so; without faults a result that does not publish is disposed, saved and reported with its recorded code |
| TurnEngine.Engine.PersistBlocker | backend/cmd/cddm-change/dispatch.go:494-522 | posts the one missing comment, on the issue or the open pull request, and reports success only if it is there |
| TurnEngine.Engine.PublishCandidate | backend/cmd/cddm-change/dispatch.go:209-433 | however publication goes, the turn stays on track and success means the result is disposed |
| TurnEngine.Engine.ReconcileRecoveredThread | backend/cmd/cddm-change/recovery.go:153-197 | binds the thread the event log names, or refuses it |
| TurnEngine.Engine.RecoverActive | backend/cmd/cddm-change/recovery.go:49-151 | whatever it leaves on disk ends as what it found; it reports recovered only for a decided turn that is finished, and fails closed with the documented status otherwise |
| TurnEngine.Engine.SurviveCrashes | backend/cmd/cddm-change/recovery.go:49-151 | any number of attempts that may die anywhere end as one uninterrupted completion; while the pull request is unchanged at most one blocker comment is posted, and exactly one if the turn ends blocked; without faults the first attempt decides |
| TurnEngine.Engine.BindLiveThread | backend/cmd/cddm-change/codex_engine.go:519-558 | the live path binds exactly what recovery would derive |
| TurnEngine.Engine.CompleteTurn | backend/cmd/cddm-change/codex_engine.go:366-422 | live completion ends as recovery would, with its own status when no thread or a wrong one was seen |
| TurnEngine.Engine.RecordExit | backend/cmd/cddm-change/codex_engine.go:357-365 | a durable exit status decides the turn exactly when the thread matches |
| TurnEngine.Engine.FollowTurn | backend/cmd/cddm-change/codex_engine.go:293-422 | from launch to end the disk ends as the intent does; a turn whose stream names no thread, or the wrong one, ends with its own status and code |
| TurnEngine.Engine.HearThread | backend/cmd/cddm-change/codex_engine.go:293-356 | the announced thread is logged, then bound exactly when recovery would bind it |
| TurnEngine.Engine.RunTurn | backend/cmd/cddm-change/codex_engine.go:169-423 | a turn is only begun over an idle state; whatever is on disk ends as the intent does; without faults its process runs; one that ends blocked has posted exactly one comment if there was none |
| TurnEngine.Engine.RepairPrethreadFailure | backend/cmd/cddm-change/worktree.go:180-219 | the state file is removed exactly for a start that never had a thread, is not alive and left no changes, and start goes on exactly when none such is left |
| TurnEngine.Engine.CompleteRecorded | backend/cmd/cddm-change/codex_engine.go:122-125 | a recorded turn is completed, and only an idle state lets the command go on |
| TurnEngine.Engine.ResumeOrRotate | backend/cmd/cddm-change/codex_engine.go:97-152 | a recorded turn is never overwritten by a new intent; without a thread nothing happens, and with one and without faults the turn runs |
| TurnEngine.Engine.StartChange | backend/cmd/cddm-change/codex_engine.go:25-95 | nor by start, and an existing thread is never replaced; a new, idle or repaired state without a thread runs its turn when nothing goes wrong |
| TurnEngine.Engine.LoadOrInitialize | backend/cmd/cddm-change/codex_engine.go:39-82 | start goes on with a new state, or with an idle one that has no thread |
| TurnEngine.Engine.CountTurn | backend/cmd/cddm-change/codex_engine.go:632-639 | counting a result a second time changes nothing, a first count raises the total by one, and the books stay balanced |
| TurnEngine.CommentedOnce | backend/cmd/cddm-change/dispatch.go:494-514 | while the open pull request stays the same no attempt posts a second comment |
| TurnEngine.SpokenOnce | backend/cmd/cddm-change/dispatch.go:39-50 | a turn that ended blocked after one attempt, its result not named before, has exactly one comment, where the attempt found the pull request |
| TurnEngine.SpokenIsOne | backend/cmd/cddm-change/dispatch.go:39-50 | a result that ended blocked, with at most one comment on the issue or the pull request, has exactly one |
| TurnEngine.BlocksEnds | backend/cmd/cddm-change/dispatch.go:39-50 | a decided turn whose undisposed result is blocked ends blocked with code zero |
| TurnEngine.AtMostOneCommentIff | backend/cmd/cddm-change/dispatch.go:494-522 | over any number of attempts, whichever fail, at most one comment is posted exactly when no attempt that finds an open pull request is followed by one that finds another or none |
| TurnEngine.SecondCommentIff | backend/cmd/cddm-change/dispatch.go:494-514 | when every attempt gets to post, a second comment appears exactly when the first went to a pull request that is not open at every later attempt |
| TurnEngine.Engine.PersistThroughChanges | backend/cmd/cddm-change/dispatch.go:494-522 | repeated attempts under changing pull requests are such a sequence, and post at most once while it is steady |
| Publication.Publisher.PushWithLease | backend/cmd/cddm-change/dispatch.go:324-325 | whoever else writes, at most one change of the branch is ours, and it goes from the recorded pre-image to the recorded head |
| Publication.Publisher.PublishCommittedCandidate | backend/cmd/cddm-change/dispatch.go:296-348 | at most one push, whoever else writes; the status left is what the last reading of the remote says, and a first reading that is neither head nor pre-image ends inconclusive |
| Publication.Publisher.PushAndConfirm | backend/cmd/cddm-change/dispatch.go:324-348 | the push and the reading after it: published only on the head, inconclusive on anything foreign, pending on the pre-image |
| Publication.Publisher.FinalizePushedCandidate | backend/cmd/cddm-change/dispatch.go:350-387 | pushes nothing and publishes only after a reading equal to the head and a report of the pull request at that head |
| Publication.Publisher.ReconcilePreparedCandidate | backend/cmd/cddm-change/dispatch.go:405-433 | publishes only from the recorded parent or head, and otherwise pushes nothing |
| Publication.Publisher.ReconcilePendingCandidate | backend/cmd/cddm-change/dispatch.go:389-403 | an inconclusive publication stays put; a pending one is resumed |
| Publication.Publisher.CommitCandidate | backend/cmd/cddm-change/dispatch.go:235-269 | records the commit before anything is pushed, and undisturbed ends at it with one push |
| Publication.Publisher.CommitAndPublishCandidate | backend/cmd/cddm-change/dispatch.go:209-269 | the checks before the commit, each with its own status and code, and then the recorded commit |
| Publication.Publisher.DispatchCandidate | backend/cmd/cddm-change/dispatch.go:70-81 | a disposed result pushes nothing and is answered with its code, a recorded one gets no other commit, and undisturbed both ways end published |
| Publication.Publisher.PublishThroughCrashes | backend/cmd/cddm-change/dispatch.go:209-433 | over crashes and foreign writes every change of ours goes from one recorded pre-image to one recorded head; pushed follows a reading of that head, published a report of the pull request at it as well |
| Publication.WritesStayOnTrack | backend/cmd/cddm-change/dispatch.go:209-433 | whatever record publication leaves keeps the publishing turn on track and touches only the fields of publication |
| Publication.PhasesDiffer | backend/cmd/cddm-change/dispatch.go:209-433 | different phases are recorded as different statuses |
| Publication.PushKeeps | backend/cmd/cddm-change/dispatch.go:324-325 | a push accepted at the recorded pre-image keeps the history of the branch and every law over it |
| Publication.ReadingKeeps | backend/cmd/cddm-change/dispatch.go:284-294 | a reading has its place in that history |
| WorkerResults.ReplayStabilises | backend/internal/workerloop/service.go:21-66 | observing one snapshot again and again, statuses are fixed after the second observation, whatever the rows were |
| WorkerResults.SecondReplayIsQuiet | backend/internal/workerloop/service.go:117-161 | once the rows are up to date, one more observation settles statuses for good |
| WorkerResults.SecondObservationIff | backend/internal/workerloop/service.go:21-161 | a second observation of an unchanged snapshot changes a status exactly when the command is synced and not ambiguous or superseded, and some result of it stood only in comments edited after they were accepted |
| WorkerResults.SecondObservationMayChange | backend/internal/workerloop/service.go:56-66 | an input on which it does: an edited accepted comment completes its command on the second observation |
| WorkerResults.PutOffIff | backend/internal/workerloop/service.go:56-66 | two recordings of a snapshot accept the same results of a command exactly when none of them stood only in edited comments |
| WorkerResults.ObservedUpToDate | backend/internal/workerloop/service.go:21-54 | one observation makes every row what its comment asks for, or disputed |
| WorkerResults.StatusIsTruthful | backend/internal/workerloop/service.go:68-200 | after an observation a completed, blocked or inconclusive command has exactly one accepted payload, of its role and head: inconclusive is a QA without a verdict, blocked an Implementor that is blocked or a Lead that holds or asks the owner, completed everything else |
| CommandStatus.ObservationIff | backend/internal/workerloop/service.go:21-200 | one observation leaves an open command open without a result, gives it the status its one result speaks for, makes it ambiguous for several, and keeps an ended one only while its one result says the same |
| CommandStatus.TransitionIff | backend/internal/workerloop/store.go:235-249 | the allowed transitions are exactly the upward ones, except that an ended command is never superseded |
| CommandStatus.CallbackIff | backend/internal/workerloop/prompt.go:76-110 | what each delivery outcome makes of a command |
| CommandStatus.AcceptedIff | backend/internal/workerloop/marker.go:88-185 | the payloads that are accepted, and those that are unsupported |
| CommandStatus.CorrelatedIff | backend/internal/workerloop/service.go:68-130 | a result is accepted, unbound, of the wrong role or stale, each exactly when, and its row records its text |
| WorkerResults.AcceptedIsGenuine | backend/internal/workerloop/service.go:68-115 | a payload accepted in an observation names the command, has its role and is not stale |
| WorkerResults.AtMostFourChanges | backend/internal/workerloop/store.go:122-146 | over any run a command changes status at most four times, always upwards in rank, and nothing else of it changes |
| WorkerResults.TransitionClimbs | backend/internal/workerloop/store.go:235-249 | every allowed transition raises the rank |
| WorkerResults.SettledClimbs | backend/internal/workerloop/service.go:117-161 | reconciliation only makes allowed transitions and is idempotent |
| WorkerResults.NextClimbs | backend/internal/workerloop/prompt.go:76-110 | no observation, callback, refresh or creation moves a command back |
| WorkerResults.WorkerLoop.SetCommandStatus | backend/internal/workerloop/store.go:122-146 | not found, conflict, or the guarded update |
| WorkerResults.WorkerLoop.RecordDeliveryOutcome | backend/internal/workerloop/prompt.go:76-110 | a transport callback never touches a terminal command, and is refused exactly when unknown or not allowed |
| WorkerResults.WorkerLoop.PersistResult | backend/internal/workerloop/service.go:56-66 | a row is accepted afterwards exactly when it is asked to be and was not accepted with another payload; an accepted payload never changes in one step |
| WorkerResults.WorkerLoop.ReconcileCommand | backend/internal/workerloop/service.go:117-161 | settles one command by its accepted payloads and leaves every other command and row alone |
| WorkerResults.WorkerLoop.StoreComments | backend/internal/workerloop/service.go:21-41 | stores a row for every marked comment and deletes every other row of the project |
| WorkerResults.WorkerLoop.ObserveProjectSnapshot | backend/internal/workerloop/service.go:21-54 | the loops carry out exactly one observation |
| WorkerResults.WorkerLoop.MarkResultsAmbiguous | backend/internal/workerloop/store.go:199-202 | afterwards the command has no accepted result, and every other command has exactly the ones it had |
| WorkerResults.WorkerLoop.CreateCommand | backend/internal/workerloop/store.go:29-75 | inserts a complete fresh command, returns the stored one that differs at most in identifier and status, or refuses |
| WorkerResults.NextKeepsIdentity | backend/internal/workerloop/store.go:54-75 | every step keeps one command to a project, issue and identity |
| DeliveryLinks.WorkflowStatusIsHonest | backend/internal/workerloop/delivery.go:79-238 | in every run of all four stores a workflow command that ever waited for its result has, for good, one linked delivery with exactly one acknowledged click; one that ever failed has a delivery that is never clicked |
| DeliveryLinks.SpeaksOnlyWhenLinked | backend/internal/workerloop/delivery.go:79-238 | in every run a command waits or has failed only when it is linked to a delivery |
| DeliveryLinks.NextKeepsJoined | backend/internal/workerloop/delivery.go:79-238 | every step, with statuses recorded late or twice, keeps links unique and permanent and workflow statuses true of their deliveries |
| DeliveryLinks.GitHubSpeaksNotOfTransport | backend/internal/workerloop/service.go:117-200 | observations, refreshes and creations never make a command wait or fail |
| DeliveryLinks.NeverSentIsNeverClicked | backend/internal/workerloop/prompt.go:76-110 | a failed, cancelled or expired delivery has no click |
| DeliveryLinks.SyncAgrees | backend/internal/workerloop/delivery.go:141-179 | recording never meets a refused transition, because a command never runs ahead of its delivery |
| DeliveryLinks.RecordedIff | backend/internal/workerloop/prompt.go:76-110 | the workflow status each delivery status is recorded as |
| DeliveryLinks.AwaitingIsReachable | backend/internal/workerloop/delivery.go:79-139 | a run of all four stores ends with a linked command waiting after one click |
| DeliveryLinks.DeliveryCoordinator.CreateDelivery | backend/internal/workerloop/delivery.go:79-111 | success means created, linked and recorded, and a fresh command gets there exactly when neither linking nor recording fails; after a failure the delivery is pending exactly when it was and withdrawing it failed |
| DeliveryLinks.DeliveryCoordinator.LinkCreated | backend/internal/workerloop/delivery.go:84-106 | links and records a created delivery or says why it must be withdrawn; for a fresh command exactly what is left behind |
| DeliveryLinks.DeliveryCoordinator.CompleteDelivery | backend/internal/workerloop/delivery.go:121-133 | after a reported completion the linked command agrees with the delivery, and no other command changes |
| DeliveryLinks.DeliveryCoordinator.SyncCommand | backend/internal/workerloop/delivery.go:199-209 | records a delivery on the command linked to it and on no other, and is never refused |
| DeliveryLinks.DeliveryCoordinator.ReconcileLinks | backend/internal/workerloop/delivery.go:141-179 | the loop, in any order, leaves every linked command settled or in agreement with its delivery |
| DeliveryLinks.DeliveryCoordinator.Link | backend/internal/workerloop/delivery.go:211-233 | never replaces a link, and fails exactly when the command or the delivery is linked elsewhere |
| DeliveryLinks.DeliveryCoordinator.InvalidatePendingDelivery | backend/internal/workerloop/delivery.go:235-238 | withdraws the delivery exactly while it is pending |
| Withdrawal.WithdrawalIff | backend/internal/workerloop/delivery.go:235-238 | in every run a pending delivery is kept from the page for good exactly when its withdrawal takes effect or the page could no longer get it, and a withdrawal that finds it no longer pending changes nothing |
| Withdrawal.InTime | backend/internal/workerloop/delivery.go:235-238 | a delivery withdrawn while pending is never clicked in any continuation of the browser protocol, whatever its sessions and clocks |
| Withdrawal.WithdrawnInRun | backend/internal/workerloop/delivery.go:235-238 | over the runs of all four stores a delivery withdrawn while pending has no click in any later world, and any other withdrawal leaves the world as it was |
| Withdrawal.TooLate | backend/internal/workerloop/delivery.go:235-238 | a run in which the withdrawal of an unlinked delivery finds it claimed, and it is clicked and delivered afterwards |
| Withdrawal.PendingIff | backend/internal/delivery/service.go:170-278 | a pending delivery can still be clicked exactly when it is frozen to the present service worker session, not expired, and the worker holds its row, session, target and token within the time to live |
| Withdrawal.ReachesThePage | extension/src/executor.js:68-152 | then some continuation, without the service worker starting again or the clock going back, claims and clicks it |
| Withdrawal.DoomedIsNeverClicked | backend/internal/delivery/service.go:429-462 | an expired, ended or unsteady delivery without a claim is never clicked |
| Withdrawal.OrphanIsNeverClicked | extension/src/service-worker.js:10-10 | a delivery frozen to a session that is gone, and not held, is never clicked |
| Withdrawal.SessionLost | extension/src/service-worker.js:10-10 | a run in which a delivery nobody withdrew can be clicked, and after a new start of the service worker no longer |
| Withdrawal.RunClaimable | backend/internal/delivery/service.go:113-142 | in every run every delivery was confirmed with everything a claim needs |
| CommandRefresh.SingleCurrentHead | backend/internal/workerloop/sync_observer.go:117-131 | the head of the only open pull request, blank when there is none or several |
| CommandRefresh.SupersedeStale | backend/internal/workerloop/sync_observer.go:73-93 | supersedes the active commands bound to another head and finds the active ones and the last exceptional one |
| CommandRefresh.CurrentCommand | backend/internal/workerloop/sync_observer.go:73-111 | a command bound to another head is superseded, the only current one stays, several become ambiguous; selected is the last current one, and without one the last that is ambiguous or failed |
| CommandRefresh.RefreshedIsJudged | backend/internal/workerloop/sync_observer.go:73-103 | what a refresh leaves of each command of an issue, exactly |
| CommandRefresh.SelectionIsChosen | backend/internal/workerloop/sync_observer.go:73-111 | which command a refresh selects, exactly |
| CommandRefresh.RefreshProject | backend/internal/workerloop/sync_observer.go:37-71 | so for every synced issue, whose overlay is the status of its selected command; no other command changes |
| CommandRefresh.NoDispatchWhileHeld | backend/internal/workflow/derive_workspace.go:177-201 | an issue with an active, ambiguous or failed command is never dispatched |
| ResultProjection.EffectiveIsAccepted | backend/internal/workerloop/state.go:41-61 | a stored result becomes effective evidence only if it was accepted and its claims match the snapshot |
| ResultProjection.NextAfter | backend/internal/workerloop/state.go:63-140 | what is next after every accepted result of a command that is current and not held back by a blocker, from its payload to the action |
| ResultProjection.RefusedIsManual | backend/internal/workerloop/state.go:41-61 | a stored result that was refused, last among the comments, leaves the issue to a person |
| ResultProjection.ClaimsHoldIff | backend/internal/workerloop/state.go:119-140 | an implementation or a merge request counts only for the only open pull request and its head |
| ResultProjection.EventIff | backend/internal/workerloop/state.go:63-117 | who says it, for which command, of which head, and whether QA only waits for CI |
| ResultProjection.EventReports | backend/internal/workerloop/state.go:63-117 | which payloads are blocked, completed, and to whom a Lead hands the work |
| ResultProjection.ProjectIff | backend/internal/workerloop/state.go:41-61 | an accepted row lays its evidence over its comment, a refused one nothing to act on |
| ResultProjection.MergeGateIsGrounded | backend/internal/workerloop/state.go:41-140 | the merge gate rests on accepted rows that name exactly the only open pull request and its head |
| ResultProjection.ReadyToMergeIsLead | backend/internal/workerloop/state.go:98-117 | only a Lead's merge request becomes a ready-to-merge decision |
| ResultProjection.ApprovedIsQa | backend/internal/workerloop/state.go:88-97 | only a QA approval becomes an approved verdict, of the head it reviewed |
| BlockerQueue.MatchesIffNames | backend/internal/workflow/derive_evidence.go:164-190 | a resolves value matches exactly when it names the comment, and is understood exactly when anything in it can be read as an identifier |
| BlockerQueue.ActiveBlocker | backend/internal/workflow/derive_evidence.go:66-105 | the loop returns the first of the queue and the warnings of every step |
| BlockerQueue.HearLead | backend/internal/workflow/derive_evidence.go:70-92 | one Lead result resolves, escalates or earns its warning |
| BlockerQueue.UnresolvedExactly | backend/internal/workflow/derive_evidence.go:107-116 | resolution keeps exactly the blockers it does not match |
| BlockerQueue.QueueInOrder | backend/internal/workflow/derive_evidence.go:66-105 | the queue holds effective blocked results, each comment once, in the order they arrived |
| BlockerQueue.QueuedIff | backend/internal/workflow/derive_evidence.go:66-105 | a result is queued at the end exactly when it entered and nothing resolved it since |
| BlockerQueue.ActiveChangesIff | backend/internal/workflow/derive_evidence.go:66-149 | a result displaces the active blocker exactly when it is an effective, actionable, non-escalating Lead result naming it |
| BlockerQueue.CallsOffIff | backend/internal/workflow/derive_evidence.go:131-162 | a result can resolve a blocker exactly when it is an effective, completed or no-op Lead result that hands the work back to Implementor or QA, does not escalate, and names the comment |
| BlockerQueue.LeadWarningsIff | backend/internal/workflow/derive_evidence.go:70-92 | which warning a Lead result earns while a blocker is active, exactly |
| BlockerQueue.ActiveStays | backend/internal/workflow/derive_evidence.go:66-149 | a blocker stays active through any results none of which is of that kind |
| BlockerQueue.EscalationKeepsQueue | backend/internal/workflow/derive_evidence.go:77-81 | an owner escalation never removes a blocker |
| WorkflowRoute.MergeGateIff | backend/internal/workflow/derive_routing.go:9-169 | the route is the merge gate exactly when issue, pull request, CI, QA, blocker and Lead evidence all allow it and no command is in the way |
| WorkflowRoute.EffectiveQaIsExact | backend/internal/workflow/derive_evidence.go:21-52 | effective QA evidence names exactly the current head |
| WorkflowRoute.JudgedIff | backend/internal/workflow/derive_evidence.go:10-52 | a parsed result is effective, and stale, exactly on the listed evidence |
| WorkflowRoute.QaDispatchIff | backend/internal/workflow/derive_routing.go:29-151 | QA is dispatched exactly for a finished implementation with CI success, a retry after CI, or on the Lead's word |
| RouteConditions.ImplementorDispatchIff | backend/internal/workflow/derive_routing.go:29-155 | the Implementor is dispatched exactly for no result, a bound continuation, failed CI, unbound QA changes, or on the Lead's word |
| RouteConditions.LeadDispatchIff | backend/internal/workflow/derive_routing.go:51-155 | the Lead is dispatched exactly for an unresolved QA turn, a blocked worker, a bound no-op, work that needs no QA, a QA verdict, or its own word |
| RouteConditions.OwnerAttentionIff | backend/internal/workflow/derive_routing.go:40-49 | the owner is asked exactly for a Lead escalation that is not about another blocker than the active one |
| RouteConditions.NoActionIff | backend/internal/workflow/derive_routing.go:9-96 | nothing happens exactly for an ended issue or while CI is awaited |
| RouteConditions.ManualAttentionIff | backend/internal/workflow/derive_routing.go:9-155 | everything else is left to a person, and no other worker is ever dispatched |
| RouteConditions.ReasonIff | backend/internal/workflow/derive_routing.go:9-171 | each reason code is given exactly on its grounds |
| RouteConditions.CommandHoldsBack | backend/internal/workflow/derive_workspace.go:177-201 | what an open, ambiguous or failed command makes of the route, and that any other leaves it |
| WorkflowRoute.NonLeadUnderBlockerIff | backend/internal/workflow/derive_routing.go:51-68 | under an active blocker a worker other than the Lead is dispatched exactly in the QA retry arm |
| WorkflowRoute.QaRetryUnderBlocker | backend/internal/workflow/derive_routing.go:51-62 | an issue that takes that arm |
| WorkflowRoute.DeriveWorkUnit | backend/internal/workflow/derive_workspace.go:94-169 | the accumulation over pull requests and comments computes the derived work unit |
| WorkflowRoute.LatestIsUnsafe | backend/internal/workflow/derive_attention.go:36-45 | the backwards scan judges the last comment that looks terminal |
| WorkflowRoute.BlockerIsLatest | backend/internal/workflow/derive_routing.go:66-69 | when the latest result is the active blocker's comment it is a blocked result |
| MarkdownScanner.ScannerIsExact | backend/internal/workflow/parser.go:253-286 | the scanner reports exactly the live lines of the fence fold, in order and disjoint |
| MarkdownScanner.LiveLineSpans | backend/internal/workerloop/marker.go:218-251 | the loop over lines and fence state computes the spans |
| MarkdownScanner.ScanLine | backend/internal/workerloop/marker.go:229-243 | one line moves the fence state and is live or not |
| MarkdownScanner.MarkdownFence | backend/internal/workflow/parser.go:288-303 | character and length of the fence a line opens or closes |
| MarkdownScanner.MarkdownLeadingIndent | backend/internal/workflow/parser.go:310-326 | columns and characters of the leading white space, with tab stops |
| MarkdownScanner.MarkerPositions | backend/internal/workerloop/marker.go:197-216 | exactly the markers that stand first on a live line, rising, at most one to a line |
| MarkdownScanner.MarkersOfLine | backend/internal/workflow/parser.go:221-235 | the search within a line finds the marker at its first visible character and no other |
| MarkdownLines.InsideIff | backend/internal/workflow/parser.go:253-286 | a line is inside a fence exactly when an earlier line opened it and no line since has closed it |
| MarkdownLines.LiveIff | backend/internal/workerloop/marker.go:229-243 | a line counts exactly outside fences, when it is no fence, less than four columns in, and for the worker loop not quoted |
| MarkdownLines.FenceIff | backend/internal/workflow/parser.go:288-303 | a line is a fence exactly with at most three columns of indent and three or more of one fence character, counted to the end of the run |
| MarkdownLines.IndentStep | backend/internal/workflow/parser.go:310-326 | a space is one column, a tab goes to the next multiple of four |
| MarkdownLines.QuotedIff | backend/internal/workerloop/marker.go:242-243 | a line is quoted exactly when its first visible character is the quotation mark |
| MarkdownLines.SpaceIff | backend/internal/workerloop/marker.go:242-243 | white space by code point |
| MarkdownLines.OccursIff | backend/internal/workerloop/marker.go:197-216 | the marker stands at a place exactly when it follows what is before it |
| MarkdownScanner.WorkerSpansAreUnquoted | backend/internal/workerloop/marker.go:242-243 | the worker loop's spans are the workflow's spans without quoted lines |
| MarkdownScanner.PrefixSpans | backend/internal/workflow/parser.go:253-286 | a prefix ending at a newline has the whole body's spans up to the cut, and an empty line after them unless inside a fence |
| MarkdownScanner.PrefixIff | backend/internal/workflow/parser.go:253-286 | its spans are a prefix of the body's exactly when the cut is inside a fence or before an empty line |
| MarkdownScanner.PrefixMayFail | backend/internal/workflow/parser.go:253-286 | a body for which they are not |
| CommentCanon.CanonicalComments | backend/internal/workflow/derive_snapshot.go:88-127 | one best record for each identity, the one the scan keeps, sorted, and a warning for each repeated identity, whatever order the map is iterated in |
| CommentCanon.OrderIndependent | backend/internal/workflow/derive_snapshot.go:88-127 | when the best records of each identity agree on the author, any order of the records yields the same comments and warnings |
| CommentCanon.OrderMattersIff | backend/internal/workflow/derive_snapshot.go:88-100 | every order keeps the same records exactly when any two best records of an identity agree on the author |
| CommentCanon.ListsEqualIff | backend/internal/workflow/derive_snapshot.go:101-116 | two outputs are equal exactly when the same records were kept |
| CommentCanon.SameWarnings | backend/internal/workflow/derive_snapshot.go:117-126 | the warnings never depend on the order |
| CommentCanon.PreferredTotal | backend/internal/workflow/derive_snapshot.go:129-140 | the preference orders any two records that differ in time, body or address |
| CommentCanon.PreferredTransitive | backend/internal/workflow/derive_snapshot.go:129-140 | and it is transitive |
| CommentCanon.BestIsLatest | backend/internal/workflow/derive_snapshot.go:129-140 | the best record of an identity is its latest update, among equals the latest created, then the greatest text, then the greatest address |
| CommentCanon.LessIff | backend/internal/workflow/derive_snapshot.go:136-139 | the order of texts: a proper prefix first, and otherwise the first difference |
| CommentCanon.AuthorsMatter | backend/internal/workflow/derive_snapshot.go:89-100 | of two records that differ only in the author the scan keeps the first, so their two orders give different comments |
| CommentCanon.Collect | backend/internal/workflow/derive_snapshot.go:89-100 | the loop keeps the first best record of every identity, and the set every repeated identity |
| BoundedEvidence.Bounded | backend/internal/planning/context.go:161-220 | the smaller of limit and number of comments, every mandatory one, and the newest of the rest, sorted, whenever the mandatory ones fit, as they do from eight on; otherwise the newest mandatory ones |
| BoundedEvidence.MandatoryIds | backend/internal/planning/context.go:162-178 | the latest results, the active blocker and the newest Lead headings, at most seven in all |
| BoundedEvidence.FillNewest | backend/internal/planning/context.go:186-191 | adds the newest comments while there is room |

## Left out

* HTTP handlers, the GitHub client, the OpenCode planner, configuration, migrations, the web application, command-line parsing and terminal output.
* Storage faults of the backend that reach the extension as HTTP 400 and are then taken as a final answer: backend transactions are fault-free here.
* The process-local overlay refreshed by `DeliveryCoordinator.Create` together with the authority check of a later claim: plan and context authority are arbitrary at every step instead.
* Other statements between those of one observation of a snapshot: an observation is one step of a run.
* The refresh that follows each coordinator request (`CommandRefresh` models it on its own) and storage faults in the coordinator's reconciliation loop.
* Text timestamps: the textual comparison of stamps within one second is not modelled.
* Several backend origins in one ledger: an entry of another origin is never acknowledged, and only one origin is modelled.
* Normalisation of a damaged stored ledger, and expiry of remembered tabs.
* Liveness of publication: a host that dies between recording the moved worktree and the push is recovered without a push; only safety is claimed.
* Changes of the worktree by anybody else while a turn is being completed or a Candidate is being pushed; between attempts they are modelled in `Publication`, while `TurnEngine.Engine.SurviveCrashes` keeps the worktree clean or dirty as it was.
* Transient failures to read the evidence of a turn (exit status, event log, result file): a read sees what is on disk, and `TurnState.FailedReadIff` says when a failed read of the exit status would matter.
* Process identity: whether a recorded process still owns the turn is a parameter.
* Base reconciliation of a branch and the creation of worktrees.
* Removal of a project's rows when the project is deleted.
* Rendering of prompts, and the textual form of command identifiers and heads on creation.
* Order of evaluation inside one Go map iteration, except where the result could depend on it (`CommentCanon`, `BoundedEvidence`, `BrowserBinding`, `WorkerResults`).
* Aliasing of session objects: `BrowserBinding` keeps sessions as values of a map field.
* Warnings, explanations and activity times of a work unit, the attention it derives, and the parsing of envelopes, headings and labels into fields.
* CommonMark conformance: the code's own treatment of fences is the reference.
* TurnEngine.Engine.PublishCandidate: leaves open which values publication writes; `Publication` models them on its own state, and `Publication.WritesStayOnTrack` shows that every record it leaves is such a write.
* DeliveryCommands.DeliveryService.ClaimNext: the transactions of one poll run in sequence; other requests interleave only in the runs of `DeliveryCommands.Run` and `BrowserProtocol`.
