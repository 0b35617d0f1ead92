# The durable orchestration protocol, verified

This project models the core of a council daemon that runs turns on external
agent harnesses and must not lose, duplicate or misattribute work across
retries, controller rotations and crashes. It covers

- the store of sessions, prompts, turns, dispatch intents and the operation
  journal, whose every write transaction is one atomic step
  (`SessionRules`, `Database`, `DurableStore`), and what its commits promise
  (`Commits`, `Refusals`, `CommitHistories`);
- the controller leases, their generations and the attachment episodes, with
  the process-local attachment cache that may lag behind them
  (`ControllerRules`, `LeaseFencing`, `Transitions`, `Projections`,
  `AttachmentGate`);
- the in-memory session kernel, which the store simulates (`Council`,
  `Simulation`, `KernelAgreement`);
- hydration, the consistency check a restarted daemon makes (`Hydration`);
- the crash-safe birth of a native agy session (`AgyLedger`, `AgyBirth`);
- launch-slot reservation and attempt verdicts (`LaunchSlots`);
- the concurrent parts of the service: the bounded event stream, the task and
  blocker accounting, teardown and the subscriber fan-out (`EventStream`,
  `ServiceCoordinator`, `Subscribers`);
- the sealing of proposal sets and the publication order of issues
  (`ProposalSeal`, `ProposalStore`, `Publisher`).

`dafny verify dfyconfig.toml` checks the whole project.

## How the model is built

The store is described three times, each time tied to the next.
`SessionRules` and `ControllerRules` say what each command decides for one
session or one run, guard by guard. `Database` puts authority, idempotent
replay, the connection precondition and that decision in the order in which
each operation makes them, as one step on maps. `DurableStore.Store` is the
imperative store: a transaction reads and updates flat tables
(`Tables`: session rows apart from prompt, turn, intent and grant rows),
statement after statement, and every method is proved to be exactly the step
of `Database`, refusals included. The theorems about sessions, leases, retries
and hydration are proved of that step and of every finite history of steps.

What a caller may rely on is stated apart from those decisions, on the stored
rows: `Commits` and `Transitions` say of each command exactly when it commits
and what it then leaves, with conditions and effects of their own, and the
histories build on that.

The concurrent components are state machines whose steps are the points at
which the code takes a lock, selects on a channel or touches a wait group; the
theorems quantify over every finite interleaving. Where the code is an object
updated under a lock there is a class as well, whose methods are proved to be
those steps.

`san`, a parameter of most definitions, stands for the secret sanitizer: any
function on strings. Only the simulation asks something of it, that it does
not turn a prompt with text into a blank one.

Where the code and its documentation or tests disagree, or where a stronger
property than the true one suggests itself, the model follows the code:

- `RecordCodexLaunchState` has no guard on the state a launch row is in, so
  the two-launch bound is not an invariant of the store alone.
  `LaunchSlots.RecordKeepsBoundIff` gives the exact condition and
  `LaunchSlots.RevivalBreaksBound` an input that breaks it;
  `LaunchSlots.LaunchesAreBounded` proves the bound for the transitions
  callers make.
- After a revocation the run's lease is empty, so the storage layer accepts an
  adoption with an empty bootstrap credential; the rule that it must not be
  empty is the handler's. `LeaseFencing.EmptyBootstrapAdoptsIff` gives the exact
  condition, and `LeaseFencing.RevocationOpensBootstrap` a run that meets it.
- `CreateSession` inserts whatever state, visibility and recovery generation its
  caller supplies, the generation into both columns. A sound store stays sound
  exactly when a committed creation asks for a parked, reachable session of
  generation 0 (`StoreInvariants.EventSound`), and a store that hydrates goes on
  hydrating exactly when it does not ask for a running one
  (`Hydration.CreationHydratesIff`).
- On an observed `cancelling` of a reachable active turn the store leaves the
  turn alone while the kernel copies the status.
  `Simulation.ObservedStatusAgrees` says exactly when the two agree; the
  simulation itself matches that store step with the kernel call that does.
- An observation of a dispatch asks neither for the version nor for the
  lifecycle, so it commits on an archived session, as late and without an
  effect on it (`CommitHistories.LateObservationCommits`). It is the only
  command but another archive that does: `CommitHistories.ArchivedCommitsIff`.
- `SetControllerConnection` sets the connection of one session whatever its
  run's is. Sessions that agree with their run go on agreeing exactly when no
  such command contradicts it (`Projections.EventAgreesIff`).
- A lease that was retired and is then issued again as a new candidate
  authorises again: `LeaseFencing.ReusedLeaseAuthorises`, an if and only if.
  Leases are random, so freshness is a hypothesis of the theorems that need it.
- `TrackHandoff` does not ask whether the service is stopping. A stopped, idle
  service stays idle exactly when nobody uses it
  (`ServiceCoordinator.UncheckedHandoffBreaksQuiescence`); no production code does.
- The creation handler's own closing of its marker as bound, after a refused
  bind, never takes effect (`AgyBirth.BoundCloseNeverFires`).

## Model

| member | source | states |
|---|---|---|
| `Domain.DecimalPrefixInjective` | internal/storage/transitions.go:571 | text of the form version, underscore, key determines both, whatever underscores and digits the key contains |
| `SessionRules.AttemptIdInjective` | internal/storage/transitions.go:571 | two attempt identities are equal only for the same version and key |
| `Council.InvokeAllConcat` | internal/council/domain.go:124-427 | a sequence of succeeding kernel calls followed by another is their concatenation |
| `Council.Session.NewSession` | internal/council/domain.go:140-154 | a kernel session exists exactly for a roster contributor and a non-blank lease, and starts parked, reachable and empty |
| `Council.Session.Authorize` | internal/council/domain.go:156-167 | a lease is refused when it is not the session's, then on an archived session, then while the controller is disconnected |
| `Council.Session.Queue` | internal/council/domain.go:169-193 | queueing over aliased turn records has exactly the kernel's outcome, every refusal included, and the records stay consistent |
| `Council.Session.Release` | internal/council/domain.go:195-222 | a release hands out the pending prompt, makes a fresh record the active turn and refuses for the kernel's reasons in the kernel's order |
| `Council.Session.CompleteWithResult` | internal/council/domain.go:228-241 | completion writes the retained record through its alias, parks the session and drops the active key, or changes nothing |
| `Council.Session.RequestCancel` | internal/council/domain.go:243-252 | a cancel marks the retained record of the active turn and nothing else |
| `Council.Session.ConfirmCancel` | internal/council/domain.go:254-263 | a confirmed cancel ends the cancelling active turn only |
| `Council.Session.Interrupt` | internal/council/domain.go:265-274 | an interrupt ends the active turn of that key as interrupted |
| `Council.Session.Fail` | internal/council/domain.go:276-286 | a failure ends the active turn of that key with its reason as result |
| `Council.Session.RecordHostLoss` | internal/council/domain.go:288-300 | a host loss opens one recovery generation with the active turn as context; repeated, it returns the same generation |
| `Council.Session.ReconcileHost` | internal/council/domain.go:302-375 | a reconciliation acts on the current recovery generation only, and closes the episode as the observed status demands |
| `Council.Session.DisconnectController` | internal/council/domain.go:377-379 | a disconnect changes the connection and nothing else |
| `Council.Session.ReconnectController` | internal/council/domain.go:381-390 | reconnection succeeds exactly for the controller's own lease on a session that is not archived |
| `Council.Session.Discard` | internal/council/domain.go:392-401 | a discard removes that pending prompt and no other |
| `Council.Session.Replace` | internal/council/domain.go:403-415 | a replacement changes the text of a pending prompt only |
| `Council.Session.Archive` | internal/council/domain.go:417-427 | an archive needs a session without active turn and without a lost host |
| `SessionInvariants.AttemptsInjective` | internal/storage/transitions.go:534-571 | two turns of a consistent session never share an attempt identity |
| `SessionInvariants.QueueSound` | internal/storage/session_store.go:457-603 | queueing keeps the session consistent and its history and version discipline intact |
| `SessionInvariants.ReleaseSound` | internal/storage/transitions.go:472-640 | a release makes the one live turn, stamps it with the version it commits at and keeps the invariant |
| `SessionInvariants.OutcomeSound` | internal/storage/execution_outcomes.go:158-238 | a terminal outcome, on either path, ends the live turn once, resolves its intent and leaves every other turn and every terminal turn as it was |
| `SessionInvariants.HostLossSound` | internal/storage/transitions.go:1245-1343 | a host loss keeps the invariant: lost exactly while a recovery generation is active, with the active turn as context |
| `SessionInvariants.ReconcileSound` | internal/storage/transitions.go:642-840 | every reconciliation, of a reserved or an already ended turn, keeps the invariant |
| `SessionInvariants.AbandonSound` | internal/storage/agy_disposition.go:18-123 | abandoning an uncertain attempt ends its turn as interrupted, closes the recovery episode and keeps the invariant |
| `SessionInvariants.ArchiveSound` | internal/storage/transitions.go:1438-1525 | archiving keeps the invariant: archived exactly when the lifecycle says so, never with a live turn or a lost host |
| `SessionInvariants.CommitSound` | internal/storage/recovery.go:320-364 | every well-formed command that commits keeps the relational invariant behind hydration and raises the version by one on any change |
| `SessionRuns.RunSound` | internal/storage/execution_outcomes.go:158-220 | over any run a terminal turn keeps its status, result and attempt, no released turn loses its prompt, no intent its tools, attempt or issuing generation, versions and recovery generations never decrease |
| `SessionRuns.VersionDeterminesContent` | internal/storage/transitions.go:534-571 | two points of a run with the same version are the same session, so an expected version cannot be met by other content |
| `SessionRuns.CommitAccounted` | internal/storage/session_store.go:787-820 | one commit moves a prompt between pending, turns and discarded as the account of committed commands says, with the tools it was queued with; a released key's intent carries those tools and the generation that released it |
| `SessionRuns.RunAccounted` | internal/storage/transitions.go:550-599 | over any run every accepted prompt is in exactly one of pending, turns and discarded, and enters turns only by a release, with its last stored text; pending prompts and intents carry the tools last queued under their key, and intents the generation that released them |
| `Simulation.CommandMatched` | internal/council/domain.go:169-427 | every committed store command is matched by kernel calls that all succeed and keep store and kernel related, turn statuses included |
| `Simulation.RunMatched` | internal/council/domain.go:169-427 | along any run, refusals and projections included, the kernel calls all succeed and end in a related kernel |
| `Simulation.ObservedStatusAgrees` | internal/council/domain.go:332-338 | passing the observed live status on to the kernel keeps the two related if and only if it is running or the turn is already cancelling |
| `KernelAgreement.CallSound` | internal/council/domain.go:156-427 | a kernel call, refused or not, keeps one live turn at most, changes only the turn it names, never a terminal one or a prompt, and nothing of an archived session |
| `KernelAgreement.KernelRunSound` | internal/council/domain.go:156-427 | the same over every run of kernel calls |
| `KernelAgreement.LeaseIsAsked` | internal/council/domain.go:156-167 | a controller's call succeeds only under the session's own lease, connected and unarchived |
| `KernelAgreement.AcceptedIff` | internal/council/domain.go:169-427 | at the current version and with the stored tools, the store commits a command if and only if the related kernel accepts the matching calls |
| `Histories.CreationIsBirth` | internal/storage/session_store.go:385-455 | a committed creation adds exactly the session its caller asked for, with the run's connection, and changes no other; it is a fresh life exactly when parked, reachable and of generation 0 |
| `Histories.SessionLife` | internal/storage/recovery.go:320-364 | after any history since its creation a session is consistent, its prompts are accounted for and the kernel that got the matching calls is related to it |
| `Histories.SessionPoints` | internal/storage/transitions.go:1151-1174 | between any two points of a history a terminal turn of a session that was consistent is final and equal versions mean equal rows, prompts, turns and intents |
| `Histories.TransitionReplays` | internal/storage/controller_leases.go:195-236 | a controller transition that committed a receipt, repeated anywhere later, changes no table and is answered with that receipt, a conflict for another command, or the refusal of the authority that precedes its replay |
| `Histories.RecoveryReplays` | internal/storage/controller_leases.go:489-584 | a credential recovery that has disclosed, repeated anywhere later, discloses the same generation and secret while that grant is active, is refused as unavailable afterwards, and changes no table |
| `Histories.RecoveryReused` | internal/storage/controller_leases.go:489-538 | the operation of a disclosed recovery with any other command or run is refused and changes no table |
| `Histories.ReferenceStays` | internal/storage/execution_outcomes.go:63-91 | an accepted execution resolves by its identity after any history |
| `Histories.EvidenceReplays` | internal/storage/execution_outcomes.go:116-129 | committed evidence of a consistent session, repeated anywhere later under any lease, always gets its receipt back: nothing but its own arguments can refuse it |
| `Commits.AuthorityIsAsked` | internal/storage/controller_leases.go:178-193 | whatever is not refused was well formed and under authority current for the session's run, or, for evidence, names an execution the store accepted; replays included |
| `Commits.CommitsIff` | internal/storage/session_store.go:457-603 | a command commits if and only if its operation is new, its arguments are well formed, its credential is current, the run's controller is connected where it must be, and the session is at the expected version, unarchived and in the state the command needs |
| `Commits.CommitLeaves` | internal/storage/transitions.go:550-640 | a commit leaves exactly the prompts, turns, intents, connection and recovery episode it should, on its own session only, and an abandonment also its attempt row |
| `Commits.ReceiptReports` | internal/storage/transitions.go:601-636 | the receipt names the operation, the session, the turn and the version of the row it left, and hands out the stored prompt, attempt, recovery generation or issuing generation |
| `Commits.MarkSays` | internal/storage/session_store.go:39-46 | two session commands have one fingerprint if and only if they are the same request, texts up to sanitisation, whatever lease or version they carry |
| `Commits.RetriesIff` | internal/storage/session_store.go:48-75 | after any history a retry gets the original receipt if and only if it is the same request, well formed and under current authority, and it never commits again |
| `Refusals.RefusalsAreTrue` | internal/storage/transitions.go:534-571 | every error a session command answers names a condition that holds, of its arguments, its authority, the execution it names, the session or the journal |
| `Refusals.TransitionRefusalsAreTrue` | internal/storage/controller_leases.go:242-484 | so does every error of a controller transition |
| `CommitHistories.RetiredLeaseIsShutOut` | internal/storage/controller_leases.go:106-128 | a lease that lost its authority and is never reissued has every session command refused, without a change, after every later history |
| `CommitHistories.DeposedControllerIsShutOut` | internal/storage/controller_leases.go:324-484 | whoever a handoff, a revocation or a first adoption deprives of the lease is shut out so from then on |
| `CommitHistories.CommitSeesWhatWasRead` | internal/storage/transitions.go:1002-1004 | a command that commits at the version its caller read acts on the very session that was read, whatever happened between |
| `CommitHistories.ArchivedCommitsIff` | internal/storage/transitions.go:842-955 | on an archived session nothing commits but another archive or the late observation of a dispatch, and the session stays as it is |
| `CommitHistories.LateObservationCommits` | internal/storage/transitions.go:842-955 | such an observation does commit, for every turn an archived session ever released |
| `CommitHistories.OutcomeIsRecorded` | internal/storage/execution_outcomes.go:158-220 | after a committed outcome the turn on record has exactly that status and sanitised result |
| `CommitHistories.ContradictionNeverCommits` | internal/storage/execution_outcomes.go:176-190 | over any history since a turn ended, an outcome of another status or sanitised result, by either path, never commits and changes nothing |
| `CommitHistories.TurnStays` | internal/storage/execution_outcomes.go:158-220 | over any history of the store a released turn keeps its prompt and attempt, its intent tools and issuing generation, and once terminal everything |
| `CommitHistories.ReleaseIssues` | internal/storage/transitions.go:582-588 | a release issues its execution with the tools of the queued prompt, under the active grant whose lease asked for it, and both stay on record for ever |
| `Histories.HistoryKeepsAuthority` | internal/storage/controller_leases.go:540-584 | over any history no grant of a run is rewritten, and which grant a journaled operation made in it never changes |
| `Histories.AttemptsSettle` | internal/storage/agy_state.go:428-699 | over any history of the store an agy attempt keeps at most one launch, its verdict is final and its abandonment stands |
| `ControllerRules.HasMax` | internal/storage/controller_leases.go:589-594 | a run with grants has a largest generation |
| `ControllerRules.Newest` | internal/storage/controller_leases.go:429-441 | the newest-first query returns the largest generation with a wanted status, or there is none |
| `ControllerRules.Issued` | internal/storage/controller_leases.go:540-585 | the issuance of an operation is the newest grant it made in the run, or there is none |
| `LeaseFencing.ActiveIsNewest` | internal/storage/controller_leases.go:78-142 | an active grant exists exactly when the run is adopted, is the largest generation of all and carries the run's lease |
| `LeaseFencing.NewAuthorityFenced` | internal/storage/session_store.go:106-168 | a new run's supplied lease is provenance, never a grant, and the run starts fenced |
| `LeaseFencing.InstallFences` | internal/storage/controller_leases.go:589-635 | installing a grant on a run without an active one fences the run and rewrites no other grant |
| `LeaseFencing.InstallActivates` | internal/storage/controller_leases.go:589-635 | the installed grant is the next generation, unused before, active under its candidate lease |
| `LeaseFencing.ControllerFences` | internal/storage/controller_leases.go:242-635 | every transition that commits keeps at most one active grant, the newest, with the run's lease, and never revives or edits a retired grant |
| `LeaseFencing.RunFenced` | internal/storage/controller_leases.go:242-635 | fencing over every run of controller transitions |
| `LeaseFencing.AuthorisedIff` | internal/storage/controller_leases.go:78-142 | the controller class accepts exactly the active grant's lease on a run that is not archived, the administrator class also the legacy one |
| `LeaseFencing.ConnectedIff` | internal/storage/controller_leases.go:154-169 | new decisions are let through exactly while the active grant is connected |
| `LeaseFencing.AuthorisedGenerationsGrow` | internal/storage/controller_leases.go:78-142 | whoever is authorised later in a run holds a generation at least as new, and the same generation means the same lease |
| `LeaseFencing.SpentNeverAuthorised` | internal/storage/controller_leases.go:106-128 | a lease of retired grants only is refused, as superseded where the run is not archived |
| `LeaseFencing.ReusedLeaseAuthorises` | internal/storage/controller_leases.go:589-635 | a committed transition gives a spent lease authority again if and only if it installs that lease as its candidate |
| `LeaseFencing.RetiredForGood` | internal/storage/controller_leases.go:324-484 | a spent lease that is never issued again is refused after every later run of transitions, for both credential classes |
| `LeaseFencing.RetirementSpends` | internal/storage/controller_leases.go:324-484 | whichever grant a transition retires leaves a spent lease behind, unless that lease is reissued |
| `LeaseFencing.EmptyBootstrapAdoptsIff` | internal/storage/controller_leases.go:280-319 | an adoption without bootstrap credential and without recovery is accepted if and only if the run is not adopted and its first lease has been retired |
| `LeaseFencing.RevocationOpensBootstrap` | internal/storage/controller_leases.go:446-466 | an operator's revocation of a new run's lease leaves a run that accepts an empty bootstrap |
| `LeaseFencing.RevokedRunOpensBootstrap` | internal/storage/controller_leases.go:446-466 | so does every other committed revocation of a fenced run |
| `LeaseFencing.GetControllerRecord` | internal/storage/controller_leases.go:645-684 | the fold over all grants, newest first, returns the newest generation, and the full active grant exactly when the run is adopted |
| `Transitions.TransitionsIff` | internal/storage/controller_leases.go:242-484 | an adoption, handoff, revocation, connect or disconnect commits if and only if its operation is new, its arguments are well formed and its maker is entitled to it |
| `Transitions.TransitionLeaves` | internal/storage/controller_leases.go:589-635 | a committed transition leaves exactly the next grant under its candidate, the revoked grants or the moved episode, tells the run's sessions what it should, and touches no other run |
| `Transitions.RecoveryIff` | internal/storage/controller_leases.go:489-584 | a credential is disclosed if and only if the named operation issued that generation and the grant is active, and it is that grant's lease |
| `Transitions.TransitionMarkSays` | internal/storage/session_store.go:39-46 | two transitions have one fingerprint if and only if they are the same request, secrets and random values apart |
| `Projections.ConnectionIsProjected` | internal/storage/controller_attachment.go:42-51 | after a handoff, a revocation, a connect or a disconnect that ends the episode every session of the run is told the same connection, the run's own; other sessions, and all sessions after a stale disconnect, are untouched |
| `Projections.EventAgreesIff` | internal/storage/controller_attachment.go:42-51 | one transaction keeps every session's connection equal to its run's if and only if it does not set one to the contrary by command |
| `Projections.HistoryAgrees` | internal/storage/controller_attachment.go:42-51 | over every history without such a command a session is connected exactly while its run's active grant is |
| `Creations.RunCreationIff` | internal/storage/session_store.go:106-168 | a run is created if and only if operation and run are new and nothing is blank; its lease then serves the administrator class alone |
| `Creations.SessionCreationIff` | internal/storage/session_store.go:385-455 | a session is created if and only if the credential is current for an existing run, the session is new, the contributor on the roster, and the primary place free |
| `Creations.HistoryKeepsStaff` | internal/storage/schema.sql:40-42 | over every history contributors are of the roster and a run has at most one primary session of each |
| `Retries.RepeatChangesNothing` | internal/storage/session_store.go:48-75 | an operation whose identity is journaled changes no table, whatever command, lease or version it now carries |
| `Retries.HistoryKeepsJournal` | internal/storage/session_store.go:77-104 | over any history a journal entry stays as it was committed |
| `Retries.RepeatsDoNotMatter` | internal/storage/session_store.go:48-75 | a history with repeats ends in the same database as the history with every repeat removed |
| `Retries.CommittedReplays` | internal/storage/transitions.go:493-513 | a committed session command repeated anywhere later, under any lease and expected version, gets its original receipt or an authority refusal; another fingerprint is refused; no table changes |
| `Retries.RunCreationReplays` | internal/storage/session_store.go:106-168 | a committed run creation repeated anywhere later gives its receipt, or a refusal for bad arguments or other content, and changes no table |
| `Retries.SessionCreationReplays` | internal/storage/session_store.go:385-418 | a committed session creation repeated anywhere later gives its receipt, a conflict for other content, or the refusal of current authority, and changes no table |
| `StoreInvariants.EventIsSteps` | internal/storage/controller_attachment.go:42-51 | a transaction on the store acts on each session as that session's own steps, so what holds of session runs holds of the store |
| `StoreInvariants.HistoryIsRun` | internal/storage/controller_attachment.go:42-51 | over any history of the store each session lives the session run of its steps |
| `StoreInvariants.EventSound` | internal/storage/recovery.go:72-367 | one transaction keeps a sound store sound if and only if it does not commit the creation of a session in another state than callers ask for |
| `StoreInvariants.HistoryKeepsRuns` | internal/storage/controller_leases.go:242-635 | every history, whatever sessions it creates, keeps every run fenced, every session in a run and every journaled adoption or handoff backed by its grant |
| `StoreInvariants.HistorySound` | internal/storage/recovery.go:72-367 | every history in which sessions are created as callers create them keeps the store sound |
| `EvidenceIndependence.EvidenceStepCommutes` | internal/storage/controller_attachment.go:42-51 | on one session, evidence about an execution commutes with the projection of a controller connection |
| `EvidenceIndependence.ControllerReplyUnmoved` | internal/storage/controller_leases.go:365-373 | a controller transition answers and leaves the same authority whether or not the evidence was recorded before it |
| `EvidenceIndependence.EvidenceCommutes` | internal/storage/execution_outcomes.go:93-238 | recording evidence before or after any adopt, handoff, revoke, connect, disconnect or recovery ends in the same sessions, runs and attempts, with the same answers up to the version on the receipt |
| `Tables.TouchesView` | internal/storage/schema.sql:11-93 | a transaction on the rows of one session changes that session and nothing else of the joined database |
| `SessionTransactions.QueuePromptRows` | internal/storage/session_store.go:500-603 | the statements of a queue, on flat rows, do to the joined session what the decision says, or change nothing and give its refusal |
| `SessionTransactions.CheckRow` | internal/storage/session_store.go:513-524 | the opening guards refuse for version, lifecycle and connection in that order |
| `SessionTransactions.ReplacePendingPromptRows` | internal/storage/session_store.go:605-729 | the statements of a replacement are its decision on the joined session |
| `SessionTransactions.DiscardPendingPromptRows` | internal/storage/session_store.go:731-820 | the statements of a discard are its decision on the joined session |
| `SessionTransactions.ReleaseTurnRows` | internal/storage/transitions.go:515-640 | prompt deletion, turn and intent insertion and the session update together are the release decision |
| `SessionTransactions.RequestCancelRows` | internal/storage/transitions.go:957-1072 | the statements of a cancel request are its decision, a repeated request a recorded no-op |
| `SessionTransactions.RecordHostLossRows` | internal/storage/transitions.go:1245-1343 | the statements of a host loss are its decision, a repeated loss a recorded no-op |
| `SessionTransactions.SetControllerConnectionRows` | internal/storage/transitions.go:1345-1436 | the statements of a connection change are its decision |
| `SessionTransactions.ArchiveSessionRows` | internal/storage/transitions.go:1438-1525 | the statements of an archive are its decision |
| `SessionTransactions.RecordDispatchObservationRows` | internal/storage/transitions.go:842-955 | the statements of a dispatch observation are its decision |
| `SessionTransactions.AcknowledgementRows` | internal/storage/execution_outcomes.go:243-314 | the statements of an acknowledgement are its decision |
| `SessionTransactions.OutcomeRows` | internal/storage/execution_outcomes.go:158-220 | the shared tail of both outcome operations, with its three kinds of session update, is the outcome decision |
| `SessionTransactions.ReconcileActiveRows` | internal/storage/transitions.go:714-787 | the four reconciliation branches of a reserved turn, as updates, are the reconciliation decision |
| `SessionTransactions.ReconcileParkedRows` | internal/storage/transitions.go:787-820 | reconciling a turn that has already ended closes the episode only for an agreeing observation |
| `SessionTransactions.ResolveAgyTurnUncertaintyRows` | internal/storage/agy_disposition.go:60-123 | the guards and row updates of an abandonment are its decision on the joined session, payload included |
| `ControllerTransactions.ClassifyCredential` | internal/storage/controller_leases.go:78-142 | the queries and comparisons of the credential check give the classification of the joined authority, also for a run that does not exist |
| `ControllerTransactions.CheckRunConnected` | internal/storage/controller_leases.go:154-167 | a run is ready for a new decision exactly when its active grant exists and is connected |
| `ControllerTransactions.AdoptRows` | internal/storage/controller_leases.go:242-319 | the rows an adoption writes are the adoption decision |
| `ControllerTransactions.InstallGrant` | internal/storage/controller_leases.go:589-635 | the grant insert, the run update and the retirement of the legacy row together install the next generation |
| `ControllerTransactions.HandoffRows` | internal/storage/controller_leases.go:324-374 | the rows a handoff writes, projections included, are the handoff decision |
| `ControllerTransactions.RevokeGrant` | internal/storage/controller_leases.go:446-466 | a revocation retires its target, empties the run's lease, clears adoption for a real generation and disconnects the run's sessions |
| `ControllerTransactions.RevokeRows` | internal/storage/controller_leases.go:429-466 | the target check and the rows of a revocation are the revocation decision |
| `ControllerTransactions.ConnectRows` | internal/storage/controller_attachment.go:59-141 | the rows a connect writes, a new revision under its attachment with the projections, are the connect decision |
| `ControllerTransactions.DisconnectRows` | internal/storage/controller_attachment.go:155-233 | only the current attachment's disconnect writes rows; the result is the disconnect decision |
| `ControllerTransactions.RecoverRows` | internal/storage/controller_leases.go:540-584 | the look-up of an issuance writes nothing and answers as the recovery decision |
| `ControllerTransactions.ProjectRowsView` | internal/storage/controller_attachment.go:42-51 | one bulk update projects the connection on every session of the run, raising the version of exactly the rows it changes |
| `DurableStore.Store.constructor` | internal/storage/schema.sql:11-93 | an opened empty store is the empty database |
| `DurableStore.Store.CreateRun` | internal/storage/session_store.go:106-168 | one transaction: replay, conflict, constraint or a new run whose lease is a legacy row |
| `DurableStore.Store.CreateSession` | internal/storage/session_store.go:385-455 | one transaction: authority, replay, the primary and contributor constraints, and the caller's record as a new row |
| `DurableStore.Store.QueuePrompt` | internal/storage/session_store.go:457-603 | the imperative transaction is exactly the atomic store step of a queue, refusals in order included |
| `DurableStore.Store.ReplacePendingPrompt` | internal/storage/session_store.go:605-729 | the imperative transaction is exactly the atomic store step of a replacement; stated tools must equal the queued ones |
| `DurableStore.Store.DiscardPendingPrompt` | internal/storage/session_store.go:731-820 | the imperative transaction is exactly the atomic store step of a discard |
| `DurableStore.Store.ReleaseTurn` | internal/storage/transitions.go:472-640 | the imperative transaction is exactly the atomic store step of a release, journal entry and receipt with it |
| `DurableStore.Store.FindCommittedRelease` | internal/storage/transitions.go:273-301 | the look-up foretells a release with that operation: the receipt it would be answered with, the refusal it would get, or that it would not be a replay |
| `DurableStore.Store.RequestCancel` | internal/storage/transitions.go:957-1072 | the imperative transaction is exactly the atomic store step of a cancel request |
| `DurableStore.Store.RecordTerminalOutcome` | internal/storage/transitions.go:1074-1243 | the imperative transaction is exactly the atomic store step of a terminal outcome under the controller's lease |
| `DurableStore.Store.RecordHostLoss` | internal/storage/transitions.go:1245-1343 | the imperative transaction is exactly the atomic store step of a host loss |
| `DurableStore.Store.SetControllerConnection` | internal/storage/transitions.go:1345-1436 | the imperative transaction is exactly the atomic store step of a connection change |
| `DurableStore.Store.ArchiveSession` | internal/storage/transitions.go:1438-1525 | the imperative transaction is exactly the atomic store step of an archive |
| `DurableStore.Store.RecordDispatchObservation` | internal/storage/transitions.go:842-955 | the imperative transaction is exactly the atomic store step of a dispatch observation; late ones are recorded and ignored |
| `DurableStore.Store.RecordObservedExecutionOutcome` | internal/storage/execution_outcomes.go:93-238 | the imperative transaction is exactly the atomic store step of an outcome under the execution's own identity, with no lease |
| `DurableStore.Store.RecordObservedDispatchAcknowledgement` | internal/storage/execution_outcomes.go:243-314 | the imperative transaction is exactly the atomic store step of an acknowledgement under the execution's own identity |
| `DurableStore.Store.ReconcileSession` | internal/storage/transitions.go:642-840 | the imperative transaction is exactly the atomic store step of a reconciliation |
| `DurableStore.Store.ResolveAgyTurnUncertainty` | internal/storage/agy_disposition.go:18-123 | the imperative transaction over session, turn, intent, attempt row and journal is exactly one atomic store step |
| `DurableStore.Store.InsertAgyTurnAttempt` | internal/storage/agy_state.go:356-385 | an attempt row is inserted once, a second insert is refused, and no other table changes |
| `DurableStore.Store.ReserveAgyLaunch` | internal/storage/agy_state.go:412-462 | the one launch of an existing attempt is reserved and numbered, an unknown or already launched attempt is refused |
| `DurableStore.Store.MoveAttempt` | internal/storage/agy_state.go:412-699 | an attempt row moves by its own launch and verdict steps, never by a disposition, each step answers as its update does, for an attempt without a row too, and no other table changes |
| `DurableStore.Store.AdoptController` | internal/storage/controller_leases.go:242-319 | the imperative transaction is exactly the atomic store step of an adoption |
| `DurableStore.Store.HandoffController` | internal/storage/controller_leases.go:324-374 | the imperative transaction is exactly the atomic store step of a handoff |
| `DurableStore.Store.RevokeController` | internal/storage/controller_leases.go:382-484 | the imperative transaction is exactly the atomic store step of a revocation, by the controller or by an operator |
| `DurableStore.Store.RecoverControllerCredential` | internal/storage/controller_leases.go:489-584 | the imperative transaction discloses the still active issuance of a journaled adoption or handoff, or refuses |
| `DurableStore.Store.ConnectRunController` | internal/storage/controller_attachment.go:59-141 | the imperative transaction is exactly the atomic store step of a connect |
| `DurableStore.Store.DisconnectRunController` | internal/storage/controller_attachment.go:155-233 | the imperative transaction is exactly the atomic store step of a disconnect; a late one is recorded and ignored |
| `DurableStore.ResolveExecutionRef` | internal/storage/execution_outcomes.go:68-86 | an execution reference resolves exactly when its session holds that turn under that attempt |
| `DurableStore.AuthorizeSession` | internal/storage/controller_leases.go:178-189 | a session's commands are authorised by the classification of its run |
| `Hydration.CheckReferences` | internal/storage/recovery.go:72-318 | the loading loops accept exactly the tables whose session, binding, prompt, turn, intent and decision rows refer to rows that exist |
| `Hydration.HydrateState` | internal/storage/recovery.go:72-367 | hydration succeeds if and only if the tables pass its checks, and gives back every session with its rows, its binding and the active turn and intent that its state calls for |
| `Hydration.SoundHydrates` | internal/storage/recovery.go:320-364 | every sound store passes all of hydration's checks |
| `Hydration.ReachableHydrates` | internal/storage/recovery.go:320-364 | hydration succeeds on every store reachable from the empty one by any history in which sessions are created as callers create them |
| `Hydration.ActiveDamageIsFound` | internal/storage/recovery.go:320-364 | a consistent session whose active key alone is altered never hydrates |
| `Hydration.StateDamageIsFoundIff` | internal/storage/recovery.go:320-364 | one whose state alone is altered hydrates if and only if parked and archived were mistaken for each other |
| `Hydration.TurnDamageIsFoundIff` | internal/storage/recovery.go:320-364 | one with a live turn recorded as ended, or the reverse, hydrates if and only if it is archived, or running another turn |
| `Hydration.IntentDamageIsFound` | internal/storage/recovery.go:320-364 | one whose active turn's intent reads resolved never hydrates |
| `Hydration.CreationHydratesIff` | internal/storage/session_store.go:431-434 | after a committed creation a store that hydrated hydrates if and only if the new session is not created running |
| `AttachmentGate.AttachmentCache.MarkControllerAttached` | internal/service/coordinator.go:452-475 | a publication replaces the cached episode of its run unless that one is newer, or another episode of the same revision |
| `AttachmentGate.AttachmentCache.InvalidateControllerAttachment` | internal/service/coordinator.go:499-503 | an unconditional invalidation empties the entry of its run only |
| `AttachmentGate.AttachmentCache.InvalidateControllerAttachmentIf` | internal/service/coordinator.go:510-519 | an invalidation removes the cached episode only when generation, attachment and instance all match |
| `AttachmentGate.AttachmentCache.ControllerAttachedEpisode` | internal/service/coordinator.go:481-486 | the gate's look-up answers yes exactly for the cached generation and attachment with an instance |
| `AttachmentGate.LatestWins` | internal/service/coordinator.go:452-475 | publications of the episodes that a run of the world has committed, delivered in any order, leave the largest generation and, in it, the largest revision |
| `AttachmentGate.DeliveryOrderDoesNotMatter` | internal/service/coordinator.go:452-475 | two deliveries of the same committed episodes, in any order and multiplicity, leave the same cache |
| `AttachmentGate.OpenGateIsCurrent` | internal/service/controller_attachment.go:157-186 | whatever happens between reading the durable record and looking up the cache, an open gate means that the episode read is exactly the one cached and that this instance established it |
| `AttachmentGate.OnlyConnectBegins` | internal/storage/controller_attachment.go:59-233 | any transition but a committed connect keeps the durable episode or ends it |
| `AttachmentGate.TransitionNumbers` | internal/storage/controller_attachment.go:59-141 | every transition keeps the pair of generation and revision unique among all episodes ever committed and within the grants' counts |
| `AttachmentGate.DetachesIff` | internal/storage/controller_attachment.go:155-233 | a committed handoff or revocation always ends the episode, a committed disconnect exactly when it names it or none is open |
| `AttachmentGate.RunCoherent` | internal/service/controller_attachment.go:41-132 | over every interleaving of transitions, reads, late publications, invalidations and restarts, cache and publications name episodes that were committed and established here |
| `AttachmentGate.ShutUntilConnect` | internal/service/controller_attachment.go:157-186 | once the episode has ended, a record read before a new connect commits admits nobody, whatever arrives late |
| `AttachmentGate.DetachedUntilConnect` | internal/service/controller_attachment.go:157-186 | after a committed handoff, revocation or disconnect of the current attachment nobody is admitted until a new connect commits |
| `AttachmentGate.OpensOnlyOnOwnPublication` | internal/service/controller_attachment.go:70-77 | after a committed connect, and until another, the gate opens only once that very episode has been published |
| `AgyLedger.PutOneOpen` | internal/storage/agy_attestation.go:423-455 | rewriting an episode keeps at most one episode of the session open |
| `AgyLedger.AgyStore.BeginAgyCreationInFlight` | internal/storage/agy_attestation.go:463-507 | a marker opens exactly when no episode is open and no native session is bound |
| `AgyLedger.AgyStore.SetAgyCreationUncertaintyOrphan` | internal/storage/agy_attestation.go:514-527 | the first observed orphan fills an open episode and a different one is refused |
| `AgyLedger.AgyStore.RecordAgyCreationUncertain` | internal/storage/agy_attestation.go:318-370 | an uncertain creation annotates the one open episode or opens the next, and says which |
| `AgyLedger.AgyStore.CloseAgyCreationInFlight` | internal/storage/agy_attestation.go:537-560 | a service closes only an unannotated open marker, only as not created or bound, and only with a reason |
| `AgyLedger.AgyStore.ResolveAgyCreationUncertainty` | internal/storage/agy_attestation.go:570-656 | arguments, authority, expected generation and replay come first; then a controller's disposition closes an open episode once, with its journal entry |
| `AgyLedger.AgyStore.BindAgySessionClosingEpisode` | internal/storage/agy_state.go:152-256 | arguments, authority and replay come first; then the binding, the closing of its marker and the journal entry commit together or not at all |
| `AgyLedger.PerformIff` | internal/storage/agy_attestation.go:570-656 | a bind or a resolution succeeds if and only if it is well formed, under the controller's authority and generation, and either journaled as it is or possible on the ledger now |
| `AgyLedger.LedgerRunStands` | internal/storage/agy_attestation.go:318-656 | over any run at most one episode is open, a closing, a first orphan, an annotation and the binding stay, and an annotated episode is closed by a controller only |
| `AgyLedger.NoteIff` | internal/storage/agy_attestation.go:423-455 | a note is taken on the open episode if and only if it names no other orphan; it leaves the orphan and the outcome on record and the marker beyond the service's closing |
| `AgyLedger.CommittedRepeats` | internal/storage/agy_state.go:180-189 | a successful bind or resolution repeated after any run of commands and unjournaled operations gives its receipt, a conflict for another command, or the refusal of arguments or current authority, and changes nothing |
| `AgyBirth.StepKeepsInv` | internal/service/agy_probe_attestation.go:261-485 | every step of creators, children, controllers and crashes keeps the birth invariant: one open episode, honest closings, each conversation in its own episode |
| `AgyBirth.ReachableInv` | internal/service/agy_probe_attestation.go:261-485 | the invariant holds after every interleaving with a crash between any two durable writes |
| `AgyBirth.BindingIsForEver` | internal/storage/agy_state.go:159-256 | a session's bound native identity never changes |
| `AgyBirth.UnboundIsAccounted` | internal/service/agy_probe_attestation.go:445-485 | every created conversation that is not the bound one has its own episode, open or resolved by a controller |
| `AgyBirth.OrphansNameTheirOwn` | internal/service/agy_probe_attestation.go:445-485 | over every run an orphan noted in a marker is that marker's own conversation, and one noted in an episode without a child is the bound conversation |
| `AgyBirth.BirthsAreBounded` | internal/service/agy_probe_attestation.go:351-485 | over every run, created conversations number at most one more than the episodes a controller resolved |
| `AgyBirth.BoundCloseNeverFires` | internal/service/agy_probe_attestation.go:351-429 | the handler's own closing of its marker as bound is always refused: the bind that won has closed it |
| `LaunchSlots.ReserveKeepsBounds` | internal/storage/codex_state.go:229-333 | a reservation keeps live rows within the count and the count within two, and a second slot has its protected evidence |
| `LaunchSlots.RecordKeepsBoundIff` | internal/storage/codex_state.go:339-381 | a recorded launch state keeps the bound if and only if it does not, with every slot taken, revive or fail again a failed row or name a missing one |
| `LaunchSlots.RevivalBreaksBound` | internal/storage/codex_state.go:339-381 | a failed launch reported as started after all exceeds its slots |
| `LaunchSlots.LaunchesAreBounded` | internal/storage/codex_state.go:229-442 | with the transitions callers make, at most two launches that did not fail to start, and a second only for a protected, attested attempt with recorded absence |
| `LaunchSlots.CodexAttempt.ReserveCodexLaunch` | internal/storage/codex_state.go:229-333 | the guarded update and row insert are one reservation, or change nothing and say why |
| `LaunchSlots.CodexAttempt.RecordCodexLaunchState` | internal/storage/codex_state.go:339-381 | an unknown state is refused; any other moves its row whatever it was, and a failed start of an uncertain attempt gives the slot back |
| `LaunchSlots.CodexAttempt.RecordCodexAbsenceVerified` | internal/storage/codex_state.go:417-442 | absence is recorded once, and only for a protected attempt whose attestation exists |
| `LaunchSlots.AgySettlesOnce` | internal/storage/agy_state.go:428-699 | over any run an agy attempt has at most one launch row, a verdict with its payload is final, and an attempt that stopped blocking its session never blocks again |
| `LaunchSlots.AcceptedAgyStep` | internal/storage/agy_state.go:428-699 | an accepted step leaves the one reserved launch, the reported state of its row, a failed start read as missing, or the verdict with its payload |
| `LaunchSlots.AgyAttempt.ReserveAgyLaunch` | internal/storage/agy_state.go:428-462 | the one launch slot is taken once |
| `LaunchSlots.AgyAttempt.RecordAgyLaunchState` | internal/storage/agy_state.go:475-519 | a reported state moves its row, an unknown one is refused; a failed start of an uncertain attempt reads missing and gives no slot back |
| `LaunchSlots.AgyAttempt.SetAgyAttemptObservedStatus` | internal/storage/agy_state.go:630-660 | only missing may be observed, only of a non-terminal uncertain attempt, and again without effect |
| `LaunchSlots.AgyAttempt.SetAgyAttemptTerminal` | internal/storage/agy_state.go:668-699 | a verdict is accepted exactly for a non-terminal attempt that reads uncertain |
| `LaunchSlots.AgyAttempt.Dispose` | internal/storage/agy_disposition.go:80-94 | only a non-terminal attempt that still blocks its session can be abandoned |
| `EventStream.StepKeepsInv` | internal/adapter/stream.go:159-234 | every step of every sender, closer and observer keeps the stream invariant |
| `EventStream.StreamIsSafe` | internal/adapter/stream.go:159-234 | over every interleaving the channel is closed at most once and with no admitted sender left, received events are a prefix of sent ones in order, and the calls that report success are exactly the ones that sent, once each |
| `EventStream.NothingInvented` | internal/adapter/stream.go:179-234 | every event on the channel is the well-formed event of this turn that its own call was made with |
| `EventStream.ErrorIsStable` | internal/adapter/stream.go:142-174 | the first closer's error never changes |
| `EventStream.MeasureNeverGrows` | internal/adapter/stream.go:159-174 | once a close has begun nobody lengthens the closer's wait |
| `EventStream.HolderAlwaysProgresses` | internal/adapter/stream.go:179-234 | after the close has begun every admitted sender can take its next step, and whichever way it goes that shortens the wait |
| `EventStream.WaitTerminates` | internal/adapter/stream.go:159-174 | along any run after the close has begun the admitted senders take at most the measure's number of steps, and when they have, none is left and the closer is free to close |
| `ServiceCoordinator.Coordinator.RegisterWorker` | internal/service/coordinator.go:139-170 | a worker is refused while stopping and otherwise counted, listed and versioned by the epoch |
| `ServiceCoordinator.Coordinator.AdmitRelease` | internal/service/coordinator.go:325-343 | a handoff is admitted only while running, and counted |
| `ServiceCoordinator.Coordinator.TrackCommit` | internal/service/coordinator.go:199-213 | a commit is never refused, and counted |
| `ServiceCoordinator.Coordinator.TrackControl` | internal/service/coordinator.go:216-233 | a control request is refused only while stopping, and counted |
| `ServiceCoordinator.Coordinator.SetState` | internal/service/coordinator.go:100-106 | the state moves forward or stays |
| `ServiceCoordinator.Coordinator.Done` | internal/service/coordinator.go:139-233 | a done closure gives back its own kind of work once |
| `ServiceCoordinator.Coordinator.AddRecoveryBlocker` | internal/service/coordinator.go:235-243 | an added obligation is counted and outdates every earlier epoch |
| `ServiceCoordinator.Coordinator.IsShutdownEligible` | internal/service/coordinator.go:293-302 | eligible exactly when no done closure is outstanding and no obligation is owed |
| `ServiceCoordinator.Coordinator.ApplyDiagnosticBlockers` | internal/service/coordinator.go:261-269 | a diagnostic count is installed exactly when its epoch is the current one |
| `ServiceCoordinator.Coordinator.TryStopIdle` | internal/service/coordinator.go:305-320 | the service stops exactly when it is running with nothing outstanding, and then has no task |
| `ServiceCoordinator.DoneAccounted` | internal/service/coordinator.go:139-233 | a done closure keeps every counter equal to the closures yet to act, and acting twice is acting once |
| `ServiceCoordinator.StepKeepsAccounts` | internal/service/coordinator.go:100-343 | every step keeps the task count equal to workers, handoffs, commits and controls, and the state only moves forward |
| `ServiceCoordinator.QuiescenceIsStable` | internal/service/shutdown.go:171-221 | once stopping with no task there is never a task again, over any run |
| `ServiceCoordinator.AdmittedIff` | internal/service/coordinator.go:139-343 | workers and control work are admitted until the service stops, releases only while it runs, and commits always |
| `ServiceCoordinator.ReleasesOnlyDrain` | internal/service/coordinator.go:139-343 | once the service drains no release is admitted over any run, and those under way only finish |
| `ServiceCoordinator.StoppedIdleStaysIdle` | internal/service/coordinator.go:305-320 | after a successful idle stop no task and no done closure is ever outstanding again, over any run |
| `ServiceCoordinator.StorageClosesLast` | internal/service/shutdown.go:155-229 | storage is closed only when every task has finished, and no task begins afterwards |
| `ServiceCoordinator.ObligationsOutliveOlderReads` | internal/service/coordinator.go:235-269 | an added obligation is removed only by a refresh whose epoch was captured after it |
| `ServiceCoordinator.UncheckedHandoffBreaksQuiescence` | internal/service/coordinator.go:182-196 | along any run of a stopped, idle service in which handoffs may be tracked without admission, it stays idle throughout if and only if none is |
| `Subscribers.Hub.RegisterSubscriber` | internal/service/coordinator.go:357-384 | a registration adds one open channel at the end of its turn's list |
| `Subscribers.Hub.BroadcastEvent` | internal/service/coordinator.go:405-430 | a broadcast reaches every registered channel of the turn that has room and closes and drops the others |
| `Subscribers.Hub.Unsubscribe` | internal/service/coordinator.go:366-384 | the unsubscribe closure acts once, on its own channel, if it is still registered |
| `Subscribers.Hub.CloseAllSubscribers` | internal/service/coordinator.go:432-442 | every registered channel is closed and none stays registered |
| `Subscribers.BroadcastKeepsInv` | internal/service/coordinator.go:405-430 | a broadcast keeps registered channels exactly the listening ones and every queue a gap-free run of broadcasts |
| `Subscribers.FanoutIsSafe` | internal/service/coordinator.go:357-442 | over any mix of steps no channel is closed twice or written after its close, and every queue is a gap-free run of its turn's broadcasts from its registration |
| `Subscribers.CloseAllKeepsInv` | internal/service/coordinator.go:534-547 | closing all leaves nobody listening and keeps the invariant |
| `Ordering.IncreasingUnique` | internal/storage/proposal_sets.go:135-147 | a set of elements has only one strictly increasing arrangement |
| `Ordering.Sort` | internal/storage/proposal_sets.go:135-147 | sorting gives an increasing permutation |
| `ProposalSeal.CheckMembers` | internal/storage/proposal_sets.go:52-79 | the checks before the transaction accept exactly well-formed, non-empty lists without repeated revisions, and an error holds against any table |
| `ProposalSeal.Canonicalize` | internal/storage/proposal_sets.go:92-147 | canonicalisation succeeds if and only if the members are listed, with pairwise distinct contributors and sessions; the list is theirs in increasing order; an error names a real fault |
| `ProposalSeal.PermutationSealable` | internal/storage/proposal_sets.go:56-147 | whether members can be sealed does not depend on their order |
| `ProposalSeal.SealIsCanonical` | internal/storage/proposal_sets.go:135-147 | two requests have the same sealed list if and only if one is a permutation of the other |
| `ProposalStore.Store.ReleaseArtifacts` | internal/storage/proposal_sets.go:45-248 | a sealing succeeds exactly when it may, replays its own operation, marks each member released in that set, and otherwise changes nothing |
| `ProposalStore.Store.MarkReleased` | internal/storage/proposal_sets.go:204-213 | the row-by-row update marks exactly the revisions the list names |
| `ProposalStore.RunKeepsInv` | internal/storage/proposal_sets.go:184-245 | over any run every sealed set is an increasing list of released revisions of its run, sealed by the one operation the journal names |
| `ProposalStore.RepeatInAnyOrder` | internal/storage/proposal_sets.go:157-175 | a sealing repeated later with its members in any order gives the original receipt and changes nothing; other members under the same operation are refused |
| `ProposalStore.SealedOnce` | internal/storage/schema_v3.go:27-33 | no membership is sealed by two operations |
| `Publisher.SizeTellsUnique` | scripts/publish.py:84-86 | the table is as large as the list if and only if no key repeats |
| `Publisher.Visitor.VisitAll` | scripts/publish.py:96-97 | the loop finishes every dependency of the active key, or stops at a fault |
| `Publisher.Visitor.Visit` | scripts/publish.py:88-100 | a visit finishes a key and all it depends on, each after its own dependencies, or reports an unknown key or a cycle that is really there; the recursion ends because the keys on the way never repeat |
| `Publisher.OrderedIsAcyclic` | scripts/publish.py:83-103 | a complete order in which dependencies come first shows that no key is unknown and no dependency is circular |
| `Publisher.OrderedIssues` | scripts/publish.py:83-103 | an order is returned if and only if keys are unique, dependencies known and the graph acyclic, and it holds each issue once, after its dependencies |
| `Publisher.ListingDoesNotMatter` | scripts/publish.py:101-103 | the result, and the error, do not depend on the order in which issues are listed |

## Left out

- SetNativeBinding and RecordDecision (internal/storage/transitions.go): one row upsert and one insert behind the same guards as the modelled commands.
- CreateRunWithProfile, canonical profiles and the toolkit manifest: flat field checks before the modelled run creation.
- InsertAgyTurnAttemptAndReserveLaunch: its two statements are modelled as the two transactions they also are apart.
- claude_state.go: the codex slot logic again; only the codex version is modelled.
- HTTP handlers, routing, tokens and discovery files, apart from the connection gate, the connect and disconnect publication rules and the agy creation handler.
- SQL text, JSON, timestamps and the operating system: a transaction is one atomic step.
- SHA-256, random values and normalisation: a fingerprint is the sequence of its parts, a set digest the list it is computed from; leases, attachment ids and instances are parameters, fresh where a theorem says so.
- Overflow of row versions, generations and revisions: they are unbounded here and 64-bit in the source.
- NULL and empty text of an active key or recovery context, which the source treats alike, are one value.
- The unique index on active grants: not modelled, because fencing proves that it is never needed.
- SetCodexAttemptObservedStatus and acceptance updates are an arbitrary observation step of the codex machine.
- EventStream: a value with interleaved steps and no class, because its calls overlap; the observer's side is a plain receive.
- AgyBirth: the adapter is its creation contract (an untyped error means no child, a bound session replays without one, and a conversation it names is the one its child reported), and the child of a crashed service may still create its conversation.
- ServiceCoordinator: supervisor retry and polling loops are not modelled; a commit is opened only by a worker still registered, as the supervisor's order of calls guarantees, and quiescence rests on it. That eligibility implies no unresolved turn is not claimed: a refresh between a blocker and the worker's done may still count that turn as live.
- Hydration.HydrateState: the journal's receipts are not collected, because entries of the model always decode; what writes bindings and decisions is left out, and their foreign keys are assumed as those of the other tables.
- AgyLedger.AgyStore.ResolveAgyCreationUncertainty: the answer of the credential check is a parameter, and the journal holds the commands of this session only.
- AgyLedger.AgyStore.BindAgySessionClosingEpisode: the answer of the credential check is a parameter here too.
- Ordering.Sort: an insertion sort stands for the library sorts; only the sorted result is used.
- ProposalStore.Store.ReleaseArtifacts: the answer of the controller check is a parameter, and entries of other commands in the journal are opaque.
- Publisher: only the order is modelled, not the calls that publish.
- SessionInvariants.CommitSound: the connection projected on a session is left out of the invariant, because a lagging projection is allowed.
