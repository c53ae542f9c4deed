# OpenGeni: protocols and kernels

A Dafny model of the parts of OpenGeni whose correctness is not obvious from reading them: two
concurrent protocols over one-time tokens, the sandbox lease, the two readers of an event stream,
the tool-name mapper, the operator's session revival, and a handful of small algorithms.

| file | models |
|---|---|
| `CodexRefresh.dfy`, `CodexRefreshProofs.dfy`, `CodexRefreshTheorems.dfy` | the Codex rotating-token refresh as a state machine, its invariant, its promises over every run |
| `CodexRefreshLoss.dfy` | how a granted Codex refresh is lost and its spent token sent again |
| `CodexRefreshTokens.dfy` | which tokens a rotation stores and the next refresh sends, and what every call is told |
| `CodexResolver.dfy` | the same resolver as code, each piece between two awaits proved to be one step |
| `ConnectionRefresh.dfy`, `ConnectionRefreshTheorems.dfy`, `ConnectionResolver.dfy` | the connection token resolver, which has no lock across processes |
| `ConnectionAnswers.dfy` | what a call of it is answered, by status, expiry and scopes |
| `ConnectionRefreshLoss.dfy` | when it loses a granted rotation |
| `SandboxLease.dfy`, `SandboxResume.dfy` | the lease row, and the per-turn resume path with a failure possible at every await |
| `SandboxTransitions.dfy` | what every lease operation does to each column of the row |
| `SseRepair.dfy`, `SseAgreement.dfy`, `Text.dfy` | streaming repair, the non-streaming reader, how they agree |
| `SseEvents.dfy` | what both readers make of an event, by the type it carries |
| `SseRuntime.dfy` | a `parse` and `stringify` that meet what the agreement assumes of them |
| `ToolNameMapper.dfy`, `ToolNames.dfy` | the injective renaming of MCP tool names; what a name becomes, character by character |
| `Revival.dfy`, `RevivalReads.dfy`, `RevivalRun.dfy` | concurrent operator revivals of one session, what their preflight sees, the same as code |
| `RevivalAnswers.dfy` | what a revival is answered at each of its decisions |
| `Coalesce.dfy`, `CoalesceRuns.dfy` | coalescing of streamed deltas; which merge, and what text they carry |
| `EventSanitizer.dfy`, `EventWalks.dfy` | UTF-16 repair, the deep walk over event payloads, when walking twice is walking once |
| `EventFields.dfy` | what the walk makes of each field, by its name |
| `Catalog.dfy`, `CatalogChoices.dfy`, `CatalogProbe.dfy` | catalog normalisation, its choices, and the probing worker pool |
| `TopoSort.dfy` | publishing order |
| `MemoryBlock.dfy`, `MemoryLines.dfy` | the budgeted memory block, and its lines |
| `Pricing.dfy`, `PricingRates.dfy` | usage pricing, and its rates |

The concurrent protocols have one shape. A state machine has a step for every piece of code between
two awaits, and steps for the outside world (reconnects, crashes, other writers); `Enabled` says
when a step can happen, `Apply` what it does, and a run is any sequence of enabled steps. An
invariant is kept by every step, and the theorems follow from it for every run. A class then
holds the same state in fields: its methods are the pieces of code, each proved to be one step, and
its straight-line methods put them in the order of the source with arbitrary steps of everybody
else at every await, so that whatever they do is a stretch of a run the theorems speak about.

The database operations are modelled from their bodies: the two compare-and-sets on (id, version)
and the advisory transaction lock (packages/db/src/index.ts:6921-7010), the connection writes
(packages/db/src/index.ts:3246-3465), the lease operations (packages/db/src/index.ts:12894-13793 and
16279-16366) and
the locked admission of a user message (packages/core/src/domain/sessions.ts:663-782).

## What the code does, where that differs from what it says

- Codex resolver: the comment says the one-time refresh token is never double-spent. Apart from an
  answer that never arrives, it is sent again for the same instance when the granted tokens are
  lost before they are committed: the callback throws, the commit fails, or the process crashes
  (`ALostGrantLeavesTheSpentRow`, one run in `ATokenIsSentTwice`); and, once a grant has
  arrived, only then (`SpentTokenResentOnlyAfterLoss`).
- Connection resolver: there is no lock across processes. A granted rotation is written exactly when
  no step has moved the version of the row since the call loaded it
  (`GrantedRotationIsWrittenIffVersionKept`). An outside edit of kind, expiry, scopes or owner alone
  leaves the version as it is (packages/db/src/index.ts:3246-3286), so it does not stop the rotation,
  which writes over the expiry and over any scopes it names (`AnEditDoesNotStopTheRotation`). When
  another call's stamp moved the version, the rotation is lost for good, the row staying
  `needs_reauth` with the spent credential (`AStampLosesTheRotation`, one run in
  `AGrantedRotationCanBeLost`).
- Sandbox lease: taking the row from cold to warming does not raise the epoch, so a late rollback
  can end a rival's warming attempt (`LateRollbackEndsRivalAttempt`). On a warming row whose spawner
  did not acquire it again, the rollback ends the spawner's own attempt exactly when that attempt
  was not abandoned (`RollbackEndsOwnAttempt`).
- Sandbox lease: the eviction of viewers goes by the stored count of turns, and the comment there says
  a paying turn is never killed. That holds in every run without the standalone re-arm
  (`EvictionSparesTurns`). With it a turn can lose its box: an expired attempt whose box was recorded
  zeroes the counts and keeps the holders, and re-arming (packages/db/src/index.ts:13704-13730), which
  nothing calls at present, does not count again (`ARearmedRowForgetsItsTurn`).
- Sandbox resume: a call that attaches or re-arms establishes without the callback that records a
  created box (apps/worker/src/sandbox-resume.ts:601-641), although establishing may create one by
  cold restore (packages/runtime/src/sandbox/index.ts:847-1072). If bringing up the display then
  throws (apps/worker/src/sandbox-resume.ts:810-845), the box is left running: such a call that
  throws leaves a box open exactly when it created one (`Resume`, one run in
  `AnAttachedCallStrandsItsBox`).
- Sandbox resume: the fenced role answers only a caller that passes an expected epoch, which the
  resume path does not; given one, it answers exactly when a spawner committed since
  (`FencedExactlyWhenSuperseded`). It registers no holder, although the comment at
  apps/worker/src/sandbox-resume.ts:471-473 says one was just registered.
- Sandbox resume, selfhosted: a call that throws keeps its holder exactly when the commit call
  itself throws (`AcquireSelfhosted`).
- Event streams: a block whose payload is JSON `null` makes the streaming repair fail, and the
  non-streaming reader passes over it (`RepairFailsOnNullEvents`, `NullEventsSeparateTheReaders`).
- Tool names: the mapper is called idempotent across listings. A tool keeps its name exactly when it
  was the first to claim it; a collided one gets a fresh suffix every time it is listed
  (`SameNameOnlyForTheFirstClaimant`, `ACollidedToolIsRenamedAgain`). All its names keep working.
- Coalesced pages: coalescing again keeps `coalescedUntil` exactly where a run ends at the sequence
  it begins with (`PagesForgetWhereRunsEnd`), so a run of two deltas loses it
  (`TwoDeltasLoseTheirEnd`).
- Event payloads: the walk is idempotent exactly on payloads in which repairing the keys changes the
  treatment of no surviving field (`IdempotentExactlyWhenSteady`). Payloads with clean keys are among
  them (`CleanKeysAreSteady`); a field named `token` with a NUL inside is not: the first walk keeps
  its value and the second redacts it (`ASplitTokenNeedsTwoWalks`).
- Revival: the preflight reads the event and the turns side by side, so on a free session a run can
  be refused for the winner's own turn instead of being told of the duplicate: exactly when it read
  the event before the winner's insert and the turns with the turn in them
  (`BusyExactlyWhenReadsStraddle`, one run in `TheWinnersTurnLooksBusy`).
- Revival: a run whose own insert committed and which then meets a 23505 or a 409 reports its own
  event as the duplicate of another run (`TheWinnerMayReportItself`).

## Model

| member | source | states |
|---|---|---|
| `CodexRefreshTheorems.PersistedOnceAndNeverSentAgain` | packages/db/src/codex-token-resolver.ts:94-193 | in every run of any number of calls in any number of processes, once a refresh of a credential instance (id, version) is committed, no later step commits another or sends that instance's refresh token |
| `CodexRefreshTheorems.SpentTokenResentOnlyAfterLoss` | packages/db/src/codex-token-resolver.ts:44-51 | after a grant arrived, the spent token goes out again only if a crash or a database failure dropped the granted tokens in between |
| `CodexRefreshTokens.ARotationStoresWhatWasGranted` | packages/db/src/codex-token-resolver.ts:99-119 | in every run, from the grant through any interleaving to the commit that stores a rotation: the row is active at the next version, its access, refresh and id token each the one the provider granted, or the held one where it granted none, and the call is given that access token |
| `CodexRefreshTokens.TheNextRefreshSendsWhatWasGranted` | packages/db/src/codex-token-resolver.ts:94-170 | after that commit, whatever runs, a refresh of the stored instance sends the refresh token that was granted then, or the one held before if none was |
| `CodexRefreshTokens.LoadTells` | packages/db/src/codex-token-resolver.ts:195-199 | without a row a call is told to log in again; with one it goes on, whatever the status |
| `CodexRefreshTokens.AnswersTell` | packages/db/src/codex-token-resolver.ts:137-209 | a fresh token is returned as loaded and a stale one joins the refresh in flight for its instance or leads one; of the answers of the provider exactly a permanent refusal leads to the stamp, and exactly a transient failure fails |
| `CodexRefreshTokens.RereadTells` | packages/db/src/codex-token-resolver.ts:163-172 | under the lock a call refreshes exactly when the row is active at the version it loaded, is told to log in exactly when no active row is left, and otherwise takes the stored token |
| `CodexRefreshTokens.ReloadTells` | packages/db/src/codex-token-resolver.ts:120-131 | after a missed write a call takes the stored token of an active row, and without one is told to log in |
| `CodexRefreshTokens.EndsTell` | packages/db/src/codex-token-resolver.ts:160-190 | what each end of a refresh tells: a time-out, a thrown error and a failed commit fail, a refusal asks for a login, and what the committed callback returned reaches every call that joined it |
| `CodexRefreshLoss.ALostGrantLeavesTheSpentRow` | packages/db/src/codex-token-resolver.ts:94-150 | whichever way granted tokens are lost before they are committed, by a callback that throws, a commit that fails or a crash, the row stays committed at the spent instance, the lock gets free, and a surviving call queued for that instance finds it current and can send the spent token |
| `CodexRefreshLoss.ATokenIsSentTwice` | packages/db/src/codex-token-resolver.ts:94-150 | a concrete run of two processes from the connect to the second sending of one token: a grant arrives, the callback throws, and the queued call sends the same token |
| `CodexRefreshTheorems.SingleFlight` | packages/db/src/codex-token-resolver.ts:152-193 | one lock holder per credential across all processes, one leader per instance within a process, and a joined call waits for a call about its own credential |
| `CodexRefreshTheorems.OnlyTheRefusedInstanceIsStamped` | packages/db/src/codex-token-resolver.ts:137-149 | a committed row turns `needs_relogin` only by an outside quarantine, or by the commit of a call whose refresh of exactly that still-active instance the provider refused; nothing but its status changes |
| `CodexRefreshTheorems.RefusalReachesTheCommittedRow` | packages/db/src/codex-token-resolver.ts:173-181 | when the provider refuses while the row is current, the status is in the committed row after the transaction ends, whatever runs in between; a rollback would have left it active |
| `CodexRefreshTheorems.StagedRowWaits` | packages/db/src/index.ts:6963-6976 | what a callback wrote under the lock stays staged, and the row it covers unchanged, until its own transaction ends |
| `CodexRefreshTheorems.ReturnedTokensWereCommitted` | packages/db/src/codex-token-resolver.ts:109-136 | a token a call resolves to was carried by a committed row of its credential |
| `CodexRefreshTheorems.Reachable` | packages/db/src/codex-token-resolver.ts:15-18 | the invariant tying locks, in-flight entries, staged and committed rows to the calls holds in every reachable state |
| `CodexRefreshTheorems.StepKeeps` | packages/db/src/codex-token-resolver.ts:94-209 | each of the twenty kinds of step keeps that invariant |
| `CodexResolver.Resolver.LoadCredential` | packages/db/src/codex-token-resolver.ts:195-199 | is the load step: the row as a snapshot, or relogin when none is connected |
| `CodexResolver.Resolver.DoRefresh` | packages/db/src/codex-token-resolver.ts:154-208 | is the decide step: return a fresh token, join the in-flight refresh of this instance in this process, or lead one |
| `CodexResolver.Resolver.AcquireLock` | packages/db/src/codex-token-resolver.ts:160-161 | is the lock step |
| `CodexResolver.Resolver.RereadUnderLock` | packages/db/src/codex-token-resolver.ts:163-172 | is the re-read step: fail when nothing active is left, adopt a moved version, or go ahead |
| `CodexResolver.Resolver.TakeAnswer` | packages/db/src/codex-token-resolver.ts:99-104 | is the receive step, so that the tokens it goes on with are those `ARotationStoresWhatWasGranted` speaks of |
| `CodexResolver.Resolver.RecordRefresh` | packages/db/src/index.ts:6921-6954 | is the persist step: the row is staged at the next version only if (id, version) still match an active row |
| `CodexResolver.Resolver.ReloadAfterMiss` | packages/db/src/codex-token-resolver.ts:120-131 | is the reload step after a missed write |
| `CodexResolver.Resolver.StampNeedsRelogin` | packages/db/src/codex-token-resolver.ts:137-149 | is the stamp step: the status is staged only if (id, version) still match an active row |
| `CodexResolver.Resolver.EndTransaction` | packages/db/src/index.ts:6963-6976 | is the commit or the rollback step: the staged row becomes visible or is dropped, and the lock is free |
| `CodexResolver.Resolver.Finally` | packages/db/src/codex-token-resolver.ts:186-190 | is the settle step: the in-flight entry goes if it is still this call's |
| `CodexResolver.Resolver.PerformRefresh` | packages/db/src/codex-token-resolver.ts:94-150 | from a matched re-read, through any interference and any throw, the callback ends with an outcome to commit |
| `CodexResolver.Resolver.RefreshUnderLock` | packages/db/src/codex-token-resolver.ts:160-190 | a leader always settles its promise, whether the lock, the callback or the commit fails |
| `CodexResolver.Resolver.Resolve` | packages/db/src/codex-token-resolver.ts:195-209 | the whole call is a stretch of a run of the state machine, it settles unless it still waits for the promise it joined, and a token it returns was committed for its credential |
| `ConnectionRefreshTheorems.AtMostOneRefreshPersists` | packages/db/src/connection-token-resolver.ts:133-173 | with no lock, in any interleaving, at most one refresh per (id, version) is written |
| `ConnectionRefreshTheorems.LosersWriteNoBytes` | packages/db/src/connection-token-resolver.ts:153-172 | through any run the stored bytes of a credential stay, unless a persist whose compare-and-set matched, or a change from outside that moved the version, was among its steps |
| `ConnectionRefreshTheorems.LosersAdoptOrFail` | packages/db/src/connection-token-resolver.ts:164-172 | a refresher whose write missed ends with the row that is stored, shared and active then, or fails with no permanent error because there is none |
| `ConnectionRefreshTheorems.OnlyARejectedGrantNeedsReauth` | packages/db/src/connection-token-resolver.ts:207-231 | a resolver step makes a row `needs_reauth` only at exactly the (id, version) that was loaded, still active with the credential that was loaded, and only after an earlier step of the run brought a 4xx other than 408 and 429 for the refresh of that instance; all but status and version is kept |
| `ConnectionRefreshTheorems.RejectionIsAPermanentAnswer` | packages/db/src/connection-token-resolver.ts:247-255 | over every run, an instance is recorded as rejected exactly when the endpoint answered its refresh with a 4xx other than 408 and 429 |
| `ConnectionRefreshTheorems.DeadRowsStayDead` | packages/db/src/connection-token-resolver.ts:133-173 | no resolver step changes a row that is not active |
| `ConnectionRefreshTheorems.HeadersWereStoredActive` | packages/db/src/connection-token-resolver.ts:95-131 | headers handed to a caller carry a credential its row stored while active |
| `ConnectionAnswers.HeadersCarryTheScopes` | packages/db/src/connection-token-resolver.ts:95-131 | in every run, headers are answered only from a row that was stored while active, with that credential and with every scope the caller asked for |
| `ConnectionAnswers.DecideAnswers` | packages/db/src/connection-token-resolver.ts:193-230 | a loaded row that is not active is answered by its status and expiry; an active OAuth row is refreshed exactly when forced or within a minute of its expiry; any other active row answers its credential exactly when it has every wanted scope, and `insufficient_scope` otherwise |
| `ConnectionAnswers.ContinueAnswers` | packages/db/src/connection-token-resolver.ts:206-231 | the same of a refreshed row; of failures exactly a 4xx other than 408 and 429 leads to the stamp, every other one ends as `refresh_failed` and leaves the rows as they are |
| `ConnectionAnswers.RejectionsAre` | packages/db/src/connection-token-resolver.ts:247-255 | an instance is recorded as rejected for exactly a 4xx other than 408 and 429 |
| `ConnectionAnswers.RefreshesEnd` | packages/db/src/connection-token-resolver.ts:133-191 | a refresh without a key fails; the leader settles with what its refresh ended with, and every joined call with the same |
| `ConnectionAnswers.OtherAnswers` | packages/db/src/connection-token-resolver.ts:193-229 | no readable row is `missing_connection`, and a call that stamps, or fails to, ends as `refresh_failed` |
| `ConnectionRefreshLoss.AGrantedRotationCanBeLost` | packages/db/src/connection-token-resolver.ts:133-191 | a concrete run of two processes after which the granted tokens are nowhere and the row is `needs_reauth` |
| `ConnectionRefreshLoss.GrantedRotationIsWrittenIffVersionKept` | packages/db/src/connection-token-resolver.ts:133-173 | in every run, a granted rotation is written exactly when no step since the call loaded the row moved its version, by a persist, a stamp or an outside change of status or credential; otherwise its write misses and no row changes; what it writes over edits made in between |
| `ConnectionRefreshLoss.AnEditDoesNotStopTheRotation` | packages/db/src/index.ts:3246-3286 | an outside edit that keeps the version changes the row, and a persist that would have hit still does |
| `ConnectionRefreshLoss.AStampLosesTheRotation` | packages/db/src/connection-token-resolver.ts:207-231 | when what moved the version is another call's stamp, the row ends `needs_reauth` with the spent credential, and stays so through every later step until it gets a new version from outside |
| `ConnectionRefreshTheorems.StepKeeps` | packages/db/src/connection-token-resolver.ts:133-231 | every step, outside edits without a new version among them, keeps the invariant tying in-flight entries, rows and snapshots to the calls |
| `ConnectionResolver.Resolver.RefreshSingleFlight` | packages/db/src/connection-token-resolver.ts:175-205 | is the decide step, whose answers `DecideAnswers` gives: status, expiry, scopes, then join or lead the refresh of this instance in this process |
| `ConnectionResolver.Resolver.RecordRefresh` | packages/db/src/index.ts:3398-3437 | is the persist step: version, credential, expiry and granted scopes change together, only over the active (id, version) |
| `ConnectionResolver.Resolver.LoadCurrent` | packages/db/src/connection-token-resolver.ts:154-163 | is the step that reads the row back after a successful write |
| `ConnectionResolver.Resolver.LoadWinner` | packages/db/src/connection-token-resolver.ts:164-172 | is the step that adopts the active row, or fails |
| `ConnectionResolver.Resolver.TakeRejection` | packages/db/src/connection-token-resolver.ts:247-255 | is the step that ends a refresh with the endpoint's failure |
| `ConnectionResolver.Resolver.Finally` | packages/db/src/connection-token-resolver.ts:184-188 | is the settle step |
| `ConnectionResolver.Resolver.AfterRefresh` | packages/db/src/connection-token-resolver.ts:206-231 | is the step every caller takes with the settled promise, whose answers `ContinueAnswers` gives |
| `ConnectionResolver.Resolver.StampNeedsReauth` | packages/db/src/index.ts:3439-3465 | is the stamp step: status and version change only at the loaded (id, version) |
| `ConnectionResolver.Resolver.Resolve` | packages/db/src/connection-token-resolver.ts:193-233 | the whole call is a stretch of a run, it settles unless it still waits for the promise it joined, and headers it returns are of a row that was stored while active with every scope the caller asked for |
| `SandboxLease.OneCommitPerEpoch` | packages/db/src/index.ts:13059-13108 | in any run of lease operations at most one commit succeeds per expected epoch |
| `SandboxLease.NoSecondSpawner` | packages/db/src/index.ts:12894-13055 | between two spawners the first attempt was abandoned, or the second takes the row over as its sole holder |
| `SandboxLease.HolderPinsWarmBox` | packages/db/src/index.ts:13377-13513 | while a turn is registered, whatever all others, the reaper and the over-limit eviction do, a warm row that counts its turns stays warm with its epoch and box; so it does for a viewer that is not evicted |
| `SandboxLease.EvictionSparesTurns` | packages/db/src/index.ts:16279-16366 | after any run without the standalone re-arm, the over-limit eviction drains a warm row exactly when no turn holds it |
| `SandboxLease.CountedWithoutRearm` | packages/db/src/index.ts:13430-13483 | without the standalone re-arm a warming or warm row always counts its turns right |
| `SandboxLease.ARearmedRowForgetsItsTurn` | packages/db/src/index.ts:13704-13730 | a concrete run with it in which a warm row with a registered turn counts none and is drained by the eviction |
| `SandboxLease.EpochNeverFalls` | packages/db/src/index.ts:13059-13108 | the epoch never falls in any run |
| `SandboxLease.RollbackEndsOwnAttempt` | packages/db/src/index.ts:13172-13214 | the attempt in progress is still the spawner's own if it was not abandoned; and on a warming row that the spawner has not acquired again, exactly then |
| `SandboxLease.LateRollbackEndsRivalAttempt` | packages/db/src/index.ts:13172-13214 | a concrete run in which a late rollback ends a rival's attempt at the same epoch |
| `SandboxLease.FencedExactlyWhenSuperseded` | packages/db/src/index.ts:12894-13055 | after any run of lease operations, a turn that passes the epoch it read is fenced off from the warm row exactly when a spawner committed in between, and leaves the row as it is; a caller that passes no epoch is never fenced |
| `SandboxTransitions.ClaimedRows` | packages/db/src/index.ts:12894-13513 | exactly which operation takes a cold row to warming and a warming one to warm, cold or draining |
| `SandboxTransitions.LiveRows` | packages/db/src/index.ts:12894-13793 | exactly which operation takes a warm or draining row to each other state |
| `SandboxTransitions.Epochs` | packages/db/src/index.ts:13059-13108 | exactly the commit of a warming row at its epoch raises the epoch, by one |
| `SandboxTransitions.Boxes` | packages/db/src/index.ts:12894-13793 | which operations set the pointer to the box, which clear it, and that all others keep it, an expired attempt, a reap and an eviction among them |
| `SandboxTransitions.Holders` | packages/db/src/index.ts:12894-13513 | which operations add and remove holders, and that no other touches holders or counts |
| `SandboxTransitions.Roles` | packages/db/src/index.ts:12894-13055 | exactly when an acquire makes its caller the spawner, refuses it, re-arms, or fences it off |
| `SandboxTransitions.Counts` | packages/db/src/index.ts:12894-13513 | after which operations the counts are those of the holders, and which zero them |
| `SandboxResume.TurnResume.Resume` | apps/worker/src/sandbox-resume.ts:394-641 | for every role, every failure point and every handle the providers give: a call that throws has no holder and no timer, and released exactly once if it was registered; a spawner that throws leaves no box it did not try to stop, and rolls the row back exactly when it was not superseded and either created no box, or the call its handle offers to stop it did not throw, or there was nothing to do but close what was closed; any other call that throws leaves a box open exactly when establishing created one, the display step having failed; a call that returns has released nothing and holds a warm row at the epoch it returns, and a spawner that returns published its box on the row; without an expected epoch no call is fenced |
| `SandboxResume.TurnResume.ResumeAsSpawner` | apps/worker/src/sandbox-resume.ts:481-593 | the exact cleanup after the try block: stop the box by the means its handle offers, roll back exactly if there was none or it stopped, and the attempt was not superseded, release; a time-out message makes the error a warming time-out; a returned box was published by the epoch compare-and-set |
| `SandboxResume.TurnResume.Spawn` | apps/worker/src/sandbox-resume.ts:484-564 | the try block: at most the last created box is left to stop, it never rolls back, and it releases only when superseded at commit |
| `SandboxResume.TurnResume.Establish` | packages/runtime/src/sandbox/index.ts:847-1018 | creates any number of boxes one after another, leaving open at most the one the callback saw last |
| `SandboxResume.TurnResume.RecordCreated` | apps/worker/src/sandbox-resume.ts:501-535 | a box's id is recorded exactly when the row it finds is warming at the epoch; otherwise the attempt is superseded |
| `SandboxResume.TurnResume.CommitWarm` | packages/db/src/index.ts:13059-13108 | commits exactly when the row it finds is warming at the expected epoch |
| `SandboxResume.TurnResume.FailWarming` | packages/db/src/index.ts:13172-13214 | rolls back exactly when the row it finds is warming at the expected epoch |
| `SandboxResume.TurnResume.Release` | apps/worker/src/sandbox-resume.ts:406-424 | takes effect once, however often it is called, and stops the liveness timer |
| `SandboxResume.TurnResume.Terminate` | apps/worker/src/sandbox-resume.ts:181-220 | answers true without a box; otherwise one attempt is on record, by the first of delete, terminate, kill and close that the handle offers, and the answer is true exactly when that call did not throw or the close found the session closed, false when the handle offers nothing |
| `SandboxResume.TurnResume.WaitForWarm` | apps/worker/src/sandbox-resume.ts:745-806 | ends with the epoch of a warm row, supersession by a cold or draining one, supersession at epoch 0 when the row has vanished, or, only on a warming row and only after the budget, the time-out; in at most one read per 250 milliseconds of the budget |
| `SandboxResume.TurnResume.Attach` | apps/worker/src/sandbox-resume.ts:601-630 | an attached call keeps its holder and returns the epoch of a warm row exactly when it came to establish, got a box and the display step worked; the box a cold restore created stays open either way |
| `SandboxResume.TurnResume.EstablishAttached` | packages/runtime/src/sandbox/index.ts:847-1072 | reattaches, refuses, or cold-restores through any number of replaced boxes; exactly the last box it creates is left open, and none is recorded |
| `SandboxResume.AnAttachedCallStrandsItsBox` | apps/worker/src/sandbox-resume.ts:601-641 | one run of an attached call that throws with a box it created still running |
| `SandboxResume.OneSpawnerReturnsPerEpoch` | apps/worker/src/sandbox-resume.ts:481-564 | of the calls whose lease operations are stretches of one run of a row, at most one returns as spawner per expected epoch: what two of them published is one operation with one box |
| `SandboxResume.TurnResume.AcquireSelfhosted` | apps/worker/src/sandbox-resume.ts:659-743 | a call that throws has released its holder exactly once unless the commit call itself threw, and then it has not; a call that returns has released nothing |
| `SseRepair.StreamingIsChunkInvariant` | packages/codex/src/fetch.ts:355-383 | however the decoded text is cut into chunks, the output, the items and whether the stream fails are those of splitting the whole text at leftmost blank lines, patching block by block with one list of items, and rejoining |
| `SseRepair.StreamRepair.Transform` | packages/codex/src/fetch.ts:364-373 | buffers a chunk and emits the complete blocks |
| `SseRepair.StreamRepair.EmitBlock` | packages/codex/src/fetch.ts:367-372 | one round of the loop: the block is cut off, patched and enqueued |
| `SseRepair.StreamRepair.Flush` | packages/codex/src/fetch.ts:374-378 | emits what is left as the last block |
| `SseRepair.StreamRepair.PatchBlock` | packages/codex/src/fetch.ts:386-419 | patchSseBlock with its push onto the items, whose effect on each type of event `EndsAreFilled`, `ItemsAreCollected`, `OthersPass` and `NullThrows` give |
| `SseRepair.DrainSplits` | packages/codex/src/fetch.ts:364-373 | draining a longer buffer is draining the shorter one and then feeding the rest |
| `SseRepair.DrainIsRepair` | packages/codex/src/fetch.ts:364-378 | draining and finishing a text is repairing its blocks |
| `SseAgreement.TheReadersAgree` | packages/codex/src/fetch.ts:303-419 | with one terminal event whose output is empty, all other blocks are unchanged and the repaired response equals the object of sseToJsonResponse exactly when no item comes after the terminal event |
| `SseAgreement.RepairKeepsTheAnswer` | packages/codex/src/fetch.ts:303-419 | for every text without null events, repairing keeps the number of blocks, does not change what sseToJsonResponse answers, and does nothing when applied again |
| `SseRuntime.ARuntimeIsFaithful` | packages/codex/src/fetch.ts:303-419 | what the agreement asks of `JSON.parse` and `JSON.stringify`, that every value is written as one trimmed line that reads back, is met by a runtime written out here, so the theorems that ask it are not empty |
| `SseAgreement.SseToJson` | packages/codex/src/fetch.ts:303-348 | the loop over the blocks computes the answer that `TheLastEndIsAnswered` and `NoEndAnswersEmpty` describe |
| `SseEvents.EndsAreFilled` | packages/codex/src/fetch.ts:405-417 | after items, an event whose `type` is "response.completed", "response.done" or "response.incomplete" and whose `response` is there without output is rewritten to the same event with the items as `response.output` and all else kept |
| `SseEvents.ItemsAreCollected` | packages/codex/src/fetch.ts:401-404 | a "response.output_item.done" event passes unchanged and adds its `item` |
| `SseEvents.OthersPass` | packages/codex/src/fetch.ts:386-418 | every other block passes unchanged and adds nothing: no JSON, another type, an item event without item, an end that is filled, has no response or comes before any item |
| `SseEvents.NullThrows` | packages/codex/src/fetch.ts:392-401 | patching throws exactly on a payload that is JSON `null` |
| `SseEvents.TheStreamIsFilled` | packages/codex/src/fetch.ts:355-419 | for a whole text: every end of a response without output comes out with all items of the blocks before it |
| `SseEvents.TheLastEndIsAnswered` | packages/codex/src/fetch.ts:303-348 | the non-streaming reader answers the response of the last event that ends one, with all items of the text as its output if there are any and its other fields kept |
| `SseEvents.NoEndAnswersEmpty` | packages/codex/src/fetch.ts:330-347 | with no event that ends a response it answers `{}` |
| `SseEvents.LineByLine` | packages/codex/src/fetch.ts:387-391 | the payload is made of the lines that start with `data:`, without it and trimmed, and of no others |
| `SseEvents.BothEndsTrimmed` | packages/codex/src/fetch.ts:309-313 | trimming takes all white space off both ends and none from inside |
| `SseAgreement.RepairFailsOnNullEvents` | packages/codex/src/fetch.ts:386-405 | the stream fails exactly when some block's payload is JSON null; otherwise it rejoins the patched blocks |
| `SseAgreement.NullEventsSeparateTheReaders` | packages/codex/src/fetch.ts:317-334 | on a lone null event the stream fails and sseToJsonResponse answers `{}` |
| `SseAgreement.ANullEvent` | packages/codex/src/fetch.ts:386-405 | the block `data: null` is such an event |
| `SseAgreement.PatchedBlockReads` | packages/codex/src/fetch.ts:406-418 | a rewritten block reads back as the same terminal event with the collected items as its output and keeps its other lines; every other block is unchanged |
| `SseAgreement.PatchedBlockIsFramed` | packages/codex/src/fetch.ts:412-417 | a rewritten block is still one block of the stream |
| `SseAgreement.PatchingTwice` | packages/codex/src/fetch.ts:386-419 | patching the patched blocks changes nothing |
| `Text.SplitFramed` | packages/codex/src/fetch.ts:309-309 | splitting at blank lines undoes joining blocks that hold none and do not end a line |
| `Text.JoinBlocks` | packages/codex/src/fetch.ts:309-309 | joining undoes splitting at blank lines |
| `ToolNameMapper.Mapper.Sanitize` | packages/codex/src/mcp-sanitize.ts:72-97 | answers the base name, or the first free suffixed one when another original holds it, and records the reverse mapping; the search ends |
| `ToolNameMapper.FindFree` | packages/codex/src/mcp-sanitize.ts:83-93 | the do-while loop ends at the first free candidate |
| `ToolNameMapper.FirstFreeIsLeast` | packages/codex/src/mcp-sanitize.ts:83-93 | the search ends at the least free number, at most two more than there are used names |
| `ToolNameMapper.CandidatesDiffer` | packages/codex/src/mcp-sanitize.ts:86-92 | different numbers give different candidates, although the base is cut to keep the cap |
| `ToolNameMapper.PickFits` | packages/codex/src/mcp-sanitize.ts:42-97 | every returned name is non-empty, legal, at most 52 characters (64 with the runtime prefix), and is free or already this original's |
| `ToolNameMapper.NamesFit` | packages/codex/src/mcp-sanitize.ts:72-97 | after any listing every name handed out is legal and fits |
| `ToolNameMapper.NamesPersist` | packages/codex/src/mcp-sanitize.ts:94-103 | every name ever handed out still reverses to its original after any listing |
| `ToolNameMapper.NamesAreInjective` | packages/codex/src/mcp-sanitize.ts:72-97 | distinct originals never share a name, within a listing or across listings |
| `ToolNameMapper.SameNameOnlyForTheFirstClaimant` | packages/codex/src/mcp-sanitize.ts:62-66 | a tool listed again after anything else gets the same name exactly when no other original had claimed its base name |
| `ToolNameMapper.ACollidedToolIsRenamedAgain` | packages/codex/src/mcp-sanitize.ts:62-66 | listing `a.b` and `a_b` twice renames the second |
| `ToolNameMapper.Mapper.SanitizeTool` | packages/codex/src/mcp-sanitize.ts:126-156 | one record: the output schema goes, the connector namespace is noted, the name is mapped, the rest is kept |
| `ToolNameMapper.Mapper.SanitizeTools` | packages/codex/src/mcp-sanitize.ts:114-158 | the records are rewritten in place, in order, each with the names known when its turn comes |
| `ToolNameMapper.Mapper.RemapToolCall` | packages/codex/src/mcp-sanitize.ts:239-258 | none unless it is a tools/call on a known name that differs from its original |
| `ToolNameMapper.ToolsCallReachesTheOriginal` | packages/codex/src/mcp-sanitize.ts:114-258 | whatever is listed before and later, a tools/call on a listed name reaches the server under the original name, and listing keeps all of a tool but its name and output schema |
| `ToolNames.BaseIs` | packages/codex/src/mcp-sanitize.ts:44-79 | a name of at most 52 characters keeps each digit, letter, hyphen and underscore and has an underscore for each other character; a longer one is cut to 52 with the hash of the original at its end; the empty one is `tool` |
| `ToolNames.PickIs` | packages/codex/src/mcp-sanitize.ts:79-97 | the base name when it is free or already this original's, else the base with the least free number from 2 on |
| `ToolNames.SuffixedIs` | packages/codex/src/mcp-sanitize.ts:86-92 | a suffixed name is the base, cut only as far as the cap needs, an underscore and the number |
| `ToolNames.NamespaceIs` | packages/codex/src/mcp-sanitize.ts:145-151 | the namespace of a name is what is before its first dot, if that is anything |
| `ToolNames.ListedToolIs` | packages/codex/src/mcp-sanitize.ts:126-156 | a record loses its output schema and has its name mapped and learned, and its namespace noted; nothing else of it changes, and what is no record is left alone |
| `ToolNames.RemapIs` | packages/codex/src/mcp-sanitize.ts:239-258 | exactly a `tools/call` on a known name that stands for another is rewritten, and only in its name |
| `TopoSort.TopologicallySortedPackages` | scripts/publishable-workspaces.ts:115-147 | throws exactly when the dependency graph restricted to the selection has a cycle; otherwise returns each package exactly once with every selected dependency before it |
| `TopoSort.Sorter.Visit` | scripts/publishable-workspaces.ts:124-141 | ends; finishes the package and keeps the order sound, or there is a cycle |
| `TopoSort.OrderedIsAcyclic` | scripts/publishable-workspaces.ts:115-147 | a complete order rules a cycle out |
| `TopoSort.CycleFound` | scripts/publishable-workspaces.ts:128-130 | reaching a package whose visit is in progress closes a cycle |
| `MemoryBlock.RenderWorkspaceMemoryBlock` | packages/db/src/memory-domain.ts:173-214 | nothing exactly when every record is episodic; otherwise the block, whose lines `TheLinesOfTheBlock` gives and whose own estimate is within the budget |
| `MemoryLines.TheLinesOfTheBlock` | packages/db/src/memory-domain.ts:179-214 | the block is the join of the header and, for each kind in turn with records that fit at their turn, an empty line, its title and one line `- [first eight of the id] text` for each of them in priority order, and nothing else |
| `MemoryLines.FitsExactly` | packages/db/src/memory-domain.ts:184-199 | a record fits exactly when the estimate so far, its line and the title it may introduce, each at four characters a token rounded up, and their newlines stay within 2500 |
| `MemoryBlock.BlockFits` | packages/db/src/memory-domain.ts:179-213 | the estimate of the regrouped block never exceeds the sum of the pieces the loop counted, and that sum never exceeds the budget |
| `MemoryBlock.SkippedRecordsDoNotFit` | packages/db/src/memory-domain.ts:184-200 | a skipped record does not fit when the loop ends, even if a later record introduced its section |
| `MemoryBlock.SelectedInOrder` | packages/db/src/memory-domain.ts:184-200 | the selected records are those that fit when their turn came, at increasing positions |
| `MemoryBlock.RenderedOnceEach` | packages/db/src/memory-domain.ts:202-212 | regrouping puts every selected record into exactly one section, once |
| `MemoryBlock.SectionKeepsOrder` | packages/db/src/memory-domain.ts:203-211 | within a section the selected records keep priority order (their lines do by `TheLinesOfTheBlock`) |
| `MemoryBlock.Account` | packages/db/src/memory-domain.ts:181-199 | the running estimate is the header, the entries and the titles of the sections begun |
| `MemoryBlock.GreedyFill` | packages/db/src/memory-domain.ts:181-200 | the loop selects what the recursive fill selects |
| `Coalesce.CoalesceSessionEventDeltas` | packages/events/src/coalesce.ts:18-82 | the loop with its open run computes the recursive run-merging |
| `Coalesce.OthersSurvive` | packages/events/src/coalesce.ts:47-52 | other events survive unchanged and in order |
| `Coalesce.CoalescingGlues` | packages/events/src/coalesce.ts:54-78 | keys and texts of the outputs are those of the runs, texts being exact concatenations |
| `Coalesce.NothingLeftToMerge` | packages/events/src/coalesce.ts:57-65 | no two adjacent outputs are mergeable |
| `Coalesce.IntervalsAreOrdered` | packages/events/src/coalesce.ts:22-45 | for increasing sequences the intervals [sequence, coalescedUntil] are ordered and disjoint |
| `Coalesce.IntervalsCoverTheDeltas` | packages/events/src/coalesce.ts:22-45 | the sequence of every delta is in an interval of its own key |
| `Coalesce.IntervalsCoverOnlyDeltas` | packages/events/src/coalesce.ts:22-45 | the sequence of no other event is in any interval |
| `Coalesce.PagesCoalesceTogether` | packages/events/src/coalesce.ts:18-82 | coalescing pages separately and then together gives the keys and texts of coalescing at once |
| `Coalesce.PagesForgetWhereRunsEnd` | packages/events/src/coalesce.ts:24-45 | for every list of events and every output, a second coalescing keeps where the output ends exactly when it ends at the sequence it begins with |
| `Coalesce.TwoDeltasLoseTheirEnd` | packages/events/src/coalesce.ts:22-45 | two mergeable deltas of different sequences coalesce to one output that ends at the second, and after coalescing again at the first |
| `Coalesce.MergedReadsBack` | packages/events/src/coalesce.ts:26-45 | a merged event is a delta of the same key, sequence and other fields, whose text reads back |
| `CoalesceRuns.MergesExactlyWhen` | packages/events/src/coalesce.ts:54-101 | two events merge exactly when both are of one of the three delta types and of one turn and, if sandbox output, agree on `name`, `stream` and `commandId` |
| `CoalesceRuns.TwoEvents` | packages/events/src/coalesce.ts:47-82 | two events coalesce to one exactly when they merge |
| `CoalesceRuns.MessageText` | packages/events/src/coalesce.ts:103-119 | the text of a message delta is its `text`, if that is a string |
| `CoalesceRuns.SandboxText` | packages/events/src/coalesce.ts:108-116 | the text of a sandbox delta is its `chunk`, else its `text`, else its `output` |
| `CoalesceRuns.ReasoningTextIs` | packages/events/src/coalesce.ts:121-136 | the text of a reasoning delta is its `text`, else the texts of the parts of its raw item |
| `CoalesceRuns.PartsAre` | packages/events/src/coalesce.ts:130-135 | the texts of parts are joined in order, a part without one adding nothing |
| `CoalesceRuns.MergedPayload` | packages/events/src/coalesce.ts:26-43 | a merged event carries the text as `chunk` or `text`, the last sequence as `coalescedUntil`, and of sandbox output the fields its deltas share, and nothing else |
| `EventSanitizer.SanitizeEventString` | packages/db/src/event-payload-sanitizer.ts:42-83 | the scan and the rebuild loop compute: decode with U+FFFD for ill-formed units, drop NUL, encode |
| `EventSanitizer.RepairedIsClean` | packages/db/src/event-payload-sanitizer.ts:56-82 | the result is well-formed UTF-16 (section 3.9 of the Unicode Standard) without NUL |
| `EventSanitizer.UnchangedIffClean` | packages/db/src/event-payload-sanitizer.ts:37-54 | the input comes back unchanged exactly when it is already clean |
| `EventSanitizer.RepairIsIdempotent` | packages/db/src/event-payload-sanitizer.ts:42-83 | repairing twice is repairing once |
| `EventSanitizer.EveryStringIsClean` | packages/db/src/event-payload-sanitizer.ts:91-155 | for every payload tree, every string and every key of the result is clean |
| `EventSanitizer.OneWalkSettles` | packages/db/src/event-payload-sanitizer.ts:91-162 | on trees with clean keys the result has distinct clean keys, every sensitive field redacted, and no header fields on listed servers |
| `EventSanitizer.WalkIsIdempotent` | packages/db/src/event-payload-sanitizer.ts:91-155 | the deep walk is idempotent on every tree whose keys are clean |
| `EventSanitizer.UncleanKeysNeedTwoWalks` | packages/db/src/event-payload-sanitizer.ts:99-119 | one family on which it is not: a field whose key becomes sensitive by being repaired is kept by the first walk and redacted by the second |
| `EventWalks.IdempotentExactlyWhenSteady` | packages/db/src/event-payload-sanitizer.ts:91-155 | for every payload tree, walking twice is walking once exactly when repairing the keys changes the treatment of no field that survives, which is decided on the payload before the walk |
| `EventWalks.CleanKeysAreSteady` | packages/db/src/event-payload-sanitizer.ts:91-155 | payloads with clean keys meet that condition, whatever their strings |
| `EventWalks.SourceNamesAreClean` | packages/db/src/event-payload-sanitizer.ts:21-37 | the names of server lists and header fields in the source are clean, as the exact condition assumes |
| `EventWalks.ASplitTokenNeedsTwoWalks` | packages/db/src/event-payload-sanitizer.ts:91-119 | with the field names of the source, a field `token` with a NUL inside does not: the first walk keeps its value under `token`, the second redacts it |
| `EventSanitizer.ServersListTheirHeaderNames` | packages/db/src/event-payload-sanitizer.ts:121-162 | a listed server keeps the names of its headers, repaired and sorted, plain headers before encrypted ones |
| `EventSanitizer.SourceNamesAreOk` | packages/db/src/event-payload-sanitizer.ts:21-37 | the field names in the source meet what the walk's lemmas assume |
| `EventFields.SensitiveExactlyWhen` | packages/db/src/event-payload-sanitizer.ts:21-35 | a field is sensitive exactly when its name in lower case spells one of thirteen names with any hyphens and underscores in between |
| `EventFields.FieldIs` | packages/db/src/event-payload-sanitizer.ts:108-119 | the two server lists are walked server by server, every other sensitive field becomes `[redacted]`, and all else is walked |
| `EventFields.ValueIs` | packages/db/src/event-payload-sanitizer.ts:91-106 | strings are repaired, other leaves kept, lists walked element by element in order |
| `EventFields.ObjectsAreWalked` | packages/db/src/event-payload-sanitizer.ts:98-104 | a walked object has the repaired name of every field with what is made of the last field of that name, and no other name |
| `EventFields.ServersAreWalked` | packages/db/src/event-payload-sanitizer.ts:125-136 | a listed server is walked without its two header fields |
| `EventFields.HeaderFieldsAre` | packages/db/src/event-payload-sanitizer.ts:129-133 | those are `headers` and `headersEncrypted`, and their names go to `headerNames` |
| `EventFields.HeaderNamesAre` | packages/db/src/event-payload-sanitizer.ts:157-162 | header names are listed of an object only, sorted |
| `EventFields.KeyTextsAre` | packages/db/src/event-payload-sanitizer.ts:157-162 | they are the repaired names of all its fields |
| `EventFields.UnitByUnit` | packages/db/src/event-payload-sanitizer.ts:57-82 | a surrogate pair stays, a lone surrogate becomes U+FFFD, NUL goes, everything else stays |
| `Catalog.NormalizeCatalogSnapshot` | scripts/import-integrations-catalog.ts:150-248 | the loop computes the fold, and input rows = kept + skipped + quarantined |
| `Catalog.Conservation` | scripts/import-integrations-catalog.ts:150-248 | surface by surface (domain and URL), every input row is kept, skipped or quarantined once |
| `Catalog.WinnersIgnoreInputOrder` | scripts/import-integrations-catalog.ts:204-219 | with newline-free fields and distinct (domain, URL) pairs the winner of each duplicate group does not depend on the order of the input |
| `Catalog.GroupsHoldWinners` | scripts/import-integrations-catalog.ts:204-219 | each group holds an entrant that is at least as good as all its entrants, and every entrant has a group |
| `Catalog.TheWinner` | scripts/import-integrations-catalog.ts:639-675 | a group has one such winner |
| `Catalog.BestWins` | scripts/import-integrations-catalog.ts:639-649 | the better of two rows is at least as good as both |
| `Catalog.WinsTransitive` | scripts/import-integrations-catalog.ts:639-675 | being at least as good is transitive |
| `CatalogChoices.JudgedExactly` | scripts/import-integrations-catalog.ts:162-208 | a candidate is refused for the first of five reasons that applies to it, and without any becomes the row with the fields and defaults of the source |
| `CatalogChoices.EveryRowIsJustified` | scripts/import-integrations-catalog.ts:162-225 | every kept row is an importable candidate that is not suspicious, under its domain and name; every quarantined one is a suspicious importable one with its reason; every skip has its reason |
| `CatalogChoices.ScoreIs` | scripts/import-integrations-catalog.ts:651-671 | what each field adds to the quality of a row |
| `CatalogChoices.TheBetterRow` | scripts/import-integrations-catalog.ts:639-675 | the row of higher quality wins, and of equal ones the second exactly when its five fields, a line each, go before those of the first |
| `CatalogChoices.LessIsBefore` | scripts/import-integrations-catalog.ts:648-648 | that order is by the first character in which two texts differ, a prefix going first |
| `CatalogProbe.ProbeCatalogSnapshot` | scripts/integrations-catalog-probe.ts:52-134 | under every schedule of the workers and for every outcome each index is claimed exactly once, kept rows are the non-junk ones in input order, the others are skipped, and rows are conserved; the pool ends |
| `CatalogProbe.Pool.Take` | scripts/integrations-catalog-probe.ts:69-83 | a worker takes the next index alone, or stops past the end; past the budget it writes the time-out outcome there, and nothing else is written |
| `CatalogProbe.Pool.Finish` | scripts/integrations-catalog-probe.ts:84-96 | the outcome is written to the worker's own index and to no other |
| `CatalogProbe.AllSettled` | scripts/integrations-catalog-probe.ts:92-96 | when all workers have stopped every row has its outcome, and is kept exactly when it is not junk |
| `CatalogProbe.KeptAndDroppedAre` | scripts/integrations-catalog-probe.ts:96-124 | exactly the rows that are not junk are kept, in input order and with their outcome, and exactly the junk ones skipped, in input order and for the reason of theirs |
| `CatalogProbe.ConservedAfterProbing` | scripts/integrations-catalog-probe.ts:98-134 | from import input to probe output every surface is kept, skipped or quarantined once |
| `Revival.AtMostOneAccepted` | scripts/operator/revive-session.ts:221-246 | of any number of concurrent runs with one client event id at most one is accepted, and it reports the stored event |
| `Revival.AdmissionAtMostOnce` | scripts/operator/revive-session.ts:208-223 | every run calls admission at most once, a dry run never |
| `Revival.LosersReportTheWinner` | scripts/operator/revive-session.ts:247-275 | every run that admission rejects after the winner's insert, by 23505 or by 409, ends with `duplicate_client_event` and the winner's event id, unless its look-up of the event fails; then, and only then, it throws |
| `Revival.TheWinnerMayReportItself` | scripts/operator/revive-session.ts:247-275 | a run whose own insert committed and which then meets a 23505 or a 409 ends with `duplicate_client_event` and its own event id, unless the look-up fails |
| `RevivalReads.PreflightIsOfItsReads` | scripts/operator/revive-session.ts:159-210 | in every run the preflight decides on the session, the event and the turns as each was stored when the run read it |
| `RevivalReads.BusyExactlyWhenReadsStraddle` | scripts/operator/revive-session.ts:171-210 | with no work but the revivals' and a session that was free when read, a run that does not append answers `duplicate_client_event` exactly when it read the event after the winner's insert, `conflicting_work` exactly when it read the event before it and the turns with the winner's turn in them, and goes on otherwise |
| `RevivalReads.TheWinnersTurnLooksBusy` | scripts/operator/revive-session.ts:171-210 | a concrete run in which the second of two runs is refused for the first one's turn |
| `Revival.InsertNeedsAFreeSession` | packages/core/src/domain/sessions.ts:675-705 | the event is inserted only by an applying run, under the lock of a session that is not cancelled and, unless appending, has no active or queued work |
| `RevivalAnswers.FirstAnswers` | scripts/operator/revive-session.ts:160-171 | a run goes on exactly when there is a session |
| `RevivalAnswers.PreflightAnswers` | scripts/operator/revive-session.ts:173-212 | exactly when the preflight answers the duplicate, the cancelled session, the conflicting work (a session queued, running or requiring action, or any pending turn, unless appending), `ready`, or goes on |
| `RevivalAnswers.AdmissionAnswers` | packages/core/src/domain/sessions.ts:671-740 | exactly when admission gives a 409, a 23505, another failure or the insert, and what it stores |
| `RevivalAnswers.EnqueueAnswers` | packages/core/src/domain/sessions.ts:741-782 | what the run ends with after the insert, and whether the turn is stored |
| `RevivalAnswers.LookUpAnswers` | scripts/operator/revive-session.ts:247-279 | after a 409 or a 23505 the stored event goes before everything; without one a 23505 is thrown on and a 409 explained |
| `RevivalAnswers.ConcludeAnswers` | scripts/operator/revive-session.ts:276-314 | a 409 without event is explained by a cancelled session exactly when it is read cancelled, and by conflicting work otherwise |
| `Revival.StepKeeps` | scripts/operator/revive-session.ts:146-318 | every step keeps the invariant tying the runs to the stored event; in particular no result is `scope_mismatch` while the store answers in scope |
| `RevivalRun.Operator.CheckPreflight` | scripts/operator/revive-session.ts:173-210 | is the preflight step, branch by branch |
| `RevivalRun.Operator.AcceptUserMessage` | packages/core/src/domain/sessions.ts:671-740 | is the admission step under the session's row lock: 409, 23505, another failure, or the insert |
| `RevivalRun.Operator.EnqueueTurn` | packages/core/src/domain/sessions.ts:741-782 | is the step after the transaction: the turn is stored, or publishing, storing or waking fails with a 409, a 23505 or otherwise, the turn stored or not |
| `RevivalRun.Operator.LookUpRacedEvent` | scripts/operator/revive-session.ts:250-275 | is the step that looks for the exact event before anything else |
| `RevivalRun.Operator.ExplainConflict` | scripts/operator/revive-session.ts:276-314 | is the step that explains a conflict no event explains |
| `RevivalRun.Operator.Revive` | scripts/operator/revive-session.ts:146-318 | the whole call is a stretch of a run and ends with a result, having called admission at most once, and not at all when dry |
| `Pricing.CalculateModelUsageCostMicros` | packages/config/src/index.ts:1577-1593 | none exactly without pricing; with exact cost R, k entries and margin m the charge is at least R(1+m) and less than (R+3k)(1+m)+1 |
| `Pricing.ChargeIsMonotone` | packages/config/src/index.ts:2095-2107 | more input or output tokens, with the same cache details, never cost less |
| `Pricing.SplittingNeverLowers` | packages/config/src/index.ts:1586-1592 | splitting an entry's uncached, cached and output counts over several request entries never lowers the charge |
| `Pricing.CalculateEntryCostMicros` | packages/config/src/index.ts:2095-2107 | every input token is charged once, at the cached rate as many as the details list and never more than there are, and the charge is the exact cost rounded up by less than three micros |
| `Pricing.CachedInputTokens` | packages/config/src/index.ts:2109-2123 | sums the three spellings over all details |
| `PricingRates.CountIs` | packages/config/src/index.ts:2125-2127 | a count is the integer below a positive number, and zero for anything else |
| `PricingRates.EntryCosts` | packages/config/src/index.ts:2095-2107 | the exact cost of an entry by its three rates, the cached one falling back to the input rate, and the bounds of what is charged for it |
| `PricingRates.ListedIs` | packages/config/src/index.ts:2116-2121 | every detail adds its three spellings |
| `PricingRates.UsageCosts` | packages/config/src/index.ts:1586-1592 | a usage without request entries is one entry, and the margin goes on the sum, rounded up once |
| `PricingRates.SumIs` | packages/config/src/index.ts:1590-1590 | the entries are added up |

## Left out

- HTTP routes, user interface, build configuration, deployment and generators: plumbing with no algorithm.
- Time, randomness and the network: clocks and staleness are inputs, provider and endpoint answers are arbitrary.
- Codex resolver: losing the lock's database connection unnoticed while the provider is being called.
- Codex resolver: the missing encryption key is an error inside the callback; the load before it also fails without a key.
- Connection resolver: the recording of last use and the shape of headers; a load that throws ends the call without a state change; rows are not deleted, and which of several rows of one provider the first load picks is arbitrary.
- Sandbox resume: snapshots, display, port and tagging beyond their success or failure; metrics.
- Sandbox resume: assumed are that the release and rollback calls themselves do not throw (a stop call may: the handles of the box, and whether their calls throw, are inputs), that a holder whose liveness timer is on is not reaped, that a viewer's holder is not evicted (both callers are turns), and that nobody calls the standalone re-arm.
- Event streams: bytes and UTF-8 decoding; the model starts from decoded characters, and JSON parsing and printing are any inverse functions of one trimmed line, numbers being exact decimals.
- RepairKeepsTheAnswer: an unterminated last block that ends in a single newline is excluded, since its rewritten form can gain a blank line.
- Tool names: the hash is any function to a legal string of at most seven characters; JSON bodies that do not parse, event-stream bodies and structured content are not modelled.
- PickFits: fewer than 2^53 names have been handed out, up to where the suffix counter is exact.
- TopologicallySortedPackages: package names are distinct; how a package's dependency names are collected is an input.
- RenderWorkspaceMemoryBlock: the header is any text within the budget (the one in the source is 938 units long); secret redaction and length limits are not modelled.
- Event payloads: integer-like keys, which JavaScript moves to the front, keep their place; `toLowerCase` and `sort` are parameters.
- Catalog: reading raw snapshots, control-character stripping, logos and the database import; the URL check, name normalisation, the two built-in lists and the final sort are parameters, the sort being any permutation.
- Catalog probe: how a response is classified; outcomes are arbitrary.
- Revival: input validation and the command line; other writers may change the session and its turns but do not delete events.
- Pricing: floating-point rounding; numbers are exact.
