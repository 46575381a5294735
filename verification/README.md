# Dokaz verification project

Dokaz restores customers' database backups in throw-away sandboxes ("drills"), asserts on the result, and
keeps a signed, encrypted report as evidence. This project models the parts of it whose correctness spans
several writes, workers or calls, and proves what they promise over every run.

- **Drill pipeline** (`DrillPipeline`, `DrillSafety`, `DrillSerial`, `DrillSolo`, `DrillCuts`,
  `DrillFailures`, `DrillRuns`, `DrillRace`, `DrillWorkers`). The six step workers as a transition system
  with one store write or job insert per transition. Jobs are delivered at least once, workers interleave
  and die anywhere, a write may be lost or only its acknowledgement may. `DrillWorkers` holds the same
  workers in imperative form, each proved equal to one session of the transition system. `DrillCuts` says
  exactly what a report run leaves behind when it is disturbed anywhere and `DrillFailures` what a failing
  step does to the drill; `DrillRuns` and `DrillRace` exhibit the runs that break what one might hope for.
- **Drill scheduler** (`DrillScheduler`). Slot arithmetic, and overlapping, crashed and stale passes.
- **Evidence** (`Envelope`, `KeyHistory`, `EvidenceCipher`, `Rfc3339`, `EvidenceSigning`,
  `StandaloneVerifier`, `EvidenceService`). Envelope encryption under rotating master keys, signing, the
  server's verification and the standalone verifier, which is modelled from its own source and shares only
  library primitives with the server. The signed message and the times in the API are text. AES-GCM
  (sections 7.1 and 7.2 of NIST SP 800-38D) is symbolic, Ed25519 (section 5.1 of RFC 8032) an ideal
  signature, SHA-256 injective.
- **Erasure** (`AccountPurge`). Soft delete and hard delete with crashes and retries.
- **Heartbeats** (`Heartbeat`). A timed state machine of pings, sweeps, pauses and resumes.
- **Smaller machines.** The token-bucket limiter with idle eviction (`RateLimit`), Stripe events as a
  last-writer-wins register (`SubscriptionSync`), keyset pagination (`TargetPages`) and the rolling-window
  login throttle (`LoginThrottle`).

SQL statements are atomic updates of maps, clocks and random draws are parameters, and outcomes of external
work (sandbox, restore, render, storage) are chosen freely. `dafny verify dfyconfig.toml` checks everything.

Promises that the code keeps only under a condition, with the exact condition or a run that breaks it:

- A failing report run whose MarkStepSucceeded arrives and whose MarkDrillFailed does not loses its verdict to
  its own retry, whether it dies in between or only an acknowledgement is lost; with no run but the retry and
  the teardown after it, nothing else does (`VerdictLostExactly`, `VerdictLostByCrash`,
  `VerdictLostByAcknowledgement`). A teardown job without a reason left over from before also loses it, as
  soon as a FAILED report is stored (`TeardownBeforeRetry`); serial runs over skipped steps get there, with a
  crash right after the object write (`SkippedStepsLoseVerdictAndSignature`).
- A succeeded report step guarantees that the signature is over the stored document in serial runs
  (`SignatureCoversStoredObject`). A succeeded drill does not: the same run over skipped steps ends with a
  signature over another document. Two report workers at once can break both
  (`SignatureCanMissStoredObject`).
- Eviction weakens the limiter's bound exactly when ttl * rate < burst (`WindowBoundExactly`); no limiter
  wired at startup is affected.
- HardDelete does not look for an error after iterating over the evidence paths
  (internal/compliance/purge.go:107-115), so a listing that breaks off early leaves objects behind whose
  account is gone (`TruncatedListingLeavesObject`); their key is shredded all the same.
- Subscription events of one second are applied in arrival order, which matters exactly if they differ in
  effect (`OrderIrrelevantExactly`), and a subscription naming two paid plans gets the first
  (`PlanIndependentOfOrder`).
- The teardown worker's comment says that any failed step fails the drill; the code looks at the job's
  reason and the drill's status only, and the model follows the code. MarkStepFailed has no guard, so a
  skipped step can still become failed and later succeeded; nothing is claimed against that.

## Model

| member | source | states |
|---|---|---|
| DrillSafety.SucceededDrillHasEvidence | internal/drill/steps/steps.go:518-716 | in every interleaving of workers at single-write granularity, with crashes, lost acknowledgements, duplicate jobs and retention, a succeeded drill has a non-empty evidence path and (retention aside) a stored object and a signature; the same as soon as a teardown job without a reason is queued or running |
| DrillSafety.ExecSafe | internal/drill/store.go:615-791 | the inductive invariant behind it, over every sequence of actions from every safe state |
| DrillSerial.FailureAndStepSuccessAreFinal | internal/drill/steps/steps.go:165-203 | with one worker run at a time, and whatever crashes and repeats, drill status failed and the success of every step but teardown are final |
| DrillSerial.AssertRowsExact | internal/drill/steps/steps.go:399-472 | whenever the assert step is succeeded there is exactly one result row per assertion its run listed, in order, however many earlier runs died half-way |
| DrillSerial.SucceededDrillNeverSaysFailed | internal/drill/steps/steps.go:546-611 | if no failing report run is cut or loses a write before MarkDrillFailed, a stored FAILED report belongs to a failed drill or to the report worker about to fail it, so no succeeded drill at rest carries one |
| DrillSerial.SignatureCoversStoredObject | internal/evidence/service.go:39-72 | in every serial run, with crashes and lost writes anywhere, once the report step is succeeded and until retention removes evidence, the signature row is over exactly the stored document |
| DrillSolo.SessionIsSerial | internal/drill/steps/steps.go:212-716 | a worker run, complete or cut anywhere, is a run of the serial system |
| DrillSolo.SessionSettles | internal/drill/steps/steps.go:165-716 | so one session of any job keeps what the serial system keeps |
| DrillCuts.VerdictLostExactly | internal/drill/steps/steps.go:518-611 | for every failing report run, cut or losing writes anywhere, followed by its retry and a teardown job: the drill ends succeeded with a FAILED report if and only if the run left its step succeeded and the drill not failed (MarkStepSucceeded arrived, acknowledged or not, MarkDrillFailed did not) and the job has no reason; otherwise it ends failed |
| DrillCuts.RetryOutcome | internal/drill/steps/steps.go:523-528 | for every script and every drill with a failed row, the retry leaves the drill not failed if and only if it finds its step succeeded and the drill not failed, and then a teardown job without a reason is queued |
| DrillCuts.ReportRunExactly | internal/drill/steps/steps.go:529-611 | the whole effect of a report run along any script: object, signature, path, step and status each change if and only if their own write arrives after all transitions before it went well; only a passing run enqueues a teardown job without a reason |
| DrillCuts.TeardownBeforeRetry | internal/drill/steps/steps.go:657-702 | if a teardown job without a reason is queued from before and runs first, the drill ends succeeded with a FAILED report if and only if it was not failed, MarkDrillFailed did not arrive, and such a report is stored by this run or from before |
| DrillCuts.SignatureSplitExactly | internal/evidence/service.go:39-72 | a report run leaves the signature on another document if and only if its object write arrives, its signature write does not, and the two documents differ |
| DrillCuts.TeardownRun | internal/drill/steps/steps.go:626-716 | an undisturbed teardown fails the drill and records the reason as its error if it has one, leaves a failed drill as it is and makes any other succeed without an error; evidence, the other steps and the queue stay |
| DrillCuts.FailureIsChained | internal/drill/steps/steps.go:590-611 | a failing report run that goes well up to its step's success adds exactly the teardown job saying that assertions failed, whether or not MarkDrillFailed arrives |
| DrillCuts.FailedAssertionsFailDrill | internal/drill/steps/steps.go:546-611 | an undisturbed failing report run and its teardown job end the drill failed with that error, a signed FAILED report and its evidence path |
| DrillFailures.WorkFailureFailsStep | internal/drill/steps/steps.go:165-192 | for every one of the five steps, wherever its work fails along a script: the step is failed, exactly the pending steps between it and teardown are skipped, and exactly one job is added, a teardown job whose reason names the step and the error |
| DrillFailures.WorkFailureFailsDrill | internal/drill/steps/steps.go:657-702 | that teardown job then ends the drill failed with that reason as its error |
| DrillFailures.FailedTeardownStillSettles | internal/drill/steps/steps.go:640-702 | a sandbox that cannot be torn down fails the teardown step only; the drill is settled as ever |
| DrillRuns.EveryLosingScriptLoses | internal/drill/steps/steps.go:577-611 | every script with MarkStepSucceeded arriving and MarkDrillFailed not, played on a new drill with one failing assertion, is part of a serial run, with the retry and its teardown job, that ends succeeded with a FAILED report |
| DrillRuns.VerdictLostByCrash | internal/drill/steps/steps.go:590-596 | one such run: a crash between the two writes |
| DrillRuns.VerdictLostByAcknowledgement | internal/drill/steps/steps.go:590-596 | another, with no crash: only the acknowledgement of MarkStepSucceeded is lost |
| DrillRuns.SkippedStepsLoseVerdictAndSignature | internal/drill/steps/steps.go:165-203 | a serial run over skipped steps in which a report run dies right after its object write and a queued teardown job runs: the drill is succeeded, its report says FAILED, and the signature is over another document |
| DrillRuns.ReachReport | internal/drill/steps/steps.go:212-439 | undisturbed runs of provision, fetch, restore and assert lead from any drill whose provision may still run to a due report with the recorded row, keeping evidence and skipped steps |
| DrillRuns.DoneStepOnlyChains | internal/drill/steps/steps.go:194-203 | a repeated job of a step that is done writes nothing and only enqueues its successor |
| DrillRace.SignatureCanMissStoredObject | internal/evidence/service.go:39-72 | an interleaving of two report workers of one drill, neither of them disturbed before the signature, after which the report step is succeeded, the drill is succeeded, and the signature covers a document other than the stored one |
| DrillWorkers.Deps.ProvisionWork | internal/drill/steps/steps.go:212-252 | the worker, statement by statement, is exactly one session of the transition system, however its process is cut |
| DrillWorkers.Deps.FetchWork | internal/drill/steps/steps.go:266-307 | the same, with the already-fetched branch |
| DrillWorkers.Deps.ChainAlreadyFetched | internal/drill/steps/steps.go:311-326 | a finished fetch is repeated for its path and needs the sandbox before restore is enqueued |
| DrillWorkers.Deps.RestoreWork | internal/drill/steps/steps.go:339-375 | the same, with the best-effort output write |
| DrillWorkers.Deps.AssertWork | internal/drill/steps/steps.go:399-439 | the same, from listing the assertions on |
| DrillWorkers.Deps.RunAssertions | internal/drill/steps/steps.go:444-472 | clear, connect, then one row per assertion; any error fails the step |
| DrillWorkers.Deps.ReportWork | internal/drill/steps/steps.go:518-613 | the same, verdict included |
| DrillWorkers.Deps.Verdict | internal/drill/steps/steps.go:546-552 | the verdict loop answers whether all listed rows passed |
| DrillWorkers.Deps.Finalize | internal/drill/steps/steps.go:577-613 | object, signature, evidence path, step, drill, teardown, in that order |
| DrillWorkers.Deps.TeardownWork | internal/drill/steps/steps.go:626-716 | the same, for a job with or without a reason |
| DrillWorkers.Deps.FinishTeardown | internal/drill/steps/steps.go:657-702 | the settling of the drill as a whole |
| DrillWorkers.Deps.FailAndCleanup | internal/drill/steps/steps.go:165-178 | the failure path: the step, the later steps, the teardown job |
| DrillWorkers.StepsAfter | internal/drill/steps/steps.go:180-192 | the loop collects the steps after the given one without teardown |
| DrillWorkers.Deps.MarkDrillRunning | internal/drill/store.go:615-622 | only a pending or running drill becomes running; the write may be lost or its acknowledgement may |
| DrillWorkers.Deps.MarkDrillSucceeded | internal/drill/store.go:624-634 | status, path and error change whatever the status was |
| DrillWorkers.Deps.MarkDrillFailed | internal/drill/store.go:636-645 | status and error change whatever the status was |
| DrillWorkers.Deps.MarkStepRunning | internal/drill/store.go:725-732 | guarded by pending, running or failed |
| DrillWorkers.Deps.MarkStepSucceeded | internal/drill/store.go:766-773 | guarded by not skipped |
| DrillWorkers.Deps.MarkStepFailed | internal/drill/store.go:775-782 | unguarded |
| DrillWorkers.Deps.MarkStepSkipped | internal/drill/store.go:784-791 | guarded by pending |
| DrillScheduler.AtMostOneDrillPerSlot | internal/drill/scheduler.go:92-125 | over every run of overlapping, crashed, stalled and rewinding passes, with schedules edited meanwhile, at most one drill per target and slot and at most one provision job per drill |
| DrillScheduler.ScheduleNeverDrifts | internal/drill/scheduler.go:113-125 | while the cadence is not edited, every next slot stays congruent to the first modulo the interval |
| DrillScheduler.NextSlotLeast | internal/drill/scheduler.go:113-122 | the next slot is the least slot + k * interval, k >= 1, strictly after now |
| DrillScheduler.Advance | internal/drill/scheduler.go:118-122 | the advance loop terminates there |
| DrillScheduler.CadenceInterval | internal/drill/scheduler.go:21-34 | one hour, day, week or thirty days, and zero exactly for off and unrecognised cadences |
| DrillScheduler.DueTargetsExact | internal/drill/store.go:381-418 | of the rows it could lock a pass reads all that are due and no other, each with the account, interval and slot its row has |
| DrillScheduler.FiredAllDone | internal/drill/scheduler.go:51-128 | after a pass in which every write succeeds every due target has its slot's drill and a next slot after the start of the pass, and no key is reassigned |
| DrillScheduler.FiredAllEnqueued | internal/drill/scheduler.go:92-112 | after such a pass the drill of every slot that had none is new and has exactly one provision job |
| DrillScheduler.FiredAllJobs | internal/drill/scheduler.go:100-112 | and no other drill's jobs change |
| DrillScheduler.SlotsApartGetTwoDrills | internal/drill/scheduler.go:90-99 | two slots of a target at least one second apart get two drills with a provision job each |
| DrillScheduler.PassIsRun | internal/drill/scheduler.go:51-128 | a pass, with any writes lost and any cadence refused, is a run of the machine by its own statements alone; no target is rescheduled or passed over but those the plan refuses |
| DrillScheduler.PassKeepsInv | internal/drill/scheduler.go:92-125 | so a pass keeps the invariant behind at-most-once |
| DrillScheduler.PassNeverDrifts | internal/drill/scheduler.go:113-125 | and keeps every schedule on its grid, except those it downshifts |
| DrillScheduler.Store.Work | internal/drill/scheduler.go:51-128 | the pass loop fires the due targets one after the other and does nothing else |
| DrillScheduler.Store.Fire | internal/drill/scheduler.go:56-125 | one target, field by field: a refused cadence changes its schedule only; a free key gets drill and key if the write arrives, the job if drill and enqueue get that far; an enqueue that is lost or not acknowledged leaves the schedule; otherwise the schedule moves to the next slot |
| DrillScheduler.Store.CreateDrillIdempotent | internal/drill/store.go:849-899 | a taken key returns its drill and writes nothing; a free one creates drill and key together or not at all, and an error may hide the commit |
| Envelope.FirstOpeningExact | internal/evidence/cipher.go:145-164 | trying keys in order opens a row exactly when its wrapping key is among them and the account matches, to what was sealed: order does not matter |
| Envelope.UnwrapExact | internal/evidence/cipher.go:246-257 | unwrapping and classification agree: a row is poison exactly when no configured key opens it |
| Envelope.SwappedRowNeverOpens | internal/evidence/cipher.go:211-231 | a wrapped key moved to another account's row opens under no keyring |
| KeyHistory.DekNeverChanges | internal/evidence/cipher.go:121-193 | over every interleaving of mints, lazy re-wraps and RewrapAll by processes with different keyrings, an account's key never changes and its row never disappears |
| KeyHistory.DecryptReturnsWhatWasEncrypted | internal/evidence/cipher.go:90-106 | every Decrypt of an earlier Encrypt's result returned the original document if the row it loaded was wrapped under a key of its ring, and failed otherwise |
| KeyHistory.CarefulRotationLosesNothing | internal/evidence/cipher.go:145-164 | if every process holds all master keys any of them wraps under, no such Decrypt ever fails |
| KeyHistory.ExecKeeps | internal/evidence/cipher.go:90-193 | the invariant behind both, with the history of keys only growing |
| KeyHistory.UndisturbedAccessReturns | internal/evidence/cipher.go:90-193 | an access nothing disturbs returns, Encrypt with an entry that opens to its document and Decrypt with its blob's plaintext, and leaves the row on the active key with the key it had or the new one |
| EvidenceCipher.RewrapCompletesRotation | internal/evidence/cipher.go:300-330 | after RewrapAll no row is on a retired key, every key and the poison set are unchanged, counts add up, and dropping all retired keys loses nothing |
| EvidenceCipher.ClassesPartition | internal/evidence/cipher.go:246-257 | active + retired + poison = rows |
| EvidenceCipher.Cipher.Audit | internal/evidence/cipher.go:280-294 | the loop counts the classes, names the poison accounts and accounts for every row |
| EvidenceCipher.Cipher.RewrapAll | internal/evidence/cipher.go:300-330 | retired rows are re-wrapped with the same plaintext, all others untouched, and both counts are right |
| EvidenceCipher.Cipher.ShredPoison | internal/evidence/cipher.go:335-348 | removes exactly the rows no configured key opens, and reports how many |
| EvidenceCipher.Cipher.MintDEK | internal/evidence/cipher.go:176-193 | an existing row wins; a fresh one opens under the active key |
| EvidenceCipher.Cipher.UnwrapDEK | internal/evidence/cipher.go:145-164 | returns the key under the whole ring for any wrapped value; a row is re-wrapped, with that same key, exactly if a retired key opened it, the row still exists and the write succeeds |
| EvidenceCipher.Cipher.Encrypt | internal/evidence/cipher.go:90-96 | the result opens, under the account's key, to the document; no account's key changes; fails only on an unopenable row |
| EvidenceCipher.Cipher.Decrypt | internal/evidence/cipher.go:100-106 | shredded exactly when there is no row; succeeds exactly when the row and the blob open, with the blob's plaintext |
| EvidenceCipher.Cipher.ShredAccount | internal/evidence/cipher.go:109-112 | removes the account's row and no other |
| EvidenceSigning.NewSigner | internal/evidence/sign.go:63-116 | refused exactly when some block is no Ed25519 key; otherwise the verification keys are the active key and the listed ones |
| EvidenceSigning.Verify | internal/evidence/sign.go:206-224 | the server's checks accept exactly the record the key's holder makes over this document and the record's time, and each error is given exactly in its case |
| EvidenceSigning.MessageBinds | internal/evidence/sign.go:226-228 | equal message texts mean equal documents and equal times: the text splits in one way and both halves read back |
| Rfc3339.UtcTextInjective | internal/evidence/sign.go:226-228 | different instants have different UTC texts, in any year, trailing fraction zeros dropped |
| Rfc3339.UnmarshalMarshal | internal/web/handlers/v1_drills.go:250-257 | the JSON text of an instant, in whatever zone, parses back to that instant |
| Rfc3339.DayOfDate | internal/evidence/sign.go:226-228 | naming dates and counting days in the Gregorian calendar are inverse |
| Rfc3339.DaysBeforeYearExactly | internal/evidence/sign.go:226-228 | leap days are the Gregorian ones: years divided by 4, less those by 100, plus those by 400 |
| Rfc3339.LayoutExactly | internal/evidence/sign.go:226-228 | which digits of a text are year, month, day, hour, minute and second, and which marks stand between them |
| EvidenceSigning.ColumnKeepsSignatureExactly | internal/evidence/service.go:39-72 | a signature survives the microsecond column exactly when made over whole microseconds, and truncation gives those |
| EvidenceSigning.AllPublicKeys | internal/evidence/sign.go:155-183 | the published list is the active key, then every other verification key once, by ascending fingerprint |
| StandaloneVerifier.AcceptsExactly | cmd/dokaz-verify/main.go:97-171 | the standalone verifier, from its own record and its own checks, accepts if and only if key and file parse and the file is what the holder of the first key block makes over the document at the time the file gives; bad input exactly if one does not parse |
| StandaloneVerifier.AcceptedFileDecodes | cmd/dokaz-verify/main.go:113-124 | an envelope that does not decode, which is read as an empty bare object, is never accepted |
| EvidenceService.EvidenceStaysValid | internal/evidence/service.go:110-154 | evidence finalised under any earlier signing and master key verifies as Valid after any history of mints, re-wraps and rotations that keeps the public key and the row's wrapping key |
| EvidenceService.ServerAndVerifierAgree | cmd/dokaz-verify/main.go:97-171 | whatever is stored, and for every zone and file form: the server says Valid if and only if there is a row and an object, it holds the key, can open the evidence, and the standalone verifier, given that key and the served signature file, accepts the document |
| EvidenceService.ServedRecord | internal/web/handlers/v1_drills.go:303-331 | through JSON, zones and the verifier's own parser the record arrives as the server holds it |
| EvidenceService.PublishedListWorksForActiveKey | internal/evidence/sign.go:155-183 | given the whole published list, the standalone verifier accepts exactly the decryptable evidence that is Valid and names the active key |
| EvidenceService.ValidMeansSigned | internal/evidence/sign.go:189-228 | evidence is Valid only with a row and a readable object, and, if the key's holder signed only certain documents at certain times, only if its document is one of them, signed at the very time the row gives |
| EvidenceService.Service.Finalize | internal/evidence/service.go:39-72 | succeeds exactly if the account's key opens or is new and both writes succeed; then the object opens to the document, the row is its signature and is retained seven years; on failure no row is written; other evidence and all keys stay |
| EvidenceService.Service.Verify | internal/evidence/service.go:110-154 | each answer exactly in its case, over the tables: Unsigned without a row, not held, unreadable without an object, shredded without a key row, undecryptable, and Valid if and only if row, object, key and key row are there, the object opens to a document and that document is genuine for the row as read back |
| EvidenceService.DecisionExactly | internal/evidence/service.go:110-154 | the same for the function behind it, over any row and object or none |
| RateLimit.WindowBound | internal/ratelimit/ratelimit.go:56-79 | whatever came before, at most burst + rate * (t - s) calls of a key are allowed inside [s, t] |
| RateLimit.WindowBoundExactly | internal/ratelimit/ratelimit.go:83-92 | with sweeps at arbitrary times the bound holds in every run if and only if ttl * rate >= burst |
| RateLimit.SweptWindowBound | internal/ratelimit/ratelimit.go:56-92 | the bound for a swept limiter under that condition |
| RateLimit.TokensBounded | internal/ratelimit/ratelimit.go:56-79 | 0 <= tokens <= burst throughout every run |
| RateLimit.AllowedBound | internal/ratelimit/ratelimit.go:56-79 | the potential argument: from level L at s at most L + rate * (t - s) calls are allowed by t |
| RateLimit.WaitExact | internal/ratelimit/ratelimit.go:74-78 | a refused caller is refused until the advised wait has passed and allowed from then on |
| RateLimit.EvictionInvisible | internal/ratelimit/ratelimit.go:83-92 | under ttl * rate >= burst a swept limiter gives every answer, wait included, of one never swept |
| RateLimit.EvictionVisible | internal/ratelimit/ratelimit.go:83-92 | otherwise some run tells them apart |
| RateLimit.EvictionInvisibleExactly | internal/ratelimit/ratelimit.go:38-92 | so for every limiter New can build, eviction is invisible if and only if ttl * rate >= burst |
| RateLimit.WiredLimitersHideEviction | cmd/server/main.go:282-289 | for the four limiters wired at startup eviction is invisible in every run and the window bound holds with it |
| RateLimit.Limiter.constructor | internal/ratelimit/ratelimit.go:38-52 | rate and burst are clamped to at least one, whatever is passed |
| RateLimit.Limiter.Allow | internal/ratelimit/ratelimit.go:56-79 | answer and bucket are those of the specification; other keys are untouched |
| RateLimit.Limiter.SweepIdle | internal/ratelimit/ratelimit.go:83-92 | every key's bucket moves as one sweep event moves it |
| Heartbeat.PunctualNeverDown | internal/heartbeat/store.go:153-260 | a monitor whose success pings are at most period + grace apart while it is not paused, with no fail ping, is never marked down in any run |
| Heartbeat.SilenceIsNoticed | internal/heartbeat/store.go:240-260 | after any history, with sweeps at most d apart, an active monitor of an eligible account silent since t is down by t + period + grace + d |
| Heartbeat.SweepDownsExactly | internal/heartbeat/store.go:240-260 | a sweep downs a monitor if and only if it is active, eligible and was last armed more than period + grace ago |
| Heartbeat.AlertsExactly | internal/heartbeat/store.go:153-260 | in every history, a down alert goes out if and only if a fail ping meets a monitor not down or a sweep an active, eligible monitor past its deadline and grace; an up alert if and only if a success ping meets a monitor not up |
| Heartbeat.PingsDecide | internal/heartbeat/store.go:186-233 | the status each event leaves, in every history |
| Heartbeat.DownExactly | internal/heartbeat/store.go:153-278 | a monitor is down if and only if a fail ping or a sweep took it down and no success ping, pause or resume came since |
| Heartbeat.PingTimesKept | internal/heartbeat/store.go:186-269 | last_ping_at is the latest success or fail ping, and a paused monitor has no deadline |
| Heartbeat.AlwaysArmed | internal/heartbeat/store.go:93-108 | new or up implies a deadline, in every history |
| Heartbeat.DeadlineExact | internal/heartbeat/store.go:186-278 | that deadline is one period after the latest success ping, resume or creation |
| Heartbeat.AlertsAlternate | internal/heartbeat/sweeper.go:77-111 | between two alerts of one kind there is one of the other kind, a pause or a resume, so overlapping sweepers never alert twice on one outage |
| Heartbeat.NoRepeat | internal/web/handlers/heartbeats.go:216-246 | from a monitor already down (up) no further down (up) alert comes before such an event |
| Heartbeat.Store.Create | internal/heartbeat/store.go:93-108 | a new monitor is armed for one period |
| Heartbeat.Store.RecordPing | internal/heartbeat/store.go:153-233 | a fail ping leaves the monitor down and reports a transition exactly if it was not; a success ping leaves it up, with a new deadline, and reports one exactly if it was not; a start ping changes nothing |
| Heartbeat.Store.MarkOverdueDown | internal/heartbeat/store.go:240-260 | every row moves as one sweep event moves it, and exactly the rows with a down edge are returned |
| Heartbeat.Store.PauseMonitor | internal/heartbeat/store.go:264-269 | only the account's own live monitor; its deadline is cleared |
| Heartbeat.Store.ResumeMonitor | internal/heartbeat/store.go:272-278 | only the account's own live monitor; it is armed afresh |
| AccountPurge.ErasureInOrder | internal/compliance/purge.go:81-141 | in every history with crashes, retries and duplicate purges, each step destroys only what is due: a key of a due account, an object once its account's key is gone, an account once its key and (unless a listing broke off early) all its evidence objects are gone |
| AccountPurge.TruncatedListingLeavesObject | internal/compliance/purge.go:98-115 | a run in which the path listing breaks off early: the account is removed, its object stays, its key is gone |
| AccountPurge.MissingEvidenceIsShredded | internal/compliance/purge.go:117-127 | evidence listed but no longer stored belongs to a due account whose key is gone |
| AccountPurge.Purger.SoftDelete | internal/compliance/purge.go:50-72 | only a live account; it becomes due exactly when the grace is over |
| AccountPurge.Purger.HardDelete | internal/compliance/purge.go:81-141 | cut after any number of writes: a missing account is a load error, an account not due is refused; key before objects before account, only the account's own objects; a completed run leaves exactly the objects its listing missed, and enough writes complete it |
| AccountPurge.Purger.DeleteObjects | internal/compliance/purge.go:123-127 | the loop deletes the listed objects or stops part-way with nothing else touched |
| SubscriptionSync.NewestEventWins | internal/account/store.go:248-318 | for every order and duplication of deliveries, with no assumption on ids or times, the four columns end as the last fresh delivery of the newest second says, or as they were if they are newer |
| SubscriptionSync.OrderIrrelevantExactly | internal/account/store.go:248-318 | with one event per id, the outcome of a set of deliveries is independent of their order if and only if the row is newer than all of them or all events of their newest second have one effect |
| SubscriptionSync.PlanIndependentOfOrder | internal/web/handlers/billing.go:236-250 | the selected plan is independent of item order if and only if the items name at most one paid plan |
| SubscriptionSync.SelectPlan | internal/web/handlers/billing.go:236-250 | the plan of the first item with a paid one, trial if there is none |
| SubscriptionSync.Accounts.RecordStripeEvent | internal/account/store.go:311-318 | new exactly when the id was not recorded |
| SubscriptionSync.Accounts.SyncSubscription | internal/account/store.go:248-260 | written unless the row is newer |
| SubscriptionSync.Accounts.HandleSubscriptionCanceled | internal/account/store.go:268-281 | plan, id, status and the end of the trial are written together unless the row is newer |
| SubscriptionSync.Accounts.StripeWebhook | internal/web/handlers/billing.go:170-270 | one delivery is one step of the register, column by column; a failed write answers 500, an event whose subscription write failed stays recorded, and a payment failure is mailed once per fresh delivery |
| TargetPages.Walk | internal/web/handlers/v1_databases.go:62-103 | following next_cursor terminates and yields, descending and none twice, only rows present at the start and all rows present throughout, while rows are deleted and newer ones arrive; with no deletion exactly the rows present at the start, in the least number of pages |
| TargetPages.ListDatabases | internal/web/handlers/v1_databases.go:79-91 | a page is the next `limit` rows, and its cursor is its last row exactly when more remain |
| TargetPages.ListTargetsPage | internal/drill/store.go:256-281 | every listed row is the account's, live, in scope and below the cursor; newest first by created_at, then id; and such a row is missing only if the page is full of newer ones |
| TargetPages.ListingUnique | internal/drill/store.go:256-281 | that listing is unique |
| TargetPages.ParsePageParams | internal/web/handlers/v1.go:321-341 | refused exactly on an unreadable or non-positive limit or an unreadable cursor; otherwise 1 to 100 rows, 25 by default |
| LoginThrottle.AgedSuccessRevivesNothing | internal/auth/throttle.go:39-78 | although Check looks for successes in the window only, it counts from the last success ever |
| LoginThrottle.CheckExactly | internal/auth/throttle.go:39-78 | locked if and only if the attempts that failed, lie in the window and come after every success are maxFails or more; retry when the oldest of them leaves the window |
| LoginThrottle.FailuresInARowLock | internal/web/handlers/auth.go:63-106 | maxFails failures in a row inside the window lock the email, and the next login is refused and not recorded |
| LoginThrottle.FailedLoginsLock | internal/web/handlers/auth.go:63-106 | a first run of maxFails failed logins inside one window locks the email |
| LoginThrottle.SuccessClears | internal/web/handlers/auth.go:63-106 | a successful login is recorded, and no earlier failure is ever counted again |
| LoginThrottle.FailuresNeverExceedLimit | internal/web/handlers/auth.go:63-106 | over every run of check-then-record logins, counted failures never exceed the limit |
| LoginThrottle.LockEndsExactly | internal/auth/throttle.go:39-78 | with no further attempt a locked email is locked until exactly RetryAfter later |
| LoginThrottle.Throttle.CheckEmail | internal/auth/throttle.go:39-78 | the lock state in terms of the recorded attempts, as CheckExactly says |
| LoginThrottle.Throttle.Record | internal/auth/throttle.go:81-90 | appends to this email's attempts only and keeps every log in order |

## Left out

- HTTP routing, sessions, OAuth, CSRF, templates, email, push, chat notifications, metrics and audit records.
- Running `pg_restore` and `psql`, PDF layout, S3 requests and Fly machines: they are free outcomes, and that a sandbox may leak when a step is repeated is not modelled.
- Real cryptography; JSON objects are records and base64 and PEM texts identities, so page cursors are not modelled as text. Time texts are modelled for instants from year 0 on and zones of whole minutes.
- Float rounding in the limiter and the truncated Retry-After header; its arithmetic is over exact reals.
- Timestamps and output snippets of drills and steps, and the creation of the six step rows of a drill.
- The retention sweep (internal/evidence/service.go:183-221) beyond its two deletions in the drill pipeline.
- Which cadences a plan allows. Idempotency keys are records, so a key chosen by a user that happens to spell a schedule key is not modelled.
- Convergence of trial_ends_at, which the register does not include, and the price table.
- Shredding an account while one of its lazy re-wraps is under way; KeyHistory has no shred.
- Login attempts racing each other, errors of Check (which let the login through) and pruning of old attempts.
- Deleting monitors and pruning pings.
- The alert feed's pagination.
- The role matrix, plan limits and priority maps: finite tables.
- DrillSerial.SucceededDrillNeverSaysFailed: assumes serial runs in which no failing report run is cut or loses a write after its object write, and excepts the moment at which a report worker has stored a FAILED report and is about to mark the drill; DrillRuns shows that the assumption is needed.
- AccountPurge.ErasureInOrder: assumes that no evidence is written for an account once it is soft-deleted, and promises the absence of all objects only for accounts whose listings were complete.
- DrillScheduler.Store.Work: a pass that dies half-way is a run of the machine and has no imperative counterpart.
- TargetPages.Walk: rows that arrive during the walk are newer than all rows present at its start.
- LoginThrottle.FailuresNeverExceedLimit: logins run one at a time.
