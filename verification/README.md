# CongKong RFID middleware: a verified model

The middleware reads RFID tags from IDRO900EAE readers over TCP, turns them into check-ins, keeps those in a
durable queue and delivers them over HTTP. This project models that path in Dafny and proves what it keeps.

There are three parts.

* **The check-in pipeline as one state machine** (`Pipeline.dfy`). Admission, the sender, preflight, meta
  refresh, the sweeper, the operator and the server interleave freely. A gate write is two steps, memory and
  store, with the change signal between them. HTTP replies arrive as late as they like, requests are lost or
  delivered again, the clock may jump, store writes may fail, and a crash at any step keeps only the three
  tables. The theorems range over every finite run from the empty store: `QueueSafety`, `Delivery`, `Attempts`,
  `GateSafety`, `Restarts`, `Survival`, `Rebind`, `Wakeups`, `Cooldowns`, `Spacing`, `Ledger` (what every step
  does to every row), `Origins` (which read a row stems from) and `Resuming` (what a resume achieves); `Witness`
  and `Harms` construct runs that show where a promise fails, `Tightness` runs that attain a bound. `Runs` is
  the relation between states these share.
* **The objects that carry it out.** `Store`, `Registry`, `Sender` and `Admission` are classes changed in place.
  Their methods are proved against functions of the tables and the registry. `Refinement` proves that one call
  of Deliver, Handle, Attempt, Tick, RestoreGates or QueueResume, and each of the three deletions, is what the
  state machine does in its separate steps. `Debounce` proves what the debounce table guarantees over
  whole runs of store operations.
* **The reader wire protocol.** `Framer` (a loop over a buffer, refined against a plain split), `Parser`,
  `Commands`, `Session` (one connection, driven by a list of received events), `Replay` and `ReplayInputs`.

`dafny verify dfyconfig.toml` checks everything. Times are Unix milliseconds as unbounded integers; `checkedAt` is
an opaque text paired with its time (section 5.6 of RFC 3339). Status codes are those of section 15 of RFC 9110.

## Where the code and its documentation part

The model follows the code. These are the places where a promise fails, each with its exact condition.

* A stored `SUSPENDED_TOKEN` can be overwritten by an older `ACTIVE`. The sender may suspend a reader and store
  that while preflight or meta refresh is still between its memory write and its own persist, which then lands
  last. Memory stays suspended, but the next start sees an open gate and preflights again.
  `Restarts.StoredSuspensionExact` gives the condition within the process, `Survival.SuspensionSurvivesIff` the
  one over all continuations, `Witness.LatePersistReachable` a run.
* `docs/crash-recovery.ko.md`, section 3.4, says a reader stopped by a revoked token stays `SUSPENDED_TOKEN`
  after a restart. The sender passes an empty fingerprint and the store writes it
  (`Restarts.SenderStopUnnamed`), so the restart rule for "another token, nothing pending" fires for the same
  token too. `Restarts.RestoreLiftsIff` gives the condition, `Witness.SameTokenLifted` a run.
* A start that lifts a suspension ignores the error of the store write (`internal/app/app.go`, line 142). Then
  the reader is open in memory and suspended in the store. `Restarts.LostLiftExactly` gives the condition,
  `Harms.LostLiftReached` a run.
* The rebind guard only sees the first reply: `PREFLIGHT_RETRY` already stores the new fingerprint
  (`Rebind.RetryDisarms`, and for whole runs `Rebind.RebindOnlyByFirstReply`). `Harms.SentToOtherBooth` is a run
  in which a row of one booth is sent with another booth's token.
* Preflight treats a negative cooldown as 0, meta refresh treats it as positive, so `ACTIVE_WARNING` means
  "cooldown 0" exactly for non-negative cooldowns (`Cooldowns.PreflightTruthfulIff`).
* A row whose store write fails after the reply is due again at once, and is POSTed again without a delay
  (`SenderObject.DeliveryShrinks`).
* A line of exactly 4096 bytes is kept or dropped depending on where the network cut the stream
  (`Framing.ChunkingMatters`).

## Assumptions

* The server does not record the same token, EPC and `checkedAt` twice, and claims success or duplication only
  for a token and EPC it has recorded. All its other replies are free.
* Store methods are atomic and durable. Any write of admission, the sender, preflight and meta refresh may fail
  without effect, and so may the count and the write of a restore. A sweep or a step of operator resume that
  fails is one that does not happen.
* The idle timer is started at some clock reading after the poll's; the two may differ by any amount, and the
  bound on lost wake-ups names that difference.
* Configuration validation guarantees a debounce of 1 s to 1 h, an age limit of 1 to 24 h and non-empty token
  fingerprints; fingerprints are values that come with the token. The application lock keeps operator resume
  apart from a running process.

## Model

| member | source | states |
|---|---|---|
| `Delivery.EffectivelyOnce` | internal/sender/sender.go:134-226 | Over every run with lost, late and repeated requests and replies, crashes and restarts: while a reader's token does not change, no two server records stem from the same row of it, and every row deleted as delivered was deleted under that token and has a server record for that token and EPC |
| `Delivery.OncePerToken` | internal/congkong/classifier.go:44-127 | Without any assumption on tokens: two server records caused by one row were made under different tokens |
| `Delivery.OnlyPostSends` | internal/sender/sender.go:134-154 | No step but the sender's POST adds a request, and no step but a start changes the configuration |
| `Classifier.Decide` | internal/congkong/classifier.go:44-127 | Exactly which replies complete a row, retry it, suspend the reader or halt globally (four if-and-only-ifs over transport error, body error, status, result and message) |
| `Classifier.ClassExactly` | internal/congkong/classifier.go:17-127 | Which replies get which class, by transport error, body error, status, result and message; the class alone fixes the decision |
| `QueueSafety.Conservation` | internal/store/sqlite/store.go:255-321 | Between any two states of any run, with the sweeper racing an in-flight POST, crashes and resume: accepted ids are the disjoint union of queued and removed ids, ids are 1..nextId-1 and never reused, a removed row never returns, what was fixed at admission never changes, and every POST carries it |
| `QueueSafety.QueueAlways` | internal/store/sqlite/store.go:175-198 | The invariant behind it holds in every reachable state: queue and history partition the ids, the sender's copy of a row is current while the row is queued, every request is faithful to its admission |
| `QueueSafety.SettledKeeps` | internal/sender/sender.go:166-226 | Whatever the reply and whether or not the store write succeeds, settling an attempt keeps that partition |
| `Ledger.RowLedger` | internal/sender/sender.go:134-226 | For every step of the machine in every state that keeps the invariant, and every queued row: it leaves if and only if the sender settles it with a reply that is neither a retry nor a halt, the sender or a sweep finds it scanned before the age limit, or the operator discards its reader, each recorded as such; it changes only by a retry or a halt, by one attempt and the delay of 5 s, 30 s or 2 min; otherwise it stays as it is |
| `Ledger.NewLedger` | internal/store/sqlite/store.go:135-198 | For every step: a row appears if and only if admission commits a read outside the debounce window, under the next id and with the reader, EPC, text and time of the read |
| `Ledger.SettledForGood` | internal/sender/sender.go:166-226 | Over every run: a queued row whose reply confirms, refuses or revokes, taken by the store, is gone at once with that reason, and in no later state is it queued or has it been POSTed once more |
| `Ledger.RemovedSilent` | internal/store/sqlite/store.go:255-321 | The same for a row that left for any reason and is not in the hands of the sender: never queued, never POSTed again, over crashes, restarts and new configurations |
| `Origins.OneRowPerRead` | internal/admission/admission.go:27-67 | Over every run: each accepted row stems from a read handed to admission earlier, of its reader and with its EPC, time and text, no two rows from the same read, and every POST carries the EPC and text of the read its row stems from |
| `Attempts.AttemptBound` | internal/sender/sender.go:134-202 | For every run, every clock behaviour and every age limit: a row is POSTed at most Budget(maxAge) times plus once per attempt cut short by a crash, a store failure or a global halt |
| `Attempts.AttemptBound24h` | internal/sender/sender.go:61-70 | With the largest age a configuration may ask for, the bound is 722 plus the cut attempts |
| `Tightness.BudgetAttained` | internal/sender/sender.go:134-202 | The bound is exact: for every configuration and every reader of it, a run from the empty store that POSTs one row Budget(maxAge) times with no attempt cut short, 722 times at 24 hours |
| `Attempts.BudgetExact` | internal/sender/sender.go:61-70 | The budget 3 + floor((maxAge - 35 s) / 120 s) is exact: n retries' total backoff fits into maxAge if and only if n + 1 is within it |
| `GateSafety.SuspensionAbsorbing` | internal/gate/gate.go:86-136 | Under every interleaving of preflight, sender and meta refresh with arbitrarily late replies, a reader suspended in memory is never sendable again in that process run |
| `GateSafety.GatesAlways` | internal/sender/preflight.go:24-121 | In every reachable state: before preflight's last memory write a reader is unverified and no other actor has it in hand; refresh jobs only open, sender jobs only suspend |
| `GateSafety.DeliverMoves` | internal/sender/sender.go:145-152 | A delivery step writes no gate by itself, takes in hand only readers it already had, and the branch for a reader without a token is never taken |
| `GateSafety.MetaLocal` | internal/sender/metarefresh.go:69-107 | A refresh step touches only its own reader and, thanks to the re-check under the lock, never a suspended entry, however late the reply |
| `GateSafety.PreLocal` | internal/sender/preflight.go:44-121 | A preflight step touches only its own reader, keeps the per-reader protocol, and changes no suspended entry |
| `Restarts.HardStopSurvives` | internal/app/app.go:120-158 | From every reachable state that stores a SUSPENDED_REBIND, a SUSPENDED_CONFIG or a SUSPENDED_TOKEN that names its token, and in which the process, if it has the reader, has it in that state with no actor at work on it: the row stays stored unchanged and is what every later process has in memory, through any steps, crashes, store failures and restarts, also starts with another token while rows are pending, until a resume of that reader or a start that lifts it |
| `Restarts.FirmStopSurvives` | internal/app/app.go:120-190 | Once SUSPENDED_REBIND or SUSPENDED_CONFIG is stored, at any point of any run and whatever the store did before, the row stays stored unchanged and is what every process has in memory, until a resume of that reader |
| `Restarts.FirmAlways` | internal/sender/preflight.go:70-120 | In every reachable state that stores one of the two, the process has the reader in that state, preflight is done with it, and neither sender nor refresh has it in hand |
| `Survival.FirmStopSilent` | internal/sender/sender.go:86-101 | From any point of any run at which SUSPENDED_REBIND or SUSPENDED_CONFIG is stored, through any crashes and restarts until a resume, not one row of the reader is POSTed |
| `Restarts.NamedStopHeld` | internal/app/app.go:131-145 | A stored SUSPENDED_TOKEN that names its token is held in the same way in every process in which no lift of the reader lost its store write |
| `Survival.SuspensionSurvivesIff` | internal/gate/gate.go:86-136 | For every reachable state and every stored suspension of any kind: it stays stored through all continuations, crashes and restarts included, without a resume or a lift of the reader, if and only if the process, when it has the reader, has it suspended with no opening still to be stored, or already holds a preflight verdict that suspends it |
| `Restarts.RestoreLiftsIff` | internal/app/app.go:125-158 | For every stored suspension, configuration and store fault: a start drops it from memory if and only if it is SUSPENDED_TOKEN, the fingerprints differ, no row of the reader is pending and the count succeeds; it leaves the store exactly when, moreover, the write succeeds; otherwise state and tables stay |
| `Restarts.LostLiftExactly` | internal/app/app.go:136-149 | One start leaves a hard stop in the store but not in memory if and only if it lifts the stop and the write fails |
| `Harms.LostLiftReached` | internal/app/app.go:136-149 | For any two configurations with different tokens for a reader: a reachable state, after a stored preflight 404 and a start whose lift was not stored, with the reader PREFLIGHT_PENDING in memory and SUSPENDED_TOKEN in the store, and from it a run of the same process that makes the reader sendable with the tables unchanged |
| `Restarts.SenderStopLiftedIff` | internal/app/app.go:131-145 | A token suspension without a fingerprint is lifted by a start if and only if no row of the reader is pending, whatever token is configured |
| `Restarts.SenderStopUnnamed` | internal/sender/sender.go:209-216 | Whatever the sender stores for a gate, in any run, is SUSPENDED_TOKEN without a fingerprint |
| `Witness.SameTokenLifted` | internal/app/app.go:131-145 | For every configuration and every reader of it: a reachable state in which the sender's suspension is in memory and in the store, and the run Crash, Boot with the same configuration, Restore from it, after which the reader is PREFLIGHT_PENDING in memory and in the store |
| `Restarts.StoredSuspensionExact` | internal/gate/gate.go:97-103 | A suspension in memory and in the store stays in the store for the whole process run if and only if no preflight or refresh still has to store an opening it made earlier |
| `Restarts.LatePersistWins` | internal/gate/gate.go:129-135 | From every state with such an unstored opening there is a continuation of the same process that overwrites the stored suspension |
| `Witness.LatePersistReachable` | internal/sender/preflight.go:93-121 | Such a state is reachable: for every configuration, every reader of it, every scan, valid preflight reply and revoking reply, a run from the empty store ends with the suspension in memory and in the store, and a continuation of the same process then loses it from the store |
| `Rebind.RebindGuard` | internal/sender/preflight.go:64-92 | Restored with another token's fingerprint and a known booth, first reply a valid 200 for another booth: for the whole process run the reader is never sendable, not one row of it is POSTed, and its rows leave the queue only by age |
| `Rebind.RebindExactly` | internal/sender/preflight.go:70-92 | A preflight reply leads to SUSPENDED_REBIND if and only if the entry names another token and a booth and the reply is a valid 200 for a different booth |
| `Rebind.RetryDisarms` | internal/sender/preflight.go:64-92 | One unreachable attempt already records the new fingerprint, so no reply to the next one can trip the guard |
| `Rebind.RebindOnlyByFirstReply` | internal/sender/preflight.go:64-92 | For the whole process run: a reader that starts with the guard armed is ever SUSPENDED_REBIND only if the very first reply of its preflight is a valid 200 for another booth; with RebindGuard, the guard's exact condition |
| `Harms.SentToOtherBooth` | internal/sender/preflight.go:64-92 | For any two configurations with different tokens and any two booths: a reachable state in which a row waits that was queued while the reader was verified for the first booth, and from it a run without a resume that POSTs that very row with the second token, the reader by then verified for the second booth; on the way one attempt did not reach the server |
| `Cooldowns.WarningMeansNoCooldown` | internal/sender/metarefresh.go:83-92 | With non-negative cooldowns from the server, in every reachable state a sendable reader is ACTIVE_WARNING exactly when its cooldown is 0 |
| `Cooldowns.PreflightTruthfulIff` | internal/sender/preflight.go:93-109 | One preflight opening tells the truth about the cooldown if and only if the cooldown it was told is not negative |
| `RegistryObject.RegistryAndStoreAgree` | internal/gate/gate.go:86-136 | After every call of any sequence of non-overlapping gate writes, stored state, reason and meta equal the registry's, and the fingerprint too if one was passed; an empty one is blanked in the store and kept in memory |
| `RegistryObject.MetaStaysAgreed` | internal/store/sqlite/store.go:394-417 | Agreement on meta, which a write without meta relies on, is kept by every sequence of calls |
| `RegistryObject.RestoreAgrees` | internal/app/app.go:120-158 | A restored process starts with that agreement, whatever faults the store had |
| `RegistryObject.Registry.Set` | internal/gate/gate.go:86-104 | New entry and stored row are the memory half and the store half of the write; other readers are untouched; the change signal is set |
| `RegistryObject.Registry.RefreshMeta` | internal/gate/gate.go:114-136 | Applies if and only if the entry exists, is sendable and would change; otherwise nothing changes anywhere |
| `RegistryObject.Registry.SendableReaders` | internal/gate/gate.go:146-157 | Returns every sendable reader exactly once, and no other |
| `RegistryObject.Registry.HaltGlobal` | internal/gate/gate.go:173-178 | Sets the global halt and the change signal and nothing else |
| `RegistryObject.Attempt` | internal/sender/preflight.go:44-121 | Which replies lead to which state: PREFLIGHT_RETRY exactly for a transport error, a body error or a status from 500 on (and only that is inconclusive); otherwise SUSPENDED_TOKEN exactly for 404, SUSPENDED_CONFIG exactly for a 200 that names no event, booth or unit and for any other status, SUSPENDED_REBIND, ACTIVE and ACTIVE_WARNING exactly for a 200 that names one, by fingerprint and booth and by cooldown. Only these three store the meta of the reply; registry and store get the same state and reason, the time and the fingerprint; other readers and tables stay |
| `RegistryObject.AnsweredExactly` | internal/sender/preflight.go:64-121 | The same for every registry entry, store and reply as values, which is also what the state machine takes in hand |
| `RegistryObject.Tick` | internal/sender/metarefresh.go:69-107 | A refresh changes registry and store only for a valid 200 on a sendable reader whose state or meta differs, and then by one write: event, booth, unit and cooldown of the reply, ACTIVE_WARNING exactly for cooldown 0, the entry's own fingerprint, the time, and the change signal; the halt flag never |
| `RegistryObject.RestoreGates` | internal/app/app.go:120-158 | The restore loop, in any order of readers and with any store faults on the way: each reader begins with the reason, fingerprint and meta of its stored row, in its stored state if that is a suspension and in PREFLIGHT_PENDING otherwise or when it is a token suspension of another token with no row queued and counted; only then, and if the write is taken, its row becomes PREFLIGHT_PENDING under the new fingerprint; a reader without a row begins empty; all other rows and tables, the halt flag and the change signal stay |
| `RegistryObject.QueueResume` | internal/app/resume.go:16-60 | Succeeds exactly for a configured reader whose stored gate is suspended. Then its row is PREFLIGHT_PENDING for operator resume at that time with the old fingerprint and meta, every other gate row stays, and the queue has lost exactly its rows if discarding and none otherwise, with both counts returned; refusal changes nothing |
| `Resuming.ResumeReopens` | internal/app/resume.go:16-60 | Over every run: after a resume of a reader the next process to be launched, whatever its configuration and however many starts crash before it, has the reader, if configured, in PREFLIGHT_PENDING with its preflight about to start and the fingerprint and meta of the suspended row |
| `Resuming.ResumedSendsIff` | internal/app/resume.go:16-60 | From every stopped state with a suspended reader and for every configuration with it: a resume and a start lead to such a process, and one valid preflight reply then makes the reader sendable in memory and in the store, if and only if it is not the reply to another token from another booth |
| `Wakeups.NoLostWakeup` | internal/sender/sender.go:73-132 | In every reachable state where the sender sleeps and is not halted, and for every row of a sendable reader: a wake or change token is buffered, or some admission, preflight or refresh is between its write and its signal, or the sender wakes by itself in time. A timer then expires no later than the row's due time plus the time between the poll's clock reading and the timer's start, and a wait after a failed store read lasts at most 30 s |
| `Tightness.LagAttained` | internal/sender/sender.go:106-132 | That bound is exact: for every configuration, every reader of it and every lag, a reachable state in which the sender sleeps on its timer, nothing is buffered or pending, and a row of the sendable reader is due exactly the lag before the timer expires |
| `Wakeups.IdleWaitSound` | internal/sender/sender.go:106-121 | When a poll finds nothing for a set of readers, the wait for that set is positive, at most 30 s and never past the earliest due row |
| `Pipeline.IdleWait` | internal/sender/sender.go:106-121 | At most 30 s, never past a due time not yet reached, positive when that lies ahead, up to it exactly when it is no more than 30 s ahead, and 30 s otherwise |
| `Wakeups.SleepExactly` | internal/sender/sender.go:73-132 | For every step: the sender works with the clock reading made before it read the gates until the row is dealt with; it falls asleep only while halted, for 5 s after a failed queue read, for 30 s after a failed look at the next due time, or with a timer for the time until then |
| `Wakeups.NoPostAfterHalt` | internal/gate/gate.go:166-178 | After a global halt not one request is sent in that process run |
| `Wakeups.AdmissionIgnoresHalt` | internal/admission/admission.go:27-67 | The admission steps possible in a state, and what they do, are exactly those of the same state with the halt flag set or cleared |
| `AdmissionObject.Admission.Handle` | internal/admission/admission.go:27-67 | A reader in one of the three suspended states never gets a row. Otherwise a row appears, and the sender is woken, exactly when the store takes the read and no accepted one of its reader and EPC came less than the debounce time before. The row has a fresh id and the reader, EPC, text and time of the read, no attempts, and is due at that time; every other row stays. In every other case the tables and the wake-up stay |
| `AdmissionObject.SecondReadDebounced` | internal/store/sqlite/store.go:158-174 | After an enqueued read the next one of the same reader and EPC is dropped exactly when it is stamped before the first plus debounce |
| `Refinement.HandleMatchesMachine` | internal/admission/admission.go:27-67 | The state machine refuses a read exactly when Handle drops it for a suspended reader; otherwise its separate steps end with the tables and the wake-up Handle leaves |
| `Refinement.DeliverMatchesMachine` | internal/sender/sender.go:134-226 | For every row, reply and store failure the state machine can finish the delivery alone, and its tables, registry, halt flag and change signal are then those Deliver computes |
| `Refinement.AttemptMatchesMachine` | internal/sender/preflight.go:44-121 | With a reply in hand the machine's read, write, notify and persist end with the entry and the gate row Attempt leaves, done exactly when Attempt is conclusive |
| `Refinement.TickMatchesMachine` | internal/sender/metarefresh.go:69-107 | A refresh can start exactly for a sendable reader, and on its own ends with the registry, tables and change signal Tick leaves |
| `Refinement.RestoreMatchesMachine` | internal/app/app.go:120-158 | The machine's restore steps, in any order and with any faults, end with the entries and tables RestoreGates leaves |
| `Refinement.ResumeMatchesMachine` | internal/app/resume.go:16-60 | A stopped machine allows a resume exactly for a suspended reader, and its steps leave the tables as QueueResume does |
| `Refinement.DeleteMatches` | internal/store/sqlite/store.go:255-382 | The deletions of the state machine are the store's Complete, ExpireBefore and DiscardPending |
| `SenderObject.Sender.Pass` | internal/sender/sender.go:73-103 | Rounds at one clock reading, with a store that takes row writes, terminate with nothing due or halted; rows are visited in strictly increasing (checkedAt, id) order whatever the order of the reader list, each at most once, each as it was; POSTed are exactly the visited rows young enough and configured; none when halted at the start; gate writes may fail |
| `SenderObject.Sender.Round` | internal/sender/sender.go:73-103 | One round takes the least due row of a sendable reader, or nothing exactly when nothing is due, and strictly shrinks the due work or halts |
| `SenderObject.Sender.Deliver` | internal/sender/sender.go:134-226 | For every row, reply and failure of the row's or the gate's store write: it POSTs exactly a row that is young enough and whose reader has a token. If the row's write is taken, a POSTed row stays queued exactly for a retry or a global halt, with one attempt more and due 5 s, 30 s or 2 min later by its attempts so far, or as before for a halt; an expired row is deleted; every other row stays. The reader's gate is closed for a refused or a missing token, in memory with its fingerprint and meta, in the store with an empty fingerprint, and untouched otherwise; halt flag and change signal |
| `SenderObject.DeliveredExactly` | internal/sender/sender.go:134-226 | The same said of the tables and the registry as values, from which the method takes it |
| `SenderObject.DeliveryShrinks` | internal/sender/sender.go:134-226 | Delivering any due row without halting takes it out of the due work, changing nothing else in it, if and only if the store takes the row's write or the reader's gate is closed |
| `Storage.Store.Admit` | internal/store/sqlite/store.go:135-198 | Accepted exactly outside the debounce window of the last accepted time; the clock moved backward exactly when the read is stamped before that. An accepted read becomes a row under the next id with its reader, EPC, text and time, no attempts, due at once, and the new time of its key; all else stays, and everything for a dropped one |
| `Storage.Store.NextDue` | internal/store/sqlite/store.go:201-227 | The row of a listed reader, due by now, that comes first by (checkedAt, id); none exactly when no row of a listed reader is due |
| `Storage.Store.NextDueAt` | internal/store/sqlite/store.go:230-252 | The minimum due time of the listed readers' rows, none when they have no row |
| `Storage.Store.Complete` | internal/store/sqlite/store.go:255-260 | Deletes that row and nothing else |
| `Storage.Store.RetryLater` | internal/store/sqlite/store.go:263-270 | One more attempt and a new due time for a row that still exists; never brings a row back |
| `Storage.Store.MarkAttemptKeepDue` | internal/store/sqlite/store.go:273-280 | One more attempt, same due time, for a row that still exists |
| `Storage.Store.ExpireBefore` | internal/store/sqlite/store.go:290-321 | Keeps exactly the rows scanned at or after the cutoff, unchanged, and reports each of the others once |
| `Storage.Store.CleanupDebounce` | internal/store/sqlite/store.go:324-337 | Deletes exactly the debounce rows older than the cutoff without a pending row, and counts them |
| `Storage.Store.PendingCount` | internal/store/sqlite/store.go:364-371 | Number of the reader's queued rows |
| `Storage.Store.DiscardPending` | internal/store/sqlite/store.go:373-382 | Deletes exactly the reader's queued rows and counts them |
| `Storage.Store.SetGate` | internal/store/sqlite/store.go:394-417 | Replaces the reader's gate row by the state, reason, time and fingerprint given; without meta an existing row keeps its own and a new one has none; other rows stay |
| `Debounce.CleanupInvisible` | internal/store/sqlite/store.go:324-337 | A store that cleans and one that never does give the same accept, drop and clock-backward verdicts and ids, and the same other tables, for every run whose scans are not stamped earlier than an earlier cutoff plus debounce |
| `Debounce.CleanupVisibleIff` | internal/store/sqlite/store.go:158-174 | One cleanup changes the verdict on a scan if and only if it removed the scan's key and the scan comes before the removed time plus debounce |
| `Debounce.SweeperIsOnTime` | internal/app/app.go:245-269 | The sweeper's cutoff meets that condition for every scan stamped no more than debounce before an earlier sweep |
| `Pipeline.Keep` | internal/app/app.go:245-269 | The sweeper keeps debounce rows for ten minutes or twice the debounce time, whichever is longer |
| `Debounce.AcceptedSpaced` | internal/store/sqlite/store.go:158-197 | Receive times in any order: accepted times of one reader and EPC increase with gaps of at least debounce |
| `Spacing.AcceptedSpacedInRuns` | internal/store/sqlite/store.go:158-197 | In every run of the whole machine with one debounce time, through crashes, restarts, sweeps and deliveries, and scans not stamped more than debounce before an earlier sweep: any two accepted scans of one reader and EPC are at least debounce apart, in the order they were accepted |
| `Debounce.DropExplained` | internal/store/sqlite/store.go:158-174 | Every dropped scan has an accepted one later than its own time minus debounce |
| `Debounce.WindowBound` | internal/store/sqlite/store.go:158-197 | Any window of W ms accepts at most floor(W / debounce) + 1 scans of one key |
| `Framing.FramerRefinesSplit` | internal/reader/protocol/framer.go:36-69 | For every stream, every chunking and after every chunk: the lines returned are, in order and byte for byte, the frames of the plain CRLF split shorter than maxLine, or exactly as long with no chunk ending between their CR and LF; every other frame is counted once; the buffer is the end of the open frame |
| `Framing.FramerConserves` | internal/reader/protocol/framer.go:36-73 | For every chunking: lines returned plus frames dropped are the CRLF pairs received; the buffer holds no CRLF and at most maxLine bytes |
| `Framing.ChunkIndependent` | internal/reader/protocol/framer.go:36-69 | Without a frame of exactly maxLine bytes the lines depend on the stream alone: the frames shorter than maxLine |
| `Framing.ChunkingMatters` | internal/reader/protocol/framer.go:41-52 | With such a frame, two chunkings of the same stream give different drop counts |
| `Framing.SplitJoins` | internal/reader/protocol/framer.go:36-69 | The plain split the framer is compared with loses and invents nothing: joined with CRLF it is the stream again |
| `Framing.SplitExactly` | internal/reader/protocol/framer.go:36-69 | That split cuts at every pair of bytes 13 and 10 and nowhere else: none is left in a frame or behind the last one |
| `Framing.DrainAdds` | internal/reader/protocol/framer.go:36-69 | What one Push returns does not depend on what earlier ones returned |
| `Framing.Framer.Push` | internal/reader/protocol/framer.go:36-69 | The loop terminates and computes the drained lines, drop count, rest and dropping flag |
| `Framing.Framer.constructor` | internal/reader/protocol/framer.go:27-32 | A non-positive limit means 4096 |
| `Parsing.ParseExact` | internal/reader/protocol/parser.go:51-139 | A line is read as a tag if and only if it spells that tag: PC and EPC digits with any spaces and tabs between them, optionally ;R, four digits and trailing blanks, letters in either case; the tag is then in normal form (4-digit PC, non-empty even EPC, upper-case hex, 16-bit RSSI) |
| `Parsing.PrintParse` | internal/reader/protocol/parser.go:91-139 | Printing any normal tag, with its RSSI in two's complement, and parsing it returns the tag |
| `Parsing.BlankInside` | internal/reader/protocol/parser.go:141-150 | One more space or tab anywhere in the PC and EPC part changes nothing |
| `Parsing.BlankBehind` | internal/reader/protocol/parser.go:97-118 | Nor does one behind the line, with or without RSSI |
| `Parsing.CaseBlind` | internal/reader/protocol/parser.go:152-177 | Two lines that differ only in the case of the letters a to f are read as the same tag |
| `Parsing.LineKinds` | internal/reader/protocol/parser.go:51-84 | Which lines are tags, acknowledgements, codes, settings or none of these, by their first bytes, and the trimmed text a code or a setting carries |
| `Parsing.BadTagReasons` | internal/reader/protocol/parser.go:91-139 | Which of the four reasons a refused tag line gets: the digits behind its first ";R", its length, its PC or its EPC |
| `Parsing.HexOfValue` | internal/reader/protocol/parser.go:103-112 | Four hex digits read as a signed 16-bit number and printed again are the digits in upper case |
| `Parsing.ValueExactly` | internal/reader/protocol/parser.go:97-113 | Four hex digits are read most significant first and as a signed number: FD96 is -618, that is -61.8 dBm |
| `Parsing.StripSpaces` | internal/reader/protocol/parser.go:141-150 | Removes exactly the spaces and tabs, keeping order |
| `Parsing.StripByByte` | internal/reader/protocol/parser.go:141-150 | Byte by byte: a space or a tab goes, every other byte stays where it is |
| `Parsing.IsHexBytes` | internal/reader/protocol/parser.go:152-166 | True exactly for a non-empty buffer of hex digits |
| `Parsing.UpperHex` | internal/reader/protocol/parser.go:168-177 | Same length, each letter a to f raised, everything else as it was |
| `Parsing.TrimSpaceCuts` | internal/reader/protocol/parser.go:60-74 | Trimming cuts off the white space at both ends and nothing else |
| `Commands.EndsWithCrAlone` | internal/reader/protocol/commands.go:10-37 | Every encodable command ends with CR, contains no other CR and no LF |
| `Commands.EncodeInjective` | internal/reader/protocol/commands.go:10-37 | Different commands are different on the wire |
| `Commands.CommandBytes` | internal/reader/protocol/commands.go:9-39 | The bytes of each command and the values an encoder accepts |
| `Commands.NumberOfDecimal` | internal/reader/protocol/commands.go:20-28 | The digits written for a number have that value and no leading zero |
| `ReaderSession.Connection.Serve` | internal/reader/session/session.go:132-184 | Over every order of chunks, timeouts, errors, cancellation and power requests: the commands written are a prefix of Stop, version, buzzer, power, RSSI off, start and one Stop, power, start block per accepted power, and none but the one after the first Stop is written before the one before it has been answered; nothing is handled before the inventory; after that, in order, exactly the tag lines completed by the chunks after the first one to carry the start acknowledgement; it ends only for a failed write, an error, cancellation, a timeout or an invalid configuration |
| `ReaderSession.Connection.Inventory` | internal/reader/session/session.go:169-184 | The inventory loop keeps all of that, across any number of reconfigurations |
| `ReaderSession.Connection.Initialize` | internal/reader/session/session.go:259-277 | Writes a prefix of Stop, version, buzzer, power, RSSI off and start, all of it on success; then the last five were each answered, by the first chunk since the command was written to carry ">v", ">b", ">p", ">i" and ">Af", before the next one was written. On failure at a command that command got no such line, also when Stop ran into the settle timer |
| `ReaderSession.Connection.StopAndDrain` | internal/reader/session/session.go:229-257 | Writes Stop once, handles nothing, and succeeds with the first chunk that carries the acknowledgement, or with the settle timer if none did |
| `ReaderSession.Connection.Command` | internal/reader/session/session.go:282-304 | Writes the command exactly once; succeeds with the first chunk that carries the answer, fails only for a failed write, an error, cancellation or the deadline, and then no chunk carried it; tags that arrive meanwhile are handled |
| `ReaderSession.Connection.ConsumeUntil` | internal/reader/session/session.go:307-321 | Found exactly when one of the chunk's lines answers; every other tag line of the chunk is dispatched, also those after the answer |
| `ReaderSession.Connection.HandleChunk` | internal/reader/session/session.go:323-329 | Dispatches exactly the lines the chunk completes |
| `ReaderSession.Connection.Dispatch` | internal/reader/session/session.go:338-367 | Hands on a tag outside initialisation, and nothing else ever |
| `ReaderSession.ReadCarriesEpc` | internal/reader/session/session.go:338-356 | A line becomes a read exactly when it spells a tag, and the read carries the EPC, the digits after the first four in upper case, never the PC |
| `ReaderSession.SettingOnWire` | internal/reader/protocol/parser.go:75-83 | Which lines answer a setting command: ">k " and at least one more byte, for every k but T, A and C |
| `ReaderSession.AckOnWire` | internal/reader/protocol/parser.go:60-69 | Which lines acknowledge a command: ">A", white space if any, and the letter of the command |
| `ReaderSession.Connection.Reconfigure` | internal/reader/session/session.go:375-393 | An invalid power is ignored; otherwise a prefix of Stop, power, start is written, all of it on success, each answered by the first chunk since it was written to carry ">A3", ">p" and ">Af" before the next one is written; on failure the last one got no such line |
| `ReaderSession.NeverResent` | internal/reader/session/session.go:279-304 | In everything a connection may write no command follows itself |
| `Replay.ReplayEqualsLive` | internal/replay/replay.go:39-119 | On any CRLF lines without stray CR or LF and shorter than 4096 bytes: raw replay, replay of any recording of the same bytes, and a live connection that has just consumed a whole number of frames and then reads these bytes in any chunking, hand the same tag reads to the handler, namely those of the lines |
| `Replay.SplitOfJoin` | internal/reader/protocol/framer.go:36-69 | Splitting undoes joining on such lines |
| `Replay.Runner.RunRaw` | internal/replay/replay.go:39-52 | For every file: handles what a framer makes of its text lines, each with its trailing CRs replaced by CRLF, and fails exactly when a line does not fit the 64 KiB buffer |
| `Replay.Runner.RunNdjson` | internal/replay/replay.go:56-91 | For every recording: handles what a framer makes of its chunks up to the first line over 1 MiB, unreadable record or chunk, and fails exactly when there is one |
| `Replay.Runner.Consume` | internal/replay/replay.go:93-119 | Hands on the tag reads of the lines in order |
| `ReplayInputs.EndingsDoNotMatter` | internal/replay/replay.go:39-52 | Raw replay of any plain lines, each ended by CRLF or by LF alone, the last one perhaps not ended, hands on the reads of these lines |
| `ReplayInputs.ScanOkIff` | internal/replay/replay.go:39-52 | The scan of a file succeeds if and only if no 64 KiB of it are without a line end |
| `ReplayInputs.PlayJoined` | internal/replay/replay.go:56-91 | A recording is played record by record, and nothing after an unreadable one is |
| `ReplayInputs.PlayOne` | internal/replay/replay.go:65-88 | A blank line plays nothing, a record its chunks, anything else fails |
| `ReplayInputs.PlayOkIff` | internal/replay/replay.go:65-88 | A recording plays to its end if and only if every record is blank or has only readable chunks |
| `ReplayInputs.DecodedExactly` | internal/replay/replay.go:82-88 | The chunks of a record play up to the first that is not hexadecimal |

## Left out

- GUI, tray, wizard, HTTP server, reports, Windows service, network adapter, NTP and lock files: user interface and foreign calls.
- HTTP transport and JSON decoding (`internal/congkong/client.go`): a reply is the decoded record; only the texts the classifier compares are distinguished, as an enumeration with an "other" case.
- SQLite itself, its migrations and the columns `last_error_class` and `last_http_status`, which nothing reads back.
- Logging, telemetry, `status.json`, the registry's `subs` channels and `Snapshot`, and the near-expiry warning: observation only.
- SHA-256 in `Secret.Fingerprint`: a configured fingerprint is a value, not computed from the token.
- `config.go` and `cfgwrite.go`: range checks; their results are assumptions above.
- Operator reason texts: an enumeration of the texts the code writes.
- `ResumeGlobal` and the drain wait at replay end: nothing in the pipeline calls the first, and the second only waits.
- The delays between preflight attempts and between meta refreshes, and the reconnect loop and delays of a session: any delay is allowed in the state machine, and connections are modelled one at a time.
- `session.Probe` and `clock.Fake`: a diagnostic and a helper.
- Cancellation of a replay between lines and the receive time of a replayed read (record time or clock).
- Parsing.TrimSpace: trims ASCII white space only; the Unicode spaces the source also trims cannot occur in an ASCII reply, and no tag line is affected.
- Parsing.Parse: the raw line kept in every result and the error texts are left out; errors are an enumeration.
- ReaderSession.Connection.Serve: the reader goroutine and its channels are the event list, which holds what the selects receive in order of receipt; a power request or a timer in a place where no select waits for it is skipped, and a run that ends there counts as cut off.
- ReaderSession.Connection.Write: the bytes go to the connection as a whole or the write fails; which write fails first is a parameter.
- Replay.Runner.RunNdjson: records come decoded, as too long, blank, malformed, with an unreadable time, or with chunks that are hexadecimal or not.
