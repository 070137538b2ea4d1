# XRPL intent service: verified model

A Dafny model of the intent service, with proofs about every interleaving of its calls. It covers
the intent lifecycle (create, prepare, sign, submit, settle) over a shared table and a validated
ledger, the finality worker and its coalescing loop, the connection manager, idempotent creation
and keyset paging.

## How the lifecycle is modelled

* `Protocol` is one state machine: the database, the validated chain, the connected endpoint, the
  numbered submit RPCs, and a log of everything any call has read. An action of the service is
  enabled only if logged facts lead its decision function (`Decisions`) to exactly that write. Since
  the log never forgets, a write may rest on facts of any age: this covers any number of calls in
  flight, each with its own stale snapshot, interleaved at every await.
* `Invariant` proves an inductive invariant of that machine; `Theorems`, `Provenance` and `Attempts`
  draw the promises from it, for every run. `Witnesses` builds runs that reach the states these speak of.
* The services are classes whose methods keep the source's control flow. They act through
  `Backends.Backend`, whose every operation first lets anyone else take any number of steps. Each
  write must satisfy the machine's guard, so what is proved of all runs holds for the code. The
  backend counts what this side itself does: searches, failed ledger requests, switch requests, submit
  RPCs, created intents, and the statuses it writes; the refusals of the services are tied to these counts.
* `Connections` is a second machine, for the connection manager: one action per synchronous segment
  between two awaits. `ConnectionManager` holds the class with the same fields, proved equal to it
  segment by segment, and `request` as one call passes through it.
* `CycleRunners` is the single-flight loop around the finality pass, with its history of calls,
  starts, ends and settled promises. `Queries` and `IntentsServices` hold listing, paging and
  idempotent creation.

## What is assumed

* The xrpl library (`Transactions.Lawful`): decoding what was encoded gives back the account,
  Sequence and LastLedgerSequence; signed-transaction hashes do not collide. Nothing else.
* The ledger (`Ledger.Follows`, `Ledger.Admissible`): account Sequences never fall; a blob enters a
  version only up to its LastLedgerSequence, spends its Sequence there, and carries a tes or tec
  result; no blob enters before the service has prepared its transaction (`Protocol.MayInclude`).
  The rest of the network appears only through the Sequences it spends.
* Endpoints (`Ledger.HonestAccount`, `Ledger.HonestSearch`): an arbitrarily lagging prefix of one
  chain, with any gaps; `searched_all` is said exactly when every ledger of the range is held; a
  validated `account_info` carries the ledger it was read at. An endpoint may be `prompt`: it then
  reports no transaction as pending once its ledger has reached the end of the range. Only the
  settlement of a pass speaks of prompt full-history endpoints with a monotone view, and only of the
  steps of that pass (`Backends.SteadySince`).
* A `tem` answer is given only for a blob that can never be included.
* The answer to a submit RPC reaches the call that sent it and no other.
* The configured network identifier is the same over the life of a table.
* The tracked work of the connection manager settles and `switching` is cleared in one segment,
  because awaiting callers resume only afterwards.

The connection manager describes itself as having at most one client connected, the old one always
disconnected first. The code does not keep that: the final release of `request`, and that of the
shutdown, run outside the tracked work. `Connections.TwoClientsCanBeOpen` is an execution in which
two clients are open, and `Connections.SecondOpensExactlyWhen` says at which steps that happens.

A signed intent that failed with SEQUENCE_CONFLICT need not have lost its Sequence: an account lookup
that finds no account is taken for a conflict whatever ledger it came from, so an endpoint that has
fallen behind the account's funding is enough (`Witnesses.ReachConflictFromLaggingRead`). The
transaction itself is absent from the ledger in every case (`Theorems.FinalityTruth`).

The unique index on transaction hashes can refuse an accepted signature: signed bytes that a tem
answer rejected may arrive again for a second intent of the same payload. The violation is translated
by nobody and is answered as `DatabaseError`.

## Model

| member | source | states |
|---|---|---|
| `Theorems.FinalityTruth` | src/finality/finality.service.ts:95-267 | What a status says of a signed intent is true of the chain in every later state of the run. VALIDATED: the blob is at its recorded index, inside (preparedLedgerIndex, LastLedgerSequence], with its recorded tes/tec result. EXPIRED: its hash is in no ledger, and no signed form of its prepared transaction, by any key, is in any. FAILED: its hash is in no ledger, the reason is a Sequence conflict, and the account stood at a larger Sequence beyond the window or did not exist in some ledger. REJECTED: its hash is in no ledger. Terminal statuses stay |
| `Theorems.ReleasedBlobIsDead` | src/database/schema.ts:80-86 | A signed intent that gave up the account slot has a blob that no continuation of any kind can include any more |
| `Theorems.LiveExactlyWhen` | src/finality/finality.service.ts:231-267 | A stored signed blob can still be included if and only if it is not malformed, its window is open and its Sequence is unspent in the newest ledger |
| `Theorems.NoDoubleLiveArtifact` | src/database/schema.ts:80-86 | At every moment of every run at most one accepted signed blob per network and account can still enter the ledger |
| `Theorems.NoSequenceSpentTwice` | src/database/schema.ts:80-86 | Two different validated intents of one account never carry the same Sequence |
| `Theorems.NoFalseAlarms` | src/finality/finality.service.ts:192-266 | With honest endpoints, whatever stale snapshot it acts on, the worker concludes only validation, expiry or a Sequence conflict: never an integrity error, an unexpected result or a Sequence regression |
| `Theorems.HitMeansValidated` | src/finality/finality.service.ts:210-228 | An intent concluded from a validated hit is VALIDATED whoever wrote it first |
| `Theorems.AbsenceMeansNotValidated` | src/finality/finality.service.ts:236-267 | An intent proven absent is never VALIDATED by anyone |
| `Theorems.SentBlobsAreThePreparedTransaction` | src/submission/submission.service.ts:50-86 | Every blob ever sent is the durable signed blob, strips to exactly the prepared blob, and its transaction was simulated with tesSUCCESS and a matching echo |
| `Theorems.CallersAgree` | src/signing/signing.service.ts:119-138 | Any two sightings of one intent show the same prepared blob, the same signed blob and hash, and the same terminal status |
| `Theorems.SignedBytesAgree` | src/signing/signing.service.ts:119-138 | Stored signed bytes are write-once and strip to the prepared blob |
| `Theorems.HashClashExactlyWhen` | src/intents/intents.repository.ts:135-141 | An accepted signature is refused by the hash index if and only if the intent still awaits one and another intent already stores the same signed bytes |
| `Witnesses.ReachHashClash` | src/database/schema.ts:88-90 | A run that gets there: after a tem answer the same payload is prepared again at the same ledger, Sequence and fee, and the same signed bytes arrive for the second intent |
| `Theorems.AuditTellsTheStory` | src/intents/intents.repository.ts:101-134 | Each intent's audit rows are a legal path from CREATED to its status, at most 7 long; EXPIRED with a blob was settled on the ledger and EXPIRED without one by the window; FAILED names its reason |
| `Theorems.ThrowsAreUnreachable` | src/intents/intents.repository.ts:101-141 | No call site ever meets the illegal-transition throw, and only CREATED to PREPARED can be refused the account slot |
| `Theorems.ChecksHold` | src/database/schema.ts:105-116 | No stored row breaks the range checks on fee, prepared ledger and LastLedgerSequence |
| `Theorems.OneOwnerPerSlot` | src/database/schema.ts:80-86 | At most one sequence-active intent per network and account |
| `Theorems.SubmittedHasBaseline` | src/submission/submission.service.ts:68-76 | SUBMITTED implies a submission baseline not above LastLedgerSequence, even with racing submits |
| `Theorems.BaselineOverwrittenExactlyWhen` | src/submission/submission.service.ts:68-76 | A stored baseline changes in a step if and only if that step is the baseline write of a submit that read none, with a different ledger, while the intent is still SIGNED |
| `Theorems.BaselineIsFinalOnceSubmitted` | src/submission/submission.service.ts:68-76 | From SUBMITTED on, and after any conclusion, the baseline never changes |
| `Witnesses.ReachOverwrittenBaseline` | src/submission/submission.service.ts:68-76 | A run in which two racing submits write two successive ledgers as the baseline of one intent |
| `Attempts.CountIsCommittedWrites` | src/submission/submission.service.ts:88-117 | submissionAttemptCount is the number of committed record writes, over every run |
| `Attempts.CountNeverExceedsAnswers` | src/submission/submission.service.ts:78-117 | In every run the count is at most the number of submit RPCs answered for the intent, each of which sent the durable blob of that intent |
| `Attempts.OneAnswerPerRpc` | src/submission/submission.service.ts:78-86 | A submit RPC has at most one answer |
| `Provenance.RunIsBuilt` | src/preparation/preparation.service.ts:125-150 | Every stored prepared transaction is what the builder makes of the payload of that very intent and its stored parameters |
| `Provenance.SentBlobsCarryThePayload` | src/submission/submission.service.ts:50-86 | Every blob ever sent strips to the upper-case serialization of a transaction that says, field by field, the account, the destination, the amount as Amount or the trust limit, the tag, Flags 0, the stored fee of at most 1000 drops, the Sequence, a window of 20 ledgers and the NetworkID, and has no other field |
| `Provenance.SimulatedEchoIsThePayload` | src/preparation/simulation.service.ts:30-56 | A stored simulation echo, without key, signature and hash, serializes to the same bytes as a transaction that says exactly the payload |
| `Provenance.StoredSignaturesAreAuthorized` | src/signing/signing.service.ts:40-61 | Every stored signed blob carries one valid signature, by a key that derived the account with its master key enabled or the RegularKey of the account, at the prepared Sequence, in a validated ledger inside the window |
| `Provenance.SigningRegressesExactlyWhenBehind` | src/signing/signing.service.ts:63-78 | Signing concludes a Sequence regression if and only if the window is open, its account read lags behind the ledger the preparation read, and the Sequence rose in between |
| `Witnesses.ReachSigningRegression` | src/signing/signing.service.ts:63-78 | A run that fails at signing with SEQUENCE_REGRESSION: the endpoint falls behind the preparation read |
| `Invariant.ActionKeepsInv` | src/intents/intents.repository.ts:101-155 | Every step of anyone keeps the whole invariant and only lets rows, chain and log grow |
| `Invariant.RunsExist` | src/intents/intents.service.ts:30-65 | A fresh table takes a new intent in some run |
| `Witnesses.ReachSubmitted` | src/submission/submission.service.ts:88-112 | For whatever intent and signature the library accepts, and whatever ledger it is prepared at, a run that reaches SUBMITTED with a baseline and one recorded answer |
| `Witnesses.ReachValidated` | src/finality/finality.service.ts:210-228 | The same for VALIDATED, with its ledger index and result |
| `Witnesses.ReachExpired` | src/finality/finality.service.ts:247-256 | The same for a signed EXPIRED |
| `Witnesses.ReachConflictFromLaggingRead` | src/finality/finality.service.ts:236-267 | A run in which a signed intent fails with SEQUENCE_CONFLICT although the newest ledger still shows its Sequence unspent: the account read came from a ledger before the account existed |
| `Invariant.RunHasInv` | src/intents/intents.repository.ts:101-155 | The invariant holds at every moment of every run, and later moments extend earlier ones |
| `Invariant.JustifiedIsSound` | src/intents/intents.repository.ts:101-134 | Whatever stale facts justified it, a status change is legal, keeps artifacts write-once, and its outcome is true of the ledger |
| `Invariant.PreparationIsSound` | src/preparation/preparation.service.ts:78-154 | Storing a preparation computed from stale reads is sound |
| `Invariant.WindowIsSound` | src/finality/finality.service.ts:142-156 | Expiring an unsigned intent from a stale snapshot never throws a signature away |
| `Invariant.SimulationIsSound` | src/preparation/preparation.service.ts:167-198 | Recording or refusing a simulation echo is sound |
| `Invariant.CompletionIsSound` | src/preparation/preparation.service.ts:200-225 | Deciding a simulated intent from its stored engine result is sound |
| `Invariant.SigningIsSound` | src/signing/signing.service.ts:49-104 | Accepting a signature, or failing on Sequence, is sound and anchors the account Sequence inside the window |
| `Invariant.SubmissionIsSound` | src/submission/submission.service.ts:94-112 | Recording the first submit result is sound: REJECTED only for a blob that can never be included |
| `Invariant.SearchIsSound` | src/finality/finality.service.ts:179-229 | A search can only conclude validation, with the stored blob on the chain |
| `Invariant.AbsenceIsSound` | src/finality/finality.service.ts:236-267 | Absence concludes only expiry or conflict, and then the blob is in no ledger and its window is over |
| `Invariant.SequenceDoesNotRegress` | src/signing/signing.service.ts:49-78 | The Sequence check at signing anchors every validated read beyond the window |
| `Invariant.UpdateIsSound` | src/intents/intents.repository.ts:144-155 | A column update outside transitions keeps every row sound |
| `Invariant.FactIsStable` | src/xrpl/ledger.service.ts:33-123 | What a logged read says of table and ledger stays true however stale it gets |
| `Invariant.TruthSurvivesLedger` | src/finality/finality.service.ts:95-112 | A new ledger never falsifies a stored outcome |
| `Invariant.EntersItsWindow` | src/preparation/preparation-params.ts:15-17 | A blob that may enter the ledger was prepared, so at most 20 ledgers of its window are left |
| `Invariant.HitIsTheStoredBlob` | src/finality/finality.service.ts:191-208 | A transaction found under the stored hash is the stored blob, in a ledger after the prepared one, with a final result |
| `Invariant.HonestReadIsFact` | src/xrpl/ledger.service.ts:33-123 | What an honest endpoint answers is a fact about the chain |
| `Ledger.CompleteMissIsAbsence` | src/xrpl/ledger.service.ts:107-123 | searched_all on a lagging, gappy endpoint means the hash is in no ledger of the range |
| `Ledger.AbsentInWindowIsNeverIncluded` | src/finality/finality.service.ts:166-176 | A blob that is absent from the 20 ledgers of its window is in no ledger at all |
| `Ledger.UnspentFormIsNeverIncluded` | src/finality/finality.service.ts:231-256 | If the account still stands at the prepared Sequence beyond the window, no signed form of the prepared blob was ever included |
| `Ledger.SequenceSpentOnce` | src/finality/finality.service.ts:231-235 | An account Sequence is spent by one blob, in one ledger |
| `Ledger.SequencesNeverFall` | src/finality/finality.service.ts:231-235 | Along the validated chain an account Sequence never falls |
| `Finality.FinalityService.ResolveSigned` | src/finality/finality.service.ts:95-112 | A conclusive outcome means a terminal stored row, VALIDATED exactly when the outcome is; its own write, if it made one, has the status of the outcome; unprovable only past the window, with an incomplete search and the budget spent; pending only with a read that leaves it open; as many switch requests as budget used; conclusive when served past the window by a prompt full-history endpoint |
| `Finality.FinalityService.FindTransaction` | src/finality/finality.service.ts:95-111 | A successful call made one search more than it requested switches; it requests one only past the window, after a search that was incomplete, and reports an incomplete search past the window only with the budget spent; it fails only when a request brought no answer |
| `Finality.FinalityService.ApplySearch` | src/finality/finality.service.ts:158-177 | Conclusive only after a validated hit, or a complete miss past the window; unprovable if and only if an incomplete miss past the window; pending only when the search leaves it open, or when the account read came from inside the window, which a steady endpoint past the window excludes; it fails, writing nothing, only when a request brought no answer |
| `Finality.FinalityService.ApplyFound` | src/finality/finality.service.ts:179-229 | VALIDATED exactly for a validated hit, and the stored row says so |
| `Finality.FinalityService.ApplyProvenAbsent` | src/finality/finality.service.ts:236-267 | Expired, failed or still pending; never pending with a steady endpoint past the window |
| `Finality.FinalityService.ConcludeAbsence` | src/finality/finality.service.ts:239-267 | Expired exactly when the account, read beyond the window, still stands at the prepared Sequence; failed otherwise |
| `Finality.FinalityService.Settle` | src/finality/finality.service.ts:269-284 | Afterwards the intent is terminal; the call wrote that status itself, or wrote nothing because someone else had settled it |
| `Finality.FinalityService.ExpireUnsigned` | src/finality/finality.service.ts:142-156 | Past its window an unsigned snapshot row is not unsigned any more |
| `Finality.FinalityService.Reconcile` | src/finality/finality.service.ts:121-128 | A verdict on the row, backed by what was read: settled, still open, or unproven exactly when it says so |
| `Finality.FinalityService.Cycle` | src/finality/finality.service.ts:114-140 | At most one switch request per pass, counted where it is made; a pass fails to complete only when a request brought no answer, and then leaves health and recovery as they were; a completed pass covers every active row of its snapshot with a verdict for each; it is DEGRADED if and only if a row stayed unproven; if one prompt full-history endpoint with a monotone view serves this pass, every row past its window is settled |
| `Finality.FinalityService.TakeSnapshot` | src/finality/finality.service.ts:116-117 | The ledger, and a moment after the start at which the rows were all the sequence-active ones |
| `Finality.FinalityService.ReconcileAll` | src/finality/finality.service.ts:121-128 | One verdict per row, backed by reads; some row is reported unproven exactly when a verdict says so; with a steady endpoint every row past its window is settled |
| `CycleRunners.OneCycleAtATime` | src/finality/finality.service.ts:67-82 | Cycles never overlap: one runs exactly while the service says so |
| `CycleRunners.EveryCallIsServed` | src/finality/finality.service.ts:62-82 | Each call is followed by a whole cycle that starts after it and ends before its promise settles |
| `CycleRunners.CyclesNeverOutnumberCalls` | src/finality/finality.service.ts:62-82 | From any moment on, cycles started never outnumber calls made, but for one already pending |
| `CycleRunners.CycleRunner.Join` | src/finality/finality.service.ts:67-69 | A call that finds a cycle running only marks one more as pending |
| `CycleRunners.CycleRunner.RunOne` | src/finality/finality.service.ts:72-75 | Exactly one pass lies between the recorded start and the recorded end of a cycle |
| `CycleRunners.CycleRunner.Drain` | src/finality/finality.service.ts:72-75 | Cycles run until no call is left waiting for one; each is one pass |
| `CycleRunners.CycleRunner.RunLoop` | src/finality/finality.service.ts:67-82 | A call that finds nothing running, to the moment its promise settles: as many passes as cycles, at least one, each taken after the call; a completed pass has a verdict on every intent that was active at its moment and makes the service recovered, an incomplete one was left without an answer; at most one switch per cycle |
| `Submission.SubmissionService.Submit` | src/submission/submission.service.ts:28-48 | The bounded loop always returns from inside and sends at most two RPCs; a result is SUBMITTED, VALIDATED or REJECTED and stored; before the startup recovery nothing is sent or written; unavailable only when a request brought no answer, or the intent is past its window and undecided, which no steady endpoint leaves it |
| `Submission.SubmissionService.SubmitSigned` | src/submission/submission.service.ts:50-76 | One attempt sends at most one RPC and ends with a stored row, or leaves the intent strictly further along; SERVICE_NOT_READY exactly before the startup recovery, and then the run is untouched |
| `Submission.SubmissionService.SettleInstead` | src/submission/submission.service.ts:55-66 | Past LastLedgerSequence this call sends nothing; it succeeds only when the intent is terminal, and always when a steady endpoint past the window answers |
| `Submission.SubmissionService.SendAndRecord` | src/submission/submission.service.ts:78-117 | Exactly one RPC, with the durable blob; when its answer arrives it is recorded, its number is spent for good, and the stored row shows that answer, REJECTED exactly for a tem answer to a first submission; or the intent has moved on |
| `Submission.SubmissionService.RecordAnswer` | src/submission/submission.service.ts:88-117 | The record write spends the RPC of this call; without it nothing is recorded |
| `Signing.SigningService.AttachSignature` | src/signing/signing.service.ts:27-104 | An intent that is not awaiting a signature is answered from the row that was loaded: the row itself when it carries the uppercased input, else SIGNATURE_ALREADY_ATTACHED, INTENT_EXPIRED or INVALID_INTENT_STATE by its status. Success means the stored blob is the uppercased input, a validly signed form of the prepared blob, and never follows once other bytes were stored. INTENT_EXPIRED needs a row read as EXPIRED or a validated ledger past the window, INVALID_INTENT_STATE a row in another status or an account read at another Sequence; before the startup recovery nothing is written |
| `Signing.SigningService.Process` | src/signing/signing.service.ts:39-61 | An unacceptable blob is refused before anything is read; success means the key of the blob passed window, authorization and Sequence against a validated read; a refusal of acceptable bytes names what was read |
| `Signing.SigningService.ReadSigner` | src/signing/signing.service.ts:42-49 | The account and the ledger it was read at, or the validated ledger read next when the answer names none |
| `Signing.SigningService.Decide` | src/signing/signing.service.ts:51-104 | The window decides first, then authorization, then the Sequence; what is answered and which status may be written in each case; a violated database constraint only when another intent stored the same bytes |
| `Signing.SigningService.Accept` | src/signing/signing.service.ts:80-104 | Past all checks: the signature is stored, or the intent has left AWAITING_SIGNATURE and the caller is answered from the row that won, or another intent stored the same signed bytes |
| `Signing.SigningService.AnswerFromCurrent` | src/signing/signing.service.ts:97-103 | A lost race is answered from the row that won: that row itself when it carries the same bytes |
| `Signing.SettledIsTold` | src/signing/signing.service.ts:119-138 | An answer from a loaded row carries the caller's own stored bytes or shows that others are stored |
| `Signing.SettledAnswerExactly` | src/signing/signing.service.ts:119-138 | The answer for every status, and none exactly while a signature is awaited |
| `SignedBlobs.Verify` | src/signing/signed-blob.service.ts:37-100 | Accepts exactly the well-formed blobs that are the prepared one plus one valid signature; says which check failed |
| `SignedBlobs.AcceptedExactlyWhen` | src/signing/signed-blob.service.ts:37-92 | What is checked, written out: even hexadecimal text up to 32768 characters, one key, one signature, none of the seven other signing fields, no field the prepared blob lacks, and the same bytes without the two signature fields |
| `SignedBlobs.AcceptedIsSignedForm` | src/signing/signed-blob.service.ts:65-100 | An accepted blob is normalized, strips to the prepared blob and carries its own hash |
| `SignedBlobs.AuthorizedExactlyWhen` | src/signing/signer-authorization.service.ts:13-33 | A key is authorized if and only if it derives the account, whose master key is enabled, or another address that is the account's RegularKey |
| `Preparation.PreparationService.Prepare` | src/preparation/preparation.service.ts:41-55 | At most 4 steps under any interference, never reaching the bound of 8; a result is signable or further; every failure has its cause in a row of the intent or among the reads; before the startup recovery only a stored simulation result is acted on |
| `Preparation.PreparationService.Step` | src/preparation/preparation.service.ts:57-76 | A step that does not end the request leaves the intent strictly further along; each error has its cause |
| `Preparation.PreparationService.PrepareCreated` | src/preparation/preparation.service.ts:78-124 | A prepared row stores the transaction built for a quiescent account, a validated ledger and a capped fee that were read; SERVICE_NOT_READY exactly before the startup recovery; each other error only with the read that causes it; ACCOUNT_BUSY only when another intent owned the Sequence meanwhile; a failure writes nothing |
| `Preparation.PreparationService.ReadAccountLedgerAndFee` | src/preparation/preparation.service.ts:82-103 | The three reads of a preparation, or the error with the read that causes it |
| `Preparation.PreparationService.QuiescentAccount` | src/preparation/preparation.service.ts:82-100 | Only an account whose open state shows the validated Sequence and nothing queued is used; ACCOUNT_NOT_QUIESCENT only when they differ |
| `Preparation.PreparationService.CappedOpenLedgerFee` | src/preparation/fee.service.ts:16-35 | Only a fee from 1 to the cap is used, the open-ledger fee that was read; FEE_TOO_HIGH only for one above the cap |
| `Preparation.PreparationService.StorePreparation` | src/preparation/preparation.service.ts:102-154 | TRANSACTION_BUILD_INVALID if and only if the library refuses the transaction that says exactly the payload at these reads; otherwise that transaction is stored in both forms, as JSON with DeliverMax and as bytes with Amount, or another intent owned the slot, or the intent had moved on |
| `Preparation.PreparationService.SimulatePrepared` | src/preparation/preparation.service.ts:156-198 | A simulated row holds a matching answer for the stored transaction, asked inside the window; SERVICE_NOT_READY exactly before the startup recovery; INTENT_EXPIRED only past the window, and then the intent has left PREPARED |
| `Preparation.PreparationService.RecordSimulation` | src/preparation/preparation.service.ts:171-198 | A matching echo is stored as SIMULATED; any other ends the request and takes the intent out of PREPARED, by writing FAILED unless someone else moved it first |
| `Preparation.PreparationService.CompleteSimulation` | src/preparation/preparation.service.ts:200-225 | tesSUCCESS goes on to signing; any other result is rejected, and said so exactly when this call wrote it |
| `Repository.IntentsRepository.Transition` | src/intents/intents.repository.ts:101-141 | The atomic step, reply by reply: not in state, illegal, busy exactly when another intent of the network and account holds a Sequence, a taken hash exactly when another intent has it; else the named columns, the status and one audit row are written and nothing else changes |
| `Repository.IntentsRepository.UpdateInStatus` | src/intents/intents.repository.ts:144-155 | The named columns are written exactly when the intent is in one of the statuses; nothing else changes |
| `Repository.IntentsRepository.CreateIdempotent` | src/intents/intents.repository.ts:57-82 | The existing row of the key exactly when the key is stored, else an insert with its first audit row, unless the id is taken |
| `Repository.IntentsRepository.FindById` | src/intents/intents.repository.ts:84-92 | The stored row, if any |
| `Repository.IntentsRepository.FindByStatuses` | src/intents/intents.repository.ts:187-193 | Exactly the stored rows in the given statuses, in ascending (createdAt, id) |
| `Repository.IntentsRepository.List` | src/intents/intents.repository.ts:158-185 | Only rows of the asked type, status and account below the cursor, strictly newest first, up to the limit; a row that was asked for is left out only by the limit and below every row shown |
| `Intents.TransitionKeepsConstraints` | src/database/schema.ts:80-90 | A transition keeps the slot, hash and key indexes |
| `Intents.TransitionedDoes` | src/intents/intents.repository.ts:101-141 | Every reply of the transition function with its cause and its effect, column by column |
| `Intents.UpdateKeepsConstraints` | src/database/schema.ts:80-90 | A column update keeps the indexes |
| `Intents.CreateKeepsConstraints` | src/database/schema.ts:80-90 | An insert keeps the indexes |
| `Intents.BusyOnlyWhenTakingTheSlot` | src/intents/intents.repository.ts:135-141 | Moving between owned statuses never meets the slot index |
| `IntentState.TransitionRaisesRank` | src/intents/intent-state.ts:46-61 | Every legal transition raises a rank, leaves no terminal status, and stays sequence-active until terminal |
| `IntentState.PathsAreShort` | src/intents/intent-state.ts:46-61 | No legal path visits more than seven statuses; a terminal one ends it |
| `IntentState.TableExactly` | src/intents/intent-state.ts:46-61 | The transition table, pair by pair |
| `Queries.ListedFacts` | src/intents/intents.repository.ts:158-185 | A listing is strictly descending, within its limit, and leaves out only rows below it |
| `Queries.ListedAnswers` | src/intents/intents.repository.ts:158-185 | The query answers type, status, account and cursor column by column |
| `Queries.MatchesExactlyWhen` | src/intents/intents.repository.ts:159-178 | A row matches if and only if its columns are the asked ones and it lies below the cursor |
| `Queries.PageIsAnswer` | src/intents/intents.service.ts:75-94 | A page answers the query; its cursor stands at its last row, exactly when something was left out |
| `Queries.OldestFirstIsExact` | src/intents/intents.repository.ts:187-193 | The status query returns exactly the rows in the statuses, in order |
| `Queries.PagingIsComplete` | src/intents/intents.service.ts:75-94 | Following the cursors shows only what was asked for, every intent that keeps being asked for exactly once, newest first, under any inserts; without a status filter, every such intent of the start |
| `Queries.PagingEnds` | src/intents/intents.service.ts:75-94 | Beyond the first page, full pages fit into the intents that lay below the first cursor at the start or were inserted below it since; when inserts are newer than that cursor the first table alone bounds the walk |
| `Queries.NothingIsRepeated` | src/intents/intents.service.ts:75-94 | No intent is shown twice |
| `IntentsServices.IntentsService.List` | src/intents/intents.service.ts:75-94 | The page answers the query in the same terms, with a default of 25 rows; its cursor stands at its last row, exactly when a row that was asked for is left out |
| `IntentsServices.ListingIsComplete` | src/intents/intents.service.ts:75-94 | Pages fetched at any later and later moments of a run show each initially matching intent exactly once |
| `IntentsServices.IntentsService.Create` | src/intents/intents.service.ts:30-65 | Success is the caller's own request, new or repeated, and said to be created exactly when this call inserted it; a new intent has the request's columns and no other; a reused key is refused with the other request as evidence; a violated constraint only when the id was taken |
| `IntentsServices.IntentsService.Get` | src/intents/intents.service.ts:67-73 | An intent anyone has seen is never reported missing |
| `IntentsServices.OneIntentPerKey` | src/intents/intents.service.ts:30-65 | One idempotency key is one intent with one request, for all time |
| `Transactions.BuiltHeader` | src/preparation/payment.builder.ts:10-35 | The bytes of a built transaction name its account, Sequence and LastLedgerSequence |
| `Transactions.BuildIsInjective` | src/preparation/preparation-params.ts:19-24 | Under one network the built transaction determines intent and parameters |
| `Transactions.BuiltSays` | src/preparation/payment.builder.ts:10-35 | The built transaction, field by field, for both builders: an amount is drops as text or currency, issuer and value; NetworkID from 1025 on; no other field |
| `Transactions.CanonicalFormExactly` | src/xrpl/codec.ts:26-34 | DeliverMax becomes Amount and every other field stays; refused exactly when another Amount is present; any other transaction is unchanged |
| `Transactions.EncodedSays` | src/xrpl/codec.ts:42-44 | The bytes of a built transaction serialize one that says exactly the payload, with Amount |
| `Transactions.BuildableExactlyWhen` | src/preparation/preparation.service.ts:106-123 | A payload can be built if and only if the library validates and serializes the one transaction that says it |
| `Transactions.MatchingEchoIsPrepared` | src/preparation/simulation.service.ts:30-56 | The echo comparison holds if and only if the echo, without SigningPubKey, TxnSignature and hash, serializes to the prepared transaction |
| `Backends.Backend.Execute` | src/intents/intents.repository.ts:101-155 | The code of each atomic step does what the machine says |
| `Backends.Backend.Tx` | src/xrpl/ledger.service.ts:107-123 | A typed answer is an honest search of the connected endpoint |
| `Backends.Backend.ValidatedAccountInfo` | src/xrpl/ledger.service.ts:33-52 | A typed answer is the account in a named validated ledger |
| `Backends.Backend.ValidatedLedgerIndex` | src/xrpl/ledger.service.ts:70-83 | A typed answer is the head of the connected endpoint |
| `Backends.Backend.Submit` | src/xrpl/ledger.service.ts:97-105 | Only a justified durable blob can be sent, as one more numbered RPC; its answer is for this call alone to record |
| `Backends.Backend.SwitchEndpoint` | src/xrpl/connection-manager.service.ts:147-154 | Each request for the other endpoint is counted, whether or not it succeeds |
| `Backends.ReadIsLatest` | src/finality/finality.service.ts:286-291 | Every row a call reads carries the columns later steps require, so no `required` throw is reachable |
| `Decisions.FoundExactly` | src/finality/finality.service.ts:184-218 | A hit leads to VALIDATED exactly when it is validated, under the stored hash, inside the window and final; which failure otherwise |
| `Decisions.FinalExactly` | src/finality/finality.service.ts:205-208 | A result is final exactly when it starts with tes or tec |
| `Decisions.AbsentExactly` | src/finality/finality.service.ts:236-267 | Absent: too early, expired, conflict or regression, by the validated Sequence |
| `Decisions.SearchExactly` | src/finality/finality.service.ts:158-177 | A miss: wait, unprovable, or look at the account |
| `Decisions.WindowExactly` | src/finality/finality.service.ts:142-156 | An unsigned intent expires exactly past its window |
| `Decisions.SigningExactly` | src/signing/signing.service.ts:51-91 | Signing: expired, failed with its code, or signed, each exactly when |
| `Decisions.SubmitExactly` | src/submission/submission.service.ts:94-112 | The first answer rejects exactly when it starts with tem |
| `Decisions.MalformedExactly` | src/submission/submission.service.ts:94-112 | A result is malformed exactly when it starts with tem |
| `Decisions.PreparationExactly` | src/preparation/preparation.service.ts:102-140 | A preparation stores exactly these columns, and exists exactly when the payload can be built |
| `Decisions.SimulationExactly` | src/preparation/preparation.service.ts:171-225 | A matching echo is stored and any other fails; only tesSUCCESS goes on to signing |
| `Connections.AtMostOneLiveClient` | src/xrpl/connection-manager.service.ts:54-59 | From its creation until its disconnect is called, at most one client is live in every reachable state; the active one is it, and `preferred` names its endpoint |
| `Connections.SeveralOpenExactlyWhen` | src/xrpl/connection-manager.service.ts:54-59 | Until its disconnect has finished, more than one client is open if and only if a release outside the tracked work overlaps a newer open client; without such a release at most one is |
| `Connections.SecondOpensExactlyWhen` | src/xrpl/connection-manager.service.ts:131-140 | In a step from at most one open client, a second opens if and only if the step starts a bootstrap while a release outside the tracked work has not finished; a step that starts none opens nothing |
| `Connections.TwoClientsCanBeOpen` | src/xrpl/connection-manager.service.ts:131-140 | A run in which two clients are open: a failed retry still closing its client while a caller connects again |
| `Connections.NoLostReconnect` | src/xrpl/connection-manager.service.ts:131-140 | After the first attempt a manager with nothing active and nothing switching has a timer armed, or a request about to arm it |
| `Connections.NobodyWaitsForNothing` | src/xrpl/connection-manager.service.ts:166-203 | A caller that still waits for a switch waits for the one in progress |
| `Connections.CleanShutdown` | src/xrpl/connection-manager.service.ts:156-164 | Once the shutdown has released the connection: no client, bootstrap or timer, ever again |
| `Connections.AtMostTwoIdenticalSends` | src/xrpl/connection-manager.service.ts:109-140 | A request sends at most two payloads, both its own, on two different clients |
| `Connections.SecondFailureDrops` | src/xrpl/connection-manager.service.ts:131-140 | After a request failed on both endpoints the connection is dropped if it is still the one it was sent on; otherwise the manager is left alone |
| `Connections.ReleaseArms` | src/xrpl/connection-manager.service.ts:135-139 | When that release has finished the caller is told and a timer is armed |
| `Connections.ConcurrentFailuresShareOneSwitch` | src/xrpl/connection-manager.service.ts:176-203 | Any number of failures on one client start one switch; the client is gone for good |
| `Connections.FailoverTriesTheOther` | src/xrpl/connection-manager.service.ts:184-193 | A failover tries the other endpoint and no more |
| `Connections.LossStartsFailover` | src/xrpl/connection-manager.service.ts:281-286 | In every run the loss of the active client starts a failover from it, and it is never active or live again; the loss of another client changes nothing |
| `Connections.SwitchStartsFailover` | src/xrpl/connection-manager.service.ts:147-154 | In every run a requested switch leaves the active endpoint; without one an idle manager connects |
| `Connections.PreferredIsTriedFirst` | src/xrpl/connection-manager.service.ts:166-174 | In every run an idle manager that connects tries the preferred endpoint first, then the other |
| `Connections.AlternateIsPreferred` | src/xrpl/connection-manager.service.ts:184-193 | In every run the alternate of a failover is preferred from its first try on, whether or not it answers, until a later connect succeeds or a later failover begins |
| `Connections.ActiveIsSticky` | src/xrpl/connection-manager.service.ts:54-59 | No failback: a connection is given up only for its own failure, on request, or at shutdown |
| `Connections.BackoffFollowsSchedule` | src/xrpl/connection-manager.service.ts:297-308 | Since the last success the n-th timer waited for the n-th delay; delays never shrink and stop at 30 s |
| `Connections.SuccessRestartsBackoff` | src/xrpl/connection-manager.service.ts:212-217 | A successful connect restarts the schedule: the next timer waits for one second |
| `Connections.DelaysGrowToTheCap` | src/xrpl/connection-manager.service.ts:44-48 | The delay schedule |
| `Connections.ConnectInOrderIsGood` | src/xrpl/connection-manager.service.ts:205-226 | A failed work has tried its whole order, and leaves an armed timer |
| `Connections.FailoverIsGood` | src/xrpl/connection-manager.service.ts:176-193 | Afterwards the failed client is gone and the caller is promised another |
| `Connections.StepKeepsOk` | src/xrpl/connection-manager.service.ts:113-308 | Every segment of anyone keeps the manager and every suspended call sound |
| `ConnectionManager.ConnectionManagerService.Connection` | src/xrpl/connection-manager.service.ts:166-174 | Active, shared or new connection work, the preferred endpoint first; the pledge is sound, avoids every client that is gone, and the manager is connected, switching or scheduled |
| `ConnectionManager.ConnectionManagerService.Failover` | src/xrpl/connection-manager.service.ts:176-193 | The active failed client is released and only the other endpoint is to be tried; any other failure shares the switch in progress or connects; the failed client is gone and the pledge avoids it |
| `ConnectionManager.ConnectionManagerService.ConnectInOrder` | src/xrpl/connection-manager.service.ts:205-226 | The loop from one await to the next |
| `ConnectionManager.ConnectionManagerService.BootstrapEnded` | src/xrpl/connection-manager.service.ts:210-222 | Success makes the endpoint active and preferred and restarts the reconnect schedule; failure closes the client with the rest of the order still to be tried |
| `ConnectionManager.ConnectionManagerService.DisconnectEnded` | src/xrpl/connection-manager.service.ts:187-192 | The alternate becomes preferred and is tried, or the rest of the order is; with nothing left, or at shutdown, the work fails and a timer is armed unless the service stops |
| `ConnectionManager.ConnectionManagerService.Release` | src/xrpl/connection-manager.service.ts:288-295 | The active client is dropped and its disconnect called; it is gone for good and the segment disturbs no suspended caller |
| `ConnectionManager.ConnectionManagerService.ScheduleReconnect` | src/xrpl/connection-manager.service.ts:297-308 | One timer at most, none after shutdown, with the next delay of 1, 2, 5, 10 and then 30 seconds |
| `ConnectionManager.ConnectionManagerService.TimerFired` | src/xrpl/connection-manager.service.ts:303-306 | The timer clears itself and connects: the manager is then active, switching or scheduled again |
| `ConnectionManager.ConnectionManagerService.SwitchEndpoint` | src/xrpl/connection-manager.service.ts:147-154 | An active endpoint is left for the other one; otherwise an idle manager connects, the preferred endpoint first |
| `ConnectionManager.ConnectionManagerService.HandleUnexpectedDisconnect` | src/xrpl/connection-manager.service.ts:281-286 | The loss of the active client starts a failover: it is no longer active or live, its disconnect is awaited, and only the other endpoint is to be tried; the loss of any other client changes nothing |
| `ConnectionManager.ConnectionManagerService.BeginShutdown` | src/xrpl/connection-manager.service.ts:156-161 | No timer survives, and the segment keeps the manager sound and disturbs no suspended caller |
| `ConnectionManager.Deployment.Execute` | src/xrpl/connection-manager.service.ts:113-308 | Each segment of the service's code is the machine's step |
| `ConnectionManager.Deployment.Request` | src/xrpl/connection-manager.service.ts:113-123 | A request under any interference: a response after at least one send, another exception passed on, at most two sends; it stays suspended only while the connection it waits for has neither come nor failed |
| `ConnectionManager.Deployment.Send` | src/xrpl/connection-manager.service.ts:113-123 | The first send on whatever the connection work brings; only a transport failure leads to the retry |
| `ConnectionManager.Deployment.Retry` | src/xrpl/connection-manager.service.ts:124-140 | The single retry and the final release |
| `ConnectionManager.Deployment.GiveUp` | src/xrpl/connection-manager.service.ts:131-140 | After a second transport failure the answer waits for the release, if this call dropped the connection |

## Left out

- Theorems.FinalityTruth: says nothing about the ledger for an intent that expired unsigned, because its transaction may have been signed and submitted elsewhere.
- Finality.FinalityService.Cycle: does not say that an unprovable row was searched on both endpoints, because the switch budget is shared by the whole pass; nor that a found but unvalidated transaction ever settles.
- Finality.FinalityService.ResolveSigned: an EXPIRED outcome may meet a stored FAILED, or the reverse, when two callers read the account at different ledgers and the other one wrote first; the contract says so.
- Finality.FinalityService.Settle: the ledger hash, transaction JSON and metadata columns of a validated intent are not modelled.
- Backends.Backend.Tx: starts from the typed answer; the field-by-field narrowing of responses in src/xrpl/types.ts and the server error codes are not modelled.
- Backends.Backend.SwitchEndpoint: says nothing of the endpoint connected afterwards, because the lifecycle machine lets the endpoint change at any time; which endpoint a failover tries is `Connections.FailoverTriesTheOther`.
- Backends.Backend.Submit: a retry inside the connection manager is not visible here; the answered blob is one send of the lifecycle machine.
- ConnectionManager.Deployment.Request: an await that never resumes leaves the call suspended; nothing is claimed about when it resumes.
- ConnectionManager.ConnectionManagerService.BootstrapEnded: the server_info, definitions and subscribe requests are one await with two outcomes; a client constructor that throws and the latest validated ledger are not modelled.
- IntentsServices.IntentsService.List: cursors are (createdAt, id) pairs; their base64url text is not modelled.
- IntentsServices.IntentsService.Create: canonicalization of the request and its SHA-256 are a given hash value.
- CycleRunners.CycleRunner.RunLoop: the number of calls that arrive during each cycle is a finite input.
- Preparation.PreparationService.PrepareCreated: the fee check is a bound on a number of drops; fee text is not modelled.
- SignedBlobs.Verify: signature checking and address derivation are unknown functions of the library.
- Upper-casing is ASCII only, which is all that hexadecimal text needs.
- Timestamps, log text, `details` JSON, HTTP codes, controllers, validators, presenters, health endpoints and configuration have no property that spans operations.
- src/xrpl/capability.service.ts, src/intents/transitions.repository.ts and countByStatus: single checks and plain reads; nothing in them spans operations.
