/**
 * The whole deployment as one state machine: the database, the ledger, the connected endpoint,
 * and a log of everything any call in flight has read. Every await of every service call is a
 * point where any action below may happen, so a call acts on facts that are only known to have
 * been true when they were logged. An action of the service is admitted only with logged facts
 * that lead its own decision function to that very write.
 */
module Protocol {
  import opened Wrappers
  import opened IntentState
  import opened Transactions
  import opened Intents
  import opened Ledger
  import opened SignedBlobs
  import opened Decisions

  datatype Observation =
    | RowSeen(row: Row)
    | LedgerSeen(index: nat)
    | AccountSeen(account: string, info: Option<AccountInfo>)
    | Searched(hash: string, min: nat, max: nat, search: TxSearch)
    | OpenAccountSeen(account: string, sequence: nat, queued: nat)
    | FeeSeen(drops: nat)
    | SimulationAnswered(transaction: Fields, raw: SimulationRaw)
    | SubmitAnswered(rpc: nat, id: Id, blob: string, engineResult: string)
    | BaselineWritten(id: Id)

  datatype World = World(
    db: Db,
    chain: Chain,
    endpoint: Endpoint,
    log: set<Observation>,
    sent: seq<(Id, string)>,        // the submit RPCs in order, each with its intent and blob; the index is its number
    recorded: set<nat>,             // the RPCs whose answer its caller has written to the table
    malformed: set<string>          // blobs the ledger can never admit; the only ones answered tem*
  )

  /** The logged facts a status change rests on. */
  datatype Why =
    | ByPreparation(row: Row, info: AccountInfo, head: nat, fee: nat)
    | ByWindow(row: Row, head: nat)
    | BySimulation(row: Row, raw: SimulationRaw)
    | ByCompletion(row: Row)
    | BySigning(row: Row, info: AccountInfo, head: nat, verified: VerifiedBlob)
    | BySubmission(row: Row, engineResult: string, rpc: nat)
    | BySearch(row: Row, head: nat, search: TxSearch)
    | ByAbsence(row: Row, head: nat, account: Option<AccountInfo>)

  predicate ReadHead(log: set<Observation>, info: AccountInfo, head: nat) {
    info.ledgerIndex == Some(head) || (info.ledgerIndex.None? && LedgerSeen(head) in log)
  }

  /** The range `tx` is asked for: from the prepared ledger to LastLedgerSequence. */
  function SearchOf(row: Row, search: TxSearch): Observation
    requires HasPreparation(row) && HasSignature(row)
  {
    Searched(row.transactionHash.value, row.preparedLedgerIndex.value + 1, row.lastLedgerSequence.value, search)
  }

  /** `request` on intent `id` is what the call site decides from the facts in `why`. */
  predicate Justified(log: set<Observation>, id: Id, request: TransitionRequest, why: Why) {
    && why.row.id == id
    && RowSeen(why.row) in log
    && (if why.ByPreparation? then why.row.status == Created else HasPreparation(why.row))
    && match why
       case ByPreparation(row, info, head, fee) =>
         && AccountSeen(row.payload.account, Some(info)) in log
         && LedgerSeen(head) in log
         && 1 <= fee <= MAX_FEE_DROPS
         && PreparationRequest(row, info, head, fee) == Some(request)
       case ByWindow(row, head) =>
         && row.status in UNSIGNED_ACTIVE
         && LedgerSeen(head) in log
         && request.from in {{Prepared}, UNSIGNED_ACTIVE}
         && WindowRequest(row, request.from, head) == Some(request)
       case BySimulation(row, raw) =>
         && ToCanonicalForm(row.preparedTxJson.value).Some?
         && SimulationAnswered(ToCanonicalForm(row.preparedTxJson.value).value, raw) in log
         && request == SimulationRequest(row, raw)
       case ByCompletion(row) =>
         && row.simulationEngineResult.Some?
         && request == CompletionRequest(row.simulationEngineResult.value)
       case BySigning(row, info, head, verified) =>
         && AccountSeen(row.sourceAccount, Some(info)) in log
         && ReadHead(log, info, head)
         && IsSignedForm(verified, row.preparedTxBlob.value)
         && (request.to != Expired ==> IsAuthorized(verified.signingPubKey, row.sourceAccount, info))
         && request == SigningRequest(row, info, head, verified)
       case BySubmission(row, engineResult, rpc) =>
         && row.status == Signed && row.signedTxBlob.Some?
         && SubmitAnswered(rpc, id, row.signedTxBlob.value, engineResult) in log
         && (row.submissionValidatedLedger.Some? || BaselineWritten(id) in log)
         && request == SubmitRequest(engineResult)
       case BySearch(row, head, search) =>
         && HasSignature(row)
         && LedgerSeen(head) in log
         && SearchOf(row, search) in log
         && SearchFinding(row, search, head) == Conclude(request)
       case ByAbsence(row, head, account) =>
         && HasSignature(row)
         && LedgerSeen(head) in log
         && SearchOf(row, NotFound(true)) in log
         && SearchFinding(row, NotFound(true), head) == CheckAccount
         && AccountSeen(row.sourceAccount, account) in log
         && AbsentFinding(row, account) == Conclude(request)
  }

  /** The logged facts behind a column update that leaves the status alone. */
  datatype UpdateWhy =
    | ByBaseline(row: Row, head: nat)
    | ByFailedAttempt(row: Row)
    | ByResubmission(row: Row, engineResult: string, rpc: nat)

  predicate UpdateJustified(log: set<Observation>, id: Id, statuses: set<Status>, patch: Patch, why: UpdateWhy) {
    && why.row.id == id
    && RowSeen(why.row) in log
    && HasPreparation(why.row) && HasSignature(why.row)
    && why.row.status in SIGNED_ACTIVE
    && match why
       case ByBaseline(row, head) =>
         && row.submissionValidatedLedger.None?
         && LedgerSeen(head) in log && head <= row.lastLedgerSequence.value
         && statuses == {Signed} && patch == BaselinePatch(head)
       case ByFailedAttempt(row) =>
         statuses == SIGNED_ACTIVE && patch == NoPatch
       case ByResubmission(row, engineResult, rpc) =>
         && SubmitAnswered(rpc, id, row.signedTxBlob.value, engineResult) in log
         && statuses == {Submitted} && patch == RecordedPatch(engineResult)
  }

  /** A submit RPC carries the durable blob, inside its window, after the baseline was written. */
  predicate SendJustified(log: set<Observation>, row: Row, head: nat) {
    && RowSeen(row) in log
    && HasPreparation(row) && HasSignature(row)
    && row.status in SIGNED_ACTIVE
    && LedgerSeen(head) in log && head <= row.lastLedgerSequence.value
    && (row.submissionValidatedLedger.Some? || BaselineWritten(row.id) in log)
  }

  datatype Action =
    | CloseLedger(version: Version)
    | MoveEndpoint(endpoint: Endpoint)
    | Observe(observation: Observation)
    | Create(row: Row)
    | Change(id: Id, request: TransitionRequest, why: Why)
    | Update(id: Id, statuses: set<Status>, patch: Patch, updateWhy: UpdateWhy)
    | Send(row: Row, head: nat)

  /** A blob may enter the ledger only when the service has prepared it and it is not malformed. */
  predicate MayInclude(w: World, b: string) {
    && b !in w.malformed
    && exists id | id in w.db.rows :: w.db.rows[id].preparedTxBlob.Some? && Strip(b) == w.db.rows[id].preparedTxBlob
  }

  /** RPC number `rpc` has had its one answer. */
  predicate IsAnswered(log: set<Observation>, rpc: nat) {
    exists o | o in log :: o.SubmitAnswered? && o.rpc == rpc
  }

  /** The RPC whose answer the action writes to the table: its own caller does so, once. */
  function Consumes(a: Action): set<nat> {
    match a
    case Change(_, _, BySubmission(_, _, rpc)) => {rpc}
    case Update(_, _, _, ByResubmission(_, _, rpc)) => {rpc}
    case _ => {}
  }

  /** What a read may answer at this moment. */
  predicate Honest(w: World, o: Observation)
    requires EndpointOk(w.chain, w.endpoint)
  {
    match o
    case RowSeen(row) => row.id in w.db.rows && w.db.rows[row.id] == row
    case LedgerSeen(index) => index == w.endpoint.head
    case AccountSeen(account, info) => HonestAccount(w.chain, w.endpoint, account, info)
    case Searched(hash, min, max, search) =>
      min >= 1 && HonestSearch(w.chain, w.endpoint, hash, min, max, search)
    case OpenAccountSeen(_, _, _) => true
    case FeeSeen(_) => true
    case SimulationAnswered(_, _) => true
    case SubmitAnswered(rpc, id, blob, engineResult) =>
      && rpc < |w.sent| && w.sent[rpc] == (id, blob) && !IsAnswered(w.log, rpc)
      && (IsMalformedResult(engineResult) ==> blob in w.malformed)
    case BaselineWritten(_) => false
  }

  predicate Enabled(w: World, a: Action)
    requires EndpointOk(w.chain, w.endpoint)
  {
    && Consumes(a) !! w.recorded
    && match a
    case CloseLedger(version) =>
      && Follows(w.chain[|w.chain| - 1], version, |w.chain| + 1)
      && forall b | b in version.txs :: MayInclude(w, b)
    case MoveEndpoint(e) => EndpointOk(w.chain, e)
    case Observe(o) => Honest(w, o)
    case Create(row) =>
      row == NewRow(row.id, row.idempotencyKey, row.requestHash, configuredNetworkId, row.createdAt, row.payload)
    case Change(id, request, why) => Justified(w.log, id, request, why)
    case Update(id, statuses, patch, why) => UpdateJustified(w.log, id, statuses, patch, why)
    case Send(row, head) => SendJustified(w.log, row, head)
  }

  /** The row is read back: whatever the database now holds under `id` enters the log. */
  function Reread(db: Db, id: Id): set<Observation> {
    if id in db.rows then {RowSeen(db.rows[id])} else {}
  }

  function Apply(w: World, a: Action): World
    requires EndpointOk(w.chain, w.endpoint) && KeysUnique(w.db.rows)
    requires Enabled(w, a)
  {
    match a
    case CloseLedger(version) => w.(chain := w.chain + [version])
    case MoveEndpoint(e) => w.(endpoint := e)
    case Observe(o) => w.(log := w.log + {o})
    case Create(row) =>
      var (db, reply) := CreatedIdempotent(w.db, row);
      w.(db := db, log := w.log + (if reply.PrimaryKeyTaken? then {} else {RowSeen(reply.row)}))
    case Change(id, request, why) =>
      var (db, _) := Transitioned(w.db, id, request);
      w.(db := db, log := w.log + Reread(db, id), recorded := w.recorded + Consumes(a))
    case Update(id, statuses, patch, why) =>
      var (db, _) := UpdatedInStatus(w.db, id, statuses, patch);
      w.(db := db, log := w.log + Reread(db, id) + (if why.ByBaseline? then {BaselineWritten(id)} else {}),
         recorded := w.recorded + Consumes(a))
    case Send(row, head) => w.(sent := w.sent + [(row.id, row.signedTxBlob.value)])
  }

  // ---- the invariant -----------------------------------------------------------------------

  /** Each status comes with the artifacts that later steps demand, and they fit together. */
  predicate ShapeOk(r: Row) {
    && r.sourceAccount == r.payload.account
    && (r.status == Created <==> !HasPreparation(r))
    && (r.status == Created ==>
          r == NewRow(r.id, r.idempotencyKey, r.requestHash, r.networkId, r.createdAt, r.payload))
    && (HasPreparation(r) ==> PreparationOk(r))
    && (r.simulationEngineResult.Some? ==> SimulationOk(r))
    && (r.status == Prepared ==> r.simulationEngineResult.None? && r.simulationResult.None?)
    && (r.status in {Simulated, AwaitingSignature, Signed, Submitted, Validated} ==> r.simulationEngineResult.Some?)
    && (r.status in {AwaitingSignature, Signed, Submitted, Validated} ==> r.simulationEngineResult == Some(SUCCESS))
    && (HasSignature(r) <==> r.signedTxBlob.Some?) && (HasSignature(r) <==> r.transactionHash.Some?)
    && (HasSignature(r) <==> r.signingPubKey.Some?)
    && (HasSignature(r) ==> SignatureOk(r))
    && (r.status in {Signed, Submitted, Validated} ==> HasSignature(r))
    && (r.status in UNSIGNED_ACTIVE ==> !HasSignature(r))
    && (r.submissionValidatedLedger.Some? ==>
          HasSignature(r) && HasPreparation(r) && r.submissionValidatedLedger.value <= r.lastLedgerSequence.value)
    && (r.status == Submitted ==> r.submissionValidatedLedger.Some?)
    && (r.status == Failed <==> r.failureCode.Some?)
    && (r.status == Validated <==> r.finalLedgerIndex.Some?) && (r.status == Validated <==> r.finalResult.Some?)
  }

  predicate PreparationOk(r: Row)
    requires HasPreparation(r)
  {
    && r.preparedLedgerIndex.value >= 1
    && 1 <= r.feeDrops.value <= MAX_FEE_DROPS
    && r.lastLedgerSequence.value == LastLedgerSequenceFor(r.preparedLedgerIndex.value)
    && EncodeTransaction(r.preparedTxJson.value) == r.preparedTxBlob
    && HeaderOf(r.preparedTxBlob.value)
       == Some(Header(r.sourceAccount, r.sequence.value, r.lastLedgerSequence.value))
  }

  predicate SimulationOk(r: Row) {
    && HasPreparation(r)
    && r.simulationResult.Some?
    && r.simulationResult.value.engineResult == r.simulationEngineResult.GetOr("")
    && SimulationMatchesPrepared(r.preparedTxJson.value, r.simulationResult.value.txJson)
  }

  predicate SignatureOk(r: Row)
    requires HasSignature(r)
  {
    && HasPreparation(r)
    && r.simulationEngineResult == Some(SUCCESS)
    && IsSignedForm(VerifiedBlob(r.signedTxBlob.value, r.transactionHash.value, r.signingPubKey.value),
                    r.preparedTxBlob.value)
  }

  /** The account stood at the prepared Sequence in some ledger of the window. */
  ghost predicate Anchored(chain: Chain, account: string, sequence: nat, last: nat) {
    exists j :: 1 <= j <= last && j <= |chain| && AccountAt(chain, j, account) == Some(sequence)
  }

  /** Beyond ledger `last` the account stands at a later Sequence. */
  ghost predicate WasSpent(chain: Chain, account: string, sequence: nat, last: nat) {
    exists q :: last < q <= |chain| && q >= 1 && AccountAt(chain, q, account).Some? && AccountAt(chain, q, account).value > sequence
  }

  /** Some ledger, whatever its index, does not have the account. */
  ghost predicate WasAbsent(chain: Chain, account: string) {
    exists q :: 1 <= q <= |chain| && AccountAt(chain, q, account).None?
  }

  /** What the stored outcome says about the ledger is true. */
  ghost predicate TruthOk(chain: Chain, malformed: set<string>, r: Row) {
    && (HasPreparation(r) ==> r.preparedLedgerIndex.value <= |chain|)
    && (HasSignature(r) && HasPreparation(r) ==>
          && Anchored(chain, r.sourceAccount, r.sequence.value, r.lastLedgerSequence.value)
          && (r.status == Validated ==> r.finalLedgerIndex.Some? && r.finalResult.Some? && OutcomeOnChain(chain, r))
          && (r.status in {Expired, Failed} ==>
                r.lastLedgerSequence.value <= |chain| && NeverIncluded(chain, r.signedTxBlob.value))
          && (r.status == Expired ==> FormNeverIncluded(chain, r.preparedTxBlob.value))
          && (r.status == Failed ==>
                && r.failureCode == Some(SequenceConflict)
                && (WasSpent(chain, r.sourceAccount, r.sequence.value, r.lastLedgerSequence.value)
                    || WasAbsent(chain, r.sourceAccount)))
          && (r.status == Rejected ==> r.signedTxBlob.value in malformed))
  }

  /** The signed blob is in the recorded ledger, inside its window, with the recorded result. */
  predicate OutcomeOnChain(chain: Chain, r: Row)
    requires HasPreparation(r) && HasSignature(r) && r.finalLedgerIndex.Some? && r.finalResult.Some?
  {
    && r.preparedLedgerIndex.value < r.finalLedgerIndex.value <= r.lastLedgerSequence.value
    && IncludedAt(chain, r.finalLedgerIndex.value, r.signedTxBlob.value)
    && chain[r.finalLedgerIndex.value - 1].txs[r.signedTxBlob.value] == r.finalResult.value
  }

  ghost predicate RowOk(chain: Chain, malformed: set<string>, r: Row) {
    ShapeOk(r) && TruthOk(chain, malformed, r)
  }

  /** The last audit reason explains the status. */
  predicate ReasonFits(reason: Reason, r: Row) {
    && (r.status == Expired ==>
          reason == if HasSignature(r) then LastLedgerSequenceExpired else SignatureWindowExpired)
    && (r.status == Rejected ==> reason == if HasSignature(r) then MalformedTransaction else SimulationRefused)
    && (r.status == Failed ==> r.failureCode == Some(reason))
  }

  ghost predicate TrailOk(audit: seq<AuditRow>, r: Row) {
    var trail := Trail(audit, r.id);
    && LegalTrail(trail)
    && LastEntry(trail).to == r.status
    && ReasonFits(LastEntry(trail).reason, r)
  }

  /** What a logged observation still says about the present, however old it is. */
  ghost predicate Fact(w: World, o: Observation) {
    match o
    case RowSeen(row) => ShapeOk(row) && row.id in w.db.rows && Older(row, w.db.rows[row.id])
    case LedgerSeen(index) => 1 <= index <= |w.chain|
    case AccountSeen(account, info) =>
      if info.Some? then
        && info.value.ledgerIndex.Some?
        && 1 <= info.value.ledgerIndex.value <= |w.chain|
        && AccountAt(w.chain, info.value.ledgerIndex.value, account) == Some(info.value.sequence)
      else
        WasAbsent(w.chain, account)
    case Searched(hash, min, max, search) => SearchFact(w.chain, hash, min, max, search)
    case OpenAccountSeen(_, _, _) => true
    case FeeSeen(_) => true
    case SimulationAnswered(_, _) => true
    case SubmitAnswered(rpc, id, blob, engineResult) =>
      && rpc < |w.sent| && w.sent[rpc] == (id, blob)
      && (IsMalformedResult(engineResult) ==> blob in w.malformed)
    case BaselineWritten(id) =>
      && id in w.db.rows && HasSignature(w.db.rows[id])
      && (w.db.rows[id].status == Signed ==> w.db.rows[id].submissionValidatedLedger.Some?)
  }

  ghost predicate SearchFact(chain: Chain, hash: string, min: nat, max: nat, search: TxSearch) {
    match search
    case NotFound(searchedAll) => searchedAll ==> AbsentInRange(chain, hash, min, max)
    case Found(lookup) =>
      lookup.validated ==>
        && lookup.hash == Some(hash) && lookup.ledgerIndex.Some? && lookup.transactionResult.Some?
        && HitAt(chain, lookup.ledgerIndex.value, hash, lookup.transactionResult.value)
  }

  ghost predicate HitAt(chain: Chain, index: nat, hash: string, result: string) {
    exists b :: IncludedAt(chain, index, b) && TransactionHash(b) == hash && chain[index - 1].txs[b] == result
  }

  /** Only durable blobs of their own intent were ever sent. */
  ghost predicate SentOk(w: World) {
    forall id, b | (id, b) in w.sent :: id in w.db.rows && w.db.rows[id].signedTxBlob == Some(b)
  }

  /** Recorded answers belong to RPCs that were sent. */
  ghost predicate RecordedOk(w: World) {
    forall rpc | rpc in w.recorded :: rpc < |w.sent|
  }

  ghost predicate RowsOk(w: World) {
    forall id | id in w.db.rows :: RowOk(w.chain, w.malformed, w.db.rows[id])
  }

  ghost predicate TrailsOk(w: World) {
    && (forall id | id in w.db.rows :: TrailOk(w.db.audit, w.db.rows[id]))
    && (forall k | 0 <= k < |w.db.audit| :: w.db.audit[k].intentId in w.db.rows)
  }

  ghost predicate LogOk(w: World) {
    forall o | o in w.log :: Fact(w, o)
  }

  /** Nothing malformed is on the chain. */
  ghost predicate CleanOk(chain: Chain, malformed: set<string>) {
    forall i: nat, b | IncludedAt(chain, i, b) :: b !in malformed
  }

  ghost predicate Inv(w: World) {
    && ChainOk(w.chain) && CleanOk(w.chain, w.malformed) && RecentOk(w.chain)
    && EndpointOk(w.chain, w.endpoint)
    && Constraints(w.db.rows)
    && RowsOk(w) && TrailsOk(w) && LogOk(w) && SentOk(w) && RecordedOk(w)
  }

  // ---- runs --------------------------------------------------------------------------------

  ghost predicate Init(w: World) {
    && ChainOk(w.chain)
    && (forall version | version in w.chain :: version.txs == map[])
    && EndpointOk(w.chain, w.endpoint)
    && w.db == Db(map[], []) && w.log == {} && w.sent == [] && w.recorded == {}
  }

  /** One atomic step of anyone: a service call, the network, the ledger. */
  ghost predicate Next(w: World, w': World) {
    && EndpointOk(w.chain, w.endpoint) && KeysUnique(w.db.rows)
    && exists a: Action :: Enabled(w, a) && w' == Apply(w, a)
  }

  /** Consecutive states of the deployment, from any state on. */
  ghost predicate IsPath(path: seq<World>) {
    && |path| > 0
    && forall i | 0 <= i < |path| - 1 :: Next(path[i], path[i + 1])
  }

  /** A whole run: a path from an initial state. */
  ghost predicate IsRun(run: seq<World>) {
    IsPath(run) && Init(run[0])
  }
}
