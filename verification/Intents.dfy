/** The two tables, as values: rows, patches, and the three atomic changes the repository makes. */
module Intents {
  import opened Wrappers
  import opened IntentState
  import opened Transactions

  type Id = nat

  /** The stored simulate response: its engine result and its transaction echo. */
  datatype SimulationRaw = SimulationRaw(engineResult: string, txJson: Option<Fields>)

  datatype Row = Row(
    id: Id,
    idempotencyKey: string,
    requestHash: string,
    networkId: nat,
    sourceAccount: string,
    createdAt: nat,
    payload: Payload,
    status: Status,
    preparedTxJson: Option<Fields>,
    preparedTxBlob: Option<string>,
    preparedLedgerIndex: Option<nat>,
    sequence: Option<nat>,
    feeDrops: Option<nat>,
    lastLedgerSequence: Option<nat>,
    simulationEngineResult: Option<string>,
    simulationResult: Option<SimulationRaw>,
    signedTxBlob: Option<string>,
    transactionHash: Option<string>,
    signingPubKey: Option<string>,
    submissionAttemptCount: nat,
    submissionValidatedLedger: Option<nat>,
    submitEngineResult: Option<string>,
    finalResult: Option<string>,
    finalLedgerIndex: Option<nat>,
    failureCode: Option<Reason>
  )

  function NewRow(id: Id, key: string, requestHash: string, networkId: nat, createdAt: nat, payload: Payload): Row {
    Row(id, key, requestHash, networkId, payload.account, createdAt, payload, Created,
        None, None, None, None, None, None, None, None, None, None, None, 0, None, None, None, None, None)
  }

  /** The columns a call site sets besides the status. */
  datatype Patch =
    | NoPatch
    | PreparedPatch(preparedTxJson: Fields, preparedTxBlob: string, preparedLedgerIndex: nat,
                    sequence: nat, feeDrops: nat, lastLedgerSequence: nat)
    | SimulationPatch(raw: SimulationRaw)
    | MismatchPatch(mismatchRaw: SimulationRaw)
    | SignaturePatch(txBlob: string, transactionHash: string, signingPubKey: string)
    | BaselinePatch(validatedLedger: nat)
    | RecordedPatch(engineResult: string)
    | FinalPatch(finalResult: string, finalLedgerIndex: nat)
    | FailurePatch(failureCode: Reason)

  function Patched(r: Row, patch: Patch): Row {
    match patch
    case NoPatch => r
    case PreparedPatch(json, blob, ledgerIndex, sequence, fee, last) =>
      r.(preparedTxJson := Some(json), preparedTxBlob := Some(blob), preparedLedgerIndex := Some(ledgerIndex),
         sequence := Some(sequence), feeDrops := Some(fee), lastLedgerSequence := Some(last))
    case SimulationPatch(raw) =>
      r.(simulationEngineResult := Some(raw.engineResult), simulationResult := Some(raw))
    case MismatchPatch(raw) =>
      r.(failureCode := Some(SimulationArtifactMismatch), simulationResult := Some(raw))
    case SignaturePatch(blob, hash, key) =>
      r.(signedTxBlob := Some(blob), transactionHash := Some(hash), signingPubKey := Some(key))
    case BaselinePatch(ledger) => r.(submissionValidatedLedger := Some(ledger))
    case RecordedPatch(result) =>
      r.(submitEngineResult := Some(result), submissionAttemptCount := r.submissionAttemptCount + 1)
    case FinalPatch(result, index) => r.(finalResult := Some(result), finalLedgerIndex := Some(index))
    case FailurePatch(code) => r.(failureCode := Some(code))
  }

  /** The columns of the patch are what is stored now. */
  predicate Stored(r: Row, patch: Patch) {
    match patch
    case PreparedPatch(json, blob, ledgerIndex, sequence, fee, last) =>
      && r.preparedTxJson == Some(json) && r.preparedTxBlob == Some(blob) && r.preparedLedgerIndex == Some(ledgerIndex)
      && r.sequence == Some(sequence) && r.feeDrops == Some(fee) && r.lastLedgerSequence == Some(last)
    case SimulationPatch(raw) => r.simulationEngineResult == Some(raw.engineResult) && r.simulationResult == Some(raw)
    case MismatchPatch(raw) => r.failureCode == Some(SimulationArtifactMismatch) && r.simulationResult == Some(raw)
    case SignaturePatch(blob, hash, key) =>
      r.signedTxBlob == Some(blob) && r.transactionHash == Some(hash) && r.signingPubKey == Some(key)
    case BaselinePatch(ledger) => r.submissionValidatedLedger == Some(ledger)
    case RecordedPatch(result) => r.submitEngineResult == Some(result)
    case FinalPatch(result, index) => r.finalResult == Some(result) && r.finalLedgerIndex == Some(index)
    case FailurePatch(code) => r.failureCode == Some(code)
    case NoPatch => true
  }

  /** Every column that the patch does not name is as it was. */
  predicate KeepsOthers(before: Row, after: Row, patch: Patch) {
    && after.id == before.id && after.idempotencyKey == before.idempotencyKey && after.requestHash == before.requestHash
    && after.networkId == before.networkId && after.sourceAccount == before.sourceAccount
    && after.createdAt == before.createdAt && after.payload == before.payload
    && (!patch.PreparedPatch? ==>
          && after.preparedTxJson == before.preparedTxJson && after.preparedTxBlob == before.preparedTxBlob
          && after.preparedLedgerIndex == before.preparedLedgerIndex && after.sequence == before.sequence
          && after.feeDrops == before.feeDrops && after.lastLedgerSequence == before.lastLedgerSequence)
    && (!patch.SimulationPatch? ==> after.simulationEngineResult == before.simulationEngineResult)
    && (!patch.SimulationPatch? && !patch.MismatchPatch? ==> after.simulationResult == before.simulationResult)
    && (!patch.SignaturePatch? ==>
          && after.signedTxBlob == before.signedTxBlob && after.transactionHash == before.transactionHash
          && after.signingPubKey == before.signingPubKey)
    && (!patch.BaselinePatch? ==> after.submissionValidatedLedger == before.submissionValidatedLedger)
    && (!patch.RecordedPatch? ==> after.submitEngineResult == before.submitEngineResult)
    && after.submissionAttemptCount == before.submissionAttemptCount + (if patch.RecordedPatch? then 1 else 0)
    && (!patch.FinalPatch? ==> after.finalResult == before.finalResult && after.finalLedgerIndex == before.finalLedgerIndex)
    && (!patch.FailurePatch? && !patch.MismatchPatch? ==> after.failureCode == before.failureCode)
  }

  lemma PatchIsStored(r: Row, patch: Patch)
    ensures Stored(Patched(r, patch), patch)
    ensures forall status: Status :: Stored(Patched(r, patch).(status := status), patch)
  {
  }


  lemma PatchKeepsOthers(r: Row, patch: Patch)
    ensures forall status: Status :: KeepsOthers(r, Patched(r, patch).(status := status), patch)
    ensures KeepsOthers(r, Patched(r, patch), patch) && Patched(r, patch).status == r.status
  {
  }

  datatype AuditRow = AuditRow(intentId: Id, from: Option<Status>, to: Status, reason: Reason)

  datatype Db = Db(rows: map<Id, Row>, audit: seq<AuditRow>)

  datatype TransitionRequest = TransitionRequest(from: set<Status>, to: Status, reason: Reason, patch: Patch)

  datatype TransitionReply =
    | NotInState            // undefined: the intent is no longer in an expected state
    | Updated(row: Row)
    | IllegalTransition     // thrown
    | AccountIsBusy         // thrown, AccountBusyError
    | HashIsTaken           // thrown, another unique violation

  // ---- unique indexes ----------------------------------------------------------------------

  predicate OwnsSequence(r: Row) {
    r.status in SEQUENCE_ACTIVE
  }

  predicate SameSlot(a: Row, b: Row) {
    a.networkId == b.networkId && a.sourceAccount == b.sourceAccount
  }

  /** Storing `r` under its id would break transaction_intents_sequence_active_account_key. */
  predicate SlotTaken(rows: map<Id, Row>, r: Row) {
    OwnsSequence(r) && exists id | id in rows :: id != r.id && OwnsSequence(rows[id]) && SameSlot(rows[id], r)
  }

  /** Storing `r` under its id would break transaction_intents_transaction_hash_key. */
  predicate HashTaken(rows: map<Id, Row>, r: Row) {
    r.transactionHash.Some?
    && exists id | id in rows :: id != r.id && rows[id].transactionHash == r.transactionHash
  }

  ghost predicate KeyedById(rows: map<Id, Row>) {
    forall id | id in rows :: rows[id].id == id
  }

  ghost predicate SlotsUnique(rows: map<Id, Row>) {
    forall i, j | i in rows && j in rows && i != j ::
      OwnsSequence(rows[i]) && OwnsSequence(rows[j]) ==> !SameSlot(rows[i], rows[j])
  }

  ghost predicate HashesUnique(rows: map<Id, Row>) {
    forall i, j | i in rows && j in rows && i != j ::
      rows[i].transactionHash.Some? ==> rows[i].transactionHash != rows[j].transactionHash
  }

  ghost predicate KeysUnique(rows: map<Id, Row>) {
    forall i, j | i in rows && j in rows && i != j :: rows[i].idempotencyKey != rows[j].idempotencyKey
  }

  /** The schema's keys and unique indexes hold. */
  ghost predicate Constraints(rows: map<Id, Row>) {
    KeyedById(rows) && SlotsUnique(rows) && HashesUnique(rows) && KeysUnique(rows)
  }

  // ---- atomic changes ----------------------------------------------------------------------

  /** The row that a transition would write. */
  function Target(r: Row, request: TransitionRequest): Row {
    Patched(r, request.patch).(status := request.to)
  }

  function Transitioned(db: Db, id: Id, request: TransitionRequest): (Db, TransitionReply) {
    if id !in db.rows || db.rows[id].status !in request.from then (db, NotInState)
    else if !CanTransition(db.rows[id].status, request.to) then (db, IllegalTransition)
    else
      var r := Target(db.rows[id], request);
      if SlotTaken(db.rows, r) then (db, AccountIsBusy)
      else if HashTaken(db.rows, r) then (db, HashIsTaken)
      else (Db(db.rows[id := r], db.audit + [AuditRow(id, Some(db.rows[id].status), request.to, request.reason)]),
            Updated(r))
  }

  function UpdatedInStatus(db: Db, id: Id, statuses: set<Status>, patch: Patch): (Db, Option<Row>) {
    if id in db.rows && db.rows[id].status in statuses then
      var r := Patched(db.rows[id], patch);
      (db.(rows := db.rows[id := r]), Some(r))
    else
      (db, None)
  }

  datatype CreateReply =
    | Inserted(row: Row)
    | Existing(row: Row)
    | PrimaryKeyTaken       // thrown

  predicate HasKey(rows: map<Id, Row>, key: string) {
    exists id | id in rows :: rows[id].idempotencyKey == key
  }

  function RowWithKey(rows: map<Id, Row>, key: string): (r: Row)
    requires KeysUnique(rows) && HasKey(rows, key)
    ensures r in rows.Values && r.idempotencyKey == key
  {
    var id :| id in rows && rows[id].idempotencyKey == key;
    rows[id]
  }

  predicate HoldsSequence(status: Status) {
    status in {Prepared, Simulated, AwaitingSignature, Signed, Submitted}
  }

  /** Another intent of the same network and account is between PREPARED and SUBMITTED. */
  ghost predicate SequenceHeldByOther(rows: map<Id, Row>, id: Id)
    requires id in rows
  {
    exists other ::
      && other in rows && other != id && HoldsSequence(rows[other].status)
      && rows[other].networkId == rows[id].networkId && rows[other].sourceAccount == rows[id].sourceAccount
  }

  /** The patch brings a transaction hash that another intent already has. */
  ghost predicate HashHeldByOther(rows: map<Id, Row>, id: Id, patch: Patch) {
    && patch.SignaturePatch?
    && exists other :: other in rows && other != id && rows[other].transactionHash == Some(patch.transactionHash)
  }

  /** What a transition does, reply by reply. */
  ghost predicate TransitionDoes(before: Db, after: Db, id: Id, request: TransitionRequest, reply: TransitionReply) {
    var legal := id in before.rows && before.rows[id].status in request.from && CanTransition(before.rows[id].status, request.to);
    && (reply.NotInState? <==> id !in before.rows || before.rows[id].status !in request.from)
    && (reply.IllegalTransition? <==> !reply.NotInState? && !legal)
    && (reply.AccountIsBusy? <==> legal && HoldsSequence(request.to) && SequenceHeldByOther(before.rows, id))
    && (reply.HashIsTaken? <==> legal && !reply.AccountIsBusy? && HashHeldByOther(before.rows, id, request.patch))
    && (if reply.Updated? then
          && after.rows == before.rows[id := reply.row] && reply.row.status == request.to
          && Stored(reply.row, request.patch) && KeepsOthers(before.rows[id], reply.row, request.patch)
          && after.audit == before.audit + [AuditRow(id, Some(before.rows[id].status), request.to, request.reason)]
        else after == before)
  }

  lemma TransitionedDoes(db: Db, id: Id, request: TransitionRequest)
    requires Constraints(db.rows)
    ensures var (after, reply) := Transitioned(db, id, request); TransitionDoes(db, after, id, request, reply)
  {
    hide Patched, Stored, KeepsOthers, CanTransition, KeysUnique, SlotsUnique;
    if id in db.rows {
      PatchIsStored(db.rows[id], request.patch);
      PatchKeepsOthers(db.rows[id], request.patch);
      HashOfTarget(db.rows[id], request);
      SlotExactly(db.rows, id, Target(db.rows[id], request));
      HashExactly(db.rows, id, request);
    }
  }

  lemma HashOfTarget(r: Row, request: TransitionRequest)
    ensures var t := Target(r, request);
      && t.id == r.id && t.networkId == r.networkId && t.sourceAccount == r.sourceAccount && t.status == request.to
      && t.transactionHash == if request.patch.SignaturePatch? then Some(request.patch.transactionHash) else r.transactionHash
  {
  }

  lemma SlotExactly(rows: map<Id, Row>, id: Id, t: Row)
    requires id in rows && t.id == id && t.networkId == rows[id].networkId && t.sourceAccount == rows[id].sourceAccount
    ensures SlotTaken(rows, t) <==> HoldsSequence(t.status) && SequenceHeldByOther(rows, id)
  {
  }

  lemma HashExactly(rows: map<Id, Row>, id: Id, request: TransitionRequest)
    requires KeyedById(rows) && HashesUnique(rows) && id in rows
    ensures HashTaken(rows, Target(rows[id], request)) <==> HashHeldByOther(rows, id, request.patch)
  {
    hide Target;
    HashOfTarget(rows[id], request);
  }

  function CreatedIdempotent(db: Db, row: Row): (Db, CreateReply)
    requires KeysUnique(db.rows)
  {
    if HasKey(db.rows, row.idempotencyKey) then (db, Existing(RowWithKey(db.rows, row.idempotencyKey)))
    else if row.id in db.rows then (db, PrimaryKeyTaken)
    else (Db(db.rows[row.id := row], db.audit + [AuditRow(row.id, None, Created, IntentCreated)]), Inserted(row))
  }

  lemma PatchKeepsIdentity(r: Row, patch: Patch)
    ensures var p := Patched(r, patch);
      && p.id == r.id && p.idempotencyKey == r.idempotencyKey && p.requestHash == r.requestHash
      && p.networkId == r.networkId && p.sourceAccount == r.sourceAccount && p.createdAt == r.createdAt
      && p.payload == r.payload && p.status == r.status
  {
  }

  lemma TransitionKeepsConstraints(db: Db, id: Id, request: TransitionRequest)
    requires Constraints(db.rows)
    ensures Constraints(Transitioned(db, id, request).0.rows)
  {
    if Transitioned(db, id, request).1.Updated? {
      PatchKeepsIdentity(db.rows[id], request.patch);
    }
  }

  /** Patches used outside transitions never touch the transaction hash. */
  predicate IsColumnPatch(patch: Patch) {
    patch.BaselinePatch? || patch.RecordedPatch? || patch.NoPatch?
  }

  lemma UpdateKeepsConstraints(db: Db, id: Id, statuses: set<Status>, patch: Patch)
    requires Constraints(db.rows) && IsColumnPatch(patch)
    ensures Constraints(UpdatedInStatus(db, id, statuses, patch).0.rows)
  {
    hide Patched;
    if id in db.rows {
      PatchKeepsIdentity(db.rows[id], patch);
      ColumnsKeepHash(db.rows[id], patch);
    }
  }

  lemma ColumnsKeepHash(r: Row, patch: Patch)
    requires IsColumnPatch(patch)
    ensures Patched(r, patch).transactionHash == r.transactionHash
  {
  }

  lemma CreateKeepsConstraints(db: Db, row: Row)
    requires Constraints(db.rows)
    requires row.status == Created && row.transactionHash.None?
    ensures Constraints(CreatedIdempotent(db, row).0.rows)
  {
  }

  /** Leaving one owned status for another never meets the slot index: the row already owns it. */
  lemma BusyOnlyWhenTakingTheSlot(db: Db, id: Id, request: TransitionRequest)
    requires Constraints(db.rows)
    requires Transitioned(db, id, request).1.AccountIsBusy?
    ensures db.rows[id].status == Created && request.to == Prepared
  {
    PatchKeepsIdentity(db.rows[id], request.patch);
    TransitionRaisesRank(db.rows[id].status, request.to);
  }

  // ---- how a row ages ----------------------------------------------------------------------

  predicate Kept<T(==)>(before: Option<T>, after: Option<T>) {
    before.Some? ==> after == before
  }

  /**
   * `b` is `a` at the same or a later moment: same identity, status not earlier, and every
   * artifact that `a` carries still there unchanged.
   */
  predicate Older(a: Row, b: Row) {
    && a.id == b.id && a.idempotencyKey == b.idempotencyKey && a.requestHash == b.requestHash
    && a.networkId == b.networkId && a.sourceAccount == b.sourceAccount && a.createdAt == b.createdAt
    && a.payload == b.payload
    && Later(a.status, b.status)
    && Kept(a.preparedTxJson, b.preparedTxJson) && Kept(a.preparedTxBlob, b.preparedTxBlob)
    && Kept(a.preparedLedgerIndex, b.preparedLedgerIndex) && Kept(a.sequence, b.sequence)
    && Kept(a.feeDrops, b.feeDrops) && Kept(a.lastLedgerSequence, b.lastLedgerSequence)
    && Kept(a.simulationEngineResult, b.simulationEngineResult) && Kept(a.simulationResult, b.simulationResult)
    && Kept(a.signedTxBlob, b.signedTxBlob) && Kept(a.transactionHash, b.transactionHash)
    && Kept(a.signingPubKey, b.signingPubKey)
    && Kept(a.finalResult, b.finalResult) && Kept(a.finalLedgerIndex, b.finalLedgerIndex)
    && Kept(a.failureCode, b.failureCode)
    && (a.submissionValidatedLedger.Some? ==> b.submissionValidatedLedger.Some?)
    && (Rank(a.status) > Rank(Signed) ==> b.submissionValidatedLedger == a.submissionValidatedLedger)
    && a.submissionAttemptCount <= b.submissionAttemptCount
  }

  lemma OlderIsTransitive(a: Row, b: Row, c: Row)
    requires Older(a, b) && Older(b, c)
    ensures Older(a, c)
  {
  }

  // ---- audit trail -------------------------------------------------------------------------

  /** The audit rows of one intent, in insertion order. */
  function Trail(audit: seq<AuditRow>, id: Id): seq<AuditRow> {
    if audit == [] then []
    else
      var last := audit[|audit| - 1];
      Trail(audit[..|audit| - 1], id) + (if last.intentId == id then [last] else [])
  }

  lemma TrailAppend(audit: seq<AuditRow>, entry: AuditRow, id: Id)
    ensures Trail(audit + [entry], id) == Trail(audit, id) + (if entry.intentId == id then [entry] else [])
  {
    assert (audit + [entry])[..|audit|] == audit;
  }

  /** The trail starts with the creation and follows the transition table step by step. */
  ghost predicate LegalTrail(trail: seq<AuditRow>) {
    && |trail| > 0
    && trail[0].from == None && trail[0].to == Created && trail[0].reason == IntentCreated
    && forall k :: 1 <= k < |trail| ==>
         trail[k].from == Some(trail[k - 1].to) && CanTransition(trail[k - 1].to, trail[k].to)
  }

  function LastEntry(trail: seq<AuditRow>): AuditRow
    requires |trail| > 0
  {
    trail[|trail| - 1]
  }
}
