/**
 * What each call site writes, as a function of the row snapshot and the answers it read.
 * The services are proved to write exactly these requests, and the protocol admits no others.
 */
module Decisions {
  import opened Wrappers
  import opened IntentState
  import opened Transactions
  import opened Intents
  import opened Ledger
  import opened SignedBlobs

  const SUCCESS := "tesSUCCESS"

  predicate IsMalformedResult(engineResult: string) {
    "tem" <= engineResult
  }

  /** The columns every status after CREATED relies on. */
  predicate HasPreparation(r: Row) {
    && r.preparedTxJson.Some? && r.preparedTxBlob.Some? && r.preparedLedgerIndex.Some?
    && r.sequence.Some? && r.feeDrops.Some? && r.lastLedgerSequence.Some?
  }

  predicate HasSignature(r: Row) {
    r.signedTxBlob.Some? && r.transactionHash.Some? && r.signingPubKey.Some?
  }

  // ---- preparation -------------------------------------------------------------------------

  function PreparationRequest(row: Row, info: AccountInfo, head: nat, fee: nat): Option<TransitionRequest> {
    var last := LastLedgerSequenceFor(head);
    var transaction := BuildTransaction(row.payload, Params(fee, info.sequence, last, configuredNetworkId));
    var blob := EncodeTransaction(transaction);
    if ValidTransaction(transaction) && blob.Some? then
      Some(TransitionRequest({Created}, Prepared, TransactionPrepared,
                             PreparedPatch(transaction, blob.value, head, info.sequence, fee, last)))
    else
      None
  }

  function SimulationRequest(row: Row, raw: SimulationRaw): TransitionRequest
    requires HasPreparation(row)
  {
    if SimulationMatchesPrepared(row.preparedTxJson.value, raw.txJson) then
      TransitionRequest({Prepared}, Simulated, SimulationCompleted, SimulationPatch(raw))
    else
      TransitionRequest({Prepared}, Failed, SimulationArtifactMismatch, MismatchPatch(raw))
  }

  function CompletionRequest(engineResult: string): TransitionRequest {
    if engineResult == SUCCESS then
      TransitionRequest({Simulated}, AwaitingSignature, SimulationPassed, NoPatch)
    else
      TransitionRequest({Simulated}, Rejected, SimulationRefused, NoPatch)
  }

  /** Expiry of an unsigned intent whose window the validated ledger `head` has left behind. */
  function WindowRequest(row: Row, from: set<Status>, head: nat): Option<TransitionRequest>
    requires HasPreparation(row)
  {
    if head > row.lastLedgerSequence.value then
      Some(TransitionRequest(from, Expired, SignatureWindowExpired, NoPatch))
    else
      None
  }

  // ---- signing -----------------------------------------------------------------------------

  function SigningRequest(row: Row, info: AccountInfo, head: nat, verified: VerifiedBlob): TransitionRequest
    requires HasPreparation(row)
  {
    if head > row.lastLedgerSequence.value then
      TransitionRequest({AwaitingSignature}, Expired, SignatureWindowExpired, NoPatch)
    else if info.sequence > row.sequence.value then
      TransitionRequest({AwaitingSignature}, Failed, SequenceConflict, FailurePatch(SequenceConflict))
    else if info.sequence < row.sequence.value then
      TransitionRequest({AwaitingSignature}, Failed, SequenceRegression, FailurePatch(SequenceRegression))
    else
      TransitionRequest({AwaitingSignature}, Signed, SignatureAccepted,
                        SignaturePatch(verified.txBlob, verified.transactionHash, verified.signingPubKey))
  }

  // ---- submission --------------------------------------------------------------------------

  function SubmitRequest(engineResult: string): TransitionRequest {
    if IsMalformedResult(engineResult) then
      TransitionRequest({Signed}, Rejected, MalformedTransaction, RecordedPatch(engineResult))
    else
      TransitionRequest({Signed}, Submitted, TransactionSubmitted, RecordedPatch(engineResult))
  }

  // ---- finality ----------------------------------------------------------------------------

  datatype Finding = Conclude(request: TransitionRequest) | Wait | Unprovable | CheckAccount

  function FailureRequest(code: Reason): TransitionRequest {
    TransitionRequest(SIGNED_ACTIVE, Failed, code, FailurePatch(code))
  }

  /** A hit must be validated, report the stored hash and lie inside the prepared window. */
  function FoundFinding(row: Row, lookup: TxLookup): Finding
    requires HasPreparation(row) && HasSignature(row)
  {
    if !lookup.validated then Wait
    else if !(&& lookup.hash.Some? && Upper(lookup.hash.value) == row.transactionHash.value
              && lookup.ledgerIndex.Some?
              && row.preparedLedgerIndex.value < lookup.ledgerIndex.value <= row.lastLedgerSequence.value) then
      Conclude(FailureRequest(FinalityIntegrityError))
    else if lookup.transactionResult.None? || !IsFinalResult(lookup.transactionResult.value) then
      Conclude(FailureRequest(UnexpectedValidatedResult))
    else
      Conclude(TransitionRequest(SIGNED_ACTIVE, Validated, TransactionValidated,
                                 FinalPatch(lookup.transactionResult.value, lookup.ledgerIndex.value)))
  }

  function SearchFinding(row: Row, search: TxSearch, currentLedger: nat): Finding
    requires HasPreparation(row) && HasSignature(row)
  {
    match search
    case Found(lookup) => FoundFinding(row, lookup)
    case NotFound(searchedAll) =>
      if currentLedger <= row.lastLedgerSequence.value then Wait
      else if !searchedAll then Unprovable
      else CheckAccount
  }

  /** What the validated account Sequence says once the transaction is proven absent. */
  function AbsentFinding(row: Row, account: Option<AccountInfo>): Finding
    requires HasPreparation(row)
  {
    if account.Some? && account.value.ledgerIndex.GetOr(0) <= row.lastLedgerSequence.value then Wait
    else if account.None? || account.value.sequence > row.sequence.value then Conclude(FailureRequest(SequenceConflict))
    else if account.value.sequence == row.sequence.value then
      Conclude(TransitionRequest(SIGNED_ACTIVE, Expired, LastLedgerSequenceExpired, NoPatch))
    else
      Conclude(FailureRequest(SequenceRegression))
  }

  // ---- the decisions, outcome by outcome ---------------------------------------------------

  lemma MalformedExactly(engineResult: string)
    ensures IsMalformedResult(engineResult) <==>
      |engineResult| >= 3 && engineResult[0] == 't' && engineResult[1] == 'e' && engineResult[2] == 'm'
  {
    assert IsMalformedResult(engineResult) ==> engineResult[..3] == "tem";
    if |engineResult| >= 3 && engineResult[0] == 't' && engineResult[1] == 'e' && engineResult[2] == 'm' {
      assert engineResult[..3] == "tem";
    }
  }

  lemma FinalExactly(result: string)
    ensures IsFinalResult(result) <==>
      |result| >= 3 && result[0] == 't' && result[1] == 'e' && result[2] in {'s', 'c'}
  {
    assert "tes" <= result ==> result[..3] == "tes";
    assert "tec" <= result ==> result[..3] == "tec";
    if |result| >= 3 && result[0] == 't' && result[1] == 'e' && result[2] in {'s', 'c'} {
      assert result[..3] == ['t', 'e', result[2]];
    }
  }

  lemma PreparationExactly(row: Row, info: AccountInfo, head: nat, fee: nat)
    ensures var p := Params(fee, info.sequence, head + 20, configuredNetworkId); var request := PreparationRequest(row, info, head, fee);
      && (request.Some? <==> Buildable(row.payload, p))
      && (request.Some? ==>
            && request.value.from == {Created} && request.value.to == Prepared && request.value.reason == TransactionPrepared
            && request.value.patch.PreparedPatch?
            && request.value.patch.preparedTxJson == BuildTransaction(row.payload, p)
            && BytesSay(request.value.patch.preparedTxBlob, row.payload, p)
            && request.value.patch.preparedLedgerIndex == head && request.value.patch.sequence == info.sequence
            && request.value.patch.feeDrops == fee && request.value.patch.lastLedgerSequence == head + 20)
  {
    hide BuildTransaction, EncodeTransaction, ValidTransaction, Buildable, BytesSay;
    var p := Params(fee, info.sequence, head + 20, configuredNetworkId);
    BuildableExactlyWhen(row.payload, p);
    EncodedSays(row.payload, p);
  }

  /** An unsigned intent expires exactly when the validated ledger is past its window. */
  lemma WindowExactly(row: Row, from: set<Status>, head: nat)
    requires HasPreparation(row)
    ensures WindowRequest(row, from, head)
      == if head <= row.lastLedgerSequence.value then None
         else Some(TransitionRequest(from, Expired, SignatureWindowExpired, NoPatch))
  {
  }

  /** After a simulation: a matching echo is stored, any other fails the intent; only tesSUCCESS goes on to signing. */
  lemma SimulationExactly(row: Row, raw: SimulationRaw, engineResult: string)
    requires HasPreparation(row)
    ensures var request := SimulationRequest(row, raw);
      && request.from == {Prepared}
      && (SimulationMatchesPrepared(row.preparedTxJson.value, raw.txJson) ==>
            request.to == Simulated && request.patch == SimulationPatch(raw))
      && (!SimulationMatchesPrepared(row.preparedTxJson.value, raw.txJson) ==>
            request.to == Failed && request.reason == SimulationArtifactMismatch && request.patch == MismatchPatch(raw))
    ensures CompletionRequest(engineResult).from == {Simulated} && CompletionRequest(engineResult).patch == NoPatch
    ensures CompletionRequest(engineResult).to == if engineResult == "tesSUCCESS" then AwaitingSignature else Rejected
  {
  }

  /** At signing the window decides first, then the Sequence. */
  lemma SigningExactly(row: Row, info: AccountInfo, head: nat, v: VerifiedBlob)
    requires HasPreparation(row)
    ensures var (request, open) := (SigningRequest(row, info, head, v), head <= row.lastLedgerSequence.value);
      && request.from == {AwaitingSignature}
      && (request.to == Expired <==> !open)
      && (request.to == Failed <==> open && info.sequence != row.sequence.value)
      && (request.to == Signed <==> open && info.sequence == row.sequence.value)
      && (request.to == Expired ==> request.reason == SignatureWindowExpired && request.patch == NoPatch)
      && (request.to == Failed ==>
            && request.reason == (if info.sequence > row.sequence.value then SequenceConflict else SequenceRegression)
            && request.patch == FailurePatch(request.reason))
      && (request.to == Signed ==> request.patch == SignaturePatch(v.txBlob, v.transactionHash, v.signingPubKey))
  {
  }

  /** The first answer: only a tem result rejects; every other leaves the intent submitted. */
  lemma SubmitExactly(engineResult: string)
    ensures var request := SubmitRequest(engineResult);
      && request.from == {Signed} && request.patch == RecordedPatch(engineResult)
      && (if |engineResult| >= 3 && engineResult[..3] == "tem" then request.to == Rejected && request.reason == MalformedTransaction
          else request.to == Submitted && request.reason == TransactionSubmitted)
  {
    MalformedExactly(engineResult);
  }

  /** What a search decides, answer by answer. */
  lemma SearchExactly(row: Row, search: TxSearch, currentLedger: nat)
    requires HasPreparation(row) && HasSignature(row)
    ensures match search
      case NotFound(searchedAll) =>
        SearchFinding(row, search, currentLedger)
        == (if currentLedger <= row.lastLedgerSequence.value then Wait else if searchedAll then CheckAccount else Unprovable)
      case Found(lookup) => SearchFinding(row, search, currentLedger) == FoundFinding(row, lookup)
  {
  }

  /** A hit concludes VALIDATED exactly when it is validated, under the stored hash, inside the window, with a tes or tec result. */
  lemma FoundExactly(row: Row, lookup: TxLookup)
    requires HasPreparation(row) && HasSignature(row)
    ensures var finding := FoundFinding(row, lookup);
      var consistent :=
        && lookup.hash.Some? && Upper(lookup.hash.value) == row.transactionHash.value && lookup.ledgerIndex.Some?
        && row.preparedLedgerIndex.value < lookup.ledgerIndex.value && lookup.ledgerIndex.value <= row.lastLedgerSequence.value;
      var final := lookup.transactionResult.Some? && IsFinalResult(lookup.transactionResult.value);
      && (finding == Wait <==> !lookup.validated)
      && (lookup.validated ==> finding.Conclude? && finding.request.from == {Signed, Submitted})
      && (lookup.validated && !consistent ==>
            finding.request.to == Failed && finding.request.patch == FailurePatch(FinalityIntegrityError))
      && (lookup.validated && consistent && !final ==>
            finding.request.to == Failed && finding.request.patch == FailurePatch(UnexpectedValidatedResult))
      && (lookup.validated && consistent && final ==>
            && finding.request.to == Validated
            && finding.request.patch == FinalPatch(lookup.transactionResult.value, lookup.ledgerIndex.value))
  {
  }

  /** Once absence is proven, a validated Sequence beyond the window decides. */
  lemma AbsentExactly(row: Row, account: Option<AccountInfo>)
    requires HasPreparation(row)
    ensures var finding := AbsentFinding(row, account);
      match account
      case None => finding == Conclude(TransitionRequest({Signed, Submitted}, Failed, SequenceConflict, FailurePatch(SequenceConflict)))
      case Some(info) =>
        && (finding == Wait <==> info.ledgerIndex.None? || info.ledgerIndex.value <= row.lastLedgerSequence.value)
        && (finding != Wait && info.sequence == row.sequence.value ==>
              finding == Conclude(TransitionRequest({Signed, Submitted}, Expired, LastLedgerSequenceExpired, NoPatch)))
        && (finding != Wait && info.sequence > row.sequence.value ==>
              finding == Conclude(TransitionRequest({Signed, Submitted}, Failed, SequenceConflict, FailurePatch(SequenceConflict))))
        && (finding != Wait && info.sequence < row.sequence.value ==>
              finding == Conclude(TransitionRequest({Signed, Submitted}, Failed, SequenceRegression, FailurePatch(SequenceRegression))))
  {
  }
}
