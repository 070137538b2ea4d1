/** SigningService: accepts the externally signed blob; the first accepted artifact wins. */
module Signing {
  import opened Wrappers
  import opened IntentState
  import opened Transactions
  import opened Intents
  import opened Ledger
  import opened Decisions
  import opened Protocol
  import opened Invariant
  import opened Theorems
  import opened Backends
  import opened SignedBlobs
  import opened Finality

  /** The answer for any state but AWAITING_SIGNATURE, None when the signature is still to be processed. */
  function SettledAnswer(row: Row, txBlob: string): Option<Result<Row>> {
    match row.status
    case AwaitingSignature => None
    case Signed | Submitted | Validated =>
      if row.signedTxBlob == Some(Upper(txBlob)) then Some(Success(row))
      else Some(Result.Failure(SignatureAlreadyAttached))
    case Expired => Some(Result.Failure(IntentExpired))
    case _ => Some(Result.Failure(InvalidIntentState))
  }

  /** `row` is stored and carries exactly the caller's bytes. */
  ghost predicate Accepted(log: set<Observation>, id: Id, txBlob: string, row: Row) {
    && row.id == id && RowSeen(row) in log && Complete(row)
    && row.status in {Signed, Submitted, Validated}
    && row.signedTxBlob == Some(Upper(txBlob))
  }

  /** The bytes carry one valid signature, and no field that the prepared blob does not have. */
  predicate IsAcceptable(txBlob: string, preparedTxBlob: string) {
    WellFormed(txBlob) && IsPreparedPlusSignature(txBlob, preparedTxBlob) && SignatureVerifies(txBlob)
  }

  function KeyOfBlob(txBlob: string): string
    requires WellFormed(txBlob)
  {
    Upper(xrpl.decode(Upper(txBlob)).value[SigningPubKey].text)
  }

  /** The signing key was authorized in a validated read, inside the window and at the prepared Sequence. */
  ghost predicate CheckedAgainst(log: set<Observation>, row: Row, signingPubKey: string)
    requires HasPreparation(row)
  {
    exists account: AccountInfo, head: nat ::
      && AccountSeen(row.sourceAccount, Some(account)) in log && ReadHead(log, account, head)
      && SigningPasses(row, signingPubKey, account, head)
  }

  predicate SigningPasses(row: Row, signingPubKey: string, account: AccountInfo, head: nat)
    requires HasPreparation(row)
  {
    && head <= row.lastLedgerSequence.value
    && IsAuthorized(signingPubKey, row.sourceAccount, account)
    && account.sequence == row.sequence.value
  }

  /** The intent has left AWAITING_SIGNATURE. */
  ghost predicate HasLeft(log: set<Observation>, id: Id, now: Row) {
    now.id == id && RowSeen(now) in log && now.status != AwaitingSignature
  }

  /** The answer due to a caller who finds `row`, once the intent no longer awaits a signature. */
  ghost predicate IsAnswerFor(row: Row, txBlob: string, r: Result<Row>) {
    && row.status != AwaitingSignature
    && (row.status in {Signed, Submitted, Validated} ==>
          r == if row.signedTxBlob == Some(Upper(txBlob)) then Success(row) else Result.Failure(SignatureAlreadyAttached))
    && (row.status == Expired ==> r == Result.Failure(IntentExpired))
    && (row.status in {Created, Prepared, Simulated, Rejected, Failed} ==> r == Result.Failure(InvalidIntentState))
  }

  lemma SettledAnswerExactly(row: Row, txBlob: string)
    ensures SettledAnswer(row, txBlob).None? <==> row.status == AwaitingSignature
    ensures SettledAnswer(row, txBlob).Some? ==> IsAnswerFor(row, txBlob, SettledAnswer(row, txBlob).value)
  {
  }

  /** A validated ledger beyond the window was read for the account of `row`. */
  ghost predicate LateRead(log: set<Observation>, row: Row) {
    exists account: AccountInfo, head: nat ::
      && AccountSeen(row.sourceAccount, Some(account)) in log && ReadHead(log, account, head)
      && row.lastLedgerSequence.Some? && head > row.lastLedgerSequence.value
  }

  /** The account of `row` was read at another Sequence than the prepared one. */
  ghost predicate OtherSequenceRead(log: set<Observation>, row: Row) {
    exists account: AccountInfo ::
      AccountSeen(row.sourceAccount, Some(account)) in log && row.sequence != Some(account.sequence)
  }

  ghost predicate WasIn(log: set<Observation>, id: Id, statuses: set<Status>) {
    exists now: Row :: now.id == id && RowSeen(now) in log && now.status in statuses
  }

  /** Each refusal of acceptable bytes has its cause among the reads. */
  ghost predicate Explained(log: set<Observation>, id: Id, row: Row, txBlob: string, signingPubKey: string, error: ApiError) {
    match error
    case AccountNotFound => AccountSeen(row.sourceAccount, None) in log
    case SignerNotAuthorized => exists account ::
      AccountSeen(row.sourceAccount, Some(account)) in log && !MaySign(signingPubKey, row.sourceAccount, account)
    case SignatureAlreadyAttached => exists other :: TakenBy(log, id, txBlob, other)
    case IntentExpired => LateRead(log, row) || WasIn(log, id, {Expired})
    case InvalidIntentState => OtherSequenceRead(log, row) || WasIn(log, id, {Created, Prepared, Simulated, Rejected, Failed})
    case XrplUnavailable | DatabaseError => true  // a failed request, a stored copy of the blob
    case _ => false
  }

  /** Why the bytes were refused for the awaiting intent `row`: by themselves, or by what was read. */
  ghost predicate Refuses(log: set<Observation>, id: Id, row: Row, txBlob: string, error: ApiError) {
    && row.status == AwaitingSignature && row.preparedTxBlob.Some?
    && if IsAcceptable(txBlob, row.preparedTxBlob.value) then Explained(log, id, row, txBlob, KeyOfBlob(txBlob), error)
       else
         && error in {InvalidSignedTransaction, SignedTransactionMismatch, InvalidSignature, UncaughtError}
         && (error == InvalidSignedTransaction <==> !WellFormed(txBlob))
         && (error == InvalidSignature <==> WellFormed(txBlob) && IsPreparedPlusSignature(txBlob, row.preparedTxBlob.value))
  }

  lemma LateReadExplains(log: set<Observation>, id: Id, row: Row, txBlob: string, signingPubKey: string, account: AccountInfo, head: nat)
    requires AccountSeen(row.sourceAccount, Some(account)) in log && ReadHead(log, account, head)
    requires row.lastLedgerSequence.Some? && head > row.lastLedgerSequence.value
    ensures Explained(log, id, row, txBlob, signingPubKey, IntentExpired)
  {
    hide ReadHead;
    assert LateRead(log, row);
  }

  lemma AccountExplains(log: set<Observation>, id: Id, row: Row, txBlob: string, signingPubKey: string, account: AccountInfo)
    requires AccountSeen(row.sourceAccount, Some(account)) in log
    ensures row.sequence != Some(account.sequence) ==> Explained(log, id, row, txBlob, signingPubKey, InvalidIntentState)
    ensures !IsAuthorized(signingPubKey, row.sourceAccount, account) ==>
      Explained(log, id, row, txBlob, signingPubKey, SignerNotAuthorized)
  {
    hide IsAuthorized, MaySign;
    AuthorizedExactlyWhen(signingPubKey, row.sourceAccount, account);
    assert row.sequence != Some(account.sequence) ==> OtherSequenceRead(log, row);
  }

  /** The row that won explains the answer that was made from it. */
  lemma WinnerExplains(log: set<Observation>, id: Id, row: Row, txBlob: string, signingPubKey: string, current: Row, r: Result<Row>)
    requires current.id == id && RowSeen(current) in log && Complete(current) && IsAnswerFor(current, txBlob, r)
    ensures r.Failure? ==> Explained(log, id, row, txBlob, signingPubKey, r.error)
  {
    hide LateRead, OtherSequenceRead;
    if current.status in {Signed, Submitted, Validated} && r.Failure? {
      assert TakenBy(log, id, txBlob, current);
    } else if current.status == Expired {
      assert WasIn(log, id, {Expired});
    } else if r.Failure? {
      assert WasIn(log, id, {Created, Prepared, Simulated, Rejected, Failed});
    }
  }

  lemma ClashExplains(log: set<Observation>, id: Id, row: Row, txBlob: string, signingPubKey: string)
    ensures Explained(log, id, row, txBlob, signingPubKey, DatabaseError)
  {
  }

  lemma CheckWasMade(log: set<Observation>, row: Row, signingPubKey: string, account: AccountInfo, head: nat)
    requires HasPreparation(row)
    requires AccountSeen(row.sourceAccount, Some(account)) in log && ReadHead(log, account, head)
    requires SigningPasses(row, signingPubKey, account, head)
    ensures CheckedAgainst(log, row, signingPubKey)
  {
    hide ReadHead, SigningPasses;
  }

  lemma ComesPrepared(row: Row)
    requires Complete(row) && row.status == AwaitingSignature
    ensures HasPreparation(row)
  {
  }

  lemma StoredIsSigned(w: World, row: Row)
    requires Inv(w) && RowSeen(row) in w.log && HasSignature(row)
    ensures HasPreparation(row)
    ensures IsSignedForm(VerifiedBlob(row.signedTxBlob.value, row.transactionHash.value, row.signingPubKey.value), row.preparedTxBlob.value)
  {
    hide Inv, RowOk, IsSignedForm, PreparationOk, SimulationOk;
    SnapshotFacts(w, row);
  }

  /** Other bytes than the caller's are stored. */
  ghost predicate TakenBy(log: set<Observation>, id: Id, txBlob: string, row: Row) {
    row.id == id && RowSeen(row) in log && row.signedTxBlob.Some? && row.signedTxBlob != Some(Upper(txBlob))
  }

  lemma SettledIsTold(log: set<Observation>, id: Id, txBlob: string, row: Row, r: Result<Row>)
    requires row.id == id && RowSeen(row) in log && Complete(row) && IsAnswerFor(row, txBlob, r)
    ensures r.Success? ==> Accepted(log, id, txBlob, r.value)
    ensures r == Result.Failure(SignatureAlreadyAttached) ==> TakenBy(log, id, txBlob, row)
    ensures r.Failure? ==> r.error in {SignatureAlreadyAttached, IntentExpired, InvalidIntentState}
  {
  }

  ghost predicate IsRow(log: set<Observation>, id: Id, row: Row) {
    row.id == id && RowSeen(row) in log
  }

  /** Once the transition was refused, the intent has left AWAITING_SIGNATURE for good. */
  lemma LeftForGood(log: set<Observation>, later: set<Observation>, row: Row, now: Row, current: Row)
    requires row.status == AwaitingSignature && RowSeen(row) in log && Latest(log, now) && now.id == row.id
    requires now.status != AwaitingSignature
    requires RowSeen(now) in later && Latest(later, current) && current.id == row.id
    ensures current.status != AwaitingSignature
  {
    assert Older(row, now) && Older(now, current);
  }

  class SigningService {
    const backend: Backend
    const finality: FinalityService

    constructor (backend: Backend, finality: FinalityService)
      ensures this.backend == backend && this.finality == finality
    {
      this.backend, this.finality := backend, finality;
    }

    /**
     * Returns only a stored row whose signed blob is the caller's, uppercased, and strips to the
     * prepared blob; whenever other bytes were already stored, the call fails.
     */
    method AttachSignature(id: Id, txBlob: string) returns (r: Result<Row>, ghost loaded: Option<Row>)
      requires backend.Valid()
      modifies backend, backend.intents
      ensures backend.Worked()
      ensures r.Success? ==> Accepted(backend.log, id, txBlob, r.value)
      ensures r.Success? ==>
        && HasSignature(r.value) && HasPreparation(r.value)
        && IsSignedForm(VerifiedBlob(Upper(txBlob), r.value.transactionHash.value, r.value.signingPubKey.value),
                        r.value.preparedTxBlob.value)
      ensures r.Success? ==> forall row | RowSeen(row) in old(backend.log) :: !TakenBy(old(backend.log), id, txBlob, row)
      ensures r == Result.Failure(SignatureAlreadyAttached) ==> exists row :: TakenBy(backend.log, id, txBlob, row)
      ensures r == Result.Failure(DatabaseError) ==> BlobWasTaken(backend.run, old(|backend.run|) - 1, id, Upper(txBlob))
      ensures loaded.None? <==> r == Result.Failure(IntentNotFound)
      ensures loaded.Some? ==> IsRow(backend.log, id, loaded.value) && Latest(old(backend.log), loaded.value)
      ensures loaded.Some? && loaded.value.status != AwaitingSignature ==> IsAnswerFor(loaded.value, txBlob, r)
      ensures loaded.Some? && loaded.value.status == AwaitingSignature ==>
        && (r == Result.Failure(ServiceNotReady) <==> !finality.recovered)
        && (r.Failure? && finality.recovered ==> Refuses(backend.log, id, loaded.value, txBlob, r.error))
      ensures r == Result.Failure(XrplUnavailable) ==> backend.failed > old(backend.failed)
      ensures !finality.recovered ==> backend.written == old(backend.written)
      ensures r == Result.Failure(IntentNotFound) ==> forall row | RowSeen(row) in old(backend.log) :: row.id != id
    {
      hide Inv, IsRun, Older, Strip, Upper, IsSignedForm, Latest, CheckedAgainst, Refuses, SettledAnswer;
      ghost var entry, from: nat := backend.log, |backend.run| - 1;
      loaded := None;
      var row :- Load(id);
      loaded := Some(row);
      var settled := SettledAnswer(row, txBlob);
      SettledAnswerExactly(row, txBlob);
      if settled.Some? {
        SettledIsTold(backend.log, id, txBlob, row, settled.value);
        r := settled.value;
      } else if !finality.recovered {
        r := Result.Failure(ServiceNotReady);
      } else {
        r := Process(id, row, txBlob, from);
      }
      if r.Success? {
        backend.Sound();
        forall other | RowSeen(other) in entry ensures !TakenBy(entry, id, txBlob, other) {
          if other.id == id && other.signedTxBlob.Some? {
            SignedBytesAgree(backend.Now(), other, r.value);
          }
        }
        StoredIsSigned(backend.Now(), r.value);
      }
    }

    method Load(id: Id) returns (r: Result<Row>)
      requires backend.Valid()
      modifies backend, backend.intents
      ensures backend.Passed()
      ensures r.Success? ==>
        r.value.id == id && RowSeen(r.value) in backend.log && Complete(r.value) && Latest(old(backend.log), r.value)
      ensures r.Failure? ==> r.error == IntentNotFound && forall row | RowSeen(row) in old(backend.log) :: row.id != id
    {
      var row := backend.FindById(id);
      if row.None? {
        return Result.Failure(IntentNotFound);
      }
      return Success(row.value);
    }

    /**
     * Verification comes first: nothing about an unacceptable blob reaches the network. Success means
     * that the blob verified and that its key passed the checks against a validated read.
     */
    method Process(id: Id, row: Row, txBlob: string, ghost from: nat) returns (r: Result<Row>)
      requires backend.Valid() && from < |backend.run|
      requires row.id == id && row.status == AwaitingSignature && RowSeen(row) in backend.log && Complete(row)
      modifies backend, backend.intents
      ensures backend.Worked()
      ensures !IsAcceptable(txBlob, row.preparedTxBlob.value) ==> r.Failure? && backend.run == old(backend.run)
      ensures r.Success? ==> Accepted(backend.log, id, txBlob, r.value)
      ensures r.Success? ==> CheckedAgainst(backend.log, row, KeyOfBlob(txBlob))
      ensures r == Result.Failure(SignatureAlreadyAttached) ==> exists other :: TakenBy(backend.log, id, txBlob, other)
      ensures r == Result.Failure(DatabaseError) ==> BlobWasTaken(backend.run, from, id, Upper(txBlob))
      ensures r == Result.Failure(XrplUnavailable) ==> backend.failed > old(backend.failed)
      ensures r.Failure? ==> Refuses(backend.log, id, row, txBlob, r.error)
      ensures r.Failure? ==> r.error !in {IntentNotFound, ServiceNotReady}
    {
      hide Inv, IsRun, Older, Strip, Upper, Latest, BlobWasTaken, TakenBy, Accepted, WellFormed,
           IsPreparedPlusSignature, SignatureVerifies, IsAuthorized, IsSignedForm, Explained, Complete, CheckedAgainst;
      ComesPrepared(row);
      var verified :- Verify(txBlob, row.preparedTxBlob.value);
      AcceptedIsSignedForm(txBlob, row.preparedTxBlob.value, verified);

      var read :- ReadSigner(id, row, txBlob, verified.signingPubKey);
      ghost var now;
      r, now := Decide(id, row, txBlob, verified, read.0, read.1, from);
    }

    /** The account and the ledger it was read at, or the latest validated ledger read after it. */
    method ReadSigner(id: Id, row: Row, txBlob: string, signingPubKey: string) returns (r: Result<(AccountInfo, nat)>)
      requires backend.Valid()
      modifies backend, backend.intents
      ensures backend.Passed()
      ensures r.Success? ==>
        AccountSeen(row.sourceAccount, Some(r.value.0)) in backend.log && ReadHead(backend.log, r.value.0, r.value.1)
      ensures r.Failure? ==> r.error in {XrplUnavailable, AccountNotFound}
      ensures r == Result.Failure(XrplUnavailable) ==> backend.failed > old(backend.failed)
      ensures r.Failure? ==> Explained(backend.log, id, row, txBlob, signingPubKey, r.error)
    {
      hide Inv, IsRun, Older, Latest;
      var read :- backend.ValidatedAccountInfo(row.sourceAccount);
      if read.None? {
        return Result.Failure(AccountNotFound);
      }
      var account := read.value;
      if account.ledgerIndex.Some? {
        return Success((account, account.ledgerIndex.value));
      }
      var validatedLedger :- backend.ValidatedLedgerIndex();
      return Success((account, validatedLedger));
    }

    /**
     * The window decides first, then authorization, then the Sequence. Each refusal but that of an
     * unauthorized key takes the intent out of AWAITING_SIGNATURE; an unauthorized key changes nothing.
     */
    method Decide(id: Id, row: Row, txBlob: string, verified: VerifiedBlob, account: AccountInfo, validatedLedger: nat,
        ghost from: nat)
      returns (r: Result<Row>, ghost now: Row)
      requires backend.Valid() && from < |backend.run|
      requires row.id == id && row.status == AwaitingSignature && RowSeen(row) in backend.log && Complete(row)
      requires IsSignedForm(verified, row.preparedTxBlob.value) && verified.txBlob == Upper(txBlob)
      requires AccountSeen(row.sourceAccount, Some(account)) in backend.log
      requires ReadHead(backend.log, account, validatedLedger)
      modifies backend, backend.intents
      ensures backend.Worked()
      ensures validatedLedger > row.lastLedgerSequence.value ==>
        && r == Result.Failure(IntentExpired) && HasLeft(backend.log, id, now)
        && WroteAtMost(old(backend.written), backend.written, id, Expired)
      ensures validatedLedger <= row.lastLedgerSequence.value
              && !IsAuthorized(verified.signingPubKey, row.sourceAccount, account) ==>
        r == Result.Failure(SignerNotAuthorized) && backend.run == old(backend.run) && backend.written == old(backend.written)
      ensures validatedLedger <= row.lastLedgerSequence.value
              && IsAuthorized(verified.signingPubKey, row.sourceAccount, account)
              && account.sequence != row.sequence.value ==>
        && r == Result.Failure(InvalidIntentState) && HasLeft(backend.log, id, now)
        && WroteAtMost(old(backend.written), backend.written, id, Failed)
      ensures SigningPasses(row, verified.signingPubKey, account, validatedLedger) ==>
        && WroteAtMost(old(backend.written), backend.written, id, Signed)
        && (r.Success? ==> Accepted(backend.log, id, txBlob, r.value))
        && (backend.written != old(backend.written) ==> r == Success(now))
        && (if r == Result.Failure(DatabaseError) then BlobWasTaken(backend.run, from, id, Upper(txBlob))
            else HasLeft(backend.log, id, now))
      ensures r.Success? ==> CheckedAgainst(backend.log, row, verified.signingPubKey)
      ensures r.Failure? ==> Explained(backend.log, id, row, txBlob, verified.signingPubKey, r.error)
      ensures r == Result.Failure(SignatureAlreadyAttached) ==> exists other :: TakenBy(backend.log, id, txBlob, other)
      ensures r == Result.Failure(DatabaseError) ==> BlobWasTaken(backend.run, from, id, Upper(txBlob))
      ensures r.Failure? ==> r.error !in {IntentNotFound, ServiceNotReady, XrplUnavailable}
    {
      hide Inv, IsRun, Older, Strip, Upper, Latest, IsSignedForm, IsAuthorized, BlobWasTaken, TakenBy, Accepted, Explained, MaySign,
           CheckedAgainst, Complete;
      ComesPrepared(row);
      now := row;
      var why := BySigning(row, account, validatedLedger, verified);
      var reply;
      if validatedLedger > row.lastLedgerSequence.value {
        reply, now := backend.Transition(id,
          TransitionRequest({AwaitingSignature}, Expired, SignatureWindowExpired, NoPatch), why);
        r := Result.Failure(IntentExpired);
        LateReadExplains(backend.log, id, row, txBlob, verified.signingPubKey, account, validatedLedger);
        return;
      }
      if !IsAuthorized(verified.signingPubKey, row.sourceAccount, account) {
        r := Result.Failure(SignerNotAuthorized);
        AccountExplains(backend.log, id, row, txBlob, verified.signingPubKey, account);
        return;
      }
      if account.sequence != row.sequence.value {
        var failureCode := if account.sequence > row.sequence.value then SequenceConflict else SequenceRegression;
        reply, now := backend.Transition(id,
          TransitionRequest({AwaitingSignature}, Failed, failureCode, FailurePatch(failureCode)), why);
        r := Result.Failure(InvalidIntentState);
        AccountExplains(backend.log, id, row, txBlob, verified.signingPubKey, account);
        return;
      }

      r, now := Accept(id, row, txBlob, verified, account, validatedLedger, from);
      CheckWasMade(backend.log, row, verified.signingPubKey, account, validatedLedger);
    }

    method Accept(id: Id, row: Row, txBlob: string, verified: VerifiedBlob, account: AccountInfo, validatedLedger: nat,
        ghost from: nat)
      returns (r: Result<Row>, ghost now: Row)
      requires backend.Valid() && from < |backend.run|
      requires row.id == id && row.status == AwaitingSignature && RowSeen(row) in backend.log && Complete(row)
      requires IsSignedForm(verified, row.preparedTxBlob.value) && verified.txBlob == Upper(txBlob)
      requires AccountSeen(row.sourceAccount, Some(account)) in backend.log
      requires ReadHead(backend.log, account, validatedLedger)
      requires SigningPasses(row, verified.signingPubKey, account, validatedLedger)
      modifies backend, backend.intents
      ensures backend.Worked()
      ensures WroteAtMost(old(backend.written), backend.written, id, Signed)
      ensures r.Success? ==> Accepted(backend.log, id, txBlob, r.value)
      ensures backend.written != old(backend.written) ==> r == Success(now)
      ensures if r == Result.Failure(DatabaseError) then BlobWasTaken(backend.run, from, id, Upper(txBlob))
              else HasLeft(backend.log, id, now)
      ensures r == Result.Failure(SignatureAlreadyAttached) ==> exists other :: TakenBy(backend.log, id, txBlob, other)
      ensures r.Failure? ==> r.error in {SignatureAlreadyAttached, IntentExpired, InvalidIntentState, DatabaseError}
      ensures r.Failure? ==> Explained(backend.log, id, row, txBlob, verified.signingPubKey, r.error)
    {
      hide Inv, IsRun, Older, Strip, Upper, Latest, IsSignedForm, IsAuthorized, Complete, BlobWasTaken, Explained, TakenBy,
           IsAnswerFor;
      ComesPrepared(row);
      var why := BySigning(row, account, validatedLedger, verified);
      ghost var before, here: nat := backend.log, |backend.run| - 1;
      var reply;
      reply, now := backend.Transition(id,
        TransitionRequest({AwaitingSignature}, Signed, SignatureAccepted,
          SignaturePatch(verified.txBlob, verified.transactionHash, verified.signingPubKey)), why);
      match reply
      case Updated(stored) =>
        r := Success(stored);
      case HashIsTaken =>
        BlobSeenSince(backend.run, backend.run, from, here, id, verified.txBlob);
        ClashExplains(backend.log, id, row, txBlob, verified.signingPubKey);
        r := Result.Failure(DatabaseError);
      case AccountIsBusy | IllegalTransition =>
        assert false;
      case NotInState =>
        ghost var current;
        r, current := AnswerFromCurrent(id, row, txBlob, before, now);
        SettledIsTold(backend.log, id, txBlob, current, r);
        WinnerExplains(backend.log, id, row, txBlob, verified.signingPubKey, current, r);
    }

    /** The intent changed concurrently, for example another signature won. */
    method AnswerFromCurrent(id: Id, row: Row, txBlob: string, ghost before: set<Observation>, ghost now: Row)
      returns (r: Result<Row>, ghost current: Row)
      requires backend.Valid()
      requires row.id == id && row.status == AwaitingSignature && RowSeen(row) in before
      requires now.id == id && RowSeen(now) in backend.log && Latest(before, now) && now.status != AwaitingSignature
      modifies backend, backend.intents
      ensures backend.Passed()
      ensures current.id == id && RowSeen(current) in backend.log && Complete(current)
      ensures IsAnswerFor(current, txBlob, r)
    {
      hide Inv, IsRun, Older, Strip, Upper, Latest, Complete, IsAnswerFor, SettledAnswer;
      ghost var entry := backend.log;
      var loaded := Load(id);
      if loaded.Failure? {
        assert false;
        return;
      }
      current := loaded.value;
      LeftForGood(before, entry, row, now, current);
      SettledAnswerExactly(current, txBlob);
      r := SettledAnswer(loaded.value, txBlob).GetOr(Result.Failure(InvalidIntentState));
    }
  }
}
