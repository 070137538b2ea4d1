/** PreparationService: turns a CREATED intent into a simulated, signable transaction. */
module Preparation {
  import opened Wrappers
  import opened IntentState
  import opened Transactions
  import opened Intents
  import opened Ledger
  import opened Decisions
  import opened Protocol
  import opened Backends
  import opened Finality

  const MAX_STEPS: nat := 8

  /** What a step leaves behind: the answer, the updated row, or the need to read the row again. */
  datatype StepAnswer = Done | Advanced(row: Row) | Reread

  datatype ReadValues = ReadValues(account: AccountInfo, ledgerIndex: nat, fee: nat)

  function TransactionFor(row: Row, account: AccountInfo, head: nat, fee: nat): Fields {
    BuildTransaction(row.payload, Params(fee, account.sequence, LastLedgerSequenceFor(head), configuredNetworkId))
  }

  predicate CanBeBuilt(transaction: Fields) {
    ValidTransaction(transaction) && EncodeTransaction(transaction).Some?
  }

  /** The stored transaction, in both forms, and its parameters say exactly the payload. */
  ghost predicate ColumnsSay(u: Row, payload: Payload, p: Params) {
    && u.preparedTxJson.Some? && u.preparedTxBlob.Some?
    && (if payload.Payment? then SaysPayment(u.preparedTxJson.value, payload, p, DeliverMax)
        else SaysTrustSet(u.preparedTxJson.value, payload, p))
    && BytesSay(u.preparedTxBlob.value, payload, p)
    && u.sequence == Some(p.sequence) && u.feeDrops == Some(p.fee) && u.lastLedgerSequence == Some(p.lastLedgerSequence)
  }

  lemma BuildableFromReads(row: Row, account: AccountInfo, head: nat, fee: nat)
    ensures CanBeBuilt(TransactionFor(row, account, head, fee))
      <==> Buildable(row.payload, Params(fee, account.sequence, head + 20, configuredNetworkId))
  {
    hide BuildTransaction, EncodeTransaction, ValidTransaction, Buildable;
    BuildableExactlyWhen(row.payload, Params(fee, account.sequence, head + 20, configuredNetworkId));
  }

  lemma BuiltColumnsSay(u: Row, row: Row, account: AccountInfo, head: nat, fee: nat)
    requires CanBeBuilt(TransactionFor(row, account, head, fee))
    requires var transaction := TransactionFor(row, account, head, fee);
      Stored(u, PreparedPatch(transaction, EncodeTransaction(transaction).value, head, account.sequence, fee,
                              LastLedgerSequenceFor(head)))
    ensures StoresPreparation(u, row, account, head, fee)
  {
    hide BuildTransaction, EncodeTransaction, ValidTransaction, SaysPayment, SaysTrustSet, BytesSay;
    var p := Params(fee, account.sequence, head + 20, configuredNetworkId);
    BuiltSays(row.payload, p);
    EncodedSays(row.payload, p);
  }

  /** `u` stores the transaction built for these reads. */
  ghost predicate StoresPreparation(u: Row, row: Row, account: AccountInfo, head: nat, fee: nat) {
    var transaction := TransactionFor(row, account, head, fee);
    && CanBeBuilt(transaction)
    && ColumnsSay(u, row.payload, Params(fee, account.sequence, head + 20, configuredNetworkId))
    && u.preparedLedgerIndex == Some(head)
    && Stored(u, PreparedPatch(transaction, EncodeTransaction(transaction).value, head, account.sequence, fee, LastLedgerSequenceFor(head)))
  }

  /** The account had no pending activity, and these are the ledger and the fee that were read. */
  ghost predicate ReadForPreparation(log: set<Observation>, row: Row, account: AccountInfo, head: nat, fee: nat) {
    && AccountSeen(row.payload.account, Some(account)) in log
    && OpenAccountSeen(row.payload.account, account.sequence, 0) in log
    && LedgerSeen(head) in log
    && FeeSeen(fee) in log && 1 <= fee <= MAX_FEE_DROPS
  }

  /** `u` was prepared from what was read. */
  ghost predicate PreparedFromReads(log: set<Observation>, u: Row, row: Row) {
    exists account: AccountInfo, head: nat, fee: nat ::
      ReadForPreparation(log, row, account, head, fee) && StoresPreparation(u, row, account, head, fee)
  }

  /** The transaction for what was read cannot be built. */
  ghost predicate CannotBuild(log: set<Observation>, row: Row) {
    exists account: AccountInfo, head: nat, fee: nat ::
      && ReadForPreparation(log, row, account, head, fee)
      && !Buildable(row.payload, Params(fee, account.sequence, head + 20, configuredNetworkId))
  }

  /** The open ledger shows activity of the account that the validated one does not. */
  ghost predicate HasPendingActivity(log: set<Observation>, account: string) {
    exists info: AccountInfo, sequence: nat, queued: nat ::
      && AccountSeen(account, Some(info)) in log && OpenAccountSeen(account, sequence, queued) in log
      && (sequence != info.sequence || queued != 0)
  }

  ghost predicate FeeIsTooHigh(log: set<Observation>) {
    exists drops: nat :: FeeSeen(drops) in log && drops > MAX_FEE_DROPS
  }

  lemma ReadsWereMade(log: set<Observation>, row: Row, account: AccountInfo, head: nat, fee: nat)
    requires ReadForPreparation(log, row, account, head, fee)
    ensures forall u: Row :: StoresPreparation(u, row, account, head, fee) ==> PreparedFromReads(log, u, row)
    ensures !Buildable(row.payload, Params(fee, account.sequence, head + 20, configuredNetworkId)) ==> CannotBuild(log, row)
  {
    hide StoresPreparation, ReadForPreparation, Buildable;
  }

  /** A prepared row has everything that simulating it needs. */
  lemma ComesPrepared(row: Row)
    requires Complete(row) && row.status != Created
    ensures HasPreparation(row)
    ensures row.status == Prepared ==> ToCanonicalForm(row.preparedTxJson.value).Some?
  {
    hide ToCanonicalForm;
  }

  /** `u` holds an answer that was read for the stored transaction and matches it. */
  ghost predicate SimulatedFromReads(log: set<Observation>, u: Row, row: Row)
    requires HasPreparation(row) && ToCanonicalForm(row.preparedTxJson.value).Some?
  {
    exists raw, head: nat ::
      && LedgerSeen(head) in log && head <= row.lastLedgerSequence.value
      && SimulationAnswered(ToCanonicalForm(row.preparedTxJson.value).value, raw) in log
      && SimulationMatchesPrepared(row.preparedTxJson.value, raw.txJson)
      && Stored(u, SimulationPatch(raw))
  }

  lemma SimulationWasRead(log: set<Observation>, row: Row, head: nat, raw: SimulationRaw)
    requires HasPreparation(row) && ToCanonicalForm(row.preparedTxJson.value).Some?
    requires LedgerSeen(head) in log && head <= row.lastLedgerSequence.value
    requires SimulationAnswered(ToCanonicalForm(row.preparedTxJson.value).value, raw) in log
    ensures SimulationMatchesPrepared(row.preparedTxJson.value, raw.txJson) ==>
      forall u: Row :: Stored(u, SimulationPatch(raw)) ==> SimulatedFromReads(log, u, row)
  {
    hide ToCanonicalForm, SimulationMatchesPrepared, Stored;
  }

  /** A validated ledger beyond the window was read. */
  ghost predicate WindowIsOver(log: set<Observation>, row: Row)
    requires HasPreparation(row)
  {
    exists head: nat :: LedgerSeen(head) in log && head > row.lastLedgerSequence.value
  }

  /** `now` has left the status of `row`. */
  ghost predicate HasLeft(log: set<Observation>, row: Row, now: Row) {
    now.id == row.id && RowSeen(now) in log && now.status != row.status
  }

  /** Each error of a step on `row` has its cause in that row or among the reads. */
  ghost predicate Explained(log: set<Observation>, row: Row, error: ApiError) {
    match error
    case AccountNotFound => AccountSeen(row.payload.account, None) in log
    case AccountNotQuiescent => HasPendingActivity(log, row.payload.account)
    case FeeTooHigh => FeeIsTooHigh(log)
    case TransactionBuildInvalid => CannotBuild(log, row)
    case IntentExpired => row.status == Expired || (HasPreparation(row) && WindowIsOver(log, row))
    case InvalidIntentState => row.status in {Rejected, Failed} || (row.status == Prepared && exists now :: HasLeft(log, row, now))
    case SimulationRejected => row.status == Simulated && row.simulationEngineResult != Some(SUCCESS)
    case ServiceNotReady | XrplUnavailable | AccountBusy => row.status in {Created, Prepared}
    case _ => false
  }

  /**
   * A failed call on intent `id` since state `from` has its cause in a row of the intent and among
   * the reads; `lost` says that some request of this side brought no answer meanwhile.
   */
  ghost predicate RefusedFor(log: set<Observation>, run: seq<World>, from: nat, lost: bool, recovered: bool, id: Id,
      error: ApiError) {
    && (exists row: Row :: row.id == id && RowSeen(row) in log && Explained(log, row, error))
    && (error == ServiceNotReady ==> !recovered)
    && (error == XrplUnavailable ==> lost || FeeSeen(0) in log)
    && (error == AccountBusy ==> exists now: Row :: now.id == id && SlotWasTaken(run, from, now))
  }

  lemma IsRefusedFor(log: set<Observation>, run: seq<World>, from: nat, lost: bool, recovered: bool, row: Row, now: Row,
      error: ApiError)
    requires RowSeen(row) in log && Explained(log, row, error)
    requires error == ServiceNotReady ==> !recovered
    requires error == XrplUnavailable ==> lost || FeeSeen(0) in log
    requires error == AccountBusy ==> now.id == row.id && SlotWasTaken(run, from, now)
    ensures RefusedFor(log, run, from, lost, recovered, row.id, error)
  {
    hide Explained, SlotWasTaken;
  }

  lemma RefusedAllAlong(log: set<Observation>, run: seq<World>, from: nat, later: nat, lost: bool, lostBefore: bool, recovered: bool,
      id: Id, error: ApiError)
    requires from <= later && RefusedFor(log, run, later, lost, recovered, id, error) && (lost ==> lostBefore)
    ensures RefusedFor(log, run, from, lostBefore, recovered, id, error)
  {
    hide Explained, SlotWasTaken;
    if error == AccountBusy {
      var now: Row :| now.id == id && SlotWasTaken(run, later, now);
      SlotSeenSince(run, from, later, now);
    }
  }

  class PreparationService {
    const backend: Backend
    const finality: FinalityService

    constructor (backend: Backend, finality: FinalityService)
      ensures this.backend == backend && this.finality == finality
    {
      this.backend, this.finality := backend, finality;
    }

    /**
     * Each step finds the intent strictly further along, so at most four steps are taken and the
     * loop never runs into its bound of eight.
     */
    method Prepare(id: Id) returns (r: Result<Row>, ghost steps: nat)
      requires backend.Valid()
      modifies backend, backend.intents
      ensures backend.Worked()
      ensures steps <= 4
      ensures WroteOnly(old(backend.written), backend.written, WritableBy(finality.recovered))
      ensures r.Success? ==>
        && r.value.id == id && RowSeen(r.value) in backend.log && HasPreparation(r.value)
        && r.value.status in {AwaitingSignature, Signed, Submitted, Validated}
      ensures r == Result.Failure(IntentNotFound) ==> forall row | RowSeen(row) in old(backend.log) :: row.id != id
      ensures r.Failure? && r.error != IntentNotFound ==>
        RefusedFor(backend.log, backend.run, old(|backend.run|) - 1, backend.failed > old(backend.failed), finality.recovered,
                   id, r.error)
    {
      hide Inv, IsRun, Older, Latest, RefusedFor, Complete, HasPreparation, WroteOnly, WritableBy;
      NothingWritten(backend.written, WritableBy(finality.recovered));
      ghost var from: nat := |backend.run| - 1;
      steps := 0;
      var found := backend.FindById(id);
      if found.None? {
        r := Result.Failure(IntentNotFound);
        return;
      }
      var row := found.value;
      var step := 0;
      while step < MAX_STEPS
        invariant backend.Worked() && steps == step <= 3
        invariant row.id == id && RowSeen(row) in backend.log && Complete(row)
        invariant step <= Rank(row.status)
        invariant WroteOnly(old(backend.written), backend.written, WritableBy(finality.recovered))
      {
        ghost var here: nat, lost, written := |backend.run| - 1, backend.failed, backend.written;
        var next := Proceed(row);
        steps := steps + 1;
        WroteOnlyTogether(old(backend.written), written, backend.written, WritableBy(finality.recovered));
        if next.Failure? {
          RefusedAllAlong(backend.log, backend.run, from, here, backend.failed > lost, backend.failed > old(backend.failed),
                          finality.recovered, id, next.error);
          r := Result.Failure(next.error);
          return;
        }
        if next.value.None? {
          ComesPrepared(row);
          r := Success(row);
          return;
        }
        row := next.value.value;
        step := step + 1;
      }
      assert false;
    }

    /** One step: the row after it, strictly further along, or None when there is nothing left to do. */
    method Proceed(row: Row) returns (r: Result<Option<Row>>)
      requires backend.Valid()
      requires RowSeen(row) in backend.log && Complete(row)
      modifies backend, backend.intents
      ensures backend.Worked()
      ensures WroteOnly(old(backend.written), backend.written, WritableBy(finality.recovered))
      ensures r == Success(None) ==> row.status in {AwaitingSignature, Signed, Submitted, Validated}
      ensures r.Success? && r.value.Some? ==>
        && r.value.value.id == row.id && RowSeen(r.value.value) in backend.log && Complete(r.value.value)
        && Rank(row.status) < Rank(r.value.value.status) && Rank(row.status) < 3
      ensures r.Failure? ==>
        && r.error != IntentNotFound
        && RefusedFor(backend.log, backend.run, old(|backend.run|) - 1, backend.failed > old(backend.failed), finality.recovered,
                      row.id, r.error)
    {
      hide Inv, IsRun, Older, Latest, MovedOn, Explained, SlotWasTaken, RefusedFor, Complete, WroteOnly, WritableBy;
      ghost var from: nat := |backend.run| - 1;
      var next;
      ghost var now;
      next, now := Step(row);
      if next.Failure? {
        IsRefusedFor(backend.log, backend.run, from, backend.failed > old(backend.failed), finality.recovered, row, now,
                     next.error);
        return Result.Failure(next.error);
      }
      match next.value
      case Done => return Success(None);
      case Advanced(updated) => return Success(Some(updated));
      case Reread =>
        var current := Reload(row, now);
        return Success(Some(current));
    }

    /** Reads the intent again after it changed concurrently: it is strictly further along. */
    method Reload(row: Row, ghost now: Row) returns (current: Row)
      requires backend.Valid() && MovedOn(backend.log, row, now)
      modifies backend, backend.intents
      ensures backend.Passed()
      ensures current.id == row.id && RowSeen(current) in backend.log && Complete(current)
      ensures Rank(row.status) < Rank(current.status)
    {
      hide Inv, IsRun, Older, Latest, Complete;
      ghost var entry := backend.log;
      var found := backend.FindById(row.id);
      if found.None? {
        assert false;
        return row;
      }
      RereadMovedOn(entry, row, now, found.value);
      return found.value;
    }

    /** Advances the intent by one state. */
    method Step(row: Row) returns (r: Result<StepAnswer>, ghost now: Row)
      requires backend.Valid()
      requires RowSeen(row) in backend.log && Complete(row)
      modifies backend, backend.intents
      ensures backend.Worked()
      ensures StepOutcome(backend.log, row, r, now)
      ensures WroteOnly(old(backend.written), backend.written, WritableBy(finality.recovered))
      ensures r.Failure? ==> Explained(backend.log, row, r.error)
      ensures r == Result.Failure(ServiceNotReady) ==> !finality.recovered
      ensures r == Result.Failure(XrplUnavailable) ==> backend.failed > old(backend.failed) || FeeSeen(0) in backend.log
      ensures r == Result.Failure(AccountBusy) ==>
        now.id == row.id && SlotWasTaken(backend.run, old(|backend.run|) - 1, now)
    {
      hide Inv, IsRun, Older, Latest, SlotWasTaken, HasPendingActivity, FeeIsTooHigh, CannotBuild, WindowIsOver, MovedOn,
           PreparedFromReads, SimulatedFromReads, Explained, StepOutcome;
      StatusAnswers(backend.log, row);
      now := row;
      match row.status
      case Created =>
        r, now := PrepareCreated(row);
        if r.Failure? {
          CreatedIsExplained(backend.log, row, r.error);
        }
      case Prepared =>
        r, now := SimulatePrepared(row);
        if r.Failure? {
          PreparedIsExplained(backend.log, row, r.error, now);
        }
      case Simulated =>
        r, now := CompleteSimulation(row);
        if r.Failure? {
          SimulatedIsExplained(backend.log, row);
        }
      case AwaitingSignature | Signed | Submitted | Validated => r := Success(Done);
      case Expired => r := Result.Failure(IntentExpired);
      case Rejected | Failed => r := Result.Failure(InvalidIntentState);
    }

    /** Before the startup recovery has completed, only a stored simulation result is acted on. */
    static function WritableBy(recovered: bool): set<Status> {
      if recovered then {Prepared, Simulated, AwaitingSignature, Expired, Rejected, Failed}
      else {AwaitingSignature, Rejected}
    }

    /** A step that does not end the request leaves the intent strictly further along. */
    static ghost predicate StepOutcome(log: set<Observation>, row: Row, r: Result<StepAnswer>, now: Row) {
      match r
      case Failure(error) => error != IntentNotFound
      case Success(Done) => row.status in {AwaitingSignature, Signed, Submitted, Validated}
      case Success(Advanced(updated)) =>
        updated.id == row.id && RowSeen(updated) in log && Complete(updated)
        && Rank(updated.status) == Rank(row.status) + 1 <= 3
      case Success(Reread) => Rank(row.status) < 3 && MovedOn(log, row, now)
    }

    /** What a step answers without doing anything. */
    static lemma StatusAnswers(log: set<Observation>, row: Row)
      ensures row.status in {AwaitingSignature, Signed, Submitted, Validated} ==> StepOutcome(log, row, Success(Done), row)
      ensures row.status == Expired ==>
        StepOutcome(log, row, Result.Failure(IntentExpired), row) && Explained(log, row, IntentExpired)
      ensures row.status in {Rejected, Failed} ==>
        StepOutcome(log, row, Result.Failure(InvalidIntentState), row) && Explained(log, row, InvalidIntentState)
    {
    }

    static lemma CreatedIsExplained(log: set<Observation>, row: Row, error: ApiError)
      requires row.status == Created
      requires error in {ServiceNotReady, XrplUnavailable, AccountNotFound, AccountNotQuiescent, FeeTooHigh,
                         TransactionBuildInvalid, AccountBusy}
      requires error == AccountNotFound ==> AccountSeen(row.payload.account, None) in log
      requires error == AccountNotQuiescent ==> HasPendingActivity(log, row.payload.account)
      requires error == FeeTooHigh ==> FeeIsTooHigh(log)
      requires error == TransactionBuildInvalid ==> CannotBuild(log, row)
      ensures Explained(log, row, error)
    {
      hide HasPendingActivity, FeeIsTooHigh, CannotBuild;
    }

    static lemma PreparedIsExplained(log: set<Observation>, row: Row, error: ApiError, now: Row)
      requires row.status == Prepared && HasPreparation(row)
      requires error in {ServiceNotReady, XrplUnavailable, IntentExpired, InvalidIntentState}
      requires error == IntentExpired ==> WindowIsOver(log, row)
      requires error == InvalidIntentState ==> HasLeft(log, row, now)
      ensures Explained(log, row, error)
    {
      hide WindowIsOver, HasLeft;
    }

    static lemma SimulatedIsExplained(log: set<Observation>, row: Row)
      requires row.status == Simulated && row.simulationEngineResult != Some(SUCCESS)
      ensures Explained(log, row, SimulationRejected)
    {
    }

    method PrepareCreated(row: Row) returns (r: Result<StepAnswer>, ghost now: Row)
      requires backend.Valid()
      requires RowSeen(row) in backend.log && Complete(row) && row.status == Created
      modifies backend, backend.intents
      ensures backend.Worked()
      ensures StepOutcome(backend.log, row, r, now)
      ensures r.Success? && r.value.Advanced? ==> PreparedFromReads(backend.log, r.value.row, row)
      ensures r == Result.Failure(ServiceNotReady) <==> !finality.recovered
      ensures !finality.recovered ==> backend.run == old(backend.run)
      ensures r == Result.Failure(AccountNotFound) ==> AccountSeen(row.payload.account, None) in backend.log
      ensures r == Result.Failure(AccountNotQuiescent) ==> HasPendingActivity(backend.log, row.payload.account)
      ensures r == Result.Failure(FeeTooHigh) ==> FeeIsTooHigh(backend.log)
      ensures r == Result.Failure(TransactionBuildInvalid) ==> CannotBuild(backend.log, row)
      ensures r == Result.Failure(AccountBusy) ==> now.id == row.id && SlotWasTaken(backend.run, old(|backend.run|) - 1, now)
      ensures r.Failure? ==> r.error in {ServiceNotReady, XrplUnavailable, AccountNotFound, AccountNotQuiescent, FeeTooHigh,
                                         TransactionBuildInvalid, AccountBusy}
      ensures r == Result.Failure(XrplUnavailable) ==> backend.failed > old(backend.failed) || FeeSeen(0) in backend.log
      ensures WroteAtMost(old(backend.written), backend.written, row.id, Prepared)
      ensures r.Failure? ==> backend.written == old(backend.written)
    {
      hide Inv, IsRun, Older, Latest, Complete, MovedOn, StoresPreparation, PreparedFromReads, CannotBuild, CanBeBuilt, Buildable,
           TransactionFor, HasPendingActivity, FeeIsTooHigh, SlotWasTaken;
      ghost var from: nat := |backend.run| - 1;
      now := row;
      if !finality.recovered {
        r := Result.Failure(ServiceNotReady);
        return;
      }
      var current :- ReadAccountLedgerAndFee(row);
      r, now := StorePreparation(row, current.account, current.ledgerIndex, current.fee, from);
      ReadsWereMade(backend.log, row, current.account, current.ledgerIndex, current.fee);
    }

    method ReadAccountLedgerAndFee(row: Row) returns (r: Result<ReadValues>)
      requires backend.Valid()
      modifies backend, backend.intents
      ensures backend.Passed()
      ensures r.Success? ==> ReadForPreparation(backend.log, row, r.value.account, r.value.ledgerIndex, r.value.fee)
      ensures r.Failure? ==> r.error in {XrplUnavailable, AccountNotFound, AccountNotQuiescent, FeeTooHigh}
      ensures r == Result.Failure(XrplUnavailable) ==> backend.failed > old(backend.failed) || FeeSeen(0) in backend.log
      ensures r == Result.Failure(AccountNotFound) ==> AccountSeen(row.payload.account, None) in backend.log
      ensures r == Result.Failure(AccountNotQuiescent) ==> HasPendingActivity(backend.log, row.payload.account)
      ensures r == Result.Failure(FeeTooHigh) ==> FeeIsTooHigh(backend.log)
    {
      hide Inv, IsRun, Older, Latest, HasPendingActivity, FeeIsTooHigh;
      var account :- QuiescentAccount(row.payload.account);
      var ledgerIndex :- backend.ValidatedLedgerIndex();
      var fee :- CappedOpenLedgerFee();
      return Success(ReadValues(account, ledgerIndex, fee));
    }

    /** The validated account, provided that its open state shows no pending activity. */
    method QuiescentAccount(account: string) returns (r: Result<AccountInfo>)
      requires backend.Valid()
      modifies backend, backend.intents
      ensures backend.Passed()
      ensures r.Success? ==>
        AccountSeen(account, Some(r.value)) in backend.log && OpenAccountSeen(account, r.value.sequence, 0) in backend.log
      ensures r.Failure? ==> r.error in {XrplUnavailable, AccountNotFound, AccountNotQuiescent}
      ensures r == Result.Failure(XrplUnavailable) ==> backend.failed > old(backend.failed)
      ensures r == Result.Failure(AccountNotFound) ==> AccountSeen(account, None) in backend.log
      ensures r == Result.Failure(AccountNotQuiescent) ==> HasPendingActivity(backend.log, account)
    {
      var validated :- backend.ValidatedAccountInfo(account);
      if validated.None? {
        return Result.Failure(AccountNotFound);
      }
      var info := validated.value;
      var current :- backend.CurrentAccountInfo(account);
      if current.0 != info.sequence || current.1 != 0 {
        return Result.Failure(AccountNotQuiescent);
      }
      return Success(info);
    }

    /** The open-ledger fee as it is, unless it is above the cap. */
    method CappedOpenLedgerFee() returns (r: Result<nat>)
      requires backend.Valid()
      modifies backend, backend.intents
      ensures backend.Passed()
      ensures r.Success? ==> FeeSeen(r.value) in backend.log && 1 <= r.value <= MAX_FEE_DROPS
      ensures r.Failure? ==> r.error in {XrplUnavailable, FeeTooHigh}
      ensures r == Result.Failure(XrplUnavailable) ==> backend.failed > old(backend.failed) || FeeSeen(0) in backend.log
      ensures r == Result.Failure(FeeTooHigh) ==> FeeIsTooHigh(backend.log)
    {
      var fee :- backend.OpenLedgerFee();
      if fee == 0 {
        return Result.Failure(XrplUnavailable);
      }
      if fee > MAX_FEE_DROPS {
        return Result.Failure(FeeTooHigh);
      }
      return Success(fee);
    }

    /** Builds, serializes and stores the transaction for the values that were read. */
    method StorePreparation(row: Row, account: AccountInfo, preparedLedgerIndex: nat, fee: nat, ghost from: nat)
      returns (r: Result<StepAnswer>, ghost now: Row)
      requires backend.Valid() && from < |backend.run|
      requires RowSeen(row) in backend.log && Complete(row) && row.status == Created
      requires AccountSeen(row.payload.account, Some(account)) in backend.log
      requires LedgerSeen(preparedLedgerIndex) in backend.log && 1 <= fee <= MAX_FEE_DROPS
      modifies backend, backend.intents
      ensures backend.Worked()
      ensures StepOutcome(backend.log, row, r, now)
      ensures r.Success? && r.value.Advanced? ==> StoresPreparation(r.value.row, row, account, preparedLedgerIndex, fee)
      ensures r.Failure? ==> r.error in {AccountBusy, TransactionBuildInvalid}
      ensures r == Result.Failure(TransactionBuildInvalid) <==> !CanBeBuilt(TransactionFor(row, account, preparedLedgerIndex, fee))
      ensures r == Result.Failure(TransactionBuildInvalid) <==>
        !Buildable(row.payload, Params(fee, account.sequence, preparedLedgerIndex + 20, configuredNetworkId))
      ensures r == Result.Failure(AccountBusy) ==> now.id == row.id && SlotWasTaken(backend.run, from, now)
      ensures WroteAtMost(old(backend.written), backend.written, row.id, Prepared)
      ensures r.Failure? ==> backend.written == old(backend.written)
    {
      hide Buildable, Inv, IsRun, Older, Latest, BuildTransaction, EncodeTransaction, ValidTransaction, SlotWasTaken, ColumnsSay;
      BuildableFromReads(row, account, preparedLedgerIndex, fee);
      now := row;
      var lastLedgerSequence := LastLedgerSequenceFor(preparedLedgerIndex);
      var transaction := BuildTransaction(row.payload,
        Params(fee, account.sequence, lastLedgerSequence, configuredNetworkId));
      var blob := EncodeTransaction(transaction);
      if !ValidTransaction(transaction) || blob.None? {
        r := Result.Failure(TransactionBuildInvalid);
        return;
      }
      var request := TransitionRequest({Created}, Prepared, TransactionPrepared,
        PreparedPatch(transaction, blob.value, preparedLedgerIndex, account.sequence, fee, lastLedgerSequence));
      ghost var before := backend.log;
      var reply;
      reply, now := backend.Transition(row.id, request, ByPreparation(row, account, preparedLedgerIndex, fee));
      match reply
      case Updated(prepared) =>
        BuiltColumnsSay(prepared, row, account, preparedLedgerIndex, fee);
        r := Success(Advanced(prepared));
      case AccountIsBusy =>
        SlotSeenSince(backend.run, from, old(|backend.run|) - 1, now);
        r := Result.Failure(AccountBusy);
      case HashIsTaken | IllegalTransition => assert false;
      case NotInState =>
        RefusedMeansMovedOn(before, backend.log, row, now, {Created});
        r := Success(Reread);
    }

    method SimulatePrepared(row: Row) returns (r: Result<StepAnswer>, ghost now: Row)
      requires backend.Valid()
      requires RowSeen(row) in backend.log && Complete(row) && row.status == Prepared
      modifies backend, backend.intents
      ensures backend.Worked()
      ensures StepOutcome(backend.log, row, r, now)
      ensures r.Success? && r.value.Advanced? ==> SimulatedFromReads(backend.log, r.value.row, row)
      ensures r == Result.Failure(ServiceNotReady) <==> !finality.recovered
      ensures !finality.recovered ==> backend.run == old(backend.run) && backend.written == old(backend.written)
      ensures WroteOnly(old(backend.written), backend.written, WritableBy(true))
      ensures r.Failure? ==> r.error in {ServiceNotReady, XrplUnavailable, IntentExpired, InvalidIntentState}
      ensures r == Result.Failure(XrplUnavailable) ==> backend.failed > old(backend.failed)
      ensures r == Result.Failure(IntentExpired) ==> WindowIsOver(backend.log, row) && HasLeft(backend.log, row, now)
      ensures r == Result.Failure(InvalidIntentState) ==> HasLeft(backend.log, row, now)
    {
      hide Inv, IsRun, Older, Latest, SimulationMatchesPrepared, ToCanonicalForm, SimulatedFromReads, HasLeft, MovedOn, Stored,
           Complete, WindowIsOver, WroteOnly;
      ComesPrepared(row);
      NothingWritten(backend.written, WritableBy(true));
      now := row;
      if !finality.recovered {
        r := Result.Failure(ServiceNotReady);
        return;
      }
      var validatedLedger :- backend.ValidatedLedgerIndex();
      if validatedLedger > row.lastLedgerSequence.value {
        ghost var before := backend.written;
        now := ExpirePrepared(row, validatedLedger);
        OneWriteIsAllowed(before, backend.written, row.id, WritableBy(true));
        r := Result.Failure(IntentExpired);
        return;
      }
      var simulated :- backend.Simulate(ToCanonicalForm(row.preparedTxJson.value).value);
      ghost var before := backend.written;
      r, now := RecordSimulation(row, simulated);
      OneWriteIsAllowed(before, backend.written, row.id, WritableBy(true));
      SimulationWasRead(backend.log, row, validatedLedger, simulated);
    }

    method ExpirePrepared(row: Row, validatedLedger: nat) returns (ghost now: Row)
      requires backend.Valid()
      requires RowSeen(row) in backend.log && Complete(row) && row.status == Prepared
      requires LedgerSeen(validatedLedger) in backend.log && validatedLedger > row.lastLedgerSequence.value
      modifies backend, backend.intents
      ensures backend.Worked()
      ensures HasLeft(backend.log, row, now) && WindowIsOver(backend.log, row)
      ensures WroteAtMost(old(backend.written), backend.written, row.id, Expired)
    {
      hide Inv, IsRun, Older, Latest;
      var reply;
      reply, now := backend.Transition(row.id,
        TransitionRequest({Prepared}, Expired, SignatureWindowExpired, NoPatch), ByWindow(row, validatedLedger));
    }

    /** The echo must be the prepared transaction, or the intent fails. */
    method RecordSimulation(row: Row, raw: SimulationRaw) returns (r: Result<StepAnswer>, ghost now: Row)
      requires backend.Valid()
      requires RowSeen(row) in backend.log && Complete(row) && row.status == Prepared
      requires SimulationAnswered(ToCanonicalForm(row.preparedTxJson.value).value, raw) in backend.log
      modifies backend, backend.intents
      ensures backend.Worked()
      ensures StepOutcome(backend.log, row, r, now) && HasLeft(backend.log, row, now)
      ensures SimulationMatchesPrepared(row.preparedTxJson.value, raw.txJson) ==>
        && r.Success? && WroteAtMost(old(backend.written), backend.written, row.id, Simulated)
        && (r.value.Advanced? ==> Stored(r.value.row, SimulationPatch(raw)))
      ensures !SimulationMatchesPrepared(row.preparedTxJson.value, raw.txJson) ==>
        && r == Result.Failure(InvalidIntentState) && WroteAtMost(old(backend.written), backend.written, row.id, Failed)
        && (backend.written != old(backend.written) ==> now.status == Failed && Stored(now, MismatchPatch(raw)))
    {
      hide Inv, IsRun, Older, Latest, SimulationMatchesPrepared, ToCanonicalForm;
      now := row;
      var reply;
      if !SimulationMatchesPrepared(row.preparedTxJson.value, raw.txJson) {
        reply, now := backend.Transition(row.id,
          TransitionRequest({Prepared}, Failed, SimulationArtifactMismatch, MismatchPatch(raw)), BySimulation(row, raw));
        r := Result.Failure(InvalidIntentState);
        return;
      }
      ghost var before := backend.log;
      reply, now := backend.Transition(row.id,
        TransitionRequest({Prepared}, Simulated, SimulationCompleted, SimulationPatch(raw)), BySimulation(row, raw));
      match reply
      case Updated(updated) => r := Success(Advanced(updated));
      case AccountIsBusy | HashIsTaken | IllegalTransition => assert false;
      case NotInState =>
        RefusedMeansMovedOn(before, backend.log, row, now, {Prepared});
        r := Success(Reread);
    }

    method CompleteSimulation(row: Row) returns (r: Result<StepAnswer>, ghost now: Row)
      requires backend.Valid()
      requires RowSeen(row) in backend.log && Complete(row) && row.status == Simulated
      modifies backend, backend.intents
      ensures backend.Worked()
      ensures StepOutcome(backend.log, row, r, now) && HasLeft(backend.log, row, now)
      ensures row.simulationEngineResult == Some(SUCCESS) ==>
        r.Success? && WroteAtMost(old(backend.written), backend.written, row.id, AwaitingSignature)
      ensures row.simulationEngineResult != Some(SUCCESS) ==>
        && WroteAtMost(old(backend.written), backend.written, row.id, Rejected)
        && (r == Result.Failure(SimulationRejected) <==> backend.written != old(backend.written))
        && (r.Failure? ==> r.error == SimulationRejected) && (r.Success? ==> r.value == Reread)
    {
      hide Inv, IsRun, Older, Latest;
      var engineResult := row.simulationEngineResult.value;
      ghost var before := backend.log;
      var reply;
      if engineResult == SUCCESS {
        reply, now := backend.Transition(row.id,
          TransitionRequest({Simulated}, AwaitingSignature, SimulationPassed, NoPatch), ByCompletion(row));
        match reply
        case Updated(updated) => r := Success(Advanced(updated));
        case AccountIsBusy | HashIsTaken | IllegalTransition => assert false;
        case NotInState =>
          RefusedMeansMovedOn(before, backend.log, row, now, {Simulated});
          r := Success(Reread);
      } else {
        reply, now := backend.Transition(row.id,
          TransitionRequest({Simulated}, Rejected, SimulationRefused, NoPatch), ByCompletion(row));
        match reply
        case Updated(_) => r := Result.Failure(SimulationRejected);
        case AccountIsBusy | HashIsTaken | IllegalTransition => assert false;
        case NotInState =>
          RefusedMeansMovedOn(before, backend.log, row, now, {Simulated});
          r := Success(Reread);
      }
    }
  }

  lemma SlotSeenSince(run: seq<World>, from: nat, later: nat, r: Row)
    requires from <= later && SlotWasTaken(run, later, r)
    ensures SlotWasTaken(run, from, r)
  {
    hide OwnedByAnother;
  }
}
