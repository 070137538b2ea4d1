/** FinalityService: one reconciliation pass, resolved intent by intent under interference. */
module Finality {
  import opened Wrappers
  import opened IntentState
  import opened Transactions
  import opened Intents
  import opened Ledger
  import opened Decisions
  import opened Protocol
  import opened Theorems
  import opened Backends

  datatype Health = Starting | Healthy | Degraded

  datatype SignedOutcome = OutcomeValidated | OutcomeExpired | OutcomeFailed | OutcomePending | OutcomeUnprovable

  class SwitchBudget {
    var remaining: nat

    constructor ()
      ensures remaining == 1
    {
      remaining := 1;
    }
  }

  /** A row that a pass may hold: an honest snapshot of a signed, sequence-active intent. */
  ghost predicate SignedSnapshot(log: set<Observation>, row: Row) {
    RowSeen(row) in log && Complete(row) && row.status in SIGNED_ACTIVE
  }

  /** `outcome` is what the row that is now stored says: settled, and VALIDATED exactly when the row is. */
  ghost predicate OutcomeFits(outcome: SignedOutcome, log: set<Observation>, row: Row, now: Row) {
    IsConclusive(outcome) ==>
      && now.id == row.id && RowSeen(now) in log && now.status in TERMINAL
      && (outcome == OutcomeValidated <==> now.status == Validated)
  }

  predicate IsConclusive(outcome: SignedOutcome) {
    outcome != OutcomePending && outcome != OutcomeUnprovable
  }

  function StatusOf(outcome: SignedOutcome): Status
    requires IsConclusive(outcome)
  {
    match outcome
    case OutcomeValidated => Validated
    case OutcomeExpired => Expired
    case OutcomeFailed => Failed
  }

  /**
   * `writes` are the status changes of a call that came to `outcome` for `row`: one conclusive write
   * of that very status, which is then stored, or none, because someone else had settled the intent.
   */
  ghost predicate WritesFit(outcome: SignedOutcome, row: Row, now: Row, before: seq<(Id, Status)>, after: seq<(Id, Status)>) {
    if IsConclusive(outcome) then
      after == before || (after == before + [(row.id, StatusOf(outcome))] && now.status == StatusOf(outcome))
    else
      after == before
  }

  /** An answer was read that leaves the outcome open: too early, not validated, or absent with a lagging account read. */
  ghost predicate StillOpen(log: set<Observation>, row: Row, currentLedger: nat)
    requires HasPreparation(row) && HasSignature(row)
  {
    exists search :: SearchOf(row, search) in log
      && SearchFinding(row, search, currentLedger) in {Wait, CheckAccount}
  }

  /** The window is over, and the range could not be searched completely. */
  ghost predicate Unproven(log: set<Observation>, row: Row, currentLedger: nat) {
    && HasPreparation(row) && HasSignature(row)
    && currentLedger > row.lastLedgerSequence.value && SearchOf(row, NotFound(false)) in log
  }

  function OutcomeOf(request: TransitionRequest): SignedOutcome {
    match request.to
    case Validated => OutcomeValidated
    case Expired => OutcomeExpired
    case _ => OutcomeFailed
  }

  lemma ConclusionSettles(log: set<Observation>, row: Row, now: Row)
    requires row.status in SIGNED_ACTIVE && RowSeen(row) in log && row.id == now.id
    requires Latest(log, now) && now.status !in SIGNED_ACTIVE
    ensures now.status in TERMINAL
  {
    assert Older(row, now);
  }

  lemma SnapshotColumns(log: set<Observation>, row: Row)
    requires SignedSnapshot(log, row)
    ensures HasPreparation(row) && HasSignature(row)
  {
  }

  /** Past the window, neither a complete miss nor a validated hit says to wait. */
  lemma LateSearch(row: Row, search: TxSearch, currentLedger: nat)
    requires HasPreparation(row) && HasSignature(row) && currentLedger > row.lastLedgerSequence.value
    ensures search == NotFound(true) || (search.Found? && search.lookup.validated) ==>
      SearchFinding(row, search, currentLedger) != Wait
  {
  }

  // ---- what one pass establishes for a row of its snapshot ---------------------------------

  datatype Verdict = RowSettled | RowOpen | RowUnproven

  /** Something later than `row` is terminal, or no longer unsigned. */
  ghost predicate SettledAs(log: set<Observation>, row: Row, now: Row) {
    && RowSeen(now) in log && now.id == row.id
    && (if row.status in SIGNED_ACTIVE then now.status in TERMINAL else now.status !in UNSIGNED_ACTIVE)
  }

  ghost predicate VerdictFits(log: set<Observation>, row: Row, currentLedger: nat, verdict: Verdict) {
    && HasPreparation(row)
    && match verdict
       case RowSettled => exists now: Row :: SettledAs(log, row, now)
       case RowOpen =>
         if row.status in SIGNED_ACTIVE then HasSignature(row) && StillOpen(log, row, currentLedger)
         else currentLedger <= row.lastLedgerSequence.value
       case RowUnproven => row.status in SIGNED_ACTIVE && Unproven(log, row, currentLedger)
  }

  lemma VerdictStays(log: set<Observation>, later: set<Observation>, row: Row, currentLedger: nat, verdict: Verdict)
    requires VerdictFits(log, row, currentLedger, verdict) && log <= later
    ensures VerdictFits(later, row, currentLedger, verdict)
  {
    hide SearchFinding, HasPreparation, HasSignature;
    match verdict
    case RowSettled =>
      var now: Row :| SettledAs(log, row, now);
      assert SettledAs(later, row, now);
    case RowOpen =>
      if row.status in SIGNED_ACTIVE {
        var search :| SearchOf(row, search) in log && SearchFinding(row, search, currentLedger) in {Wait, CheckAccount};
        assert SearchOf(row, search) in later;
      }
    case RowUnproven =>
  }

  /** One pass: the snapshot taken at moment `at`, and the verdict on each of its rows. */
  datatype Pass = Pass(completed: bool, rows: seq<Row>, verdicts: seq<Verdict>, currentLedger: nat, at: nat)

  function HealthAfter(pass: Pass): Health {
    if RowUnproven in pass.verdicts then Degraded else Healthy
  }

  /**
   * A completed pass has a verdict, backed by what was read, on every intent that was sequence-active
   * at a moment not before state `from`.
   */
  ghost predicate PassFits(run: seq<World>, log: set<Observation>, from: nat, pass: Pass) {
    pass.completed ==>
      && from <= pass.at < |run| && LedgerSeen(pass.currentLedger) in log
      && (forall id | id in run[pass.at].db.rows && run[pass.at].db.rows[id].status in SEQUENCE_ACTIVE ::
            run[pass.at].db.rows[id] in pass.rows)
      && AllFit(log, pass.rows, pass.currentLedger, pass.verdicts)
  }

  lemma PassStays(run: seq<World>, later: seq<World>, log: set<Observation>, laterLog: set<Observation>, from: nat, earlier: nat,
      pass: Pass)
    requires run <= later && log <= laterLog && earlier <= from && PassFits(run, log, from, pass)
    ensures PassFits(later, laterLog, earlier, pass)
  {
    hide AllFit;
    if pass.completed {
      AllFitStays(log, laterLog, pass.rows, pass.currentLedger, pass.verdicts);
      assert later[pass.at] == run[pass.at];
    }
  }

  lemma BrokenPassFits(pass: Pass)
    requires !pass.completed
    ensures forall run: seq<World>, log: set<Observation>, from: nat :: PassFits(run, log, from, pass)
  {
  }

  lemma WholePassFits(run: seq<World>, found: seq<World>, log: set<Observation>, from: nat, pass: Pass)
    requires found <= run && from <= pass.at < |found| && LedgerSeen(pass.currentLedger) in log
    requires forall id | id in found[pass.at].db.rows && found[pass.at].db.rows[id].status in SEQUENCE_ACTIVE ::
      found[pass.at].db.rows[id] in pass.rows
    requires AllFit(log, pass.rows, pass.currentLedger, pass.verdicts)
    ensures PassFits(run, log, from, pass)
  {
    hide AllFit;
    assert run[pass.at] == found[pass.at];
  }

  class FinalityService {
    const backend: Backend
    var health: Health
    var recovered: bool
    ghost var passes: seq<Pass>  // what each reconciliation pass so far came to

    constructor (backend: Backend)
      ensures this.backend == backend && health == Starting && !recovered && passes == []
    {
      this.backend := backend;
      health, recovered, passes := Starting, false, [];
    }

    /** Looks the stored hash up, asking the other endpoint once when this one lacks history. */
    method ResolveSigned(row: Row, currentLedger: nat, budget: SwitchBudget)
      returns (r: Result<SignedOutcome>, ghost now: Row)
      requires backend.Valid()
      requires SignedSnapshot(backend.log, row) && LedgerSeen(currentLedger) in backend.log && budget.remaining <= 1
      modifies backend, backend.intents, budget
      ensures backend.Advanced() && backend.submitted == old(backend.submitted) && backend.own == old(backend.own)
      ensures budget.remaining <= old(budget.remaining) <= budget.remaining + 1
      ensures backend.asked - old(backend.asked) == old(budget.remaining) - budget.remaining
      ensures r.Success? ==> OutcomeFits(r.value, backend.log, row, now)
      ensures r.Success? ==> WritesFit(r.value, row, now, old(backend.written), backend.written)
      ensures r.Failure? ==> r.error == XrplUnavailable && backend.failed > old(backend.failed) && backend.written == old(backend.written)
      ensures r == Success(OutcomeUnprovable) ==> Unproven(backend.log, row, currentLedger) && budget.remaining == 0
      ensures r == Success(OutcomePending) ==> StillOpen(backend.log, row, currentLedger)
      ensures r.Success? && currentLedger > row.lastLedgerSequence.value && old(backend.endpoint.head) >= currentLedger
              && SteadySince(backend.run, old(|backend.run|) - 1) ==>
        IsConclusive(r.value)
    {
      hide Inv, IsRun, Complete, Latest, SteadySince, SearchFinding;
      SnapshotColumns(backend.log, row);
      now := row;
      ghost var from: nat := |backend.run| - 1;
      var search :- FindTransaction(row, currentLedger, budget);
      ghost var searched := backend.run;
      r, now := ApplySearch(row, search, currentLedger, from);
      SteadyPart(backend.run, from, searched, from);
      if currentLedger > row.lastLedgerSequence.value {
        LateSearch(row, search, currentLedger);
      }
    }

    /** The search, on the other endpoint as well when this one lacks part of the range and budget is left. */
    method FindTransaction(row: Row, currentLedger: nat, budget: SwitchBudget) returns (r: Result<TxSearch>)
      requires backend.Valid() && HasPreparation(row) && HasSignature(row) && budget.remaining <= 1
      modifies backend, backend.intents, budget
      ensures backend.Advanced() && backend.submitted == old(backend.submitted) && backend.own == old(backend.own)
      ensures backend.written == old(backend.written)
      ensures budget.remaining <= old(budget.remaining) <= budget.remaining + 1
      ensures backend.asked - old(backend.asked) == old(budget.remaining) - budget.remaining
      ensures r.Success? ==> backend.searched == old(backend.searched) + 1 + (backend.asked - old(backend.asked))
      ensures backend.asked > old(backend.asked) ==>
        currentLedger > row.lastLedgerSequence.value && SearchOf(row, NotFound(false)) in backend.log
      ensures r.Success? ==> SearchOf(row, r.value) in backend.log
      ensures r.Success? ==>
        Searched(row.transactionHash.value, row.preparedLedgerIndex.value + 1, row.lastLedgerSequence.value, r.value) in backend.log
      ensures r == Success(NotFound(false)) && currentLedger > row.lastLedgerSequence.value ==> budget.remaining == 0
      ensures r.Failure? ==> r.error == XrplUnavailable && backend.failed > old(backend.failed)
      ensures r.Success? && old(backend.endpoint.head) >= currentLedger > row.lastLedgerSequence.value
              && SteadySince(backend.run, old(|backend.run|) - 1) ==>
        r.value == NotFound(true) || (r.value.Found? && r.value.lookup.validated)
    {
      hide Inv, IsRun, SteadySince;
      ghost var from: nat := |backend.run| - 1;
      var hash := row.transactionHash.value;
      var min := row.preparedLedgerIndex.value + 1;
      var max := row.lastLedgerSequence.value;
      var search :- backend.Tx(hash, min, max);
      if search.NotFound? && currentLedger > max && !search.searchedAll && budget.remaining > 0 {
        ghost var searched := backend.run;
        budget.remaining := budget.remaining - 1;
        var _ :- backend.SwitchEndpoint();
        search :- backend.Tx(hash, min, max);
        SteadyPart(backend.run, from, searched, from);
      }
      return Success(search);
    }

    /** `from` is a state of the run no later than now, from which steadiness is judged. */
    method ApplySearch(row: Row, search: TxSearch, currentLedger: nat, ghost from: nat)
      returns (r: Result<SignedOutcome>, ghost now: Row)
      requires backend.Valid() && from < |backend.run|
      requires SignedSnapshot(backend.log, row) && LedgerSeen(currentLedger) in backend.log
      requires SearchOf(row, search) in backend.log
      modifies backend, backend.intents
      ensures backend.Worked()
      ensures r.Success? ==> OutcomeFits(r.value, backend.log, row, now)
      ensures r.Success? ==> WritesFit(r.value, row, now, old(backend.written), backend.written)
      ensures r.Failure? ==> r.error == XrplUnavailable && backend.failed > old(backend.failed) && backend.written == old(backend.written)
      ensures r.Success? && IsConclusive(r.value) ==>
        || (search.Found? && search.lookup.validated)
        || (search == NotFound(true) && currentLedger > row.lastLedgerSequence.value)
      ensures r == Success(OutcomeUnprovable) <==>
        currentLedger > row.lastLedgerSequence.value && search == NotFound(false)
      ensures r == Success(OutcomePending) ==>
        || SearchFinding(row, search, currentLedger) == Wait
        || (SearchFinding(row, search, currentLedger) == CheckAccount
            && !(SteadySince(backend.run, from) && old(backend.run)[from].endpoint.head > row.lastLedgerSequence.value))
    {
      hide Inv, IsRun, Complete, Latest, SteadySince;
      SnapshotColumns(backend.log, row);
      if search.Found? {
        var outcome;
        outcome, now := ApplyFound(row, search.lookup, currentLedger);
        return Success(outcome), now;
      }
      if currentLedger <= row.lastLedgerSequence.value {
        return Success(OutcomePending), row;
      }
      if !search.searchedAll {
        return Success(OutcomeUnprovable), row;
      }
      r, now := ApplyProvenAbsent(row, currentLedger, from);
    }

    method ApplyFound(row: Row, lookup: TxLookup, currentLedger: nat)
      returns (outcome: SignedOutcome, ghost now: Row)
      requires backend.Valid()
      requires SignedSnapshot(backend.log, row) && LedgerSeen(currentLedger) in backend.log
      requires SearchOf(row, Found(lookup)) in backend.log
      modifies backend, backend.intents
      ensures backend.Worked()
      ensures OutcomeFits(outcome, backend.log, row, now)
      ensures WritesFit(outcome, row, now, old(backend.written), backend.written)
      ensures outcome == if lookup.validated then OutcomeValidated else OutcomePending
    {
      hide Inv, IsRun, Latest, Complete;
      if !lookup.validated {
        return OutcomePending, row;
      }
      SnapshotColumns(backend.log, row);
      var request: TransitionRequest;
      if !(&& lookup.hash.Some? && Upper(lookup.hash.value) == row.transactionHash.value
           && lookup.ledgerIndex.Some?
           && row.preparedLedgerIndex.value < lookup.ledgerIndex.value <= row.lastLedgerSequence.value) {
        request := FailureRequest(FinalityIntegrityError);
      } else if lookup.transactionResult.None? || !IsFinalResult(lookup.transactionResult.value) {
        request := FailureRequest(UnexpectedValidatedResult);
      } else {
        request := TransitionRequest(SIGNED_ACTIVE, Validated, TransactionValidated,
                                     FinalPatch(lookup.transactionResult.value, lookup.ledgerIndex.value));
      }
      var why := BySearch(row, currentLedger, Found(lookup));
      now := Settle(row, request, why);
      outcome := OutcomeOf(request);
      backend.Sound();
      HitsConclude(backend.Now(), row.id, request, why);
      HitMeansValidated(backend.Now(), request, why, now);
    }

    /** Absent from every ledger of its window: the account Sequence tells expiry from conflict. */
    method ApplyProvenAbsent(row: Row, currentLedger: nat, ghost from: nat)
      returns (r: Result<SignedOutcome>, ghost now: Row)
      requires backend.Valid() && from < |backend.run|
      requires SignedSnapshot(backend.log, row) && LedgerSeen(currentLedger) in backend.log
      requires SearchOf(row, NotFound(true)) in backend.log && currentLedger > row.lastLedgerSequence.value
      modifies backend, backend.intents
      ensures backend.Worked()
      ensures r.Success? ==> OutcomeFits(r.value, backend.log, row, now)
      ensures r.Success? ==> WritesFit(r.value, row, now, old(backend.written), backend.written)
      ensures r.Failure? ==> r.error == XrplUnavailable && backend.failed > old(backend.failed) && backend.written == old(backend.written)
      ensures r.Success? ==> r.value in {OutcomeExpired, OutcomeFailed, OutcomePending}
      ensures r == Success(OutcomePending) ==>
        !(SteadySince(backend.run, from) && old(backend.run)[from].endpoint.head > row.lastLedgerSequence.value)
    {
      hide Inv, IsRun, Latest, Complete, SteadySince;
      SnapshotColumns(backend.log, row);
      now := row;
      ghost var here: nat := |backend.run| - 1;
      var account :- backend.ValidatedAccountInfo(row.sourceAccount);
      if account.Some? && account.value.ledgerIndex.GetOr(0) <= row.lastLedgerSequence.value {
        SteadyReads(backend.run, from, here);
        return Success(OutcomePending), now;
      }
      var outcome;
      outcome, now := ConcludeAbsence(row, currentLedger, account);
      return Success(outcome), now;
    }

    /** Absence is proven and the account was read beyond the window, or not found. */
    method ConcludeAbsence(row: Row, currentLedger: nat, account: Option<AccountInfo>)
      returns (outcome: SignedOutcome, ghost now: Row)
      requires backend.Valid()
      requires SignedSnapshot(backend.log, row) && LedgerSeen(currentLedger) in backend.log
      requires SearchOf(row, NotFound(true)) in backend.log && currentLedger > row.lastLedgerSequence.value
      requires AccountSeen(row.sourceAccount, account) in backend.log
      requires account.Some? ==> account.value.ledgerIndex.GetOr(0) > row.lastLedgerSequence.value
      modifies backend, backend.intents
      ensures backend.Worked()
      ensures OutcomeFits(outcome, backend.log, row, now)
      ensures WritesFit(outcome, row, now, old(backend.written), backend.written)
      ensures outcome == if account.Some? && account.value.sequence == row.sequence.value then OutcomeExpired else OutcomeFailed
    {
      hide Inv, IsRun, Latest, Complete;
      SnapshotColumns(backend.log, row);
      var preparedSequence := row.sequence.value;
      var request: TransitionRequest;
      if account.Some? && account.value.sequence == preparedSequence {
        request := TransitionRequest(SIGNED_ACTIVE, Expired, LastLedgerSequenceExpired, NoPatch);
      } else if account.None? || account.value.sequence > preparedSequence {
        request := FailureRequest(SequenceConflict);
      } else {
        request := FailureRequest(SequenceRegression);
      }
      var why := ByAbsence(row, currentLedger, account);
      now := Settle(row, request, why);
      backend.Sound();
      AbsenceMeansNotValidated(backend.Now(), request, why, now);
      return OutcomeOf(request), now;
    }

    /** Writes a terminal status, unless someone else already settled the intent. */
    method Settle(row: Row, request: TransitionRequest, why: Why) returns (ghost now: Row)
      requires backend.Valid()
      requires SignedSnapshot(backend.log, row)
      requires Justified(backend.log, row.id, request, why) && !why.BySubmission?
      requires request.from == SIGNED_ACTIVE && request.to in TERMINAL && !request.patch.SignaturePatch?
      modifies backend, backend.intents
      ensures backend.Worked()
      ensures now.id == row.id && RowSeen(now) in backend.log && now.status in TERMINAL
      ensures backend.written == old(backend.written)
              || (backend.written == old(backend.written) + [(row.id, request.to)] && now.status == request.to)
      ensures Justified(backend.log, row.id, request, why)
    {
      hide Inv, IsRun, Latest, Complete, Justified;
      ghost var entry := backend.log;
      var reply;
      reply, now := backend.Transition(row.id, request, why);
      if reply.NotInState? {
        ConclusionSettles(entry, row, now);
      }
      JustifiedPersists(entry, backend.log, row.id, request, why);
    }
 
    /** Expires an unsigned intent whose window the validated ledger has left behind. */
    method ExpireUnsigned(row: Row, currentLedger: nat) returns (ghost now: Row)
      requires backend.Valid()
      requires RowSeen(row) in backend.log && Complete(row) && row.status in UNSIGNED_ACTIVE
      requires LedgerSeen(currentLedger) in backend.log
      modifies backend, backend.intents
      ensures backend.Worked()
      ensures currentLedger <= row.lastLedgerSequence.value ==> backend.written == old(backend.written)
      ensures currentLedger > row.lastLedgerSequence.value ==> SettledAs(backend.log, row, now)
    {
      hide Inv, IsRun, Latest;
      if currentLedger <= row.lastLedgerSequence.value {
        return row;
      }
      var request := TransitionRequest(UNSIGNED_ACTIVE, Expired, SignatureWindowExpired, NoPatch);
      var reply;
      reply, now := backend.Transition(row.id, request, ByWindow(row, currentLedger));
    }

    /** One snapshot row: expire it unsigned, or resolve it signed. Answers whether it stayed unprovable. */
    method Reconcile(row: Row, currentLedger: nat, budget: SwitchBudget) returns (r: Result<bool>, ghost verdict: Verdict)
      requires backend.Valid()
      requires RowSeen(row) in backend.log && Complete(row) && row.status in SEQUENCE_ACTIVE
      requires LedgerSeen(currentLedger) in backend.log && budget.remaining <= 1
      modifies backend, backend.intents, budget
      ensures backend.Advanced() && backend.submitted == old(backend.submitted) && backend.own == old(backend.own)
      ensures budget.remaining <= old(budget.remaining)
      ensures backend.asked - old(backend.asked) == old(budget.remaining) - budget.remaining
      ensures r.Failure? ==> r.error == XrplUnavailable && backend.failed > old(backend.failed)
      ensures r.Success? ==> VerdictFits(backend.log, row, currentLedger, verdict) && (r.value <==> verdict == RowUnproven)
      ensures r.Success? && old(backend.endpoint.head) >= currentLedger > row.lastLedgerSequence.GetOr(0)
              && SteadySince(backend.run, old(|backend.run|) - 1) ==>
        verdict == RowSettled
    {
      hide Inv, IsRun, Latest, Complete, SteadySince, SearchFinding;
      ActiveColumns(row);
      ghost var now;
      verdict := RowOpen;
      if row.status in UNSIGNED_ACTIVE {
        now := ExpireUnsigned(row, currentLedger);
        verdict := if currentLedger > row.lastLedgerSequence.value then RowSettled else RowOpen;
        return Success(false), verdict;
      }
      SnapshotColumns(backend.log, row);
      var outcome;
      outcome, now :- ResolveSigned(row, currentLedger, budget);
      assert IsConclusive(outcome) ==> SettledAs(backend.log, row, now);
      verdict := if outcome == OutcomeUnprovable then RowUnproven
                 else if outcome == OutcomePending then RowOpen else RowSettled;
      return Success(outcome == OutcomeUnprovable), verdict;
    }

    /**
     * One pass over every sequence-active intent. `pass` records the snapshot it worked through and the
     * moment at which it was taken. It requests at most one endpoint switch, however many rows there are. When it
     * completes it has a verdict on every row, backed by what it read; it is DEGRADED exactly when a
     * row stayed unproven; and if a prompt full-history endpoint with a monotone view served it from
     * beginning to end, every row past its LastLedgerSequence is settled.
     */
    method Cycle() returns (ghost pass: Pass)
      requires backend.Valid()
      modifies this`health, this`recovered, this`passes, backend, backend.intents
      ensures backend.Advanced() && backend.submitted == old(backend.submitted) && backend.own == old(backend.own)
      ensures backend.asked <= old(backend.asked) + 1
      ensures passes == old(passes) + [pass]
      ensures PassFits(backend.run, backend.log, old(|backend.run|) - 1, pass)
      ensures !pass.completed ==> backend.failed > old(backend.failed) && health == old(health) && recovered == old(recovered)
      ensures pass.completed ==> recovered && health == HealthAfter(pass)
      ensures pass.completed && SteadySince(backend.run, old(|backend.run|) - 1) ==>
        AllPastSettled(pass.rows, pass.currentLedger, pass.verdicts) && health == Healthy
    {
      hide Inv, IsRun, Latest, Complete, AllFit, AllPastSettled, SteadySince, PassFits, HealthAfter;
      ghost var from: nat := |backend.run| - 1;
      var budget := new SwitchBudget();
      pass := Pass(false, [], [], 0, 0);
      BrokenPassFits(pass);
      passes := passes + [pass];
      var current, snapshot;
      ghost var at;
      current, snapshot, at := TakeSnapshot();
      if current.Failure? {
        return;
      }
      ghost var found := backend.run;
      var degraded;
      ghost var verdicts;
      degraded, verdicts := ReconcileAll(snapshot, current.value, budget);
      if degraded.Failure? {
        return;
      }
      SteadyPart(backend.run, from, found, from);
      SteadyPart(backend.run, from, backend.run, |found| - 1);
      health := if degraded.value then Degraded else Healthy;
      recovered := true;
      pass := Pass(true, snapshot, verdicts, current.value, at);
      passes := passes[|passes| - 1 := pass];
      WholePassFits(backend.run, found, backend.log, from, pass);
      SettledIsProven(backend.log, pass);
    }

    /** The validated ledger, then every sequence-active row as of moment `at`. */
    method TakeSnapshot() returns (r: Result<nat>, rows: seq<Row>, ghost at: nat)
      requires backend.Valid()
      modifies backend, backend.intents
      ensures backend.Passed()
      ensures r.Failure? ==> backend.failed > old(backend.failed)
      ensures r.Success? ==> LedgerSeen(r.value) in backend.log
      ensures r.Success? && SteadySince(backend.run, old(|backend.run|) - 1) ==> r.value <= backend.endpoint.head
      ensures r.Success? ==>
        && old(|backend.run|) - 1 <= at < |backend.run|
        && forall id | id in backend.run[at].db.rows && backend.run[at].db.rows[id].status in SEQUENCE_ACTIVE ::
             backend.run[at].db.rows[id] in rows
      ensures forall row | row in rows :: row.status in SEQUENCE_ACTIVE && RowSeen(row) in backend.log && Complete(row)
    {
      hide Inv, IsRun, Complete, SteadySince;
      ghost var from: nat := |backend.run| - 1;
      rows, at := [], 0;
      var current :- backend.ValidatedLedgerIndex();
      ghost var read := backend.run;
      rows, at := backend.FindByStatuses(SEQUENCE_ACTIVE);
      SteadyPart(backend.run, from, read, from);
      SteadyReach(backend.run, from, |read| - 1, current);
      return Success(current), rows, at;
    }

    /** The loop over the snapshot, with one switch budget for all of it. */
    method ReconcileAll(snapshot: seq<Row>, currentLedger: nat, budget: SwitchBudget)
      returns (r: Result<bool>, ghost verdicts: seq<Verdict>)
      requires backend.Valid() && LedgerSeen(currentLedger) in backend.log && budget.remaining <= 1
      requires forall row | row in snapshot :: row.status in SEQUENCE_ACTIVE && RowSeen(row) in backend.log && Complete(row)
      modifies backend, backend.intents, budget
      ensures backend.Advanced() && backend.submitted == old(backend.submitted) && backend.own == old(backend.own)
      ensures budget.remaining <= old(budget.remaining)
      ensures backend.asked - old(backend.asked) == old(budget.remaining) - budget.remaining
      ensures r.Failure? ==> r.error == XrplUnavailable && backend.failed > old(backend.failed)
      ensures r.Success? ==>
        AllFit(backend.log, snapshot, currentLedger, verdicts) && (r.value <==> RowUnproven in verdicts)
      ensures r.Success? && old(backend.endpoint.head) >= currentLedger
              && SteadySince(backend.run, old(|backend.run|) - 1) ==>
        AllPastSettled(snapshot, currentLedger, verdicts)
    {
      hide Inv, IsRun, Latest, Complete, VerdictFits, SteadySince;
      ghost var from: nat := |backend.run| - 1;
      ghost var reached := backend.endpoint.head >= currentLedger;
      verdicts := [];
      var degraded := false;
      var k := 0;
      while k < |snapshot|
        invariant 0 <= k <= |snapshot| && backend.Advanced()
        invariant backend.submitted == old(backend.submitted) && backend.own == old(backend.own)
        invariant budget.remaining <= old(budget.remaining) <= 1
        invariant backend.asked - old(backend.asked) == old(budget.remaining) - budget.remaining
        invariant reached && SteadySince(backend.run, from) ==> currentLedger <= backend.endpoint.head
        invariant |verdicts| == k && (degraded <==> RowUnproven in verdicts)
        invariant AllFit(backend.log, snapshot[..k], currentLedger, verdicts)
        invariant reached && SteadySince(backend.run, from) ==> AllPastSettled(snapshot[..k], currentLedger, verdicts)
      {
        var row := snapshot[k];
        assert row in snapshot;
        ghost var before, earlier := backend.log, backend.run;
        var unprovable;
        ghost var verdict;
        unprovable, verdict :- Reconcile(row, currentLedger, budget);
        SteadyPart(backend.run, from, earlier, from);
        SteadyPart(backend.run, from, backend.run, |earlier| - 1);
        SteadyReach(backend.run, from, |earlier| - 1, currentLedger);
        AllFitStays(before, backend.log, snapshot[..k], currentLedger, verdicts);
        assert snapshot[..k + 1] == snapshot[..k] + [row];
        degraded := degraded || unprovable;
        verdicts := verdicts + [verdict];
        k := k + 1;
      }
      assert snapshot[..k] == snapshot;
      return Success(degraded), verdicts;
    }
  }

  ghost predicate AllFit(log: set<Observation>, rows: seq<Row>, currentLedger: nat, verdicts: seq<Verdict>) {
    |verdicts| == |rows| && forall k | 0 <= k < |rows| :: VerdictFits(log, rows[k], currentLedger, verdicts[k])
  }

  /** Every row whose window the ledger has left behind is settled. */
  ghost predicate AllPastSettled(rows: seq<Row>, currentLedger: nat, verdicts: seq<Verdict>) {
    |verdicts| == |rows| && forall k | 0 <= k < |rows| ::
      currentLedger > rows[k].lastLedgerSequence.GetOr(0) ==> verdicts[k] == RowSettled
  }

  lemma AllFitStays(log: set<Observation>, later: set<Observation>, rows: seq<Row>, currentLedger: nat, verdicts: seq<Verdict>)
    requires AllFit(log, rows, currentLedger, verdicts) && log <= later
    ensures AllFit(later, rows, currentLedger, verdicts)
  {
    hide VerdictFits;
    forall k | 0 <= k < |rows| ensures VerdictFits(later, rows[k], currentLedger, verdicts[k]) {
      VerdictStays(log, later, rows[k], currentLedger, verdicts[k]);
    }
  }

  /** A head once reached by a steady endpoint stays reached. */
  lemma SteadyReach(run: seq<World>, from: nat, at: nat, head: nat)
    requires from <= at < |run|
    ensures SteadySince(run, from) && head <= run[at].endpoint.head ==> head <= run[|run| - 1].endpoint.head
  {
  }

  /** A validated read of a steady endpoint is not behind where that endpoint stood before. */
  lemma SteadyReads(run: seq<World>, from: nat, at: nat)
    requires from <= at < |run|
    ensures SteadySince(run, from) ==> run[from].endpoint.head <= run[at].endpoint.head && SteadySince(run, at)
  {
  }

  /** An unproven row is past its window, so a pass that settled all of those proved everything. */
  lemma SettledIsProven(log: set<Observation>, pass: Pass)
    requires AllFit(log, pass.rows, pass.currentLedger, pass.verdicts)
    ensures AllPastSettled(pass.rows, pass.currentLedger, pass.verdicts) ==> HealthAfter(pass) == Healthy
    ensures HealthAfter(pass) == if RowUnproven in pass.verdicts then Degraded else Healthy
  {
  }

  lemma ActiveColumns(row: Row)
    requires Complete(row) && row.status in SEQUENCE_ACTIVE
    ensures HasPreparation(row) && (row.status in SIGNED_ACTIVE ==> HasSignature(row))
  {
  }
}
