/** SubmissionService: sends the stored signed blob, byte for byte, and records the answer. */
module Submission {
  import opened Wrappers
  import opened IntentState
  import opened Intents
  import opened Decisions
  import opened Protocol
  import opened Backends
  import opened Finality

  const MAX_STEPS: nat := 3

  class SubmissionService {
    const backend: Backend
    const finality: FinalityService

    constructor (backend: Backend, finality: FinalityService)
      requires finality.backend == backend
      ensures this.backend == backend && this.finality == finality
    {
      this.backend, this.finality := backend, finality;
    }

    /**
     * Every retry finds the intent strictly further along, so the loop always returns from inside:
     * the bound is never what ends it, and at most two RPCs are sent. A returned row is stored and
     * submitted, validated or, after a tem answer, rejected.
     */
    method Submit(id: Id) returns (r: Result<Row>)
      requires backend.Valid() && finality.backend == backend
      modifies backend, backend.intents
      ensures backend.Advanced() && backend.own == old(backend.own)
      ensures backend.submitted <= old(backend.submitted) + 2
      ensures !finality.recovered ==> backend.submitted == old(backend.submitted) && backend.written == old(backend.written)
      ensures r == Result.Failure(ServiceNotReady) ==> !finality.recovered
      ensures r.Success? ==>
        r.value.id == id && RowSeen(r.value) in backend.log && r.value.status in {Submitted, Validated, Rejected}
      ensures r == Result.Failure(InvalidIntentState) ==> WasNotSigned(backend.log, id)
      ensures r == Result.Failure(IntentNotFound) ==> forall row | RowSeen(row) in old(backend.log) :: row.id != id
      ensures r == Result.Failure(XrplUnavailable) ==>
        NoAnswer(backend.log, backend.run, old(|backend.run|) - 1, backend.failed > old(backend.failed), id)
      ensures r.Failure? ==> r.error in {IntentNotFound, InvalidIntentState, ServiceNotReady, XrplUnavailable}
    {
      hide Inv, IsRun, Complete, Older, Latest, MovedOn, NoAnswer, WasNotSigned, SteadySince;
      ghost var from: nat, lost := |backend.run| - 1, backend.failed;
      var found := backend.FindById(id);
      if found.None? {
        return Result.Failure(IntentNotFound);
      }
      var row := found.value;
      var step := 0;
      while step < MAX_STEPS
        invariant backend.Advanced() && backend.own == old(backend.own)
        invariant row.id == id && RowSeen(row) in backend.log && Complete(row)
        invariant step <= 2 && (step > 0 ==> 4 + step <= Rank(row.status))
        invariant backend.submitted <= old(backend.submitted) + step
        invariant !finality.recovered ==> backend.submitted == old(backend.submitted) && backend.written == old(backend.written)
      {
        if row.status == Validated {
          return Success(row);
        }
        if row.status !in SIGNED_ACTIVE {
          NotSigned(backend.log, row);
          return Result.Failure(InvalidIntentState);
        }
        var next;
        ghost var now;
        next, now :- SubmitSigned(row, from, lost);
        if next.Some? {
          return Success(next.value);
        }
        row := Reload(row, now);
        step := step + 1;
      }
      assert false;
    }

    /** Reads the intent again after it changed concurrently: it is strictly further along. */
    method Reload(row: Row, ghost now: Row) returns (current: Row)
      requires backend.Valid() && MovedOn(backend.log, row, now)
      modifies backend, backend.intents
      ensures backend.Passed()
      ensures current.id == row.id && RowSeen(current) in backend.log && Complete(current)
      ensures Rank(row.status) < Rank(current.status)
    {
      hide Inv, IsRun, Older, Latest, Complete;
      ghost var entry := backend.log;
      var found := backend.FindById(row.id);
      if found.None? {
        assert false;
        return row;
      }
      RereadMovedOn(entry, row, now, found.value);
      return found.value;
    }

    /**
     * Why a submit of intent `id` ended without an answer: `lost` says that a request of this side
     * brought none; or the intent is past its window and what was read leaves it undecided, which
     * does not happen while one prompt full-history endpoint serves the call.
     */
    static ghost predicate NoAnswer(log: set<Observation>, run: seq<World>, from: nat, lost: bool, id: Id) {
      lost || (!SteadySince(run, from) && exists row: Row :: RowSeen(row) in log && row.id == id && IsUndecided(log, row))
    }

    /** The intent was read in a status that has nothing to submit, or no more. */
    static ghost predicate WasNotSigned(log: set<Observation>, id: Id) {
      exists row: Row :: RowSeen(row) in log && row.id == id && row.status !in {Signed, Submitted, Validated}
    }

    static lemma NotSigned(log: set<Observation>, row: Row)
      requires RowSeen(row) in log && row.status !in {Signed, Submitted, Validated}
      ensures WasNotSigned(log, row.id)
    {
    }

    static lemma SilenceIsNoAnswer()
      ensures forall log: set<Observation>, run: seq<World>, from: nat, id: Id :: NoAnswer(log, run, from, true, id)
    {
    }

    static lemma UndecidedIsNoAnswer(log: set<Observation>, run: seq<World>, from: nat, lost: bool, row: Row)
      requires RowSeen(row) in log && IsUndecided(log, row) && !SteadySince(run, from)
      ensures NoAnswer(log, run, from, lost, row.id)
    {
      hide IsUndecided, SteadySince;
    }

    /** Past the window, an answer was read that leaves the outcome open or unproven. */
    static ghost predicate IsUndecided(log: set<Observation>, row: Row) {
      && HasPreparation(row) && HasSignature(row)
      && exists head: nat :: LedgerSeen(head) in log && head > row.lastLedgerSequence.value
           && (StillOpen(log, row, head) || Unproven(log, row, head))
    }

    /** One attempt: the row after it, or None when the intent changed concurrently and must be re-read. */
    method SubmitSigned(row: Row, ghost from: nat, ghost lost: nat) returns (r: Result<Option<Row>>, ghost now: Row)
      requires backend.Valid() && finality.backend == backend && from < |backend.run| && lost <= backend.failed
      requires SignedSnapshot(backend.log, row)
      modifies backend, backend.intents
      ensures backend.Advanced() && backend.own == old(backend.own)
      ensures backend.submitted <= old(backend.submitted) + 1
      ensures r == Result.Failure(ServiceNotReady) <==> !finality.recovered
      ensures !finality.recovered ==>
        && backend.run == old(backend.run)
        && backend.submitted == old(backend.submitted) && backend.written == old(backend.written)
      ensures r == Result.Failure(XrplUnavailable) ==>
        NoAnswer(backend.log, backend.run, from, backend.failed > lost, row.id)
      ensures r.Success? && r.value.Some? ==>
        r.value.value.id == row.id && RowSeen(r.value.value) in backend.log && r.value.value.status in {Submitted, Rejected}
      ensures r.Success? && r.value.Some? ==> backend.submitted == old(backend.submitted) + 1
      ensures r.Success? && r.value.None? ==> MovedOn(backend.log, row, now)
      ensures r.Failure? ==> r.error in {ServiceNotReady, XrplUnavailable}
    {
      hide Inv, IsRun, Older, Latest, SteadySince, NoAnswer, Complete, MovedOn, RecordsAnswer, Stored, HasPreparation, HasSignature;
      SilenceIsNoAnswer();
      SnapshotColumns(backend.log, row);
      now := row;
      ghost var here: nat := |backend.run| - 1;
      if !finality.recovered {
        return Result.Failure(ServiceNotReady), now;
      }
      var validatedLedger :- backend.ValidatedLedgerIndex();
      if validatedLedger > row.lastLedgerSequence.value {
        SteadyPart(backend.run, from, backend.run, here);
        r, now := SettleInstead(row, validatedLedger, from, lost);
        return;
      }
      if row.submissionValidatedLedger.None? {
        var _, _ := backend.UpdateInStatus(row.id, {Signed}, BaselinePatch(validatedLedger), ByBaseline(row, validatedLedger));
      }
      var rpc;
      r, now, rpc := SendAndRecord(row, validatedLedger);
    }

    /** Past LastLedgerSequence submitting cannot succeed: nothing is sent, the outcome is settled from the ledger. */
    method SettleInstead(row: Row, validatedLedger: nat, ghost from: nat, ghost lost: nat)
      returns (r: Result<Option<Row>>, ghost now: Row)
      requires backend.Valid() && finality.backend == backend
      requires SignedSnapshot(backend.log, row) && LedgerSeen(validatedLedger) in backend.log
      requires validatedLedger > row.lastLedgerSequence.value && from < |backend.run| && lost <= backend.failed
      requires SteadySince(backend.run, from) ==> validatedLedger <= backend.endpoint.head
      modifies backend, backend.intents
      ensures backend.Advanced() && backend.own == old(backend.own)
      ensures backend.submitted == old(backend.submitted) && backend.asked <= old(backend.asked) + 1
      ensures r.Success? ==> r.value.None? && MovedOn(backend.log, row, now) && now.status in TERMINAL
      ensures r.Failure? ==>
        r.error == XrplUnavailable && NoAnswer(backend.log, backend.run, from, backend.failed > lost, row.id)
    {
      hide Inv, IsRun, Older, Latest, Complete, StillOpen, Unproven, SteadySince, NoAnswer;
      SilenceIsNoAnswer();
      ghost var here: nat, before := |backend.run| - 1, backend.run;
      var budget := new SwitchBudget();
      SnapshotColumns(backend.log, row);
      var outcome;
      outcome, now :- finality.ResolveSigned(row, validatedLedger, budget);
      if outcome == OutcomePending || outcome == OutcomeUnprovable {
        SteadyPart(backend.run, from, before, from);
        SteadyPart(backend.run, from, backend.run, here);
        UndecidedIsNoAnswer(backend.log, backend.run, from, backend.failed > lost, row);
        return Result.Failure(XrplUnavailable), now;
      }
      return Success(None), now;
    }

    /** What the stored row says after the answer to RPC `rpc` was recorded in it. */
    static ghost predicate RecordsAnswer(log: set<Observation>, row: Row, stored: Row, rpc: nat)
      requires row.signedTxBlob.Some?
    {
      exists engineResult ::
        && SubmitAnswered(rpc, row.id, row.signedTxBlob.value, engineResult) in log
        && stored.submitEngineResult == Some(engineResult)
        && (row.status == Signed ==> stored.status == if IsMalformedResult(engineResult) then Rejected else Submitted)
    }

    /** One RPC is sent; its answer, if it arrives, is recorded by one write and by no other, ever. */
    method SendAndRecord(row: Row, validatedLedger: nat)
      returns (r: Result<Option<Row>>, ghost now: Row, rpc: nat)
      requires backend.Valid()
      requires SignedSnapshot(backend.log, row)
      requires SendJustified(backend.log, row, validatedLedger)
      modifies backend, backend.intents
      ensures backend.Advanced() && backend.own == old(backend.own) && backend.asked == old(backend.asked)
      ensures backend.submitted == old(backend.submitted) + 1
      ensures old(|backend.sent|) <= rpc < |backend.sent| && backend.sent[rpc] == (row.id, row.signedTxBlob.value)
      ensures r.Success? ==> rpc in backend.recorded
      ensures r.Success? && r.value.Some? ==>
        && r.value.value.id == row.id && RowSeen(r.value.value) in backend.log && r.value.value.status in {Submitted, Rejected}
        && RecordsAnswer(backend.log, row, r.value.value, rpc)
      ensures r.Success? && r.value.None? ==> MovedOn(backend.log, row, now)
      ensures r.Failure? ==> r.error == XrplUnavailable && backend.failed > old(backend.failed)
    {
      hide Inv, IsRun, Older, Latest;
      now := row;
      var answer;
      answer, rpc := backend.Submit(row, validatedLedger);
      if answer.Failure? {
        var _, _ := backend.UpdateInStatus(row.id, SIGNED_ACTIVE, NoPatch, ByFailedAttempt(row));
        return Result.Failure(answer.error), now, rpc;
      }
      r, now := RecordAnswer(row, answer.value, rpc);
    }

    method RecordAnswer(row: Row, engineResult: string, rpc: nat) returns (r: Result<Option<Row>>, ghost now: Row)
      requires backend.Valid()
      requires SignedSnapshot(backend.log, row) && rpc in backend.own && rpc !in backend.recorded
      requires SubmitAnswered(rpc, row.id, row.signedTxBlob.value, engineResult) in backend.log
      requires row.submissionValidatedLedger.Some? || BaselineWritten(row.id) in backend.log
      modifies backend, backend.intents
      ensures backend.Advanced() && backend.own == old(backend.own) - {rpc}
      ensures backend.asked == old(backend.asked) && backend.submitted == old(backend.submitted)
      ensures rpc in backend.recorded && r.Success?
      ensures r.value.Some? ==>
        && r.value.value.id == row.id && RowSeen(r.value.value) in backend.log && r.value.value.status in {Submitted, Rejected}
        && RecordsAnswer(backend.log, row, r.value.value, rpc)
      ensures r.value.None? ==> MovedOn(backend.log, row, now)
    {
      hide Inv, IsRun, Older, Latest;
      ghost var before := backend.log;
      if row.status == Signed {
        var request := if IsMalformedResult(engineResult)
          then TransitionRequest({Signed}, Rejected, MalformedTransaction, RecordedPatch(engineResult))
          else TransitionRequest({Signed}, Submitted, TransactionSubmitted, RecordedPatch(engineResult));
        var reply;
        reply, now := backend.Transition(row.id, request, BySubmission(row, engineResult, rpc));
        match reply
        case Updated(stored) =>
          return Success(Some(stored)), now;
        case NotInState =>
          RefusedMeansMovedOn(before, backend.log, row, now, {Signed});
          return Success(None), now;
        case AccountIsBusy | HashIsTaken | IllegalTransition =>
          assert false;
          return;
      }
      var stored;
      stored, now := backend.UpdateInStatus(row.id, {Submitted}, RecordedPatch(engineResult), ByResubmission(row, engineResult, rpc));
      if stored.None? {
        RefusedMeansMovedOn(before, backend.log, row, now, {Submitted});
      }
      return Success(stored), now;
    }
  }
}
