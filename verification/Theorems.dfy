/**
 * What the orchestrator is for, over whole runs: any number of concurrent calls acting on stale
 * reads, any lagging or gappy endpoints, any ledger history.
 */
module Theorems {
  import opened Wrappers
  import opened IntentState
  import opened Transactions
  import opened Intents
  import opened Ledger
  import opened SignedBlobs
  import opened Decisions
  import opened Protocol
  import opened Invariant

  lemma RowFact(w: World, id: Id)
    requires Inv(w) && id in w.db.rows
    ensures w.db.rows[id].id == id && RowOk(w.chain, w.malformed, w.db.rows[id])
    ensures TrailOk(w.db.audit, w.db.rows[id])
  {
  }

  lemma GrownRow(w: World, w': World, id: Id)
    requires Grows(w, w') && id in w.db.rows
    ensures id in w'.db.rows && Older(w.db.rows[id], w'.db.rows[id])
  {
  }

  // ---- finality truth ----------------------------------------------------------------------

  /** Some version of the chain contains a transaction with this hash. */
  ghost predicate HashOnChain(chain: Chain, hash: string) {
    exists i, b :: IncludedAt(chain, i, b) && TransactionHash(b) == hash
  }

  lemma AbsentHash(chain: Chain, b: string)
    requires ChainOk(chain) && NeverIncluded(chain, b) && b == Upper(b)
    ensures !HashOnChain(chain, TransactionHash(b))
  {
    forall i, c | IncludedAt(chain, i, c) ensures TransactionHash(c) != TransactionHash(b) {
      InclusionFacts(chain, i, c);
      DistinctBlobsDistinctHashes(c, b);
    }
  }

  /** What each terminal status of a signed intent says about the ledger. */
  ghost predicate TrueOutcome(chain: Chain, r: Row)
    requires HasPreparation(r) && HasSignature(r)
  {
    match r.status
    case Validated =>
      && r.finalLedgerIndex.Some? && r.finalResult.Some?
      && OutcomeOnChain(chain, r) && IsFinalResult(r.finalResult.value)
    case Expired =>
      !HashOnChain(chain, r.transactionHash.value) && FormNeverIncluded(chain, r.preparedTxBlob.value)
    case Failed =>
      && !HashOnChain(chain, r.transactionHash.value)
      && (WasSpent(chain, r.sourceAccount, r.sequence.value, r.lastLedgerSequence.value)
          || WasAbsent(chain, r.sourceAccount))
    case Rejected => !HashOnChain(chain, r.transactionHash.value)
    case _ => true
  }

  /**
   * A terminal status of a signed intent never changes, and what it says is true of the ledger now
   * and in every later state. VALIDATED: the blob is in the ledger it names, inside its window, with
   * the result it names. EXPIRED, FAILED, REJECTED: its hash is in no ledger. EXPIRED did not happen
   * at all: no signed form of the prepared transaction, by whatever key, is in any ledger. FAILED:
   * the account stood at a later Sequence beyond the window, or some ledger did not have it.
   */
  lemma FinalityTruth(run: seq<World>, i: nat, j: nat, id: Id)
    requires IsRun(run) && i <= j < |run|
    requires id in run[i].db.rows && HasSignature(run[i].db.rows[id])
    ensures var r := run[i].db.rows[id];
      && HasPreparation(r)
      && id in run[j].db.rows
      && (r.status in TERMINAL ==> run[j].db.rows[id].status == r.status)
      && TrueOutcome(run[i].chain, r) && TrueOutcome(run[j].chain, r)
  {
    hide Inv, Grows, IsRun, Older, TrueOutcome;
    RunHasInv(run, i, j);
    GrownRow(run[i], run[j], id);
    TruthPersists(run[i], run[j], id);
  }

  lemma TruthPersists(w: World, w': World, id: Id)
    requires Inv(w) && Inv(w') && Grows(w, w') && id in w.db.rows && id in w'.db.rows
    requires HasSignature(w.db.rows[id])
    ensures var r := w.db.rows[id];
      && HasPreparation(r)
      && (r.status in TERMINAL ==> w'.db.rows[id].status == r.status)
      && TrueOutcome(w.chain, r) && TrueOutcome(w'.chain, r)
  {
    hide Inv, RowOk, Older, TrueOutcome, ChainOk, CleanOk, RecentOk, HasPreparation, HasSignature, Grows;
    RowFact(w, id);
    RowFact(w', id);
    GrownRow(w, w', id);
    ChainFact(w);
    ChainFact(w');
    TruthNow(w.chain, w.malformed, w.db.rows[id]);
    SameOutcome(w.chain, w'.chain, w'.malformed, w.db.rows[id], w'.db.rows[id]);
  }

  /** The later row of a terminal intent says the same as the earlier one. */
  lemma SameOutcome(before: Chain, chain: Chain, malformed: set<string>, r: Row, r': Row)
    requires HasPreparation(r) && HasSignature(r) && TrueOutcome(before, r)
    requires ChainOk(chain) && CleanOk(chain, malformed) && RowOk(chain, malformed, r')
    requires Older(r, r')
    ensures r.status in TERMINAL ==> r'.status == r.status
    ensures TrueOutcome(chain, r)
  {
    hide ChainOk, CleanOk, RowOk, HashOnChain, FormNeverIncluded, WasSpent, WasAbsent, IncludedAt, IsFinalResult;
    TruthNow(chain, malformed, r');
  }

  lemma TruthNow(chain: Chain, malformed: set<string>, r: Row)
    requires ChainOk(chain) && CleanOk(chain, malformed) && RowOk(chain, malformed, r) && HasSignature(r)
    ensures HasPreparation(r) && TrueOutcome(chain, r)
  {
    hide ChainOk, CleanOk, ShapeOk, HashOnChain, NeverIncluded, FormNeverIncluded, WasSpent, WasAbsent, Anchored, IsFinalResult, TransactionHash, Upper, Strip;
    SignedShape(r);
    if r.status == Validated {
      OutcomeIsFinal(chain, r.finalLedgerIndex.value, r.signedTxBlob.value);
    } else if r.status == Rejected {
      MalformedIsNowhere(chain, malformed, r.signedTxBlob.value);
    }
    if r.status in {Expired, Failed, Rejected} {
      AbsentHash(chain, r.signedTxBlob.value);
    }
  }

  lemma SignedShape(r: Row)
    requires ShapeOk(r) && HasSignature(r)
    ensures HasPreparation(r)
    ensures r.signedTxBlob.value == Upper(r.signedTxBlob.value)
    ensures r.transactionHash.value == TransactionHash(r.signedTxBlob.value)
  {
    hide PreparationOk, SimulationOk, CarriesSignature, Upper, Strip, TransactionHash;
  }

  lemma MalformedIsNowhere(chain: Chain, malformed: set<string>, b: string)
    requires CleanOk(chain, malformed) && b in malformed
    ensures NeverIncluded(chain, b)
  {
  }

  lemma OutcomeIsFinal(chain: Chain, index: nat, b: string)
    requires ChainOk(chain) && IncludedAt(chain, index, b)
    ensures IsFinalResult(chain[index - 1].txs[b])
  {
    InclusionFacts(chain, index, b);
  }

  // ---- no double-live artifact -------------------------------------------------------------

  /** Some continuation of `w` puts `b` into a ledger version that does not exist yet. */
  ghost predicate CanStillBeIncluded(w: World, b: string) {
    exists path: seq<World>, index: nat :: Delivers(path, index, w, b)
  }

  ghost predicate Delivers(path: seq<World>, index: nat, w: World, b: string) {
    && IsPath(path) && path[0] == w
    && index > |w.chain| && IncludedAt(path[|path| - 1].chain, index, b)
  }

  /** Along a path, a blob enters a ledger only if it is not malformed. */
  lemma {:induction false} MalformedNeverEnters(path: seq<World>, i: nat, index: nat, b: string)
    requires IsPath(path) && Inv(path[0]) && i < |path|
    requires b in path[0].malformed && index > |path[0].chain|
    ensures !IncludedAt(path[i].chain, index, b)
  {
    hide Inv, Grows;
    if i > 0 {
      MalformedNeverEnters(path, i - 1, index, b);
      PathHasInv(path, i - 1);
      SameMalformed(path[0], path[i - 1]);
      MalformedStaysOut(path[i - 1], path[i], index, b);
    }
  }

  lemma SameMalformed(w: World, w': World)
    requires Grows(w, w')
    ensures w'.malformed == w.malformed && |w.chain| <= |w'.chain|
  {
  }

  lemma MalformedStaysOut(w: World, w': World, index: nat, b: string)
    requires Next(w, w') && b in w.malformed && !IncludedAt(w.chain, index, b)
    ensures !IncludedAt(w'.chain, index, b)
  {
    hide Justified, UpdateJustified, SendJustified, Honest, Follows, KeysUnique, EndpointOk;
    var a: Action :| Enabled(w, a) && w' == Apply(w, a);
  }

  lemma ReleasedMeansDead(w: World, id: Id)
    requires Inv(w) && id in w.db.rows
    requires HasSignature(w.db.rows[id]) && !OwnsSequence(w.db.rows[id])
    ensures !CanStillBeIncluded(w, w.db.rows[id].signedTxBlob.value)
  {
    hide Inv, Grows, Delivers;
    var b := w.db.rows[id].signedTxBlob.value;
    forall path: seq<World>, index: nat ensures !Delivers(path, index, w, b) {
      NotDelivered(path, index, w, id);
    }
  }

  /** A signed intent that gave up its account slot has a blob that can never be included any more. */
  lemma ReleasedBlobIsDead(run: seq<World>, i: nat, id: Id)
    requires IsRun(run) && i < |run| && id in run[i].db.rows
    requires HasSignature(run[i].db.rows[id]) && !OwnsSequence(run[i].db.rows[id])
    ensures !CanStillBeIncluded(run[i], run[i].db.rows[id].signedTxBlob.value)
  {
    hide Inv, Grows, IsRun, CanStillBeIncluded;
    RunHasInv(run, i, i);
    ReleasedMeansDead(run[i], id);
  }

  lemma NotDelivered(path: seq<World>, index: nat, w: World, id: Id)
    requires Inv(w) && id in w.db.rows
    requires HasSignature(w.db.rows[id]) && !OwnsSequence(w.db.rows[id])
    ensures !Delivers(path, index, w, w.db.rows[id].signedTxBlob.value)
  {
    hide Inv, Grows, RowOk, ShapeOk, ChainOk, Next, Older;
    var r := w.db.rows[id];
    var b := r.signedTxBlob.value;
    if |path| > 0 && IsPath(path) && path[0] == w && index > |w.chain| {
      var last := path[|path| - 1];
      RowFact(w, id);
      ReleasedStatuses(w, r);
      PathHasInv(path, |path| - 1);
      if r.status == Rejected {
        RejectedIsMalformed(w, r);
        MalformedNeverEnters(path, |path| - 1, index, b);
      } else {
        GrownRow(w, last, id);
        RowFact(last, id);
        ChainFact(last);
        ReleasedStaysOut(w, last, r, last.db.rows[id], index);
      }
    }
  }

  lemma ReleasedStatuses(w: World, r: Row)
    requires RowOk(w.chain, w.malformed, r) && HasSignature(r) && !OwnsSequence(r)
    ensures r.status in {Validated, Expired, Failed, Rejected}
  {
    hide TruthOk, PreparationOk, SimulationOk, SignatureOk;
  }

  lemma RejectedIsMalformed(w: World, r: Row)
    requires RowOk(w.chain, w.malformed, r) && HasSignature(r) && r.status == Rejected
    ensures r.signedTxBlob.value in w.malformed
  {
    hide ShapeOk, NeverIncluded, FormNeverIncluded, WasSpent, WasAbsent, Anchored;
    SignedRowFact(r);
  }

  /** What was included is not included again, and what was proven absent never is. */
  lemma ReleasedStaysOut(w: World, last: World, r: Row, later: Row, index: nat)
    requires ChainOk(last.chain) && Grows(w, last) && |w.chain| < index
    requires RowOk(w.chain, w.malformed, r) && RowOk(last.chain, last.malformed, later) && Older(r, later)
    requires HasSignature(r) && r.status in {Validated, Expired, Failed}
    ensures !IncludedAt(last.chain, index, r.signedTxBlob.value)
  {
    hide Grows, ShapeOk, ChainOk, FormNeverIncluded, WasSpent, WasAbsent, Anchored;
    SignedRowFact(r);
    if r.status == Validated {
      OutcomePersists(w, last, r);
      OnlyOnce(last.chain, r.finalLedgerIndex.value, index, r.signedTxBlob.value);
    }
  }

  lemma OutcomePersists(w: World, w': World, r: Row)
    requires Grows(w, w') && HasPreparation(r) && HasSignature(r) && r.finalLedgerIndex.Some? && r.finalResult.Some?
    requires OutcomeOnChain(w.chain, r)
    ensures IncludedAt(w'.chain, r.finalLedgerIndex.value, r.signedTxBlob.value)
  {
  }

  lemma OnlyOnce(chain: Chain, i: nat, j: nat, b: string)
    requires ChainOk(chain) && IncludedAt(chain, i, b) && i != j
    ensures !IncludedAt(chain, j, b)
  {
    if IncludedAt(chain, j, b) {
      InclusionFacts(chain, i, b);
      SequenceSpentOnce(chain, i, b, j, b);
    }
  }

  /**
   * Exactly when a stored signed blob is live: it is not malformed, its window is still open, and
   * its Sequence is still unspent in the newest ledger.
   */
  lemma LiveExactlyWhen(run: seq<World>, i: nat, id: Id)
    requires IsRun(run) && i < |run| && id in run[i].db.rows && HasSignature(run[i].db.rows[id])
    ensures HasPreparation(run[i].db.rows[id]) && |run[i].chain| >= 1
    ensures var (w, r) := (run[i], run[i].db.rows[id]);
      CanStillBeIncluded(w, r.signedTxBlob.value) <==> IsLive(w, r)
  {
    hide Inv, Grows, IsRun, CanStillBeIncluded, IsLive, Delivers;
    RunHasInv(run, i, i);
    var w, r := run[i], run[i].db.rows[id];
    RowFact(w, id);
    ChainFact(w);
    SignedRowFact(r);
    if IsLive(w, r) {
      LiveMayEnter(w, id);
    }
    forall path: seq<World>, index: nat ensures Delivers(path, index, w, r.signedTxBlob.value) ==> IsLive(w, r) {
      if Delivers(path, index, w, r.signedTxBlob.value) {
        EntersOnlyIfLive(path, index, w, id);
      }
    }
    assert CanStillBeIncluded(w, r.signedTxBlob.value) ==> IsLive(w, r) by {
      SomeDelivery(w, r.signedTxBlob.value);
    }
  }

  lemma SomeDelivery(w: World, b: string)
    ensures CanStillBeIncluded(w, b) ==> exists path: seq<World>, index: nat :: Delivers(path, index, w, b)
  {
    hide Delivers;
  }

  lemma SignedRowFact(r: Row)
    requires ShapeOk(r) && HasSignature(r)
    ensures HasPreparation(r)
  {
    hide IsSignedForm;
  }

  predicate IsLive(w: World, r: Row)
    requires HasPreparation(r) && HasSignature(r) && |w.chain| >= 1
  {
    && r.signedTxBlob.value !in w.malformed
    && |w.chain| < r.lastLedgerSequence.value
    && NextSequence(w.chain[|w.chain| - 1], r.sourceAccount) <= r.sequence.value
  }

  /** The ledger that takes `b` next, spending its Sequence. */
  function Taking(before: Version, b: string, account: string, sequence: nat): Version {
    Version(map[b := "tesSUCCESS"], before.next[account := sequence + 1], before.existing)
  }

  lemma TakingFollows(before: Version, index: nat, b: string)
    requires b == Upper(b) && SignedHeader(b).Some?
    requires var h := SignedHeader(b).value; index <= h.lastLedger && NextSequence(before, h.account) <= h.sequence
    ensures var h := SignedHeader(b).value; Follows(before, Taking(before, b, h.account, h.sequence), index)
  {
    assert "tes" <= "tesSUCCESS";
  }

  lemma LiveMayEnter(w: World, id: Id)
    requires Inv(w) && id in w.db.rows && HasSignature(w.db.rows[id]) && HasPreparation(w.db.rows[id]) && |w.chain| >= 1
    requires IsLive(w, w.db.rows[id])
    ensures CanStillBeIncluded(w, w.db.rows[id].signedTxBlob.value)
  {
    hide Inv, ShapeOk, TruthOk, Follows, SignedHeader, HeaderOf, Strip, Upper;
    var r := w.db.rows[id];
    var b := r.signedTxBlob.value;
    RowFact(w, id);
    BlobFact(r);
    AccessFacts(w);
    var version := Taking(w.chain[|w.chain| - 1], b, r.sourceAccount, r.sequence.value);
    TakingFollows(w.chain[|w.chain| - 1], |w.chain| + 1, b);
    assert MayInclude(w, b);
    assert Enabled(w, CloseLedger(version));
    var path := [w, Apply(w, CloseLedger(version))];
    assert Next(path[0], path[1]);
    assert Delivers(path, |w.chain| + 1, w, b);
  }

  lemma DeliveredIsNotMalformed(path: seq<World>, index: nat, w: World, b: string)
    requires Inv(w) && Delivers(path, index, w, b)
    ensures b !in w.malformed
  {
    hide Inv, Next;
    var n: nat := |path| - 1;
    if b in w.malformed {
      MalformedNeverEnters(path, n, index, b);
    }
  }

  lemma EntersOnlyIfLive(path: seq<World>, index: nat, w: World, id: Id)
    requires Inv(w) && id in w.db.rows && HasSignature(w.db.rows[id]) && HasPreparation(w.db.rows[id]) && |w.chain| >= 1
    requires Delivers(path, index, w, w.db.rows[id].signedTxBlob.value)
    ensures IsLive(w, w.db.rows[id])
  {
    hide Inv, RowOk, ShapeOk, TruthOk, Next, ChainOk, IncludedAt;
    var r := w.db.rows[id];
    var last := path[|path| - 1];
    RowFact(w, id);
    PathHasInv(path, |path| - 1);
    ChainFact(last);
    DeliveredIsNotMalformed(path, index, w, r.signedTxBlob.value);
    IncludedWasLive(w, last.chain, index, r);
  }

  /** What a later ledger includes was unspent, and inside its window, until then. */
  lemma IncludedWasLive(w: World, chain: Chain, index: nat, r: Row)
    requires ShapeOk(r) && HasPreparation(r) && HasSignature(r) && r.signedTxBlob.value !in w.malformed
    requires 1 <= |w.chain| < index && w.chain <= chain && ChainOk(chain) && IncludedAt(chain, index, r.signedTxBlob.value)
    ensures IsLive(w, r)
  {
    hide ShapeOk, SignedHeader, HeaderOf, Strip, Upper, ChainOk;
    BlobFact(r);
    InclusionFacts(chain, index, r.signedTxBlob.value);
    SequencesNeverFall(chain, |w.chain|, index - 1, r.sourceAccount);
  }

  /**
   * At every moment of every run, at most one accepted signed blob per network and account can
   * still enter the ledger: a slot is given up only when its blob is included or dead forever.
   */
  lemma NoDoubleLiveArtifact(run: seq<World>, i: nat, a: Id, b: Id)
    requires IsRun(run) && i < |run|
    requires a in run[i].db.rows && b in run[i].db.rows
    requires SameSlot(run[i].db.rows[a], run[i].db.rows[b])
    requires HasSignature(run[i].db.rows[a]) && HasSignature(run[i].db.rows[b])
    requires CanStillBeIncluded(run[i], run[i].db.rows[a].signedTxBlob.value)
    requires CanStillBeIncluded(run[i], run[i].db.rows[b].signedTxBlob.value)
    ensures a == b
  {
    hide Inv, Grows, CanStillBeIncluded, IsRun, OwnsSequence;
    RunHasInv(run, i, i);
    if !OwnsSequence(run[i].db.rows[a]) {
      ReleasedMeansDead(run[i], a);
    }
    if !OwnsSequence(run[i].db.rows[b]) {
      ReleasedMeansDead(run[i], b);
    }
    TableFacts(run[i]);
  }

  /** Two validated intents of one account never spent the same Sequence. */
  lemma NoSequenceSpentTwice(run: seq<World>, i: nat, a: Id, b: Id)
    requires IsRun(run) && i < |run| && a != b
    requires a in run[i].db.rows && b in run[i].db.rows
    requires run[i].db.rows[a].status == Validated && run[i].db.rows[b].status == Validated
    requires run[i].db.rows[a].sourceAccount == run[i].db.rows[b].sourceAccount
    ensures run[i].db.rows[a].sequence.Some? && run[i].db.rows[b].sequence.Some?
    ensures run[i].db.rows[a].sequence.value != run[i].db.rows[b].sequence.value
  {
    hide Inv, Grows, IsRun, Strip, HeaderOf, EncodeTransaction, SimulationMatchesPrepared, TransactionHash, Upper, ChainOk;
    var w := run[i];
    RunHasInv(run, i, i);
    RowFact(w, a);
    RowFact(w, b);
    ChainFact(w);
    TableFacts(w);
    var r, s := w.db.rows[a], w.db.rows[b];
    if r.sequence.value == s.sequence.value {
      SequenceSpentOnce(w.chain, r.finalLedgerIndex.value, r.signedTxBlob.value,
                        s.finalLedgerIndex.value, s.signedTxBlob.value);
    }
  }

  // ---- one signed blob, one intent ---------------------------------------------------------

  /** Another intent stores exactly these signed bytes. */
  ghost predicate StoredElsewhere(rows: map<Id, Row>, id: Id, blob: string) {
    exists other :: other in rows && other != id && rows[other].signedTxBlob == Some(blob)
  }

  /**
   * The hash index refuses an accepted signature exactly when the intent still awaits one and another
   * intent already stores the same bytes.
   */
  lemma HashClashExactlyWhen(w: World, id: Id, request: TransitionRequest, why: Why)
    requires Inv(w) && Justified(w.log, id, request, why) && request.patch.SignaturePatch?
    ensures id in w.db.rows
    ensures Transitioned(w.db, id, request).1.HashIsTaken? <==>
      w.db.rows[id].status == AwaitingSignature && StoredElsewhere(w.db.rows, id, request.patch.txBlob)
  {
    hide Inv, Justified, HashTaken, StoredElsewhere, SlotTaken, IsSignedForm;
    SignatureIsChecked(w, id, request, why);
    TableFacts(w);
    PatchKeepsIdentity(w.db.rows[id], request.patch);
    if Transitioned(w.db, id, request).1.AccountIsBusy? {
      BusyOnlyWhenTakingTheSlot(w.db, id, request);
    }
    SameHashSameBlob(w, id, request);
  }

  lemma SignatureIsChecked(w: World, id: Id, request: TransitionRequest, why: Why)
    requires Inv(w) && Justified(w.log, id, request, why) && request.patch.SignaturePatch?
    ensures id in w.db.rows && w.db.rows[id].id == id && request.from == {AwaitingSignature} && request.to == Signed
    ensures request.patch.transactionHash == TransactionHash(request.patch.txBlob)
    ensures request.patch.txBlob == Upper(request.patch.txBlob)
  {
    hide Inv, ShapeOk, RowOk, Older, SearchOf, CarriesSignature, IsAuthorized, ToCanonicalForm, SimulationMatchesPrepared,
         BuildTransaction, EncodeTransaction, ValidTransaction, TransactionHash, Upper, Strip;
    SnapshotFacts(w, why.row);
    KeyOf(w, id);
  }

  lemma SameHashSameBlob(w: World, id: Id, request: TransitionRequest)
    requires Inv(w) && id in w.db.rows && w.db.rows[id].id == id && request.patch.SignaturePatch?
    requires request.patch.transactionHash == TransactionHash(request.patch.txBlob)
    requires request.patch.txBlob == Upper(request.patch.txBlob)
    ensures HashTaken(w.db.rows, Target(w.db.rows[id], request)) <==> StoredElsewhere(w.db.rows, id, request.patch.txBlob)
  {
    hide Inv, TransactionHash, Upper;
    forall other | other in w.db.rows
      ensures w.db.rows[other].transactionHash == Some(request.patch.transactionHash) <==>
        w.db.rows[other].signedTxBlob == Some(request.patch.txBlob)
    {
      StoredHash(w, other);
      var r := w.db.rows[other];
      if r.transactionHash == Some(request.patch.transactionHash) {
        HashIdentifiesBlob(r.signedTxBlob.value, request.patch.txBlob);
      }
    }
  }

  lemma StoredHash(w: World, id: Id)
    requires Inv(w) && id in w.db.rows
    ensures var r := w.db.rows[id];
      && (r.transactionHash.Some? <==> r.signedTxBlob.Some?)
      && (r.signedTxBlob.Some? ==>
            r.signedTxBlob.value == Upper(r.signedTxBlob.value) && r.transactionHash.value == TransactionHash(r.signedTxBlob.value))
  {
    hide Inv, TruthOk, PreparationOk, SimulationOk, CarriesSignature, TransactionHash, Upper, Strip;
    RowFact(w, id);
  }

  // ---- no false alarms ---------------------------------------------------------------------

  /**
   * Against honest endpoints the finality worker concludes only three things, whatever stale
   * snapshot it acts on: integrity errors, unexpected results and Sequence regressions never occur.
   */
  lemma NoFalseAlarms(run: seq<World>, i: nat, id: Id, request: TransitionRequest, why: Why)
    requires IsRun(run) && i < |run|
    requires Justified(run[i].log, id, request, why) && (why.BySearch? || why.ByAbsence?)
    ensures request.reason in {TransactionValidated, LastLedgerSequenceExpired, SequenceConflict}
  {
    hide Inv, Grows, IsRun, Justified;
    RunHasInv(run, i, i);
    if why.BySearch? {
      HitsConclude(run[i], id, request, why);
    } else {
      AbsenceConcludes(run[i], id, request, why);
    }
  }

  lemma HitsConclude(w: World, id: Id, request: TransitionRequest, why: Why)
    requires Inv(w) && Justified(w.log, id, request, why) && why.BySearch?
    ensures request.to == Validated && request.reason == TransactionValidated
  {
    hide Inv, Grows, Strip, HeaderOf, EncodeTransaction, SimulationMatchesPrepared, TransactionHash, Upper, ChainOk, IncludedAt;
    var row, search := why.row, why.search;
    ChainFact(w);
    SnapshotFacts(w, row);
    LogFact(w, SearchOf(row, search));
    HitIsTheStoredBlob(w, row, search.lookup.ledgerIndex.value, search.lookup.transactionResult.value);
    HashIsUpper(row.signedTxBlob.value);
  }

  lemma AbsenceConcludes(w: World, id: Id, request: TransitionRequest, why: Why)
    requires Inv(w) && Justified(w.log, id, request, why) && why.ByAbsence?
    ensures request.reason in {LastLedgerSequenceExpired, SequenceConflict}
  {
    hide Inv, Grows, Strip, HeaderOf, EncodeTransaction, SimulationMatchesPrepared, TransactionHash, Upper, ChainOk, IncludedAt;
    SnapshotFacts(w, why.row);
    LogFact(w, AccountSeen(why.row.sourceAccount, why.account));
    if why.account.Some? {
      SequenceDoesNotRegress(w, w.db.rows[id], why.account.value);
    }
  }

  // ---- provenance --------------------------------------------------------------------------

  /**
   * Every blob ever handed to a submit RPC is the intent's durable signed blob; without its
   * signature fields it is byte for byte the prepared blob; and that prepared transaction was
   * simulated with tesSUCCESS and an echo that serializes to the same transaction.
   */
  lemma SentBlobsAreThePreparedTransaction(run: seq<World>, i: nat, id: Id, b: string)
    requires IsRun(run) && i < |run| && (id, b) in run[i].sent
    ensures id in run[i].db.rows
    ensures var r := run[i].db.rows[id];
      && r.signedTxBlob == Some(b)
      && r.preparedTxBlob.Some? && Strip(b) == r.preparedTxBlob
      && r.preparedTxJson.Some? && EncodeTransaction(r.preparedTxJson.value) == r.preparedTxBlob
      && r.simulationResult.Some? && r.simulationResult.value.engineResult == SUCCESS
      && SimulationMatchesPrepared(r.preparedTxJson.value, r.simulationResult.value.txJson)
  {
    hide Inv, Grows, IsRun, Strip, HeaderOf, EncodeTransaction, SimulationMatchesPrepared, TransactionHash, Upper;
    RunHasInv(run, i, i);
    SentFact(run[i], id, b);
    RowFact(run[i], id);
  }

  lemma SentFact(w: World, id: Id, b: string)
    requires Inv(w) && (id, b) in w.sent
    ensures id in w.db.rows && w.db.rows[id].signedTxBlob == Some(b)
  {
  }

  // ---- artifacts are write-once ------------------------------------------------------------

  /** Two calls that ever saw the same intent saw the same prepared and the same signed bytes. */
  lemma CallersAgree(run: seq<World>, i: nat, a: Row, b: Row)
    requires IsRun(run) && i < |run|
    requires RowSeen(a) in run[i].log && RowSeen(b) in run[i].log && a.id == b.id
    ensures a.preparedTxBlob.Some? && b.preparedTxBlob.Some? ==> a.preparedTxBlob == b.preparedTxBlob
    ensures a.signedTxBlob.Some? && b.signedTxBlob.Some? ==>
      a.signedTxBlob == b.signedTxBlob && a.transactionHash == b.transactionHash
    ensures a.status in TERMINAL && b.status in TERMINAL ==> a.status == b.status
  {
    hide Inv, Grows, IsRun, RowOk, ShapeOk, Older;
    RunHasInv(run, i, i);
    SnapshotFacts(run[i], a);
    SnapshotFacts(run[i], b);
    SightingsAgree(a, b, run[i].db.rows[a.id]);
  }

  lemma SightingsAgree(a: Row, b: Row, current: Row)
    requires ShapeOk(a) && ShapeOk(b) && Older(a, current) && Older(b, current)
    ensures a.preparedTxBlob.Some? && b.preparedTxBlob.Some? ==> a.preparedTxBlob == b.preparedTxBlob
    ensures a.signedTxBlob.Some? && b.signedTxBlob.Some? ==>
      a.signedTxBlob == b.signedTxBlob && a.transactionHash == b.transactionHash
    ensures a.status in TERMINAL && b.status in TERMINAL ==> a.status == b.status
  {
    hide PreparationOk, SimulationOk, SignatureOk;
  }

  // ---- audit and slots ---------------------------------------------------------------------

  /** The statuses an audit trail visits. */
  function Visited(trail: seq<AuditRow>): seq<Status> {
    seq(|trail|, k requires 0 <= k < |trail| => trail[k].to)
  }

  /**
   * Every intent's audit rows are a legal path from CREATED to its current status, at most seven
   * long; EXPIRED with a stored signature was proven on the ledger, EXPIRED without one means the
   * window closed before any signature was accepted, and FAILED names its recorded reason.
   */
  lemma AuditTellsTheStory(run: seq<World>, i: nat, id: Id)
    requires IsRun(run) && i < |run| && id in run[i].db.rows
    ensures var r := run[i].db.rows[id];
      var trail := Trail(run[i].db.audit, id);
      && LegalTrail(trail) && |trail| <= 7
      && LastEntry(trail).to == r.status
      && (forall k :: 0 <= k < |trail| - 1 ==> trail[k].to !in TERMINAL)
      && (r.status == Expired ==>
            (LastEntry(trail).reason == LastLedgerSequenceExpired <==> r.signedTxBlob.Some?)
            && (LastEntry(trail).reason == SignatureWindowExpired <==> r.signedTxBlob.None?))
      && (r.status == Failed ==> r.failureCode == Some(LastEntry(trail).reason))
      && (r.status == Failed && r.signedTxBlob.Some? ==> LastEntry(trail).reason == SequenceConflict)
  {
    hide Inv, Grows, IsRun, Strip, HeaderOf, EncodeTransaction, SimulationMatchesPrepared, TransactionHash, Upper, ChainOk;
    RunHasInv(run, i, i);
    RowFact(run[i], id);
    var trail := Trail(run[i].db.audit, id);
    var path := Visited(trail);
    assert LegalPath(path);
    PathsAreShort(path);
    forall k | 0 <= k < |trail| - 1 ensures trail[k].to !in TERMINAL {
      assert path[k] == trail[k].to;
    }
  }

  /**
   * No justified status change is ever illegal, and the account slot can be refused only to an
   * intent that is about to take it.
   */
  lemma ThrowsAreUnreachable(run: seq<World>, i: nat, id: Id, request: TransitionRequest, why: Why)
    requires IsRun(run) && i < |run|
    requires Justified(run[i].log, id, request, why)
    ensures !Transitioned(run[i].db, id, request).1.IllegalTransition?
    ensures Transitioned(run[i].db, id, request).1.AccountIsBusy? ==>
      run[i].db.rows[id].status == Created && request.to == Prepared
  {
    hide Inv, Grows, IsRun, Justified, Apply;
    RunHasInv(run, i, i);
    TableFacts(run[i]);
    JustifiedIsLegal(run[i], id, request, why);
    if Transitioned(run[i].db, id, request).1.AccountIsBusy? {
      BusyOnlyWhenTakingTheSlot(run[i].db, id, request);
    }
  }

  /** No stored row ever breaks a range check of the table. */
  lemma ChecksHold(run: seq<World>, i: nat, id: Id)
    requires IsRun(run) && i < |run| && id in run[i].db.rows
    ensures var r := run[i].db.rows[id];
      && (r.preparedLedgerIndex.Some? ==> r.preparedLedgerIndex.value > 0)
      && (r.feeDrops.Some? ==> r.feeDrops.value > 0)
      && (r.lastLedgerSequence.Some? ==>
            r.preparedLedgerIndex.Some? && r.lastLedgerSequence.value > r.preparedLedgerIndex.value)
  {
    hide Inv, Grows, IsRun, TruthOk, SimulationOk, SignatureOk, HeaderOf, EncodeTransaction;
    RunHasInv(run, i, i);
    RowFact(run[i], id);
  }

  /** SUBMITTED intents carry a baseline inside their window, even with racing submits. */
  lemma SubmittedHasBaseline(run: seq<World>, i: nat, id: Id)
    requires IsRun(run) && i < |run| && id in run[i].db.rows
    requires run[i].db.rows[id].status == Submitted
    ensures var r := run[i].db.rows[id];
      && r.submissionValidatedLedger.Some? && r.lastLedgerSequence.Some?
      && r.submissionValidatedLedger.value <= r.lastLedgerSequence.value
  {
    hide Inv, Grows, IsRun, Strip, HeaderOf, EncodeTransaction, SimulationMatchesPrepared, TransactionHash, Upper, ChainOk;
    RunHasInv(run, i, i);
    RowFact(run[i], id);
  }

  lemma BaselineInOneStep(w: World, a: Action, id: Id)
    requires Inv(w) && EndpointOk(w.chain, w.endpoint) && KeysUnique(w.db.rows) && Enabled(w, a)
    requires id in w.db.rows && w.db.rows[id].submissionValidatedLedger.Some?
    ensures id in Apply(w, a).db.rows
    ensures Apply(w, a).db.rows[id].submissionValidatedLedger != w.db.rows[id].submissionValidatedLedger <==>
      && a.Update? && a.id == id && a.updateWhy.ByBaseline?
      && w.db.rows[id].status == Signed && Some(a.updateWhy.head) != w.db.rows[id].submissionValidatedLedger
  {
    hide Inv, Justified, SendJustified, Honest, Follows, MayInclude, SlotTaken, HashTaken, CanTransition, KeysUnique, HasPreparation, HasSignature;
    match a
    case Change(i, request, why) => OnlyUpdatesSetBaselines(w.log, i, request, why);
    case _ =>
  }

  /**
   * The baseline is write-once but for one race: a stored baseline is overwritten exactly when a
   * submit that read SIGNED without one writes a different ledger while the intent is still SIGNED.
   */
  lemma BaselineOverwrittenExactlyWhen(run: seq<World>, a: Action, id: Id)
    requires IsRun(run) && |run| > 0
    requires var w := run[|run| - 1];
      && EndpointOk(w.chain, w.endpoint) && KeysUnique(w.db.rows) && Enabled(w, a)
      && id in w.db.rows && w.db.rows[id].submissionValidatedLedger.Some?
    ensures var (w, w') := (run[|run| - 1], Apply(run[|run| - 1], a));
      && id in w'.db.rows
      && (w'.db.rows[id].submissionValidatedLedger != w.db.rows[id].submissionValidatedLedger <==>
            && a.Update? && a.id == id && a.updateWhy.ByBaseline?
            && w.db.rows[id].status == Signed && Some(a.updateWhy.head) != w.db.rows[id].submissionValidatedLedger)
  {
    hide Inv, IsRun, Enabled, Apply;
    LastHasInv(run);
    BaselineInOneStep(run[|run| - 1], a, id);
  }

  lemma OnlyUpdatesSetBaselines(log: set<Observation>, id: Id, request: TransitionRequest, why: Why)
    requires Justified(log, id, request, why)
    ensures !request.patch.BaselinePatch?
  {
    hide SearchOf, IsSignedForm, ToCanonicalForm, SimulationMatchesPrepared, BuildTransaction, EncodeTransaction, ValidTransaction;
  }

  /** From SUBMITTED on, and after any conclusion, the baseline never changes again. */
  lemma BaselineIsFinalOnceSubmitted(run: seq<World>, i: nat, j: nat, id: Id)
    requires IsRun(run) && i <= j < |run| && id in run[i].db.rows
    requires Rank(run[i].db.rows[id].status) > Rank(Signed)
    ensures id in run[j].db.rows
    ensures run[j].db.rows[id].submissionValidatedLedger == run[i].db.rows[id].submissionValidatedLedger
  {
    hide Inv, IsRun;
    RunHasInv(run, i, j);
  }

  /** At most one intent per network and account owns the Sequence. */
  lemma OneOwnerPerSlot(run: seq<World>, i: nat, a: Id, b: Id)
    requires IsRun(run) && i < |run| && a in run[i].db.rows && b in run[i].db.rows
    requires OwnsSequence(run[i].db.rows[a]) && OwnsSequence(run[i].db.rows[b])
    requires SameSlot(run[i].db.rows[a], run[i].db.rows[b])
    ensures a == b
  {
    hide Inv, Grows, IsRun, OwnsSequence;
    RunHasInv(run, i, i);
    TableFacts(run[i]);
  }

  // ---- concurrent conclusions --------------------------------------------------------------

  /** An intent concluded from a validated hit is VALIDATED, whoever got there first. */
  lemma HitMeansValidated(w: World, request: TransitionRequest, why: Why, now: Row)
    requires Inv(w) && Justified(w.log, now.id, request, why) && why.BySearch?
    requires RowSeen(now) in w.log && now.status in TERMINAL
    ensures now.status == Validated && request.to == Validated
  {
    hide Inv, Grows, RowOk, Sound, ShapeOk, TruthOk, IncludedAt, TransactionHash, Upper, ChainOk;
    SnapshotFacts(w, why.row);
    SnapshotFacts(w, now);
    var index := ConclusiveHit(w, w.db.rows[now.id], request, why);
    IncludedIsNotDead(w, w.db.rows[now.id], index);
  }

  /** A search that led to a conclusion found the stored blob on the chain, with a final result. */
  lemma ConclusiveHit(w: World, cur: Row, request: TransitionRequest, why: Why) returns (index: nat)
    requires Inv(w) && Justified(w.log, cur.id, request, why) && why.BySearch?
    requires Older(why.row, cur) && ShapeOk(why.row) && RowOk(w.chain, w.malformed, cur)
    ensures request.to == Validated
    ensures HasPreparation(cur) && HasSignature(cur) && IncludedAt(w.chain, index, cur.signedTxBlob.value)
  {
    hide Inv, TruthOk, Strip, HeaderOf, EncodeTransaction, SimulationMatchesPrepared, TransactionHash, Upper, ChainOk, IncludedAt;
    ChainFact(w);
    LogFact(w, SearchOf(why.row, why.search));
    index := why.search.lookup.ledgerIndex.value;
    HitIsTheStoredBlob(w, cur, index, why.search.lookup.transactionResult.value);
    HashIsUpper(why.row.signedTxBlob.value);
  }

  lemma IncludedIsNotDead(w: World, cur: Row, index: nat)
    requires Inv(w) && RowOk(w.chain, w.malformed, cur) && HasPreparation(cur) && HasSignature(cur)
    requires IncludedAt(w.chain, index, cur.signedTxBlob.value)
    ensures cur.status !in {Expired, Failed, Rejected}
  {
    hide Inv, ShapeOk, Anchored, OutcomeOnChain;
    ChainFact(w);
  }

  /** An intent whose transaction is proven absent is never VALIDATED. */
  lemma AbsenceMeansNotValidated(w: World, request: TransitionRequest, why: Why, now: Row)
    requires Inv(w) && Justified(w.log, now.id, request, why) && why.ByAbsence?
    requires RowSeen(now) in w.log
    ensures now.status != Validated
  {
    hide Inv, RowOk, ShapeOk, Older, NeverIncluded, AbsentFinding, SearchFinding, WasSpent, WasAbsent, FormNeverIncluded;
    SnapshotFacts(w, why.row);
    SnapshotFacts(w, now);
    var current := w.db.rows[now.id];
    AbsenceFacts(w, current, why.row, why.head, why.account);
    AbsentIsNotValidated(w, current);
    if now.status == Validated {
      TerminalStays(now, current);
    }
  }

  lemma AbsentIsNotValidated(w: World, r: Row)
    requires RowOk(w.chain, w.malformed, r) && HasPreparation(r) && HasSignature(r)
    requires NeverIncluded(w.chain, r.signedTxBlob.value)
    ensures r.status != Validated
  {
    hide ShapeOk, FormNeverIncluded, WasSpent, WasAbsent, Anchored;
  }

  lemma TerminalStays(a: Row, b: Row)
    requires Older(a, b) && a.status in TERMINAL
    ensures a.status == b.status
  {
  }

  /** All sightings of one intent carry the same signed bytes, and these strip to its prepared blob. */
  lemma SignedBytesAgree(w: World, a: Row, b: Row)
    requires Inv(w) && RowSeen(a) in w.log && RowSeen(b) in w.log && a.id == b.id
    requires a.signedTxBlob.Some? && b.signedTxBlob.Some?
    ensures a.signedTxBlob == b.signedTxBlob
    ensures a.preparedTxBlob.Some? && Strip(a.signedTxBlob.value) == a.preparedTxBlob
  {
    hide Inv, RowOk, ShapeOk, Older;
    SnapshotFacts(w, a);
    SnapshotFacts(w, b);
    SightingsAgree(a, b, w.db.rows[a.id]);
    SignatureStripsTo(a);
  }

  lemma SignatureStripsTo(r: Row)
    requires ShapeOk(r) && r.signedTxBlob.Some?
    ensures r.preparedTxBlob.Some? && Strip(r.signedTxBlob.value) == r.preparedTxBlob
  {
    hide PreparationOk, SimulationOk, Strip;
  }
}
