/**
 * What the submitted bytes say: from the intent a client created to the blob that was sent, the
 * prepared transaction is the one the builder makes of that intent, and nothing else.
 */
module Provenance {
  import opened Wrappers
  import opened IntentState
  import opened Transactions
  import opened Intents
  import opened Ledger
  import opened SignedBlobs
  import opened Decisions
  import opened Protocol
  import opened Invariant
  import opened Theorems

  function StoredParams(r: Row): Params
    requires HasPreparation(r)
  {
    Params(r.feeDrops.value, r.sequence.value, r.lastLedgerSequence.value, configuredNetworkId)
  }

  /** The stored transaction is built from the intent's own payload and its stored parameters. */
  predicate BuiltFromPayload(r: Row) {
    HasPreparation(r) ==> r.preparedTxJson.value == BuildTransaction(r.payload, StoredParams(r))
  }

  ghost predicate AllBuilt(rows: map<Id, Row>) {
    forall id | id in rows :: BuiltFromPayload(rows[id])
  }

  lemma PatchedStaysBuilt(r: Row, patch: Patch)
    requires BuiltFromPayload(r) && !patch.PreparedPatch?
    ensures BuiltFromPayload(Patched(r, patch))
  {
    hide BuildTransaction;
  }

  lemma OnlyPreparationPrepares(log: set<Observation>, id: Id, request: TransitionRequest, why: Why)
    requires Justified(log, id, request, why) && request.patch.PreparedPatch?
    ensures why.ByPreparation? && why.row.status == Created && RowSeen(why.row) in log && why.row.id == id
    ensures PreparationRequest(why.row, why.info, why.head, why.fee) == Some(request)
  {
    hide SearchOf, IsSignedForm, ToCanonicalForm, SimulationMatchesPrepared;
  }

  /** The payload a preparation was built from is the one still stored. */
  lemma PreparedIsBuilt(w: World, id: Id, request: TransitionRequest, why: Why)
    requires Inv(w) && Justified(w.log, id, request, why) && request.patch.PreparedPatch?
    ensures id in w.db.rows && BuiltFromPayload(Target(w.db.rows[id], request))
  {
    hide Inv, Justified, ShapeOk, RowOk, BuildTransaction, EncodeTransaction, ValidTransaction;
    OnlyPreparationPrepares(w.log, id, request, why);
    SnapshotFacts(w, why.row);
  }

  lemma ChangeKeepsBuilt(w: World, id: Id, request: TransitionRequest, why: Why)
    requires Inv(w) && AllBuilt(w.db.rows) && Justified(w.log, id, request, why)
    ensures AllBuilt(Transitioned(w.db, id, request).0.rows)
  {
    hide Inv, Justified, BuiltFromPayload, Patched, SlotTaken, HashTaken;
    JustifiedRowIsStored(w, id, request, why);
    if request.patch.PreparedPatch? {
      PreparedIsBuilt(w, id, request, why);
    } else {
      PatchedStaysBuilt(w.db.rows[id], request.patch);
      StatusIsNoColumn(Patched(w.db.rows[id], request.patch), request.to);
    }
  }

  lemma JustifiedRowIsStored(w: World, id: Id, request: TransitionRequest, why: Why)
    requires Inv(w) && Justified(w.log, id, request, why)
    ensures id in w.db.rows && w.db.rows[id].id == id
  {
    hide Inv, ShapeOk, RowOk, Older;
    SnapshotFacts(w, why.row);
    KeyOf(w, id);
  }

  lemma StatusIsNoColumn(r: Row, status: Status)
    requires BuiltFromPayload(r)
    ensures BuiltFromPayload(r.(status := status))
  {
    hide BuildTransaction;
  }

  lemma ActionKeepsBuilt(w: World, a: Action)
    requires Inv(w) && AllBuilt(w.db.rows)
    requires EndpointOk(w.chain, w.endpoint) && KeysUnique(w.db.rows) && Enabled(w, a)
    ensures AllBuilt(Apply(w, a).db.rows)
  {
    hide Inv, Justified, UpdateJustified, SendJustified, Honest, Follows, BuiltFromPayload, Patched, Transitioned, KeysUnique;
    match a
    case Change(id, request, why) => ChangeKeepsBuilt(w, id, request, why);
    case Update(id, statuses, patch, why) =>
      OnlyColumns(w.log, id, statuses, patch, why);
      if id in w.db.rows {
        PatchedStaysBuilt(w.db.rows[id], patch);
      }
    case Create(row) => NewRowIsBuilt(row.id, row.idempotencyKey, row.requestHash, row.networkId, row.createdAt, row.payload);
    case _ =>
  }

  lemma OnlyColumns(log: set<Observation>, id: Id, statuses: set<Status>, patch: Patch, why: UpdateWhy)
    requires UpdateJustified(log, id, statuses, patch, why)
    ensures !patch.PreparedPatch? && !patch.SignaturePatch?
  {
  }

  lemma NewRowIsBuilt(id: Id, key: string, requestHash: string, networkId: nat, createdAt: nat, payload: Payload)
    ensures BuiltFromPayload(NewRow(id, key, requestHash, networkId, createdAt, payload))
  {
  }

  lemma {:induction false} RunIsBuilt(run: seq<World>, i: nat)
    requires IsRun(run) && i < |run|
    ensures AllBuilt(run[i].db.rows)
  {
    hide Inv, Init, AllBuilt, Enabled, Apply, Grows;
    if i == 0 {
      StartIsBuilt(run[0]);
    } else {
      RunIsBuilt(run, i - 1);
      RunHasInv(run, i - 1, i - 1);
      assert Next(run[i - 1], run[i]);
      var a: Action :| Enabled(run[i - 1], a) && run[i] == Apply(run[i - 1], a);
      ActionKeepsBuilt(run[i - 1], a);
    }
  }

  lemma StartIsBuilt(w: World)
    requires Init(w)
    ensures AllBuilt(w.db.rows)
  {
  }

  /**
   * Every blob ever handed to a submit RPC decodes, once its signature fields are dropped, to the
   * serialization of the transaction the builder makes of the payload the client created the intent
   * with: at the stored Sequence, a fee of at most the cap, and the 20-ledger window.
   */
  lemma SentBlobsCarryThePayload(run: seq<World>, i: nat, id: Id, b: string)
    requires IsRun(run) && i < |run| && (id, b) in run[i].sent
    ensures id in run[i].db.rows && HasPreparation(run[i].db.rows[id])
    ensures var r := run[i].db.rows[id];
      && Strip(b).Some? && Strip(b) == EncodeTransaction(BuildTransaction(r.payload, StoredParams(r)))
      && BytesSay(Strip(b).value, r.payload, StoredParams(r))
      && r.lastLedgerSequence.value == r.preparedLedgerIndex.value + 20
      && 1 <= r.feeDrops.value <= 1000
  {
    hide Inv, IsRun, Strip, EncodeTransaction, BuildTransaction, TruthOk, SimulationMatchesPrepared, HeaderOf, BytesSay;
    SentBlobsAreThePreparedTransaction(run, i, id, b);
    RunHasInv(run, i, i);
    RowFact(run[i], id);
    RunIsBuilt(run, i);
    var r := run[i].db.rows[id];
    assert BuiltFromPayload(r);
    EncodedSays(r.payload, StoredParams(r));
  }

  /** The echo the ledger simulated is, apart from signature fields and hash, that same transaction. */
  lemma SimulatedEchoIsThePayload(run: seq<World>, i: nat, id: Id)
    requires IsRun(run) && i < |run| && id in run[i].db.rows && run[i].db.rows[id].simulationEngineResult.Some?
    ensures var r := run[i].db.rows[id];
      && HasPreparation(r) && r.simulationResult.Some? && r.simulationResult.value.txJson.Some?
      && ToCanonicalForm(BuildTransaction(r.payload, StoredParams(r))).Some?
      && EchoBytes(r.simulationResult.value.txJson.value)
         == xrpl.encode(ToCanonicalForm(BuildTransaction(r.payload, StoredParams(r))).value)
      && EchoSays(r.simulationResult.value.txJson.value, r.payload, StoredParams(r))
  {
    hide Inv, IsRun, TruthOk, PreparationOk, SignatureOk, BuildTransaction, ComparableEncoding, ToCanonicalForm, EchoBytes, EchoSays,
         SimulationMatchesPrepared;
    RunHasInv(run, i, i);
    RowFact(run[i], id);
    RunIsBuilt(run, i);
    var r := run[i].db.rows[id];
    assert BuiltFromPayload(r);
    MatchingEchoIsPrepared(r.payload, StoredParams(r), r.simulationResult.value.txJson);
    MatchingEchoSays(r.payload, StoredParams(r), r.simulationResult.value.txJson);
  }

  // ---- what every preparation and every signature was checked against ----------------------

  /** The prepared Sequence was read from a validated ledger. */
  ghost predicate PreparedFrom(log: set<Observation>, r: Row, info: AccountInfo)
    requires HasPreparation(r)
  {
    AccountSeen(r.sourceAccount, Some(info)) in log && info.sequence == r.sequence.value
  }

  /** The signing key was authorized, at the prepared Sequence, in a validated ledger of the window. */
  ghost predicate SignedUnder(log: set<Observation>, r: Row, info: AccountInfo, head: nat)
    requires HasPreparation(r) && HasSignature(r)
  {
    && AccountSeen(r.sourceAccount, Some(info)) in log && ReadHead(log, info, head)
    && head <= r.lastLedgerSequence.value && info.sequence == r.sequence.value
    && IsAuthorized(r.signingPubKey.value, r.sourceAccount, info)
  }

  ghost predicate EvidenceOk(log: set<Observation>, r: Row) {
    && (HasPreparation(r) ==> exists info: AccountInfo :: PreparedFrom(log, r, info))
    && (HasPreparation(r) && HasSignature(r) ==> exists info: AccountInfo, head: nat :: SignedUnder(log, r, info, head))
  }

  ghost predicate AllEvident(w: World) {
    forall id | id in w.db.rows :: EvidenceOk(w.log, w.db.rows[id])
  }

  /** Evidence is about columns that are written once, and the log never forgets. */
  lemma EvidenceStays(log: set<Observation>, later: set<Observation>, r: Row, r': Row)
    requires EvidenceOk(log, r) && log <= later
    requires r'.sourceAccount == r.sourceAccount && (HasPreparation(r') <==> HasPreparation(r)) && (HasSignature(r') <==> HasSignature(r))
    requires r'.sequence == r.sequence && r'.lastLedgerSequence == r.lastLedgerSequence && r'.signingPubKey == r.signingPubKey
    ensures EvidenceOk(later, r')
  {
    hide IsAuthorized, HasPreparation, HasSignature;
    if HasPreparation(r) {
      var info: AccountInfo :| PreparedFrom(log, r, info);
      assert PreparedFrom(later, r', info);
      if HasSignature(r) {
        var info: AccountInfo, head: nat :| SignedUnder(log, r, info, head);
        assert SignedUnder(later, r', info, head);
      }
    }
  }

  lemma PlainPatchKeepsColumns(r: Row, patch: Patch)
    requires !patch.PreparedPatch? && !patch.SignaturePatch?
    ensures var p := Patched(r, patch);
      && p.sourceAccount == r.sourceAccount && (HasPreparation(p) <==> HasPreparation(r)) && (HasSignature(p) <==> HasSignature(r))
      && p.sequence == r.sequence && p.lastLedgerSequence == r.lastLedgerSequence && p.signingPubKey == r.signingPubKey
  {
  }

  lemma PreparationIsEvident(w: World, id: Id, request: TransitionRequest, why: Why)
    requires Inv(w) && Justified(w.log, id, request, why) && request.patch.PreparedPatch?
    requires id in w.db.rows && w.db.rows[id].status in request.from
    ensures EvidenceOk(w.log, Target(w.db.rows[id], request))
  {
    hide Inv, ShapeOk, RowOk, BuildTransaction, EncodeTransaction, ValidTransaction, IsAuthorized;
    OnlyPreparationPrepares(w.log, id, request, why);
    SnapshotFacts(w, why.row);
    CreatedFact(why.row);
    CreatedIsBare(w, id);
    var r := Target(w.db.rows[id], request);
    assert PreparedFrom(w.log, r, why.info);
  }

  lemma CreatedFact(r: Row)
    requires ShapeOk(r)
    ensures r.sourceAccount == r.payload.account
  {
    hide PreparationOk, SimulationOk, SignatureOk;
  }

  lemma CreatedIsBare(w: World, id: Id)
    requires Inv(w) && id in w.db.rows && w.db.rows[id].status == Created
    ensures !HasSignature(w.db.rows[id])
  {
    hide Inv, PreparationOk, SimulationOk;
    RowFact(w, id);
  }

  lemma SigningIsEvident(w: World, id: Id, request: TransitionRequest, why: Why)
    requires Inv(w) && Justified(w.log, id, request, why) && request.patch.SignaturePatch?
    requires id in w.db.rows && EvidenceOk(w.log, w.db.rows[id])
    ensures EvidenceOk(w.log, Target(w.db.rows[id], request))
  {
    hide Inv, ShapeOk, RowOk, BuildTransaction, EncodeTransaction, ValidTransaction, IsAuthorized, IsSignedForm, SearchOf;
    OnlySigningSigns(w.log, id, request, why);
    SnapshotFacts(w, why.row);
    var cur, r := w.db.rows[id], Target(w.db.rows[id], request);
    var info: AccountInfo :| PreparedFrom(w.log, cur, info);
    assert PreparedFrom(w.log, r, info);
    assert SignedUnder(w.log, r, why.info, why.head);
  }

  lemma OnlySigningSigns(log: set<Observation>, id: Id, request: TransitionRequest, why: Why)
    requires Justified(log, id, request, why) && request.patch.SignaturePatch?
    ensures why.BySigning? && HasPreparation(why.row) && RowSeen(why.row) in log && why.row.id == id
    ensures request == SigningRequest(why.row, why.info, why.head, why.verified)
    ensures AccountSeen(why.row.sourceAccount, Some(why.info)) in log && ReadHead(log, why.info, why.head)
    ensures IsAuthorized(why.verified.signingPubKey, why.row.sourceAccount, why.info)
  {
    hide SearchOf, IsSignedForm, IsAuthorized, ToCanonicalForm, SimulationMatchesPrepared, BuildTransaction, EncodeTransaction, ValidTransaction;
  }

  lemma ChangeKeepsEvidence(w: World, id: Id, request: TransitionRequest, why: Why)
    requires Inv(w) && AllEvident(w) && Justified(w.log, id, request, why)
    ensures var db := Transitioned(w.db, id, request).0;
      forall i | i in db.rows :: EvidenceOk(w.log, db.rows[i])
  {
    hide Inv, Justified, EvidenceOk, Patched, SlotTaken, HashTaken, CanTransition, HasPreparation, HasSignature;
    if id in w.db.rows && w.db.rows[id].status in request.from {
      var cur := w.db.rows[id];
      if request.patch.PreparedPatch? {
        PreparationIsEvident(w, id, request, why);
      } else if request.patch.SignaturePatch? {
        SigningIsEvident(w, id, request, why);
      } else {
        PlainPatchKeepsColumns(cur, request.patch);
        EvidenceStays(w.log, w.log, cur, Patched(cur, request.patch));
        SameColumns(Patched(cur, request.patch), request.to);
        EvidenceStays(w.log, w.log, Patched(cur, request.patch), Target(cur, request));
      }
    }
  }

  lemma SameColumns(r: Row, status: Status)
    ensures var p := r.(status := status);
      && (HasPreparation(p) <==> HasPreparation(r)) && (HasSignature(p) <==> HasSignature(r))
  {
  }

  lemma ActionKeepsEvidence(w: World, a: Action)
    requires Inv(w) && AllEvident(w)
    requires EndpointOk(w.chain, w.endpoint) && KeysUnique(w.db.rows) && Enabled(w, a)
    ensures AllEvident(Apply(w, a))
  {
    hide Inv, Justified, UpdateJustified, SendJustified, Honest, Follows, EvidenceOk, Patched, Transitioned, KeysUnique, HasPreparation, HasSignature;
    var w' := Apply(w, a);
    match a
    case Change(id, request, why) =>
      ChangeKeepsEvidence(w, id, request, why);
      LaterLogKeepsEvidence(w'.db.rows, w.log, w'.log);
    case Update(id, statuses, patch, why) =>
      OnlyColumns(w.log, id, statuses, patch, why);
      forall i | i in w'.db.rows ensures EvidenceOk(w'.log, w'.db.rows[i]) {
        PlainPatchKeepsColumns(w.db.rows[i], patch);
        EvidenceStays(w.log, w'.log, w.db.rows[i], w'.db.rows[i]);
      }
    case Create(row) =>
      LaterLogKeepsEvidence(w.db.rows, w.log, w'.log);
      NewRowIsEvident(w'.log, row);
    case _ =>
      LaterLogKeepsEvidence(w.db.rows, w.log, w'.log);
  }

  lemma LaterLogKeepsEvidence(rows: map<Id, Row>, log: set<Observation>, later: set<Observation>)
    requires (forall id | id in rows :: EvidenceOk(log, rows[id])) && log <= later
    ensures forall id | id in rows :: EvidenceOk(later, rows[id])
  {
    hide EvidenceOk;
    forall id | id in rows ensures EvidenceOk(later, rows[id]) {
      EvidenceStays(log, later, rows[id], rows[id]);
    }
  }

  lemma NewRowIsEvident(log: set<Observation>, row: Row)
    requires row == NewRow(row.id, row.idempotencyKey, row.requestHash, configuredNetworkId, row.createdAt, row.payload)
    ensures EvidenceOk(log, row)
  {
  }

  lemma {:induction false} RunIsEvident(run: seq<World>, i: nat)
    requires IsRun(run) && i < |run|
    ensures AllEvident(run[i])
  {
    hide Inv, Init, AllEvident, Enabled, Apply, Grows;
    if i == 0 {
      StartIsEvident(run[0]);
    } else {
      RunIsEvident(run, i - 1);
      RunHasInv(run, i - 1, i - 1);
      assert Next(run[i - 1], run[i]);
      var a: Action :| Enabled(run[i - 1], a) && run[i] == Apply(run[i - 1], a);
      ActionKeepsEvidence(run[i - 1], a);
    }
  }

  lemma StartIsEvident(w: World)
    requires Init(w)
    ensures AllEvident(w)
  {
  }

  /**
   * Every stored signed blob carries one valid signature, by a key that was authorized for the
   * account, at the prepared Sequence, in a validated ledger inside the window.
   */
  lemma StoredSignaturesAreAuthorized(run: seq<World>, i: nat, id: Id)
    requires IsRun(run) && i < |run| && id in run[i].db.rows && HasSignature(run[i].db.rows[id])
    ensures var r := run[i].db.rows[id];
      && HasPreparation(r)
      && IsSignedForm(VerifiedBlob(r.signedTxBlob.value, r.transactionHash.value, r.signingPubKey.value), r.preparedTxBlob.value)
      && exists info: AccountInfo, head: nat ::
           && SignedUnder(run[i].log, r, info, head) && MaySign(r.signingPubKey.value, r.sourceAccount, info)
           && 1 <= head <= |run[i].chain| && AccountAt(run[i].chain, head, r.sourceAccount) == Some(r.sequence.value)
  {
    hide Inv, IsRun, TruthOk, PreparationOk, SimulationOk, IsSignedForm, IsAuthorized, MaySign;
    RunHasInv(run, i, i);
    RowFact(run[i], id);
    RunIsEvident(run, i);
    var r := run[i].db.rows[id];
    assert EvidenceOk(run[i].log, r);
    var info: AccountInfo, head: nat :| SignedUnder(run[i].log, r, info, head);
    LogFact(run[i], AccountSeen(r.sourceAccount, Some(info)));
    AuthorizedExactlyWhen(r.signingPubKey.value, r.sourceAccount, info);
    assert SignedUnder(run[i].log, r, info, head);
  }

  /**
   * Signing concludes a Sequence regression exactly when its endpoint lags behind the ledger the
   * preparation read and the account's Sequence rose in between.
   */
  lemma SigningRegressesExactlyWhenBehind(run: seq<World>, i: nat, row: Row, prep: AccountInfo, info: AccountInfo, head: nat, v: VerifiedBlob)
    requires IsRun(run) && i < |run| && RowSeen(row) in run[i].log && HasPreparation(row)
    requires PreparedFrom(run[i].log, row, prep)
    requires AccountSeen(row.sourceAccount, Some(info)) in run[i].log && ReadHead(run[i].log, info, head)
    ensures prep.ledgerIndex.Some? && info.ledgerIndex.Some?
    ensures var (p, q, chain) := (prep.ledgerIndex.value, info.ledgerIndex.value, run[i].chain);
      && 1 <= p <= |chain| && 1 <= q <= |chain|
      && (SigningRequest(row, info, head, v).reason == SequenceRegression <==>
            && head <= row.lastLedgerSequence.value && q < p
            && SequenceAt(chain, q, row.sourceAccount) < SequenceAt(chain, p, row.sourceAccount))
  {
    hide Inv, IsRun, ChainOk;
    RunHasInv(run, i, i);
    LogFact(run[i], AccountSeen(row.sourceAccount, Some(prep)));
    LogFact(run[i], AccountSeen(row.sourceAccount, Some(info)));
    ChainFact(run[i]);
    if prep.ledgerIndex.value <= info.ledgerIndex.value {
      SequencesNeverFall(run[i].chain, prep.ledgerIndex.value, info.ledgerIndex.value, row.sourceAccount);
    }
  }
}
