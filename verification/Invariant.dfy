/** The invariant is inductive: every action of the machine keeps it and only adds to history. */
module Invariant {
  import opened Wrappers
  import opened IntentState
  import opened Transactions
  import opened Intents
  import opened Ledger
  import opened SignedBlobs
  import opened Decisions
  import opened Protocol

  /** `w'` lies in the future of `w`. */
  ghost predicate Grows(w: World, w': World) {
    && w.chain <= w'.chain
    && w.log <= w'.log && w.sent <= w'.sent && w.recorded <= w'.recorded
    && w'.malformed == w.malformed
    && forall id | id in w.db.rows :: id in w'.db.rows && Older(w.db.rows[id], w'.db.rows[id])
  }

  lemma GrowsIsTransitive(a: World, b: World, c: World)
    requires Grows(a, b) && Grows(b, c)
    ensures Grows(a, c)
  {
    forall id | id in a.db.rows ensures id in c.db.rows && Older(a.db.rows[id], c.db.rows[id]) {
      OlderIsTransitive(a.db.rows[id], b.db.rows[id], c.db.rows[id]);
    }
  }

  // ---- facts are stable --------------------------------------------------------------------

  lemma SearchFactIsStable(before: Chain, after: Chain, hash: string, min: nat, max: nat, s: TxSearch)
    requires before <= after
    requires SearchFact(before, hash, min, max, s)
    ensures SearchFact(after, hash, min, max, s)
  {
    match s
    case NotFound(all) =>
      if all {
        forall i, b | min <= i <= max && IncludedAt(after, i, b) ensures TransactionHash(b) != hash {
          assert IncludedAt(before, i, b);
        }
      }
    case Found(lookup) =>
      if lookup.validated {
        var index, result := lookup.ledgerIndex.value, lookup.transactionResult.value;
        var b :| IncludedAt(before, index, b) && TransactionHash(b) == hash && before[index - 1].txs[b] == result;
        assert IncludedAt(after, index, b);
      }
  }

  lemma AbsenceStays(chain: Chain, later: Chain, account: string)
    requires chain <= later && WasAbsent(chain, account)
    ensures WasAbsent(later, account)
  {
    var q :| 1 <= q <= |chain| && AccountAt(chain, q, account).None?;
    assert AccountAt(later, q, account).None?;
  }

  lemma SpendingStays(chain: Chain, later: Chain, account: string, sequence: nat, last: nat)
    requires chain <= later && WasSpent(chain, account, sequence, last)
    ensures WasSpent(later, account, sequence, last)
  {
    var q :| last < q <= |chain| && q >= 1 && AccountAt(chain, q, account).Some? && AccountAt(chain, q, account).value > sequence;
    assert AccountAt(later, q, account) == AccountAt(chain, q, account);
  }

  lemma BaselineStays(w: World, w': World, id: Id)
    requires Grows(w, w') && RowsOk(w) && Fact(w, BaselineWritten(id))
    ensures Fact(w', BaselineWritten(id))
  {
    hide PreparationOk, SimulationOk, SignatureOk, TruthOk;
    assert Older(w.db.rows[id], w'.db.rows[id]) && RowOk(w.chain, w.malformed, w.db.rows[id]);
  }

  lemma FactIsStable(w: World, w': World, o: Observation)
    requires Grows(w, w') && RowsOk(w)
    requires Fact(w, o)
    ensures Fact(w', o)
  {
    hide ShapeOk, RowOk, Older, SearchFact, WasAbsent;
    match o
    case RowSeen(row) => OlderIsTransitive(row, w.db.rows[row.id], w'.db.rows[row.id]);
    case Searched(hash, min, max, search) => SearchFactIsStable(w.chain, w'.chain, hash, min, max, search);
    case AccountSeen(account, info) =>
      if info.None? {
        AbsenceStays(w.chain, w'.chain, account);
      }
    case BaselineWritten(id) => BaselineStays(w, w', id);
    case _ =>
  }

  // ---- what honest reads establish ---------------------------------------------------------

  lemma HonestReadIsFact(w: World, o: Observation)
    requires Inv(w) && Honest(w, o)
    ensures Fact(w, o)
  {
    hide HonestSearch, SearchFact, ShapeOk, TruthOk;
    match o
    case RowSeen(row) => assert RowOk(w.chain, w.malformed, row);
    case Searched(hash, min, max, search) => HonestSearchIsFact(w.chain, w.endpoint, hash, min, max, search);
    case _ =>
  }

  lemma HonestSearchIsFact(chain: Chain, e: Endpoint, hash: string, min: nat, max: nat, search: TxSearch)
    requires EndpointOk(chain, e) && min >= 1 && HonestSearch(chain, e, hash, min, max, search)
    ensures SearchFact(chain, hash, min, max, search)
  {
    match search
    case NotFound(all) =>
      if all {
        CompleteMissIsAbsence(chain, e, hash, min, max);
      }
    case Found(lookup) =>
      if lookup.validated {
        var i := lookup.ledgerIndex.value;
        var b :| b in chain[i - 1].txs && TransactionHash(b) == hash && chain[i - 1].txs[b] == lookup.transactionResult.value;
        assert IncludedAt(chain, i, b);
      }
  }

  // ---- every justified status change is legal, true and explained --------------------------

  lemma ChainFact(w: World)
    requires Inv(w)
    ensures ChainOk(w.chain) && CleanOk(w.chain, w.malformed) && RecentOk(w.chain)
  {
  }

  lemma LogFact(w: World, o: Observation)
    requires Inv(w) && o in w.log
    ensures Fact(w, o)
  {
  }

  /** The snapshot a call acts on, compared with the row it is about to change. */
  lemma SnapshotFacts(w: World, row: Row)
    requires Inv(w) && RowSeen(row) in w.log
    ensures row.id in w.db.rows && ShapeOk(row) && Older(row, w.db.rows[row.id])
    ensures RowOk(w.chain, w.malformed, w.db.rows[row.id])
  {
    LogFact(w, RowSeen(row));
  }

  /** `request` takes the current row to a row that satisfies everything the invariant says of rows. */
  ghost predicate Sound(w: World, cur: Row, request: TransitionRequest) {
    var r := Target(cur, request);
    && CanTransition(cur.status, request.to)
    && Older(cur, r)
    && RowOk(w.chain, w.malformed, r)
    && ReasonFits(request.reason, r)
  }

  lemma PreparationIsSound(w: World, cur: Row, request: TransitionRequest, row: Row, info: AccountInfo, head: nat, fee: nat)
    requires Inv(w) && cur.id in w.db.rows && w.db.rows[cur.id] == cur && cur.status in request.from
    requires Justified(w.log, cur.id, request, ByPreparation(row, info, head, fee))
    ensures Sound(w, cur, request)
  {
    hide BuildTransaction, EncodeTransaction, ComparableEncoding, ToCanonicalForm, ValidTransaction, Strip, TransactionHash, HeaderOf, Upper, ChainOk, Inv;
    SnapshotFacts(w, row);
    LogFact(w, LedgerSeen(head));
    BuiltHeader(row.payload, Params(fee, info.sequence, LastLedgerSequenceFor(head), configuredNetworkId));
  }

  lemma WindowIsSound(w: World, cur: Row, request: TransitionRequest, row: Row, head: nat)
    requires Inv(w) && cur.id in w.db.rows && w.db.rows[cur.id] == cur && cur.status in request.from
    requires Justified(w.log, cur.id, request, ByWindow(row, head))
    ensures Sound(w, cur, request)
  {
    hide Inv, RowOk, ShapeOk, Sound, Older;
    SnapshotFacts(w, row);
    RefusalIsSound(w, cur, request);
  }

  lemma SimulationIsSound(w: World, cur: Row, request: TransitionRequest, row: Row, raw: SimulationRaw)
    requires Inv(w) && cur.id in w.db.rows && w.db.rows[cur.id] == cur && cur.status in request.from
    requires Justified(w.log, cur.id, request, BySimulation(row, raw))
    ensures Sound(w, cur, request)
  {
    hide BuildTransaction, EncodeTransaction, ComparableEncoding, ToCanonicalForm, ValidTransaction, Strip, TransactionHash, HeaderOf, Upper, ChainOk, Inv;
    SnapshotFacts(w, row);
  }

  lemma CompletionIsSound(w: World, cur: Row, request: TransitionRequest, row: Row)
    requires Inv(w) && cur.id in w.db.rows && w.db.rows[cur.id] == cur && cur.status in request.from
    requires Justified(w.log, cur.id, request, ByCompletion(row))
    ensures Sound(w, cur, request)
  {
    hide BuildTransaction, EncodeTransaction, ComparableEncoding, ToCanonicalForm, ValidTransaction, Strip, TransactionHash, HeaderOf, Upper, ChainOk, Inv;
    SnapshotFacts(w, row);
  }

  lemma SigningIsSound(w: World, cur: Row, request: TransitionRequest, row: Row, info: AccountInfo, head: nat, v: VerifiedBlob)
    requires Inv(w) && cur.id in w.db.rows && w.db.rows[cur.id] == cur && cur.status in request.from
    requires Justified(w.log, cur.id, request, BySigning(row, info, head, v))
    ensures Sound(w, cur, request)
  {
    hide Inv, RowOk, ShapeOk, Sound, IsSignedForm, IsAuthorized;
    SnapshotFacts(w, row);
    LogFact(w, AccountSeen(row.sourceAccount, Some(info)));
    assert 1 <= head <= |w.chain| && AccountAt(w.chain, head, cur.sourceAccount) == Some(info.sequence);
    if request.to == Signed {
      AcceptanceIsSound(w, cur, head, v);
    } else {
      RefusalIsSound(w, cur, request);
    }
  }

  lemma RefusalIsSound(w: World, cur: Row, request: TransitionRequest)
    requires RowOk(w.chain, w.malformed, cur) && cur.status in UNSIGNED_ACTIVE
    requires (request.to == Expired && request.reason == SignatureWindowExpired && request.patch == NoPatch)
             || (request.to == Failed && request.patch == FailurePatch(request.reason))
    ensures Sound(w, cur, request)
  {
    hide Anchored, NeverIncluded, FormNeverIncluded, OutcomeOnChain, SimulationMatchesPrepared, EncodeTransaction, HeaderOf, IsSignedForm;
  }

  lemma AcceptanceIsSound(w: World, cur: Row, head: nat, v: VerifiedBlob)
    requires RowOk(w.chain, w.malformed, cur) && cur.status == AwaitingSignature
    requires IsSignedForm(v, cur.preparedTxBlob.value)
    requires 1 <= head <= |w.chain| && head <= cur.lastLedgerSequence.value
    requires AccountAt(w.chain, head, cur.sourceAccount) == Some(cur.sequence.value)
    ensures Sound(w, cur, TransitionRequest({AwaitingSignature}, Signed, SignatureAccepted,
                                            SignaturePatch(v.txBlob, v.transactionHash, v.signingPubKey)))
  {
    hide BuildTransaction, EncodeTransaction, ComparableEncoding, ToCanonicalForm, ValidTransaction, Strip, TransactionHash, HeaderOf, Upper, ChainOk, Inv;
    assert Anchored(w.chain, cur.sourceAccount, cur.sequence.value, cur.lastLedgerSequence.value);
  }

  lemma SubmissionIsSound(w: World, cur: Row, request: TransitionRequest, row: Row, engineResult: string, rpc: nat)
    requires Inv(w) && cur.id in w.db.rows && w.db.rows[cur.id] == cur && cur.status in request.from
    requires Justified(w.log, cur.id, request, BySubmission(row, engineResult, rpc))
    ensures Sound(w, cur, request)
  {
    hide Inv, RowOk, ShapeOk, Sound;
    SnapshotFacts(w, row);
    LogFact(w, SubmitAnswered(rpc, cur.id, row.signedTxBlob.value, engineResult));
    if row.submissionValidatedLedger.None? {
      LogFact(w, BaselineWritten(cur.id));
    }
    AnswerIsSound(w, cur, engineResult);
  }

  /** The first answer: a baseline is stored, and only a malformed blob is called malformed. */
  lemma AnswerIsSound(w: World, cur: Row, engineResult: string)
    requires RowOk(w.chain, w.malformed, cur) && cur.status == Signed && cur.submissionValidatedLedger.Some?
    requires IsMalformedResult(engineResult) ==> cur.signedTxBlob.Some? && cur.signedTxBlob.value in w.malformed
    ensures Sound(w, cur, SubmitRequest(engineResult))
  {
    hide Anchored, NeverIncluded, FormNeverIncluded, OutcomeOnChain, SimulationMatchesPrepared, EncodeTransaction, HeaderOf,
         IsSignedForm;
  }

  /** A blob found under a stored hash is the stored blob, inside its window, with a final result. */
  lemma HitIsTheStoredBlob(w: World, cur: Row, index: nat, result: string)
    requires ChainOk(w.chain) && RecentOk(w.chain) && ShapeOk(cur) && HasPreparation(cur) && HasSignature(cur)
    requires HitAt(w.chain, index, cur.transactionHash.value, result)
    ensures IncludedAt(w.chain, index, cur.signedTxBlob.value)
    ensures w.chain[index - 1].txs[cur.signedTxBlob.value] == result
    ensures cur.preparedLedgerIndex.value < index <= cur.lastLedgerSequence.value
    ensures IsFinalResult(result)
  {
    var b :| IncludedAt(w.chain, index, b) && TransactionHash(b) == cur.transactionHash.value
             && w.chain[index - 1].txs[b] == result;
    InclusionFacts(w.chain, index, b);
    HashIdentifiesBlob(b, cur.signedTxBlob.value);
  }

  lemma HashIsUpper(b: string)
    ensures Upper(TransactionHash(b)) == TransactionHash(b)
  {
    UpperTwice(xrpl.hashSignedTx(b));
  }

  lemma SearchIsSound(w: World, cur: Row, request: TransitionRequest, row: Row, head: nat, search: TxSearch)
    requires Inv(w) && cur.id in w.db.rows && w.db.rows[cur.id] == cur && cur.status in request.from
    requires Justified(w.log, cur.id, request, BySearch(row, head, search))
    ensures Sound(w, cur, request)
    ensures request.to == Validated
  {
    hide Inv, RowOk, Sound, TruthOk, IncludedAt, HitAt, ChainOk, RecentOk, Upper, TransactionHash, IsSignedForm,
         ShapeOk;
    ChainFact(w);
    SnapshotFacts(w, row);
    LogFact(w, SearchOf(row, search));
    RowShape(w, cur);
    var lookup := search.lookup;
    HitIsTheStoredBlob(w, cur, lookup.ledgerIndex.value, lookup.transactionResult.value);
    HashOfShape(row);
    InclusionIsSound(w, cur, lookup.transactionResult.value, lookup.ledgerIndex.value);
  }

  lemma HashOfShape(r: Row)
    requires ShapeOk(r) && HasSignature(r)
    ensures Upper(r.transactionHash.value) == r.transactionHash.value
  {
    hide Upper, PreparationOk, SimulationOk, Strip, CarriesSignature;
    HashIsUpper(r.signedTxBlob.value);
  }

  /** A terminal status of a signed intent keeps everything but the truth of the outcome in order. */
  lemma ConclusionFits(cur: Row, request: TransitionRequest)
    requires ShapeOk(cur) && cur.status in SIGNED_ACTIVE
    requires match request.to
      case Validated => request.patch.FinalPatch?
      case Failed => request.patch == FailurePatch(request.reason)
      case Expired => request.patch == NoPatch && request.reason == LastLedgerSequenceExpired
      case _ => false
    ensures var r := Target(cur, request);
      CanTransition(cur.status, request.to) && Older(cur, r) && ShapeOk(r) && ReasonFits(request.reason, r)
  {
    hide IsSignedForm, EncodeTransaction, SimulationMatchesPrepared, HeaderOf;
  }

  lemma InclusionIsSound(w: World, cur: Row, result: string, index: nat)
    requires RowOk(w.chain, w.malformed, cur) && cur.status in SIGNED_ACTIVE
    requires HasPreparation(cur) && HasSignature(cur)
    requires cur.preparedLedgerIndex.value < index <= cur.lastLedgerSequence.value
    requires IncludedAt(w.chain, index, cur.signedTxBlob.value)
    requires w.chain[index - 1].txs[cur.signedTxBlob.value] == result
    ensures Sound(w, cur, TransitionRequest(SIGNED_ACTIVE, Validated, TransactionValidated, FinalPatch(result, index)))
  {
    hide ShapeOk, Anchored, NeverIncluded, FormNeverIncluded, WasSpent, WasAbsent, Older, ReasonFits;
    ConclusionFits(cur, TransitionRequest(SIGNED_ACTIVE, Validated, TransactionValidated, FinalPatch(result, index)));
  }

  /** Absence proven and the window closed: only the account Sequence still has to be judged. */
  lemma AbsenceFacts(w: World, cur: Row, row: Row, head: nat, account: Option<AccountInfo>)
    requires Inv(w) && cur.id in w.db.rows && w.db.rows[cur.id] == cur && row.id == cur.id
    requires RowSeen(row) in w.log && HasPreparation(row) && HasSignature(row)
    requires SearchOf(row, NotFound(true)) in w.log && AccountSeen(row.sourceAccount, account) in w.log
    ensures account.None? ==> WasAbsent(w.chain, cur.sourceAccount)
    ensures RowOk(w.chain, w.malformed, cur) && HasPreparation(cur) && HasSignature(cur)
    ensures cur.sequence == row.sequence && cur.lastLedgerSequence == row.lastLedgerSequence
    ensures cur.lastLedgerSequence.value <= |w.chain| && NeverIncluded(w.chain, cur.signedTxBlob.value)
    ensures account.Some? && account.value.ledgerIndex.GetOr(0) > row.lastLedgerSequence.value ==>
      && account.value.sequence >= row.sequence.value
      && (account.value.sequence > row.sequence.value ==>
            WasSpent(w.chain, cur.sourceAccount, cur.sequence.value, cur.lastLedgerSequence.value))
      && (account.value.sequence == row.sequence.value ==> FormNeverIncluded(w.chain, cur.preparedTxBlob.value))
  {
    hide BuildTransaction, EncodeTransaction, ComparableEncoding, SimulationMatchesPrepared, ToCanonicalForm, ValidTransaction,
         Strip, TransactionHash, HeaderOf, Upper, ChainOk, Inv, TruthOk;
    ChainFact(w);
    SnapshotFacts(w, row);
    LogFact(w, SearchOf(row, NotFound(true)));
    LogFact(w, AccountSeen(row.sourceAccount, account));
    AbsentInWindowIsNeverIncluded(w.chain, cur.signedTxBlob.value, cur.lastLedgerSequence.value);
    if account.Some? && account.value.ledgerIndex.GetOr(0) > row.lastLedgerSequence.value {
      SequenceDoesNotRegress(w, cur, account.value);
      if account.value.sequence == row.sequence.value {
        UnspentFormIsNeverIncluded(w.chain, cur.preparedTxBlob.value,
          Header(cur.sourceAccount, cur.sequence.value, cur.lastLedgerSequence.value), account.value.ledgerIndex.value);
      } else {
        assert AccountAt(w.chain, account.value.ledgerIndex.value, cur.sourceAccount) == Some(account.value.sequence);
      }
    }
  }

  lemma ReleaseIsSound(w: World, cur: Row, request: TransitionRequest)
    requires RowOk(w.chain, w.malformed, cur) && cur.status in SIGNED_ACTIVE
    requires HasPreparation(cur) && HasSignature(cur)
    requires cur.lastLedgerSequence.value <= |w.chain| && NeverIncluded(w.chain, cur.signedTxBlob.value)
    requires (request == FailureRequest(SequenceConflict)
              && (WasSpent(w.chain, cur.sourceAccount, cur.sequence.value, cur.lastLedgerSequence.value)
                  || WasAbsent(w.chain, cur.sourceAccount)))
             || (request == TransitionRequest(SIGNED_ACTIVE, Expired, LastLedgerSequenceExpired, NoPatch)
                 && FormNeverIncluded(w.chain, cur.preparedTxBlob.value))
    ensures Sound(w, cur, request)
  {
    hide ShapeOk, Anchored, NeverIncluded, FormNeverIncluded, WasSpent, WasAbsent, Older, ReasonFits;
    ConclusionFits(cur, request);
  }

  lemma AbsenceIsSound(w: World, cur: Row, request: TransitionRequest, row: Row, head: nat, account: Option<AccountInfo>)
    requires Inv(w) && cur.id in w.db.rows && w.db.rows[cur.id] == cur && cur.status in request.from
    requires Justified(w.log, cur.id, request, ByAbsence(row, head, account))
    ensures Sound(w, cur, request)
    ensures request.reason in {SequenceConflict, LastLedgerSequenceExpired}
  {
    hide Inv, RowOk, NeverIncluded, FormNeverIncluded, WasSpent, WasAbsent, Sound;
    AbsenceFacts(w, cur, row, head, account);
    ReleaseIsSound(w, cur, request);
  }

  /** The Sequence check at signing anchors every later validated read of the account. */
  lemma SequenceDoesNotRegress(w: World, cur: Row, info: AccountInfo)
    requires Inv(w) && RowOk(w.chain, w.malformed, cur) && HasPreparation(cur) && HasSignature(cur)
    requires Fact(w, AccountSeen(cur.sourceAccount, Some(info)))
    requires info.ledgerIndex.value > cur.lastLedgerSequence.value
    ensures info.sequence >= cur.sequence.value
  {
    var j :| 1 <= j <= cur.lastLedgerSequence.value && j <= |w.chain|
             && AccountAt(w.chain, j, cur.sourceAccount) == Some(cur.sequence.value);
    SequencesNeverFall(w.chain, j, info.ledgerIndex.value, cur.sourceAccount);
  }

  lemma JustifiedIsSound(w: World, cur: Row, request: TransitionRequest, why: Why)
    requires Inv(w) && cur.id in w.db.rows && w.db.rows[cur.id] == cur && cur.status in request.from
    requires Justified(w.log, cur.id, request, why)
    ensures Sound(w, cur, request)
  {
    match why
    case ByPreparation(row, info, head, fee) => PreparationIsSound(w, cur, request, row, info, head, fee);
    case ByWindow(row, head) => WindowIsSound(w, cur, request, row, head);
    case BySimulation(row, raw) => SimulationIsSound(w, cur, request, row, raw);
    case ByCompletion(row) => CompletionIsSound(w, cur, request, row);
    case BySigning(row, info, head, verified) => SigningIsSound(w, cur, request, row, info, head, verified);
    case BySubmission(row, engineResult, rpc) => SubmissionIsSound(w, cur, request, row, engineResult, rpc);
    case BySearch(row, head, search) => SearchIsSound(w, cur, request, row, head, search);
    case ByAbsence(row, head, account) => AbsenceIsSound(w, cur, request, row, head, account);
  }

  // ---- every action keeps the invariant ----------------------------------------------------

  /** Rows only aged: old facts still hold, so the log is sound once its new entries are. */
  lemma LogStaysOk(w: World, w': World)
    requires Inv(w) && Grows(w, w')
    requires forall o | o in w'.log && o !in w.log :: Fact(w', o)
    ensures LogOk(w')
  {
    hide Fact;
    forall o | o in w'.log ensures Fact(w', o) {
      if o in w.log {
        LogFact(w, o);
        FactIsStable(w, w', o);
      }
    }
  }

  lemma SentStaysOk(w: World, w': World)
    requires Inv(w) && Grows(w, w') && w'.sent == w.sent
    ensures SentOk(w')
  {
    forall id, b | (id, b) in w'.sent ensures id in w'.db.rows && w'.db.rows[id].signedTxBlob == Some(b) {
      assert Older(w.db.rows[id], w'.db.rows[id]);
    }
  }

  lemma ObserveKeepsInv(w: World, o: Observation)
    requires Inv(w) && Enabled(w, Observe(o))
    ensures Inv(Apply(w, Observe(o))) && Grows(w, Apply(w, Observe(o)))
  {
    HonestReadIsFact(w, o);
    LoggingKeepsInv(w, w.(log := w.log + {o}), o);
  }

  lemma LoggingKeepsInv(w: World, w': World, o: Observation)
    requires Inv(w) && Fact(w, o) && w' == w.(log := w.log + {o})
    ensures Inv(w') && Grows(w, w')
  {
    hide Fact, RowOk, TrailOk, ChainOk, Constraints, Older;
    OlderIsReflexive(w);
    FactIsStable(w, w', o);
    LogStaysOk(w, w');
  }

  lemma MoveKeepsInv(w: World, e: Endpoint)
    requires Inv(w) && Enabled(w, MoveEndpoint(e))
    ensures Inv(Apply(w, MoveEndpoint(e))) && Grows(w, Apply(w, MoveEndpoint(e)))
  {
    hide Fact, RowOk, TrailOk, ChainOk, Constraints, Older;
    AccessFacts(w);
    OlderIsReflexive(w);
    LogStaysOk(w, Apply(w, MoveEndpoint(e)));
  }

  lemma SendKeepsInv(w: World, row: Row, head: nat)
    requires Inv(w) && Enabled(w, Send(row, head))
    ensures Inv(Apply(w, Send(row, head))) && Grows(w, Apply(w, Send(row, head)))
  {
    hide Fact, RowOk, ShapeOk, TrailOk, ChainOk;
    SnapshotFacts(w, row);
    OlderIsReflexive(w);
    LogStaysOk(w, Apply(w, Send(row, head)));
  }

  lemma NewBlobsAreAdmissible(chain: Chain, version: Version, b: string)
    requires |chain| >= 1 && Follows(chain[|chain| - 1], version, |chain| + 1)
    ensures b in version.txs ==> SignedHeader(b).Some? && |chain| < SignedHeader(b).value.lastLedger
  {
  }

  /** The stored blobs name the stored account, Sequence and LastLedgerSequence. */
  lemma BlobFact(r: Row)
    requires ShapeOk(r)
    ensures HasPreparation(r) ==>
      HeaderOf(r.preparedTxBlob.value) == Some(Header(r.sourceAccount, r.sequence.value, r.lastLedgerSequence.value))
    ensures HasSignature(r) ==>
      && HasPreparation(r) && r.signedTxBlob.value == Upper(r.signedTxBlob.value)
      && Strip(r.signedTxBlob.value) == r.preparedTxBlob
      && SignedHeader(r.signedTxBlob.value) == HeaderOf(r.preparedTxBlob.value)
  {
    hide EncodeTransaction, HeaderOf, SimulationOk, CarriesSignature, Upper, Strip;
  }

  /** A new ledger cannot contradict a stored outcome: dead blobs stay out of it. */
  lemma TruthSurvivesLedger(w: World, version: Version, r: Row)
    requires Inv(w) && Enabled(w, CloseLedger(version)) && RowOk(w.chain, w.malformed, r)
    ensures RowOk(w.chain + [version], w.malformed, r)
  {
    hide Inv, ShapeOk, HeaderOf, SignedHeader, ChainOk, CleanOk, Strip, WasSpent, WasAbsent;
    BlobFact(r);
    var chain := w.chain + [version];
    if HasPreparation(r) && HasSignature(r) {
      var account, sequence, last := r.sourceAccount, r.sequence.value, r.lastLedgerSequence.value;
      var j :| 1 <= j <= last && j <= |w.chain| && AccountAt(w.chain, j, account) == Some(sequence);
      assert AccountAt(chain, j, account) == Some(sequence);
      if r.status in {Expired, Failed} {
        var b := r.signedTxBlob.value;
        NewBlobsAreAdmissible(w.chain, version, b);
        forall i | 1 <= i <= |chain| ensures !IncludedAt(chain, i, b) {
          if i <= |w.chain| {
            assert !IncludedAt(w.chain, i, b);
          }
        }
      }
      if r.status == Failed {
        if WasAbsent(w.chain, account) {
          AbsenceStays(w.chain, chain, account);
        } else {
          SpendingStays(w.chain, chain, account, sequence, last);
        }
      }
      if r.status == Expired {
        FormStaysOut(w.chain, version, r.preparedTxBlob.value, Header(account, sequence, last));
      }
    }
  }

  lemma ChainExtends(chain: Chain, version: Version)
    requires ChainOk(chain) && Follows(chain[|chain| - 1], version, |chain| + 1)
    ensures ChainOk(chain + [version])
  {
    var longer := chain + [version];
    forall i | 2 <= i <= |longer| ensures LinkOk(longer, i) {
      if i <= |chain| {
        assert LinkOk(chain, i);
      }
    }
  }

  lemma StaysClean(w: World, version: Version)
    requires CleanOk(w.chain, w.malformed) && forall b | b in version.txs :: b !in w.malformed
    ensures CleanOk(w.chain + [version], w.malformed)
  {
    var chain := w.chain + [version];
    forall i: nat, b | IncludedAt(chain, i, b) ensures b !in w.malformed {
      if i <= |w.chain| {
        assert IncludedAt(w.chain, i, b);
      }
    }
  }

  /** A blob enters only after its transaction was prepared, so its window has at most 20 ledgers left. */
  lemma EntersItsWindow(w: World, b: string)
    requires Inv(w) && MayInclude(w, b)
    ensures SignedHeader(b).Some? && SignedHeader(b).value.lastLedger <= |w.chain| + LAST_LEDGER_OFFSET
  {
    hide Inv;
    var id :| id in w.db.rows && w.db.rows[id].preparedTxBlob.Some? && Strip(b) == w.db.rows[id].preparedTxBlob;
    PreparedHeader(w, id);
  }

  lemma PreparedHeader(w: World, id: Id)
    requires Inv(w) && id in w.db.rows && w.db.rows[id].preparedTxBlob.Some?
    ensures var r := w.db.rows[id];
      && HasPreparation(r) && r.lastLedgerSequence.value <= |w.chain| + LAST_LEDGER_OFFSET
      && HeaderOf(r.preparedTxBlob.value) == Some(Header(r.sourceAccount, r.sequence.value, r.lastLedgerSequence.value))
  {
    hide HeaderOf, EncodeTransaction, SimulationOk, SignatureOk;
    assert RowOk(w.chain, w.malformed, w.db.rows[id]);
  }

  lemma StaysRecent(w: World, version: Version)
    requires Inv(w) && forall b | b in version.txs :: MayInclude(w, b)
    ensures RecentOk(w.chain + [version])
  {
    hide Inv, MayInclude;
    ChainFact(w);
    var chain := w.chain + [version];
    forall i: nat, b | IncludedAt(chain, i, b)
      ensures SignedHeader(b).Some? && SignedHeader(b).value.lastLedger < i + LAST_LEDGER_OFFSET
    {
      if i <= |w.chain| {
        assert IncludedAt(w.chain, i, b);
      } else {
        EntersItsWindow(w, b);
      }
    }
  }

  lemma CloseKeepsInv(w: World, version: Version)
    requires Inv(w) && Enabled(w, CloseLedger(version))
    ensures Inv(Apply(w, CloseLedger(version))) && Grows(w, Apply(w, CloseLedger(version)))
  {
    hide Follows, RowOk, Fact, TrailOk, Older;
    var w' := Apply(w, CloseLedger(version));
    ChainExtends(w.chain, version);
    StaysClean(w, version);
    StaysRecent(w, version);
    forall id | id in w.db.rows ensures RowOk(w'.chain, w'.malformed, w.db.rows[id]) {
      TruthSurvivesLedger(w, version, w.db.rows[id]);
    }
    RowsStandStill(w, w');
    LogStaysOk(w, w');
    SentStaysOk(w, w');
  }

  lemma RowsStandStill(w: World, w': World)
    requires w'.db.rows == w.db.rows && w.chain <= w'.chain && w.log <= w'.log && w.sent <= w'.sent
    requires w'.malformed == w.malformed && w.recorded <= w'.recorded
    ensures Grows(w, w')
  {
  }

  /** The table after one row was replaced by a sound successor, with its audit row if the status moved. */
  ghost predicate RowReplaced(w: World, w': World, r: Row, entry: seq<AuditRow>) {
    && r.id in w.db.rows && Older(w.db.rows[r.id], r)
    && w'.db.rows == w.db.rows[r.id := r]
    && w'.db.audit == w.db.audit + entry
    && w'.chain == w.chain && w'.endpoint == w.endpoint && w'.sent == w.sent
    && w'.malformed == w.malformed && w'.recorded == w.recorded
    && w.log <= w'.log
    && RowOk(w.chain, w.malformed, r)
    && (var cur := w.db.rows[r.id];
        if entry == [] then
          r.status == cur.status && r.signedTxBlob == cur.signedTxBlob && r.failureCode == cur.failureCode
        else
          && |entry| == 1
          && entry[0].intentId == r.id && entry[0].from == Some(cur.status) && entry[0].to == r.status
          && CanTransition(cur.status, r.status) && ReasonFits(entry[0].reason, r))
  }

  lemma ReplacementTrails(w: World, w': World, r: Row, entry: seq<AuditRow>)
    requires Inv(w) && RowReplaced(w, w', r, entry)
    ensures TrailsOk(w')
  {
    hide Inv, RowOk, ShapeOk, TrailOk, Older, CanTransition, ReasonFits;
    TrailsFact(w);
    TrailFact(w, r.id);
    assert ShapeOk(r) && ShapeOk(w.db.rows[r.id]) by {
      RowShape(w, r);
      RowShape(w, w.db.rows[r.id]);
    }
    ReplacedTrail(w.db.audit, w.db.rows[r.id], r, entry);
    forall id | id in w.db.rows && id != r.id ensures TrailOk(w'.db.audit, w.db.rows[id]) {
      TrailFact(w, id);
      OtherTrail(w.db.audit, w.db.rows[id], r.id, entry);
    }
  }

  lemma RowShape(w: World, r: Row)
    requires RowOk(w.chain, w.malformed, r)
    ensures ShapeOk(r)
  {
  }

  lemma TrailsFact(w: World)
    requires Inv(w)
    ensures TrailsOk(w)
  {
  }

  lemma TrailFact(w: World, id: Id)
    requires Inv(w) && id in w.db.rows
    ensures w.db.rows[id].id == id && TrailOk(w.db.audit, w.db.rows[id])
    ensures RowOk(w.chain, w.malformed, w.db.rows[id])
  {
  }

  /** The replaced row's own trail grows by the entry, or is unchanged and still fits. */
  lemma ReplacedTrail(audit: seq<AuditRow>, cur: Row, r: Row, entry: seq<AuditRow>)
    requires TrailOk(audit, cur) && ShapeOk(cur) && ShapeOk(r) && r.id == cur.id
    requires if entry == [] then
        r.status == cur.status && r.signedTxBlob == cur.signedTxBlob && r.failureCode == cur.failureCode
      else
        && |entry| == 1
        && entry[0].intentId == r.id && entry[0].from == Some(cur.status) && entry[0].to == r.status
        && CanTransition(cur.status, r.status) && ReasonFits(entry[0].reason, r)
    ensures TrailOk(audit + entry, r)
  {
    hide PreparationOk, SimulationOk, SignatureOk, CanTransition;
    if entry == [] {
      assert audit + entry == audit;
    } else {
      assert entry == [entry[0]];
      TrailAppend(audit, entry[0], r.id);
    }
  }

  lemma OtherTrail(audit: seq<AuditRow>, other: Row, id: Id, entry: seq<AuditRow>)
    requires TrailOk(audit, other) && other.id != id
    requires entry == [] || (|entry| == 1 && entry[0].intentId == id)
    ensures TrailOk(audit + entry, other)
  {
    hide ReasonFits, LegalTrail;
    if entry == [] {
      assert audit + entry == audit;
    } else {
      assert entry == [entry[0]];
      TrailAppend(audit, entry[0], other.id);
      assert Trail(audit + entry, other.id) == Trail(audit, other.id);
    }
  }

  lemma ReplacementKeepsInv(w: World, w': World, r: Row, entry: seq<AuditRow>)
    requires Inv(w) && RowReplaced(w, w', r, entry)
    requires Constraints(w'.db.rows)
    requires forall o | o in w'.log && o !in w.log :: Fact(w', o)
    ensures Inv(w') && Grows(w, w')
  {
    hide Fact, TrailOk, RowOk, Older, Constraints, ChainOk;
    OlderIsReflexive(w);
    ReplacementTrails(w, w', r, entry);
    LogStaysOk(w, w');
    SentStaysOk(w, w');
  }

  lemma OlderIsReflexive(w: World)
    ensures forall id | id in w.db.rows :: Older(w.db.rows[id], w.db.rows[id])
  {
  }

  /** No call site ever meets the illegal-transition throw. */
  lemma JustifiedIsLegal(w: World, id: Id, request: TransitionRequest, why: Why)
    requires Inv(w) && Justified(w.log, id, request, why)
    ensures !Transitioned(w.db, id, request).1.IllegalTransition?
  {
    hide Justified, Inv, Sound, SlotTaken, HashTaken, Target;
    if id in w.db.rows && w.db.rows[id].status in request.from {
      KeyOf(w, id);
      JustifiedIsSound(w, w.db.rows[id], request, why);
      SoundIsLegal(w, w.db.rows[id], request);
    }
  }

  lemma ChangeKeepsInv(w: World, id: Id, request: TransitionRequest, why: Why)
    requires Inv(w) && Enabled(w, Change(id, request, why))
    ensures var w' := Apply(w, Change(id, request, why)); Inv(w') && Grows(w, w')
    ensures !Transitioned(w.db, id, request).1.IllegalTransition?
  {
    hide Justified, Inv, Sound, SlotTaken, HashTaken, Target, Grows;
    TableFacts(w);
    ChangeConsumesSent(w, id, request, why);
    var w' := Apply(w, Change(id, request, why));
    var written := w'.(recorded := w.recorded);
    if id in w.db.rows && w.db.rows[id].status in request.from {
      JustifiedIsSound(w, w.db.rows[id], request, why);
      SoundIsLegal(w, w.db.rows[id], request);
    }
    if Transitioned(w.db, id, request).1.Updated? {
      WrittenRowKeepsInv(w, written, id, request);
    } else {
      SameTableKeepsInv(w, written, id);
    }
    RecordingKeepsInv(written, w', Consumes(Change(id, request, why)));
    GrowsIsTransitive(w, written, w');
  }

  lemma ChangeConsumesSent(w: World, id: Id, request: TransitionRequest, why: Why)
    requires Inv(w) && Justified(w.log, id, request, why)
    ensures forall rpc | rpc in Consumes(Change(id, request, why)) :: rpc < |w.sent|
  {
    hide Inv;
    if why.BySubmission? {
      LogFact(w, SubmitAnswered(why.rpc, id, why.row.signedTxBlob.value, why.engineResult));
    }
  }

  lemma UpdateConsumesSent(w: World, id: Id, statuses: set<Status>, patch: Patch, why: UpdateWhy)
    requires Inv(w) && UpdateJustified(w.log, id, statuses, patch, why)
    ensures forall rpc | rpc in Consumes(Update(id, statuses, patch, why)) :: rpc < |w.sent|
  {
    hide Inv;
    if why.ByResubmission? {
      LogFact(w, SubmitAnswered(why.rpc, id, why.row.signedTxBlob.value, why.engineResult));
    }
  }

  /** Noting that an answer has been recorded touches nothing else. */
  lemma RecordingKeepsInv(w: World, w': World, rpcs: set<nat>)
    requires Inv(w) && (forall rpc | rpc in rpcs :: rpc < |w.sent|)
    requires w' == w.(recorded := w.recorded + rpcs)
    ensures Inv(w') && Grows(w, w')
  {
    hide RowOk, TrailOk, ChainOk, Constraints, Older;
    OlderIsReflexive(w);
    LogStaysOk(w, w');
  }

  lemma TableFacts(w: World)
    requires Inv(w)
    ensures EndpointOk(w.chain, w.endpoint) && Constraints(w.db.rows)
  {
  }

  lemma SoundIsLegal(w: World, cur: Row, request: TransitionRequest)
    requires Sound(w, cur, request)
    ensures CanTransition(cur.status, request.to)
  {
  }

  lemma WrittenRowKeepsInv(w: World, w': World, id: Id, request: TransitionRequest)
    requires Inv(w) && Transitioned(w.db, id, request).1.Updated?
    requires Sound(w, w.db.rows[id], request)
    requires w' == w.(db := Transitioned(w.db, id, request).0,
                      log := w.log + {RowSeen(Target(w.db.rows[id], request))})
    ensures Inv(w') && Grows(w, w')
  {
    hide RowsOk, TrailsOk, LogOk, SentOk, ChainOk, ShapeOk, TruthOk, ReasonFits, SlotTaken, HashTaken, Constraints;
    TableFacts(w);
    var cur := w.db.rows[id];
    KeyOf(w, id);
    PatchKeepsIdentity(cur, request.patch);
    TransitionKeepsConstraints(w.db, id, request);
    ReplacementKeepsInv(w, w', Target(cur, request), [AuditRow(id, Some(cur.status), request.to, request.reason)]);
  }

  lemma KeyOf(w: World, id: Id)
    requires Inv(w) && id in w.db.rows
    ensures w.db.rows[id].id == id
  {
  }

  lemma SameTableKeepsInv(w: World, w': World, id: Id)
    requires Inv(w) && w' == w.(log := w.log + Reread(w.db, id))
    ensures Inv(w') && Grows(w, w')
  {
    hide ShapeOk, TruthOk, TrailOk, ChainOk, Constraints, Older;
    OlderIsReflexive(w);
    if id in w.db.rows {
      assert RowOk(w.chain, w.malformed, w.db.rows[id]);
      KeyOf(w, id);
    }
    LogStaysOk(w, w');
    SameRowsStayOk(w, w');
  }

  /** Nothing the invariant says of the ledger, the rows or the sent blobs depends on the log. */
  lemma SameRowsStayOk(w: World, w': World)
    requires Inv(w) && w' == w.(log := w'.log)
    ensures ChainOk(w'.chain) && CleanOk(w'.chain, w'.malformed) && RecentOk(w'.chain)
    ensures EndpointOk(w'.chain, w'.endpoint) && Constraints(w'.db.rows)
    ensures RowsOk(w') && TrailsOk(w') && SentOk(w') && RecordedOk(w')
  {
    hide RowOk, TrailOk, ChainOk, Constraints, LogOk;
  }

  /** A justified column update keeps the row sound, and leaves the baseline behind it. */
  lemma UpdateIsSound(w: World, cur: Row, statuses: set<Status>, patch: Patch, why: UpdateWhy)
    requires Inv(w) && cur.id in w.db.rows && w.db.rows[cur.id] == cur
    requires UpdateJustified(w.log, cur.id, statuses, patch, why)
    ensures IsColumnPatch(patch) && HasSignature(cur)
    ensures cur.status in statuses ==>
      && Older(cur, Patched(cur, patch)) && RowOk(w.chain, w.malformed, Patched(cur, patch))
      && (why.ByBaseline? ==> Patched(cur, patch).submissionValidatedLedger.Some?)
    ensures why.ByBaseline? ==> statuses == {Signed}
  {
    hide Inv, EncodeTransaction, SimulationMatchesPrepared, HeaderOf, IsSignedForm, ChainOk, NeverIncluded, OutcomeOnChain;
    SnapshotFacts(w, why.row);
  }

  lemma UpdateKeepsInv(w: World, id: Id, statuses: set<Status>, patch: Patch, why: UpdateWhy)
    requires Inv(w) && Enabled(w, Update(id, statuses, patch, why))
    ensures var w' := Apply(w, Update(id, statuses, patch, why)); Inv(w') && Grows(w, w')
    ensures IsColumnPatch(patch)
  {
    hide Inv, RowOk, Older, ShapeOk, Constraints, UpdateJustified, HasSignature, Patched, Grows;
    UpdateConsumesSent(w, id, statuses, patch, why);
    assert RowSeen(why.row) in w.log && why.row.id == id by {
      Witness(w.log, id, statuses, patch, why);
    }
    KnownId(w, why.row);
    TableFacts(w);
    AccessFacts(w);
    KeyOf(w, id);
    UpdateIsSound(w, w.db.rows[id], statuses, patch, why);
    var w' := Apply(w, Update(id, statuses, patch, why));
    var written := w'.(recorded := w.recorded);
    if w.db.rows[id].status in statuses {
      HitKeepsInv(w, written, id, statuses, patch, why);
    } else {
      MissKeepsInv(w, written, id, statuses, why);
    }
    RecordingKeepsInv(written, w', Consumes(Update(id, statuses, patch, why)));
    GrowsIsTransitive(w, written, w');
  }

  lemma Witness(log: set<Observation>, id: Id, statuses: set<Status>, patch: Patch, why: UpdateWhy)
    requires UpdateJustified(log, id, statuses, patch, why)
    ensures RowSeen(why.row) in log && why.row.id == id
  {
  }

  lemma HitKeepsInv(w: World, w': World, id: Id, statuses: set<Status>, patch: Patch, why: UpdateWhy)
    requires Inv(w) && id in w.db.rows && w.db.rows[id].id == id && w.db.rows[id].status in statuses
    requires IsColumnPatch(patch) && HasSignature(w.db.rows[id])
    requires var r := Patched(w.db.rows[id], patch);
      && Older(w.db.rows[id], r) && RowOk(w.chain, w.malformed, r)
      && (why.ByBaseline? ==> r.submissionValidatedLedger.Some?)
    requires w' == w.(db := w.db.(rows := w.db.rows[id := Patched(w.db.rows[id], patch)]),
                      log := w.log + {RowSeen(Patched(w.db.rows[id], patch))}
                                   + (if why.ByBaseline? then {BaselineWritten(id)} else {}))
    ensures Inv(w') && Grows(w, w')
  {
    hide Inv, RowOk, Older, Constraints, Patched, ShapeOk;
    var cur := w.db.rows[id];
    var r := Patched(cur, patch);
    TableFacts(w);
    PatchKeepsIdentity(cur, patch);
    ColumnPatchKeepsOutcome(cur, patch);
    UpdateKeepsConstraints(w.db, id, statuses, patch);
    assert Fact(w', RowSeen(r)) by {
      NewRowFact(w', r);
    }
    assert w'.db.audit == w.db.audit + [];
    ReplacementKeepsInv(w, w', r, []);
  }

  lemma MissKeepsInv(w: World, w': World, id: Id, statuses: set<Status>, why: UpdateWhy)
    requires Inv(w) && id in w.db.rows && w.db.rows[id].status !in statuses
    requires HasSignature(w.db.rows[id]) && (why.ByBaseline? ==> statuses == {Signed})
    requires w' == w.(log := w.log + {RowSeen(w.db.rows[id])} + (if why.ByBaseline? then {BaselineWritten(id)} else {}))
    ensures Inv(w') && Grows(w, w')
  {
    hide Inv, Grows;
    var read := w.(log := w.log + {RowSeen(w.db.rows[id])});
    SameTableKeepsInv(w, read, id);
    if why.ByBaseline? {
      LoggingKeepsInv(read, w', BaselineWritten(id));
      GrowsIsTransitive(w, read, w');
    } else {
      assert w' == read;
    }
  }

  lemma ColumnPatchKeepsOutcome(cur: Row, patch: Patch)
    requires IsColumnPatch(patch)
    ensures var r := Patched(cur, patch);
      && r.status == cur.status && r.signedTxBlob == cur.signedTxBlob && r.failureCode == cur.failureCode
      && r.transactionHash == cur.transactionHash && r.signingPubKey == cur.signingPubKey
  {
  }

  lemma KnownId(w: World, row: Row)
    requires Inv(w) && RowSeen(row) in w.log
    ensures row.id in w.db.rows
  {
    SnapshotFacts(w, row);
  }

  lemma AccessFacts(w: World)
    requires Inv(w)
    ensures EndpointOk(w.chain, w.endpoint) && KeysUnique(w.db.rows)
  {
  }

  lemma {:induction false} NoEntriesNoTrail(audit: seq<AuditRow>, id: Id)
    requires forall k | 0 <= k < |audit| :: audit[k].intentId != id
    ensures Trail(audit, id) == []
  {
    if audit != [] {
      NoEntriesNoTrail(audit[..|audit| - 1], id);
    }
  }

  lemma NewRowIsOk(chain: Chain, malformed: set<string>, row: Row)
    requires row == NewRow(row.id, row.idempotencyKey, row.requestHash, row.networkId, row.createdAt, row.payload)
    ensures RowOk(chain, malformed, row)
  {
  }

  lemma CreateKeepsInv(w: World, row: Row)
    requires Inv(w) && Enabled(w, Create(row))
    ensures Inv(Apply(w, Create(row))) && Grows(w, Apply(w, Create(row)))
  {
    hide RowOk, TrailOk, Older, ChainOk, Constraints, LogOk, SentOk;
    AccessFacts(w);
    var (db, reply) := CreatedIdempotent(w.db, row);
    var w' := Apply(w, Create(row));
    match reply
    case PrimaryKeyTaken =>
      assert w' == w;
      OlderIsReflexive(w);
    case Existing(existing) =>
      var id :| id in w.db.rows && w.db.rows[id] == existing;
      KeyOf(w, id);
      SameTableKeepsInv(w, w', id);
    case Inserted(_) =>
      InsertKeepsInv(w, w', row);
  }

  lemma InsertKeepsInv(w: World, w': World, row: Row)
    requires Inv(w) && row.id !in w.db.rows && !HasKey(w.db.rows, row.idempotencyKey)
    requires row == NewRow(row.id, row.idempotencyKey, row.requestHash, row.networkId, row.createdAt, row.payload)
    requires w' == w.(db := Db(w.db.rows[row.id := row], w.db.audit + [AuditRow(row.id, None, Created, IntentCreated)]),
                      log := w.log + {RowSeen(row)})
    ensures Inv(w') && Grows(w, w')
  {
    hide RowOk, Older, ChainOk, Constraints, Fact, SentOk, TrailsOk, LogOk, NewRow;
    OlderIsReflexive(w);
    NewRowIsOk(w.chain, w.malformed, row);
    NewRowFact(w', row);
    TableFacts(w);
    InsertConstraints(w.db, row);
    InsertTrails(w, w', row);
    LogStaysOk(w, w');
    SentStaysOk(w, w');
  }

  lemma InsertConstraints(db: Db, row: Row)
    requires Constraints(db.rows) && row.id !in db.rows && !HasKey(db.rows, row.idempotencyKey)
    requires row == NewRow(row.id, row.idempotencyKey, row.requestHash, row.networkId, row.createdAt, row.payload)
    ensures Constraints(db.rows[row.id := row])
  {
    CreateKeepsConstraints(db, row);
  }

  lemma NewRowFact(w': World, row: Row)
    requires row.id in w'.db.rows && w'.db.rows[row.id] == row && RowOk(w'.chain, w'.malformed, row)
    ensures Fact(w', RowSeen(row))
  {
  }

  lemma InsertTrails(w: World, w': World, row: Row)
    requires Inv(w) && row.id !in w.db.rows
    requires row == NewRow(row.id, row.idempotencyKey, row.requestHash, row.networkId, row.createdAt, row.payload)
    requires w'.db.rows == w.db.rows[row.id := row]
    requires w'.db.audit == w.db.audit + [AuditRow(row.id, None, Created, IntentCreated)]
    ensures TrailsOk(w')
  {
    hide RowsOk, RowOk, ChainOk, LogOk, SentOk, Constraints, NewRow, TrailOk;
    FirstTrail(w.db.audit, row);
    forall id | id in w.db.rows ensures TrailOk(w'.db.audit, w.db.rows[id]) {
      TrailFact(w, id);
      OtherTrail(w.db.audit, w.db.rows[id], row.id, [AuditRow(row.id, None, Created, IntentCreated)]);
    }
  }

  lemma FirstTrail(audit: seq<AuditRow>, row: Row)
    requires forall k | 0 <= k < |audit| :: audit[k].intentId != row.id
    requires row == NewRow(row.id, row.idempotencyKey, row.requestHash, row.networkId, row.createdAt, row.payload)
    ensures TrailOk(audit + [AuditRow(row.id, None, Created, IntentCreated)], row)
  {
    var entry := AuditRow(row.id, None, Created, IntentCreated);
    NoEntriesNoTrail(audit, row.id);
    TrailAppend(audit, entry, row.id);
    assert Trail(audit + [entry], row.id) == [entry];
  }

  // ---- steps and runs ----------------------------------------------------------------------

  lemma ActionKeepsInv(w: World, a: Action)
    requires Inv(w) && Enabled(w, a)
    ensures KeysUnique(w.db.rows)
    ensures Inv(Apply(w, a)) && Grows(w, Apply(w, a))
  {
    hide Inv, Enabled, Apply, Grows;
    AccessFacts(w);
    match a
    case CloseLedger(version) => CloseKeepsInv(w, version);
    case MoveEndpoint(e) => MoveKeepsInv(w, e);
    case Observe(o) => ObserveKeepsInv(w, o);
    case Create(row) => CreateKeepsInv(w, row);
    case Change(id, request, why) => ChangeKeepsInv(w, id, request, why);
    case Update(id, statuses, patch, why) => UpdateKeepsInv(w, id, statuses, patch, why);
    case Send(row, head) => SendKeepsInv(w, row, head);
  }

  /** The next RPC number is new: neither answered nor recorded. */
  lemma NextNumberIsFresh(w: World)
    requires Inv(w)
    ensures !IsAnswered(w.log, |w.sent|) && |w.sent| !in w.recorded
  {
    hide RowsOk, TrailsOk, ChainOk;
    forall o | o in w.log && o.SubmitAnswered? ensures o.rpc != |w.sent| {
      LogFact(w, o);
    }
  }

  lemma InitHasInv(w: World)
    requires Init(w)
    ensures Inv(w)
  {
  }

  /** There are runs: one ledger without transactions, an empty table, and a new intent. */
  lemma RunsExist(row: Row) returns (run: seq<World>)
    requires row == NewRow(row.id, row.idempotencyKey, row.requestHash, configuredNetworkId, row.createdAt, row.payload)
    ensures IsRun(run)
    ensures run[|run| - 1].db.rows == map[row.id := row]
  {
    hide Inv, Grows;
    var start := World(Db(map[], []), [Version(map[], map[], {})], Endpoint(1, {1}, true), {}, [], {}, {});
    InitHasInv(start);
    AccessFacts(start);
    assert Enabled(start, Create(row));
    run := [start, Apply(start, Create(row))];
    assert Next(run[0], run[1]);
    assert run[1].db.rows == map[row.id := row];
  }

  lemma NextKeepsInv(w: World, w': World)
    requires Inv(w) && Next(w, w')
    ensures Inv(w') && Grows(w, w')
  {
    hide Inv, Enabled, Apply, Grows;
    var a: Action :| Enabled(w, a) && w' == Apply(w, a);
    ActionKeepsInv(w, a);
  }

  lemma {:induction false} PathHasInv(path: seq<World>, i: nat)
    requires IsPath(path) && Inv(path[0]) && i < |path|
    ensures Inv(path[i]) && Grows(path[0], path[i])
  {
    hide Inv, Next, Grows;
    if i == 0 {
      GrowsIsReflexive(path[0]);
    } else {
      PathHasInv(path, i - 1);
      NextKeepsInv(path[i - 1], path[i]);
      GrowsIsTransitive(path[0], path[i - 1], path[i]);
    }
  }

  lemma GrowsIsReflexive(w: World)
    ensures Grows(w, w)
  {
    OlderIsReflexive(w);
  }

  /** The invariant holds in every state of every run, and later states only add to earlier ones. */
  lemma RunHasInv(run: seq<World>, i: nat, j: nat)
    requires IsRun(run) && i <= j < |run|
    ensures Inv(run[i]) && Inv(run[j]) && Grows(run[i], run[j])
  {
    hide Inv, Init, Next, Grows;
    InitHasInv(run[0]);
    PathHasInv(run, i);
    PathHasInv(run[i..], j - i);
  }

  lemma LastHasInv(run: seq<World>)
    requires IsRun(run)
    ensures |run| > 0 && Inv(run[|run| - 1])
  {
    hide Inv;
    assert |run| > 0;
    RunHasInv(run, |run| - 1, |run| - 1);
  }
}
