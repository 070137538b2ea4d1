/** IntentsService: idempotent creation and cursor paging, through the shared database. */
module IntentsServices {
  import opened Wrappers
  import opened IntentState
  import opened Transactions
  import opened Intents
  import opened Queries
  import opened Protocol
  import opened Invariant
  import opened Backends

  const INTENT_LIST_DEFAULT_LIMIT: nat := 25

  /**
   * Whoever creates, reads or repeats: two sightings of one idempotency key are sightings of one
   * intent, created by one request.
   */
  lemma OneIntentPerKey(run: seq<World>, i: nat, a: Row, b: Row)
    requires IsRun(run) && i < |run|
    requires RowSeen(a) in run[i].log && RowSeen(b) in run[i].log
    ensures a.idempotencyKey == b.idempotencyKey <==> a.id == b.id
    ensures a.id == b.id ==> a.requestHash == b.requestHash && a.payload == b.payload && a.createdAt == b.createdAt
  {
    hide Inv, IsRun, RowOk, ShapeOk;
    RunHasInv(run, i, i);
    SnapshotFacts(run[i], a);
    SnapshotFacts(run[i], b);
    KeyOf(run[i], a.id);
    KeyOf(run[i], b.id);
    AccessFacts(run[i]);
  }

  // ---- paging while the service is in use --------------------------------------------------

  /** Page k was answered at moment k of the run, later moments after earlier ones, and asked with page k-1's cursor. */
  ghost predicate Listing(run: seq<World>, moments: seq<nat>, f: ListFilter, limit: nat, pages: seq<Page>) {
    && |pages| == |moments| > 0 && limit >= 1
    && (forall k | 0 <= k < |moments| :: moments[k] < |run| && KeyedById(run[moments[k]].db.rows))
    && (forall k | 0 < k < |moments| :: moments[k - 1] <= moments[k])
    && (forall k | 0 <= k < |pages| :: pages[k] == PageOf(run[moments[k]].db.rows, PageFilter(f, pages, k), limit))
    && (forall k | 0 <= k < |pages| - 1 :: pages[k].nextCursor.Some?)
  }

  ghost function TablesAt(run: seq<World>, moments: seq<nat>): seq<map<Id, Row>>
    requires forall k | 0 <= k < |moments| :: moments[k] < |run|
  {
    seq(|moments|, k requires 0 <= k < |moments| => run[moments[k]].db.rows)
  }

  lemma TablesAge(run: seq<World>, i: nat, j: nat)
    requires IsRun(run) && i <= j < |run|
    ensures Ages(run[i].db.rows, run[j].db.rows)
  {
    hide Inv, IsRun, Older;
    RunHasInv(run, i, j);
  }

  lemma ListingWalks(run: seq<World>, moments: seq<nat>, f: ListFilter, limit: nat, pages: seq<Page>)
    requires IsRun(run) && Listing(run, moments, f, limit, pages)
    ensures Walk(TablesAt(run, moments), f, limit, pages)
  {
    hide IsRun, Ages, PageOf, PageFilter, KeyedById;
    var tables := TablesAt(run, moments);
    forall k | 0 < k < |tables| ensures Ages(tables[k - 1], tables[k]) {
      TablesAge(run, moments[k - 1], moments[k]);
    }
  }

  /**
   * A client that follows nextCursor to the end, while everything else goes on, sees every intent
   * of the first moment that matches its type and account filters, exactly once.
   */
  lemma ListingIsComplete(run: seq<World>, moments: seq<nat>, f: ListFilter, limit: nat, pages: seq<Page>, id: Id)
    requires IsRun(run) && Listing(run, moments, f, limit, pages)
    requires pages[|pages| - 1].nextCursor.None? && f.status.None?
    requires id in run[moments[0]].db.rows && IsAskedFor(run[moments[0]].db.rows[id], f.(before := None))
    ensures var shown := Shown(pages, |pages|);
      && (forall r | r in shown :: IsAskedFor(r, f.(before := None)))
      && exists k :: 0 <= k < |shown| && shown[k].id == id && forall l | 0 <= l < |shown| && l != k :: shown[l].id != id
  {
    hide IsRun, Walk, IsAskedFor, NewestComeFirst;
    ListingWalks(run, moments, f, limit, pages);
    PagingIsComplete(TablesAt(run, moments), f, limit, pages);
    var shown := Shown(pages, |pages|);
    assert ShownId(shown, id);
    var k :| 0 <= k < |shown| && shown[k].id == id;
    forall l | 0 <= l < |shown| && l != k ensures shown[l].id != id {
      if l < k {
        assert shown[l].id != shown[k].id;
      }
    }
  }

  /** A created intent: the request's own columns, and nothing else yet. */
  predicate IsNew(r: Row, id: Id, key: string, requestHash: string, now: nat, payload: Payload) {
    && r.id == id && r.idempotencyKey == key && r.requestHash == requestHash && r.networkId == configuredNetworkId
    && r.createdAt == now && r.payload == payload && r.sourceAccount == payload.account && r.status == Created
    && r.preparedTxJson.None? && r.preparedTxBlob.None? && r.preparedLedgerIndex.None? && r.sequence.None?
    && r.feeDrops.None? && r.lastLedgerSequence.None? && r.simulationEngineResult.None? && r.simulationResult.None?
    && r.signedTxBlob.None? && r.transactionHash.None? && r.signingPubKey.None? && r.submissionAttemptCount == 0
    && r.submissionValidatedLedger.None? && r.submitEngineResult.None? && r.finalResult.None? && r.finalLedgerIndex.None?
    && r.failureCode.None?
  }

  datatype Creation = Creation(created: bool, intent: Row)

  class IntentsService {
    const backend: Backend

    constructor (backend: Backend)
      ensures this.backend == backend
    {
      this.backend := backend;
    }

    /**
     * The intent behind the key is the caller's own request, new or repeated; when the key was
     * used for another request, that other intent has been seen and nothing was created.
     */
    method Create(id: Id, key: string, requestHash: string, now: nat, payload: Payload)
      returns (r: Result<Creation>, ghost stored: Row)
      requires backend.Valid()
      modifies backend, backend.intents
      ensures backend.Passed()
      ensures r.Success? ==>
        && stored == r.value.intent && RowSeen(stored) in backend.log
        && stored.idempotencyKey == key && stored.requestHash == requestHash
        && (r.value.created ==> IsNew(stored, id, key, requestHash, now, payload))
      ensures backend.inserted == old(backend.inserted) + (if r.Success? && r.value.created then 1 else 0)
      ensures r.Failure? ==> r.error in {IdempotencyKeyReused, DatabaseError}
      ensures r == Result.Failure(DatabaseError) ==> id in backend.intents.rows
      ensures r.Failure? && r.error == IdempotencyKeyReused ==>
        RowSeen(stored) in backend.log && stored.idempotencyKey == key && stored.requestHash != requestHash
    {
      hide IsRun;
      var row := NewRow(id, key, requestHash, configuredNetworkId, now, payload);
      var reply := backend.CreateIdempotent(row);
      stored := row;
      match reply {
        case PrimaryKeyTaken =>
          r := Result.Failure(DatabaseError);
        case Inserted(intent) =>
          r := Success(Creation(true, intent));
        case Existing(intent) =>
          stored := intent;
          if intent.requestHash != requestHash {
            return Result.Failure(IdempotencyKeyReused), stored;
          }
          r := Success(Creation(false, intent));
      }
    }

    /** An intent that anyone has ever seen is never reported missing. */
    method Get(id: Id) returns (r: Result<Row>)
      requires backend.Valid()
      modifies backend, backend.intents
      ensures backend.Passed()
      ensures r.Success? ==> r.value.id == id && RowSeen(r.value) in backend.log
      ensures r.Failure? ==> r.error == IntentNotFound && forall seen | RowSeen(seen) in old(backend.log) :: seen.id != id
    {
      hide IsRun;
      var row := backend.FindById(id);
      if row.None? {
        return Result.Failure(IntentNotFound);
      }
      r := Success(row.value);
    }

    /** One row more than a page is asked for; it decides whether there is a next page. */
    method List(filter: ListFilter, limit: Option<nat>) returns (page: Page)
      requires backend.Valid()
      modifies backend, backend.intents
      ensures backend.Passed()
      ensures KeyedById(backend.intents.rows)
      ensures page == PageOf(backend.intents.rows, filter, limit.GetOr(25))
      ensures PageAnswers(page, backend.intents.rows, filter, limit.GetOr(25))
    {
      hide IsRun;
      var size := limit.GetOr(INTENT_LIST_DEFAULT_LIMIT);
      var rows := backend.List(filter, size + 1);
      var shown := if |rows| <= size then rows else rows[..size];
      var nextCursor := None;
      if |rows| > size && |shown| > 0 {
        var last := shown[|shown| - 1];
        nextCursor := Some(PositionOf(last));
      }
      page := Page(shown, nextCursor);
      PageIsAnswer(backend.intents.rows, filter, size);
    }
  }
}
