/**
 * The world as one service call meets it. Every operation is an await: before it takes effect,
 * anyone else may have taken any number of steps. The ghost `run` records every atomic step, so
 * whatever a service method does between its awaits is part of one run of the protocol.
 */
module Backends {
  import opened Wrappers
  import opened IntentState
  import opened Transactions
  import opened Intents
  import opened Queries
  import opened Ledger
  import opened SignedBlobs
  import opened Decisions
  import opened Protocol
  import opened Invariant
  import opened Theorems
  import opened Repository

  /** What every row a call reads is known to carry, by status. */
  predicate Complete(r: Row) {
    && (r.status != Created ==> HasPreparation(r))
    && (r.status in {Signed, Submitted, Validated} ==> HasSignature(r))
    && (r.status in UNSIGNED_ACTIVE ==> !HasSignature(r))
    && (HasSignature(r) ==> HasPreparation(r))
    && (r.status == Simulated ==> r.simulationEngineResult.Some?)
    && (r.status == Submitted ==> r.submissionValidatedLedger.Some?)
    && (r.status in {Prepared, Simulated, AwaitingSignature} ==> ToCanonicalForm(r.preparedTxJson.value).Some?)
    && r.sourceAccount == r.payload.account
  }

  lemma ShapeIsComplete(r: Row)
    requires ShapeOk(r)
    ensures Complete(r)
  {
    hide HeaderOf, SimulationMatchesPrepared, IsSignedForm;
  }

  datatype Reply =
    | NoReply
    | ChangeReply(transition: TransitionReply)
    | UpdateReply(updated: Option<Row>)
    | CreationReply(creation: CreateReply)

  function ReplyTo(w: World, a: Action): Reply
    requires KeysUnique(w.db.rows)
  {
    match a
    case Create(row) => CreationReply(CreatedIdempotent(w.db, row).1)
    case Change(id, request, _) => ChangeReply(Transitioned(w.db, id, request).1)
    case Update(id, statuses, patch, _) => UpdateReply(UpdatedInStatus(w.db, id, statuses, patch).1)
    case _ => NoReply
  }

  /** What executing a status change leaves behind. */
  lemma ChangeStep(w: World, id: Id, request: TransitionRequest, why: Why)
    requires EndpointOk(w.chain, w.endpoint) && KeysUnique(w.db.rows) && Justified(w.log, id, request, why)
    requires why.BySubmission? ==> why.rpc !in w.recorded
    ensures Enabled(w, Change(id, request, why))
    ensures var (db, reply) := Transitioned(w.db, id, request); var w' := Apply(w, Change(id, request, why));
      && ReplyTo(w, Change(id, request, why)) == ChangeReply(reply)
      && w'.db == db && (id in db.rows ==> RowSeen(db.rows[id]) in w'.log)
      && (why.BySubmission? ==> why.rpc in w'.recorded)
  {
    hide Justified, Transitioned, KeysUnique;
  }

  lemma UpdatesAreColumnPatches(log: set<Observation>, id: Id, statuses: set<Status>, patch: Patch, why: UpdateWhy)
    requires UpdateJustified(log, id, statuses, patch, why)
    ensures IsColumnPatch(patch)
  {
  }

  lemma SendHasBlob(log: set<Observation>, row: Row, head: nat)
    requires SendJustified(log, row, head)
    ensures row.signedTxBlob.Some?
  {
  }

  lemma GrownLog(w: World, w': World)
    requires Grows(w, w')
    ensures w.log <= w'.log && w.sent <= w'.sent && w.recorded <= w'.recorded
  {
  }

  /** A row read now is complete and not earlier than anything seen of that intent before. */
  lemma ReadIsLatest(w: World, log: set<Observation>, id: Id)
    requires Inv(w) && log <= w.log && id in w.db.rows
    ensures var row := w.db.rows[id]; row.id == id && Complete(row) && Latest(log, row)
  {
    hide Inv, Older, HasPreparation, HasSignature, ShapeOk, Complete;
    KeyOf(w, id);
    var row := w.db.rows[id];
    RowIsComplete(w, id);
    forall r | RowSeen(r) in log && r.id == id ensures Older(r, row) {
      SnapshotFacts(w, r);
    }
  }

  lemma RowIsComplete(w: World, id: Id)
    requires Inv(w) && id in w.db.rows
    ensures Complete(w.db.rows[id])
  {
    hide ShapeOk, Complete;
    TrailFact(w, id);
    RowShape(w, w.db.rows[id]);
    ShapeIsComplete(w.db.rows[id]);
  }

  lemma SeenIsStored(w: World, r: Row)
    requires Inv(w) && RowSeen(r) in w.log
    ensures r.id in w.db.rows
  {
    SnapshotFacts(w, r);
  }

  /** A change that stores no new hash cannot meet the hash index. */
  lemma HashClashNeedsSignature(db: Db, id: Id, request: TransitionRequest)
    requires Constraints(db.rows)
    requires Transitioned(db, id, request).1.HashIsTaken?
    ensures request.patch.SignaturePatch?
  {
  }

  lemma JustifiedRow(log: set<Observation>, id: Id, request: TransitionRequest, why: Why)
    requires Justified(log, id, request, why)
    ensures why.row.id == id && RowSeen(why.row) in log
  {
  }

  /** The guard of a status change only looks at logged facts, so waiting cannot invalidate it. */
  lemma JustifiedPersists(log: set<Observation>, later: set<Observation>, id: Id, request: TransitionRequest, why: Why)
    requires Justified(log, id, request, why) && log <= later
    ensures Justified(later, id, request, why)
  {
    hide HasPreparation, HasSignature, PreparationRequest, WindowRequest, SimulationRequest, CompletionRequest,
         SigningRequest, SubmitRequest, SearchFinding, AbsentFinding, IsSignedForm;
  }

  /** A number is one of a call's own if nobody else answers or records it. */
  predicate TouchesOwn(a: Action, own: set<nat>) {
    || Consumes(a) * own != {}
    || (a.Observe? && a.observation.SubmitAnswered? && a.observation.rpc in own)
  }

  /** Other calls' steps neither answer nor record an RPC of ours. */
  lemma OthersLeaveOwnAlone(w: World, a: Action, own: set<nat>)
    requires EndpointOk(w.chain, w.endpoint) && KeysUnique(w.db.rows) && Enabled(w, a) && !TouchesOwn(a, own)
    ensures forall rpc | rpc in own ::
      && (rpc in Apply(w, a).recorded <==> rpc in w.recorded)
      && (IsAnswered(Apply(w, a).log, rpc) <==> IsAnswered(w.log, rpc))
  {
    hide Justified, UpdateJustified, SendJustified, Honest, Follows, MayInclude, Transitioned, UpdatedInStatus, KeysUnique;
    var w' := Apply(w, a);
    forall rpc | rpc in own
      ensures (rpc in w'.recorded <==> rpc in w.recorded) && (IsAnswered(w'.log, rpc) <==> IsAnswered(w.log, rpc))
    {
      assert rpc in Consumes(a) ==> rpc in Consumes(a) * own;
      NewAnswers(w, a, rpc);
    }
  }

  lemma NewAnswers(w: World, a: Action, rpc: nat)
    requires EndpointOk(w.chain, w.endpoint) && KeysUnique(w.db.rows) && Enabled(w, a)
    requires !(a.Observe? && a.observation.SubmitAnswered? && a.observation.rpc == rpc)
    ensures IsAnswered(Apply(w, a).log, rpc) <==> IsAnswered(w.log, rpc)
  {
    hide Justified, UpdateJustified, SendJustified, Honest, Follows, MayInclude, Transitioned, UpdatedInStatus, KeysUnique;
    var w' := Apply(w, a);
    if IsAnswered(w'.log, rpc) {
      var o :| o in w'.log && o.SubmitAnswered? && o.rpc == rpc;
      assert o in w.log;
    }
    if IsAnswered(w.log, rpc) {
      var o :| o in w.log && o.SubmitAnswered? && o.rpc == rpc;
      assert o in w'.log;
    }
  }

  lemma UpdatePersists(log: set<Observation>, later: set<Observation>, id: Id, statuses: set<Status>, patch: Patch, why: UpdateWhy)
    requires UpdateJustified(log, id, statuses, patch, why) && log <= later
    ensures UpdateJustified(later, id, statuses, patch, why)
  {
  }

  lemma SendPersists(log: set<Observation>, later: set<Observation>, row: Row, head: nat)
    requires SendJustified(log, row, head) && log <= later
    ensures SendJustified(later, row, head)
  {
  }

  /**
   * From state `from` on, one prompt full-history endpoint with a monotone view has been connected.
   * A statement about the steps of one call, not about the whole run.
   */
  ghost predicate SteadySince(run: seq<World>, from: nat) {
    && (forall k | from <= k < |run| :: FullHistory(run[k].endpoint) && run[k].endpoint.prompt)
    && (forall j, k | from <= j <= k < |run| :: run[j].endpoint.head <= run[k].endpoint.head)
  }

  lemma SteadyPart(run: seq<World>, from: nat, part: seq<World>, later: nat)
    requires part <= run && from <= later
    ensures SteadySince(run, from) ==> SteadySince(part, later)
  {
    if SteadySince(run, from) {
      forall k | later <= k < |part| ensures FullHistory(part[k].endpoint) && part[k].endpoint.prompt {
        assert part[k] == run[k];
      }
      forall j, k | later <= j <= k < |part| ensures part[j].endpoint.head <= part[k].endpoint.head {
        assert part[j] == run[j] && part[k] == run[k];
      }
    }
  }

  lemma SteadyHeads(run: seq<World>, from: nat)
    requires from < |run| && SteadySince(run, from)
    ensures FullHistory(run[|run| - 1].endpoint) && run[|run| - 1].endpoint.prompt
    ensures run[from].endpoint.head <= run[|run| - 1].endpoint.head
  {
  }

  lemma SteadySearch(chain: Chain, e: Endpoint, hash: string, min: nat, max: nat, search: TxSearch)
    requires EndpointOk(chain, e) && FullHistory(e) && e.prompt && min >= 1 && e.head >= max
    requires HonestSearch(chain, e, hash, min, max, search)
    ensures search == NotFound(true) || (search.Found? && search.lookup.validated)
  {
    if search.NotFound? {
      assert forall i | min <= i <= max :: i <= e.head && i in e.held;
    }
  }

  /** What a column update tells about the row that is stored afterwards. */
  lemma UpdateOutcome(w: World, id: Id, statuses: set<Status>, patch: Patch, why: UpdateWhy)
    requires Inv(w) && UpdateJustified(w.log, id, statuses, patch, why)
    ensures id in w.db.rows
    ensures var (db, row) := UpdatedInStatus(w.db, id, statuses, patch);
      && id in db.rows
      && (row.Some? ==> row.value == db.rows[id] && db.rows[id].status in statuses && Stored(db.rows[id], patch))
      && (row.None? ==> db.rows[id].status !in statuses)
  {
    hide Inv, UpdateJustified, Stored, Patched;
    Witness(w.log, id, statuses, patch, why);
    SeenIsStored(w, why.row);
    UpdatesAreColumnPatches(w.log, id, statuses, patch, why);
    PatchKeepsIdentity(w.db.rows[id], patch);
    PatchIsStored(w.db.rows[id], patch);
  }

  lemma BusyMeansOwned(w: World, id: Id, request: TransitionRequest)
    requires Constraints(w.db.rows) && Transitioned(w.db, id, request).1.AccountIsBusy?
    ensures OwnedByAnother(w, w.db.rows[id])
  {
    var r := Target(w.db.rows[id], request);
    PatchKeepsIdentity(w.db.rows[id], request.patch);
    var other :| other in w.db.rows && other != r.id && OwnsSequence(w.db.rows[other]) && SameSlot(w.db.rows[other], r);
  }

  /** What a transition reply tells about the row that is stored afterwards. */
  lemma ChangeOutcome(w: World, id: Id, request: TransitionRequest, why: Why)
    requires Inv(w) && Justified(w.log, id, request, why)
    ensures id in w.db.rows
    ensures var (db, reply) := Transitioned(w.db, id, request);
      && id in db.rows && !reply.IllegalTransition?
      && (reply.Updated? ==>
            reply.row == db.rows[id] && db.rows[id].status == request.to && Stored(db.rows[id], request.patch))
      && (reply.NotInState? ==> db.rows[id].status !in request.from)
      && (reply.AccountIsBusy? ==> request.to == Prepared && db == w.db && OwnedByAnother(w, db.rows[id]))
      && (reply.HashIsTaken? ==>
            request.patch.SignaturePatch? && StoredElsewhere(w.db.rows, id, request.patch.txBlob))
  {
    hide Inv, Grows, Justified, SlotTaken, HashTaken, Constraints, Apply;
    JustifiedRow(w.log, id, request, why);
    SeenIsStored(w, why.row);
    TableFacts(w);
    JustifiedIsLegal(w, id, request, why);
    PatchIsStored(w.db.rows[id], request.patch);
    if Transitioned(w.db, id, request).1.AccountIsBusy? {
      BusyOnlyWhenTakingTheSlot(w.db, id, request);
      BusyMeansOwned(w, id, request);
    }
    if Transitioned(w.db, id, request).1.HashIsTaken? {
      HashClashNeedsSignature(w.db, id, request);
      HashClashExactlyWhen(w, id, request, why);
    }
  }

  /** `now` is at least as late as every earlier sighting of the same intent in `log`. */
  ghost predicate Latest(log: set<Observation>, now: Row) {
    forall r | RowSeen(r) in log && r.id == now.id :: Older(r, now)
  }

  /** `now` shows that the intent has moved on since `row` was read. */
  ghost predicate MovedOn(log: set<Observation>, row: Row, now: Row) {
    now.id == row.id && RowSeen(now) in log && Rank(row.status) < Rank(now.status)
  }

  lemma RefusedMeansMovedOn(log: set<Observation>, later: set<Observation>, row: Row, now: Row, from: set<Status>)
    requires RowSeen(row) in log && row.id == now.id && row.status in from
    requires Latest(log, now) && now.status !in from && RowSeen(now) in later
    ensures MovedOn(later, row, now)
  {
    assert Older(row, now);
  }

  lemma RereadMovedOn(log: set<Observation>, row: Row, now: Row, current: Row)
    requires MovedOn(log, row, now) && Latest(log, current) && current.id == row.id
    ensures Rank(row.status) < Rank(current.status)
  {
    assert Older(now, current);
  }

  /** Another intent of the same network and account owns the Sequence. */
  ghost predicate OwnedByAnother(w: World, r: Row) {
    exists id :: id in w.db.rows && id != r.id && OwnsSequence(w.db.rows[id]) && SameSlot(w.db.rows[id], r)
  }

  ghost predicate SlotWasTaken(run: seq<World>, from: nat, r: Row) {
    exists k :: from <= k < |run| && OwnedByAnother(run[k], r)
  }

  /** Another intent stored these signed bytes at some state from `from` on. */
  ghost predicate BlobWasTaken(run: seq<World>, from: nat, id: Id, blob: string) {
    exists k :: from <= k < |run| && StoredElsewhere(run[k].db.rows, id, blob)
  }

  lemma BlobSeenTaken(run: seq<World>, from: nat, k: nat, id: Id, blob: string)
    requires from <= k < |run| && StoredElsewhere(run[k].db.rows, id, blob)
    ensures BlobWasTaken(run, from, id, blob)
  {
  }

  lemma BlobSeenSince(run: seq<World>, longer: seq<World>, from: nat, later: nat, id: Id, blob: string)
    requires from <= later && run <= longer && BlobWasTaken(run, later, id, blob)
    ensures BlobWasTaken(longer, from, id, blob)
  {
    hide StoredElsewhere;
    var k :| later <= k < |run| && StoredElsewhere(run[k].db.rows, id, blob);
    assert longer[k] == run[k];
  }

  lemma SlotSeenTaken(run: seq<World>, from: nat, k: nat, r: Row)
    requires from <= k < |run| && OwnedByAnother(run[k], r)
    ensures SlotWasTaken(run, from, r)
  {
  }

  /** Only these statuses were written. */
  predicate WroteOnly(before: seq<(Id, Status)>, after: seq<(Id, Status)>, statuses: set<Status>) {
    before <= after && forall k | |before| <= k < |after| :: after[k].1 in statuses
  }

  /** At most one status was written, and it is `to`. */
  predicate WroteAtMost(before: seq<(Id, Status)>, after: seq<(Id, Status)>, id: Id, to: Status) {
    after == before || after == before + [(id, to)]
  }

  lemma NothingWritten(written: seq<(Id, Status)>, statuses: set<Status>)
    ensures WroteOnly(written, written, statuses)
  {
  }

  lemma OneWriteIsAllowed(before: seq<(Id, Status)>, after: seq<(Id, Status)>, id: Id, statuses: set<Status>)
    ensures forall to | to in statuses :: WroteAtMost(before, after, id, to) ==> WroteOnly(before, after, statuses)
  {
  }

  lemma WroteOnlyTogether(a: seq<(Id, Status)>, b: seq<(Id, Status)>, c: seq<(Id, Status)>, statuses: set<Status>)
    requires WroteOnly(a, b, statuses) && WroteOnly(b, c, statuses)
    ensures WroteOnly(a, c, statuses)
  {
  }

  class Backend {
    const intents: IntentsRepository
    var chain: Chain
    var endpoint: Endpoint
    var log: set<Observation>
    var sent: seq<(Id, string)>
    var recorded: set<nat>
    const malformed: set<string>
    var own: set<nat>           // submit RPCs whose answer this side still has to receive or record
    ghost var asked: nat        // endpoint switches this side has requested
    ghost var searched: nat     // transaction searches this side has had answered
    ghost var failed: nat       // ledger requests of this side that brought no answer
    ghost var submitted: nat    // submit RPCs this side has issued
    ghost var inserted: nat     // intents this side has created
    ghost var written: seq<(Id, Status)>  // status changes this side has committed
    ghost var run: seq<World>

    function Now(): World
      reads this, intents
    {
      World(intents.Contents(), chain, endpoint, log, sent, recorded, malformed)
    }

    ghost predicate Valid()
      reads this, intents
    {
      && intents.Valid()
      && |run| > 0 && IsRun(run)
      && run[|run| - 1] == Now()
      && forall rpc | rpc in own :: rpc < |sent|
    }

    /** Time passed: the run was extended, and nothing that was logged is lost. */
    twostate predicate Advanced()
      reads this, intents
    {
      && Valid()
      && old(run) <= run
      && old(log) <= log && old(sent) <= sent
      && old(failed) <= failed
    }

    /** This side may have changed statuses; it asked for no switch or search, sent nothing and left its RPCs alone. */
    twostate predicate Worked()
      reads this, intents
    {
      && Advanced()
      && asked == old(asked) && searched == old(searched) && submitted == old(submitted) && own == old(own)
    }

    /** Time passed, and this side did nothing but read. */
    twostate predicate Passed()
      reads this, intents
    {
      Worked() && written == old(written)
    }

    /** Nobody answered or recorded an RPC of ours meanwhile. */
    twostate predicate Undisturbed()
      reads this, intents
    {
      forall rpc | rpc in old(own) ::
        (rpc in recorded <==> rpc in old(recorded)) && (IsAnswered(log, rpc) <==> IsAnswered(old(log), rpc))
    }

    constructor (chain: Chain, endpoint: Endpoint, malformed: set<string>)
      requires Init(World(Db(map[], []), chain, endpoint, {}, [], {}, malformed))
      ensures Valid() && fresh(intents)
      ensures Now() == World(Db(map[], []), chain, endpoint, {}, [], {}, malformed)
      ensures own == {} && asked == 0 && searched == 0 && failed == 0 && submitted == 0 && inserted == 0 && written == []
    {
      this.intents := new IntentsRepository();
      this.chain := chain;
      this.endpoint := endpoint;
      this.log := {};
      this.sent, this.recorded := [], {};
      this.malformed := malformed;
      own, asked, searched, failed, submitted, inserted, written := {}, 0, 0, 0, 0, 0, [];
      new;
      run := [Now()];
    }

    /** The invariant, wherever the run stands. */
    lemma Sound()
      requires Valid()
      ensures Inv(Now()) && EndpointOk(chain, endpoint) && KeysUnique(intents.rows)
    {
      hide Inv, IsRun;
      LastHasInv(run);
      AccessFacts(Now());
    }

    /** Records the step that has just been taken. */
    ghost method Record(before: World, a: Action)
      requires IsRun(run) && run[|run| - 1] == before && intents.Valid()
      requires Inv(before) && EndpointOk(before.chain, before.endpoint) && KeysUnique(before.db.rows)
      requires Enabled(before, a) && Now() == Apply(before, a) && forall rpc | rpc in own :: rpc < |sent|
      modifies this`run
      ensures Valid() && run == old(run) + [Now()]
      ensures Inv(Now()) && Grows(before, Now())
    {
      hide Inv, Grows, Enabled, Apply;
      var longer := run + [Now()];
      assert Next(before, Now());
      forall i | 0 <= i < |longer| - 1 ensures Next(longer[i], longer[i + 1]) {
        if i < |run| - 1 {
          assert Next(run[i], run[i + 1]);
        }
      }
      ActionKeepsInv(before, a);
      run := longer;
    }
 
    /** One atomic step of the protocol. */
    method Execute(a: Action) returns (reply: Reply)
      requires Valid() && EndpointOk(chain, endpoint) && KeysUnique(intents.rows)
      requires Enabled(Now(), a)
      modifies this, intents
      ensures Passed() && run == old(run) + [Now()] && inserted == old(inserted)
      ensures Now() == Apply(old(Now()), a) && reply == ReplyTo(old(Now()), a)
      ensures Inv(Now()) && Grows(old(Now()), Now())
    {
      hide Inv, Grows, IsRun, Enabled, Apply, ReplyTo;
      ghost var before := Now();
      Sound();
      reply := Perform(a);
      Record(before, a);
      GrownLog(before, Now());
    }

    /** The step itself, before it is recorded in the run. */
    method Perform(a: Action) returns (reply: Reply)
      requires intents.Valid() && EndpointOk(chain, endpoint) && KeysUnique(intents.rows)
      requires Enabled(Now(), a)
      modifies this`chain, this`endpoint, this`log, this`sent, this`recorded, intents
      ensures intents.Valid()
      ensures Now() == Apply(old(Now()), a) && reply == ReplyTo(old(Now()), a)
      ensures old(|sent|) <= |sent|
    {
      hide Justified, UpdateJustified, SendJustified, Honest, Follows, MayInclude, Constraints, KeysUnique, CreatedIdempotent,
           Transitioned, UpdatedInStatus;
      match a {
        case CloseLedger(version) => chain := chain + [version]; reply := NoReply;
        case MoveEndpoint(e) => endpoint := e; reply := NoReply;
        case Observe(o) => log := log + {o}; reply := NoReply;
        case Create(row) =>
          var r := intents.CreateIdempotent(row);
          log := log + (if r.PrimaryKeyTaken? then {} else {RowSeen(r.row)});
          reply := CreationReply(r);
        case Change(id, request, why) =>
          var r := intents.Transition(id, request);
          log := log + Reread(intents.Contents(), id);
          recorded := recorded + Consumes(a);
          reply := ChangeReply(r);
        case Update(id, statuses, patch, why) =>
          UpdatesAreColumnPatches(log, id, statuses, patch, why);
          var r := intents.UpdateInStatus(id, statuses, patch);
          log := log + Reread(intents.Contents(), id) + (if why.ByBaseline? then {BaselineWritten(id)} else {});
          recorded := recorded + Consumes(a);
          reply := UpdateReply(r);
        case Send(row, head) => SendHasBlob(log, row, head); sent := sent + [(row.id, row.signedTxBlob.value)]; reply := NoReply;
      }
    }

    /** Any number of steps by anyone else: what happens while a call awaits. */
    method Yield()
      requires Valid()
      modifies this, intents
      ensures Passed() && Undisturbed() && inserted == old(inserted)
    {
      hide Inv, Grows, IsRun, Enabled, Apply, ReplyTo;
      var n := Pick<nat>();
      while n > 0
        invariant Passed() && Undisturbed() && inserted == old(inserted)
      {
        var a := Pick<Action>();
        Sound();
        if Enabled(Now(), a) && !TouchesOwn(a, own) {
          OthersLeaveOwnAlone(Now(), a, own);
          var _ := Execute(a);
        }
        n := n - 1;
      }
    }
 
    // ---- database operations ---------------------------------------------------------------

    method FindById(id: Id) returns (row: Option<Row>)
      requires Valid()
      modifies this, intents
      ensures Passed()
      ensures row.Some? ==>
        row.value.id == id && RowSeen(row.value) in log && Complete(row.value) && Latest(old(log), row.value)
      ensures row.None? ==> forall r | RowSeen(r) in old(log) :: r.id != id
    {
      hide Inv, Grows, Complete, Latest, IsRun;
      Yield();
      Sound();
      row := intents.FindById(id);
      if row.Some? {
        ReadIsLatest(Now(), old(log), id);
        var _ := Execute(Observe(RowSeen(row.value)));
      } else {
        forall r | RowSeen(r) in old(log) ensures r.id != id {
          if r.id == id {
            SeenIsStored(Now(), r);
          }
        }
      }
    }
 
    /** The rows in the given statuses, and the moment at which these were all of them. */
    method FindByStatuses(statuses: set<Status>) returns (rows: seq<Row>, ghost at: nat)
      requires Valid()
      modifies this, intents
      ensures Passed()
      ensures old(|run|) - 1 <= at < |run|
      ensures forall id | id in run[at].db.rows && run[at].db.rows[id].status in statuses :: run[at].db.rows[id] in rows
      ensures forall row | row in rows :: row.status in statuses && RowSeen(row) in log && Complete(row)
    {
      hide Inv, Grows, Complete, Latest, IsRun, OldestFirst, ReplyTo;
      Yield();
      Sound();
      ghost var w := Now();
      at := |run| - 1;
      rows := intents.FindByStatuses(statuses);
      OldestFirstIsExact(intents.rows, statuses);
      forall row | row in rows ensures Complete(row) {
        RowIsComplete(w, row.id);
      }
      var k := 0;
      while k < |rows|
        invariant 0 <= k <= |rows| && Passed() && at < |run| && run[at] == w
        invariant intents.rows == w.db.rows && chain == w.chain && endpoint == w.endpoint
        invariant forall j | 0 <= j < k :: RowSeen(rows[j]) in log
      {
        Sound();
        assert rows[k] in rows;
        var _ := Execute(Observe(RowSeen(rows[k])));
        k := k + 1;
      }
    }

    /** A record write spends the answer of an RPC of our own; any other write leaves them alone. */
    method Transition(id: Id, request: TransitionRequest, why: Why) returns (reply: TransitionReply, ghost now: Row)
      requires Valid() && Justified(log, id, request, why)
      requires why.BySubmission? ==> why.rpc in own && why.rpc !in recorded
      modifies this, intents
      ensures Advanced() && asked == old(asked) && searched == old(searched) && submitted == old(submitted)
      ensures own == if why.BySubmission? then old(own) - {why.rpc} else old(own)
      ensures why.BySubmission? ==> why.rpc in recorded
      ensures written == old(written) + (if reply.Updated? then [(id, request.to)] else [])
      ensures now.id == id && RowSeen(now) in log && Complete(now) && Latest(old(log), now)
      ensures reply.Updated? ==> reply.row == now && now.status == request.to && Stored(now, request.patch)
      ensures reply.NotInState? ==> now.status !in request.from
      ensures !reply.IllegalTransition?
      ensures reply.AccountIsBusy? ==> request.to == Prepared && SlotWasTaken(run, old(|run|) - 1, now)
      ensures reply.HashIsTaken? ==>
        request.patch.SignaturePatch? && BlobWasTaken(run, old(|run|) - 1, id, request.patch.txBlob)
    {
      hide Inv, Grows, Complete, Latest, IsRun, Justified, Transitioned, Stored, OwnedByAnother, SlotWasTaken,
           StoredElsewhere, BlobWasTaken;
      reply, now := Attempt(id, request, why);
      if why.BySubmission? {
        own := own - {why.rpc};
      }
      if reply.Updated? {
        written := written + [(id, request.to)];
      }
    }

    /** The atomic step of a transition, and the row read back. */
    method Attempt(id: Id, request: TransitionRequest, why: Why) returns (reply: TransitionReply, ghost now: Row)
      requires Valid() && Justified(log, id, request, why)
      requires why.BySubmission? ==> why.rpc in own && why.rpc !in recorded
      modifies this, intents
      ensures Passed()
      ensures why.BySubmission? ==> why.rpc in recorded
      ensures now.id == id && RowSeen(now) in log && Complete(now) && Latest(old(log), now)
      ensures reply.Updated? ==> reply.row == now && now.status == request.to && Stored(now, request.patch)
      ensures reply.NotInState? ==> now.status !in request.from
      ensures !reply.IllegalTransition?
      ensures reply.AccountIsBusy? ==> request.to == Prepared && SlotWasTaken(run, old(|run|) - 1, now)
      ensures reply.HashIsTaken? ==>
        request.patch.SignaturePatch? && BlobWasTaken(run, old(|run|) - 1, id, request.patch.txBlob)
    {
      hide Inv, Grows, Complete, Latest, IsRun, Justified, Transitioned, Stored, OwnedByAnother, SlotWasTaken,
           StoredElsewhere, BlobWasTaken;
      hide Enabled, Apply, ReplyTo;
      ghost var entry := log;
      Yield();
      Sound();
      JustifiedPersists(entry, log, id, request, why);
      ChangeOutcome(Now(), id, request, why);
      ChangeStep(Now(), id, request, why);
      ghost var k: nat := |run| - 1;
      var answer := Execute(Change(id, request, why));
      reply := answer.transition;
      now := intents.rows[id];
      ReadIsLatest(Now(), entry, id);
      if reply.AccountIsBusy? {
        SlotSeenTaken(run, old(|run|) - 1, k, now);
      } else if reply.HashIsTaken? {
        BlobSeenTaken(run, old(|run|) - 1, k, id, request.patch.txBlob);
      }
    }

    method UpdateInStatus(id: Id, statuses: set<Status>, patch: Patch, why: UpdateWhy)
      returns (row: Option<Row>, ghost now: Row)
      requires Valid() && UpdateJustified(log, id, statuses, patch, why)
      requires why.ByResubmission? ==> why.rpc in own && why.rpc !in recorded
      modifies this, intents
      ensures Advanced() && asked == old(asked) && searched == old(searched) && submitted == old(submitted) && written == old(written)
      ensures own == if why.ByResubmission? then old(own) - {why.rpc} else old(own)
      ensures why.ByResubmission? ==> why.rpc in recorded
      ensures now.id == id && RowSeen(now) in log && Complete(now) && Latest(old(log), now)
      ensures row.Some? ==> row.value == now && now.status in statuses && Stored(now, patch)
      ensures row.None? ==> now.status !in statuses
      ensures why.ByBaseline? ==> BaselineWritten(id) in log
      ensures forall rpc | rpc in own :: rpc in recorded <==> rpc in old(recorded)
    {
      hide Inv, Grows, Complete, Latest, IsRun, UpdateJustified, Stored, Patched;
      row, now := Amend(id, statuses, patch, why);
      if why.ByResubmission? {
        own := own - {why.rpc};
      }
    }

    /** The atomic step of a column update, and the row read back. */
    method Amend(id: Id, statuses: set<Status>, patch: Patch, why: UpdateWhy) returns (row: Option<Row>, ghost now: Row)
      requires Valid() && UpdateJustified(log, id, statuses, patch, why)
      requires why.ByResubmission? ==> why.rpc in own && why.rpc !in recorded
      modifies this, intents
      ensures Passed()
      ensures why.ByResubmission? ==> why.rpc in recorded
      ensures now.id == id && RowSeen(now) in log && Complete(now) && Latest(old(log), now)
      ensures row.Some? ==> row.value == now && now.status in statuses && Stored(now, patch)
      ensures row.None? ==> now.status !in statuses
      ensures why.ByBaseline? ==> BaselineWritten(id) in log
      ensures forall rpc | rpc in own && (why.ByResubmission? ==> rpc != why.rpc) :: rpc in recorded <==> rpc in old(recorded)
    {
      hide Inv, Grows, Complete, Latest, IsRun, UpdateJustified, Stored, Patched, UpdatedInStatus;
      ghost var entry := log;
      Yield();
      Sound();
      UpdatePersists(entry, log, id, statuses, patch, why);
      UpdateOutcome(Now(), id, statuses, patch, why);
      var answer := Execute(Update(id, statuses, patch, why));
      row := answer.updated;
      now := intents.rows[id];
      ReadIsLatest(Now(), entry, id);
    }

    method List(filter: ListFilter, limit: nat) returns (rows: seq<Row>)
      requires Valid()
      modifies this, intents
      ensures Passed()
      ensures KeyedById(intents.rows) && rows == Listed(intents.rows, filter, limit)
    {
      hide Inv, Grows, IsRun, Listed;
      Yield();
      Sound();
      rows := intents.List(filter, limit);
    }

    method CreateIdempotent(row: Row) returns (reply: CreateReply)
      requires Valid()
      requires row == NewRow(row.id, row.idempotencyKey, row.requestHash, configuredNetworkId, row.createdAt, row.payload)
      modifies this, intents
      ensures Passed()
      ensures reply.Inserted? ==> reply.row == row
      ensures inserted == old(inserted) + (if reply.Inserted? then 1 else 0)
      ensures reply.Existing? ==> reply.row.idempotencyKey == row.idempotencyKey
      ensures if reply.PrimaryKeyTaken? then row.id in intents.rows else RowSeen(reply.row) in log
    {
      hide Inv, Grows, IsRun;
      Yield();
      Sound();
      var answer := Execute(Create(row));
      reply := answer.creation;
      if reply.Inserted? {
        inserted := inserted + 1;
      }
    }

    // ---- ledger requests -------------------------------------------------------------------
    // Each may fail as unavailable; an answer is an honest one of the endpoint connected by then.

    method ValidatedLedgerIndex() returns (r: Result<nat>)
      requires Valid()
      modifies this, intents
      ensures Passed()
      ensures r.Success? ==> LedgerSeen(r.value) in log
      ensures r.Success? && SteadySince(run, old(|run|) - 1) ==> old(endpoint.head) <= r.value <= endpoint.head
      ensures r.Failure? ==> r.error == XrplUnavailable && failed > old(failed)
    {
      hide Inv, Grows, IsRun;
      Yield();
      var up := Pick<bool>();
      if !up {
        failed := failed + 1;
        return Failure(XrplUnavailable);
      }
      Sound();
      ghost var from: nat := old(|run|) - 1;
      var _ := Execute(Observe(LedgerSeen(endpoint.head)));
      assert SteadySince(run, from) ==> old(endpoint.head) <= endpoint.head by {
        assert run[from].endpoint == old(endpoint);
      }
      return Success(endpoint.head);
    }

    method ValidatedAccountInfo(account: string) returns (r: Result<Option<AccountInfo>>)
      requires Valid()
      modifies this, intents
      ensures Passed()
      ensures r.Success? ==> AccountSeen(account, r.value) in log
      ensures r.Success? && r.value.Some? && SteadySince(run, old(|run|) - 1) ==>
        r.value.value.ledgerIndex.Some? && old(endpoint.head) <= r.value.value.ledgerIndex.value
      ensures r.Failure? ==> r.error == XrplUnavailable && failed > old(failed)
    {
      hide Inv, Grows, IsRun;
      Yield();
      var info := Pick<Option<AccountInfo>>();
      Sound();
      if !HonestAccount(chain, endpoint, account, info) {
        failed := failed + 1;
        return Failure(XrplUnavailable);
      }
      ghost var from: nat := old(|run|) - 1;
      var _ := Execute(Observe(AccountSeen(account, info)));
      assert SteadySince(run, from) ==> old(endpoint.head) <= endpoint.head by {
        assert run[from].endpoint == old(endpoint);
      }
      return Success(info);
    }

    method Tx(hash: string, min: nat, max: nat) returns (r: Result<TxSearch>)
      requires Valid() && min >= 1
      modifies this, intents
      ensures Advanced() && asked == old(asked) && submitted == old(submitted) && own == old(own) && written == old(written)
      ensures searched == old(searched) + (if r.Success? then 1 else 0)
      ensures r.Success? ==> Searched(hash, min, max, r.value) in log
      ensures r.Success? && SteadySince(run, old(|run|) - 1) && old(endpoint.head) >= max ==>
        r.value == NotFound(true) || (r.value.Found? && r.value.lookup.validated)
      ensures r.Failure? ==> r.error == XrplUnavailable && failed > old(failed)
    {
      hide Inv, Grows, IsRun, HonestSearch;
      Yield();
      var search := Pick<TxSearch>();
      Sound();
      if !HonestSearch(chain, endpoint, hash, min, max, search) {
        failed := failed + 1;
        return Failure(XrplUnavailable);
      }
      ghost var from: nat := old(|run|) - 1;
      var _ := Execute(Observe(Searched(hash, min, max, search)));
      searched := searched + 1;
      if SteadySince(run, from) && old(endpoint.head) >= max {
        assert run[from].endpoint == old(endpoint);
        SteadyHeads(run, from);
        SteadySearch(chain, endpoint, hash, min, max, search);
      }
      return Success(search);
    }

    /** The answer is stored whole; nothing is assumed of what a simulation says. */
    method Simulate(transaction: Fields) returns (r: Result<SimulationRaw>)
      requires Valid()
      modifies this, intents
      ensures Passed()
      ensures r.Success? ==> SimulationAnswered(transaction, r.value) in log
      ensures r.Failure? ==> r.error == XrplUnavailable && failed > old(failed)
    {
      hide Inv, Grows, IsRun;
      Yield();
      var up := Pick<bool>();
      if !up {
        failed := failed + 1;
        return Failure(XrplUnavailable);
      }
      var raw := Pick<SimulationRaw>();
      Sound();
      var _ := Execute(Observe(SimulationAnswered(transaction, raw)));
      return Success(raw);
    }

    /**
     * Sends the row's signed blob as one more numbered RPC. The answer may be lost after the blob
     * has gone out; one that arrives is ours alone to record.
     */
    method Submit(row: Row, head: nat) returns (r: Result<string>, rpc: nat)
      requires Valid() && SendJustified(log, row, head) && row.signedTxBlob.Some?
      modifies this, intents
      ensures Advanced() && asked == old(asked) && searched == old(searched) && submitted == old(submitted) + 1 && written == old(written)
      ensures old(|sent|) <= rpc < |sent| && sent[rpc] == (row.id, row.signedTxBlob.value) && rpc !in old(own)
      ensures own == if r.Success? then old(own) + {rpc} else old(own)
      ensures r.Success? ==> SubmitAnswered(rpc, row.id, row.signedTxBlob.value, r.value) in log && rpc !in recorded
      ensures r.Failure? ==> r.error == XrplUnavailable && failed > old(failed)
    {
      hide Inv, IsRun, SendJustified, Grows, IsAnswered, ReplyTo;
      ghost var entry := log;
      Yield();
      Sound();
      SendPersists(entry, log, row, head);
      NextNumberIsFresh(Now());
      rpc := |sent|;
      var _ := Execute(Send(row, head));
      own := own + {rpc};
      submitted := submitted + 1;
      r := Answer(row.id, row.signedTxBlob.value, rpc);
    }

    /** Awaits the answer to RPC `rpc`. */
    method Answer(id: Id, blob: string, rpc: nat) returns (r: Result<string>)
      requires Valid() && rpc in own && sent[rpc] == (id, blob) && !IsAnswered(log, rpc) && rpc !in recorded
      modifies this, intents
      ensures Advanced() && asked == old(asked) && searched == old(searched) && submitted == old(submitted) && written == old(written)
      ensures own == if r.Success? then old(own) else old(own) - {rpc}
      ensures r.Success? ==> SubmitAnswered(rpc, id, blob, r.value) in log && rpc !in recorded
      ensures r.Failure? ==> r.error == XrplUnavailable && failed > old(failed)
    {
      hide Inv, IsRun, Grows, IsAnswered, ReplyTo;
      Yield();
      Sound();
      var engineResult := Pick<string>();
      if IsMalformedResult(engineResult) && blob !in malformed {
        own := own - {rpc};
        failed := failed + 1;
        return Failure(XrplUnavailable);
      }
      var _ := Execute(Observe(SubmitAnswered(rpc, id, blob, engineResult)));
      return Success(engineResult);
    }

    /** Asks for the other endpoint; whichever is connected afterwards may be any honest one. */
    method SwitchEndpoint() returns (r: Result<()>)
      requires Valid()
      modifies this, intents
      ensures Advanced() && searched == old(searched) && submitted == old(submitted) && own == old(own) && written == old(written)
      ensures asked == old(asked) + 1
      ensures r.Failure? ==> r.error == XrplUnavailable && failed > old(failed)
    {
      asked := asked + 1;
      Yield();
      var up := Pick<bool>();
      if !up {
        failed := failed + 1;
        return Failure(XrplUnavailable);
      }
      return Success(());
    }

    /** The account's Sequence in the open ledger, and how many of its transactions are queued. */
    method CurrentAccountInfo(account: string) returns (r: Result<(nat, nat)>)
      requires Valid()
      modifies this, intents
      ensures Passed()
      ensures r.Success? ==> OpenAccountSeen(account, r.value.0, r.value.1) in log
      ensures r.Failure? ==> r.error == XrplUnavailable && failed > old(failed)
    {
      hide Inv, Grows, IsRun;
      Yield();
      var up := Pick<bool>();
      if !up {
        failed := failed + 1;
        return Failure(XrplUnavailable);
      }
      var sequence := Pick<nat>();
      var queued := Pick<nat>();
      Sound();
      var _ := Execute(Observe(OpenAccountSeen(account, sequence, queued)));
      return Success((sequence, queued));
    }

    method OpenLedgerFee() returns (r: Result<nat>)
      requires Valid()
      modifies this, intents
      ensures Passed()
      ensures r.Success? ==> FeeSeen(r.value) in log
      ensures r.Failure? ==> r.error == XrplUnavailable && failed > old(failed)
    {
      hide Inv, Grows, IsRun;
      Yield();
      var up := Pick<bool>();
      if !up {
        failed := failed + 1;
        return Failure(XrplUnavailable);
      }
      var drops := Pick<nat>();
      Sound();
      var _ := Execute(Observe(FeeSeen(drops)));
      return Success(drops);
    }
  }
}
