/**
 * Runs that reach the states the theorems speak of. The library is unknown, so they are conditional:
 * for every intent, prepared blob, echo and signature that the library accepts, and for every ledger
 * at which it is prepared, there is a run in which that intent is submitted, one in which it is
 * validated, one in which it expires, one in which two racing submits overwrite each other's
 * baseline, one in which signing meets a Sequence regression, one in which a lagging read fails it,
 * and one in which the hash index refuses its signature to a second intent.
 */
module Witnesses {
  import opened Wrappers
  import opened IntentState
  import opened Transactions
  import opened Intents
  import opened Ledger
  import opened SignedBlobs
  import opened Decisions
  import opened Protocol
  import opened Invariant
  import opened Theorems

  /** Everything a client, the library and the ledger contribute to the life of one intent. */
  datatype Script = Script(
    id: Id, key: string, requestHash: string, createdAt: nat, payload: Payload,
    ledger: nat, sequence: nat, fee: nat, prepared: string, raw: SimulationRaw, signed: VerifiedBlob,
    regularKey: Option<string>, disableMasterKey: bool)

  /** The account as an endpoint with this newest ledger reports it. */
  function Read(s: Script, index: nat): AccountInfo {
    AccountInfo(Some(index), s.sequence, s.regularKey, s.disableMasterKey)
  }

  function Window(s: Script): nat {
    LastLedgerSequenceFor(s.ledger)
  }

  function Built(s: Script): Fields {
    BuildTransaction(s.payload, Params(s.fee, s.sequence, Window(s), configuredNetworkId))
  }

  /** The library accepts what the script says it prepared, simulated and signed. */
  predicate Plausible(s: Script) {
    && s.ledger >= 1
    && 1 <= s.fee <= MAX_FEE_DROPS
    && ValidTransaction(Built(s)) && EncodeTransaction(Built(s)) == Some(s.prepared)
    && s.raw.engineResult == SUCCESS && SimulationMatchesPrepared(Built(s), s.raw.txJson)
    && IsSignedForm(s.signed, s.prepared)
    && IsAuthorized(s.signed.signingPubKey, s.payload.account, Read(s, s.ledger))
  }

  // ---- the rows on the way -----------------------------------------------------------------

  function NewIntent(s: Script): Row {
    NewRow(s.id, s.key, s.requestHash, configuredNetworkId, s.createdAt, s.payload)
  }

  /** The columns every row from PREPARED on has in common. */
  predicate IsPrepared(r: Row, s: Script) {
    && HasPreparation(r) && r.id == s.id && r.idempotencyKey == s.key
    && r.sourceAccount == s.payload.account && r.payload == s.payload
    && r.sequence == Some(s.sequence) && r.preparedLedgerIndex == Some(s.ledger) && r.lastLedgerSequence == Some(Window(s))
    && r.preparedTxJson == Some(Built(s)) && r.preparedTxBlob == Some(s.prepared)
  }

  function PreparedRow(s: Script): (r: Row)
    ensures IsPrepared(r, s) && r.status == Prepared
    ensures r.simulationEngineResult == None && !HasSignature(r) && r.transactionHash == None
  {
    Patched(NewIntent(s), PreparedPatch(Built(s), s.prepared, s.ledger, s.sequence, s.fee, Window(s))).(status := Prepared)
  }

  function SimulatedRow(s: Script): (r: Row)
    ensures IsPrepared(r, s) && r.status == Simulated && r.simulationEngineResult == Some(s.raw.engineResult)
    ensures !HasSignature(r) && r.transactionHash == None
  {
    Patched(PreparedRow(s), SimulationPatch(s.raw)).(status := Simulated)
  }

  function AwaitingRow(s: Script): (r: Row)
    ensures IsPrepared(r, s) && r.status == AwaitingSignature && !HasSignature(r) && r.transactionHash == None
  {
    SimulatedRow(s).(status := AwaitingSignature)
  }

  function SignedRow(s: Script): (r: Row)
    ensures IsPrepared(r, s) && HasSignature(r) && r.status == Signed
    ensures r.submissionValidatedLedger == None && r.submissionAttemptCount == 0
    ensures r.signedTxBlob == Some(s.signed.txBlob) && r.transactionHash == Some(s.signed.transactionHash)
  {
    Patched(AwaitingRow(s), SignaturePatch(s.signed.txBlob, s.signed.transactionHash, s.signed.signingPubKey)).(status := Signed)
  }

  function BaselineRow(s: Script): (r: Row)
    ensures IsPrepared(r, s) && HasSignature(r) && r.status == Signed
    ensures r.submissionValidatedLedger == Some(s.ledger) && r.submissionAttemptCount == 0
    ensures r.signedTxBlob == Some(s.signed.txBlob) && r.transactionHash == Some(s.signed.transactionHash)
  {
    SignedRow(s).(submissionValidatedLedger := Some(s.ledger))
  }

  const MALFORMED := "temMALFORMED"

  function RejectedRow(s: Script): (r: Row)
    ensures r.id == s.id && r.idempotencyKey == s.key && r.status == Rejected
    ensures r.signedTxBlob == Some(s.signed.txBlob) && r.transactionHash == Some(s.signed.transactionHash)
  {
    Patched(BaselineRow(s), RecordedPatch(MALFORMED)).(status := Rejected)
  }

  // ---- the ledger meanwhile ----------------------------------------------------------------

  function QuietVersion(s: Script): Version {
    Version(map[], map[s.payload.account := s.sequence], {s.payload.account})
  }

  /** `first`, and then versions in which nothing of the service's happens: n in all. */
  function ChainFrom(first: Version, s: Script, n: nat): Chain
    requires n >= 1
  {
    [first] + seq(n - 1, _ => QuietVersion(s))
  }

  function Quiet(s: Script, n: nat): Chain
    requires n >= 1
  {
    ChainFrom(QuietVersion(s), s, n)
  }

  /** A version that may come before the quiet ones. */
  predicate MayComeFirst(first: Version, s: Script) {
    first.txs == map[] && forall account | account in first.next :: first.next[account] <= NextSequence(QuietVersion(s), account)
  }

  /** No transaction of the service's is in any version. */
  ghost predicate NothingHappens(chain: Chain) {
    ChainOk(chain) && forall version | version in chain :: version.txs == map[]
  }

  lemma ChainFromIsOk(first: Version, s: Script, n: nat)
    requires n >= 1 && MayComeFirst(first, s)
    ensures var chain := ChainFrom(first, s, n);
      && NothingHappens(chain) && |chain| == n && chain[0] == first
      && forall i | 1 <= i < n :: chain[i] == QuietVersion(s)
  {
    var chain := ChainFrom(first, s, n);
    forall i | 2 <= i <= |chain| ensures LinkOk(chain, i) {
      assert chain[i - 1] == QuietVersion(s) && chain[i - 2] in {first, QuietVersion(s)};
    }
  }

  lemma QuietIsOk(s: Script, n: nat)
    requires n >= 1
    ensures var chain := Quiet(s, n);
      NothingHappens(chain) && |chain| == n && forall i | 0 <= i < n :: chain[i] == QuietVersion(s)
  {
    hide NothingHappens;
    ChainFromIsOk(QuietVersion(s), s, n);
  }

  function UpTo(n: nat): (all: set<nat>)
    ensures forall i: nat :: i in all <==> i <= n
  {
    if n == 0 then {0} else UpTo(n - 1) + {n}
  }

  function Whole(head: nat): Endpoint {
    Endpoint(head, UpTo(head), true)
  }

  // ---- taking steps ------------------------------------------------------------------------

  /** Everything but the row the run is about: other rows, the ledger, the endpoint's head, malformed blobs. */
  datatype Setting = Setting(others: map<Id, Row>, chain: Chain, head: nat, malformed: set<string>)

  /** An intent on its own. */
  function Alone(chain: Chain, head: nat): Setting {
    Setting(map[], chain, head, {})
  }

  /** The other rows leave the slot and the key of `row` alone. */
  ghost predicate Fits(row: Row, t: Setting) {
    && KeysUnique(t.others) && row.id !in t.others
    && forall id | id in t.others :: !OwnsSequence(t.others[id]) && t.others[id].idempotencyKey != row.idempotencyKey
  }

  ghost predicate Scene(w: World, row: Row, t: Setting) {
    && w.db.rows == t.others[row.id := row] && RowSeen(row) in w.log
    && w.chain == t.chain && w.endpoint == Whole(t.head) && w.malformed == t.malformed
    && 1 <= t.head <= |t.chain| && Fits(row, t)
  }

  ghost predicate Ends(run: seq<World>, row: Row, t: Setting) {
    IsRun(run) && |run| > 0 && Scene(run[|run| - 1], row, t)
  }

  function Last(run: seq<World>): World
    requires |run| > 0
  {
    run[|run| - 1]
  }

  /** Nothing was sent or recorded in between. */
  ghost predicate Silent(w: World, w': World) {
    w.log <= w'.log && w'.sent == w.sent && w'.recorded == w.recorded
  }

  lemma SceneIsInOrder(w: World, row: Row, t: Setting)
    requires Scene(w, row, t)
    ensures EndpointOk(w.chain, w.endpoint) && KeysUnique(w.db.rows)
    ensures row.id in w.db.rows && w.db.rows[row.id] == row
  {
  }

  lemma Take(run: seq<World>, a: Action) returns (longer: seq<World>)
    requires IsRun(run) && |run| > 0
    requires EndpointOk(Last(run).chain, Last(run).endpoint) && KeysUnique(Last(run).db.rows)
    requires Enabled(Last(run), a)
    ensures IsRun(longer) && |longer| > 0 && longer == run + [Apply(Last(run), a)]
  {
    hide Init, Enabled, Apply, KeysUnique;
    longer := run + [Apply(Last(run), a)];
    assert Next(Last(run), Apply(Last(run), a));
    forall i | 0 <= i < |longer| - 1 ensures Next(longer[i], longer[i + 1]) {
      if i < |run| - 1 {
        assert Next(run[i], run[i + 1]);
      }
    }
  }

  /** Something is read; the scene stays as it is. */
  lemma Look(run: seq<World>, row: Row, t: Setting, o: Observation) returns (longer: seq<World>)
    requires Ends(run, row, t) && Honest(Last(run), o)
    ensures Ends(longer, row, t) && Silent(Last(run), Last(longer)) && Last(longer).log == Last(run).log + {o}
  {
    hide IsRun, Honest, KeysUnique, Fits;
    SceneIsInOrder(Last(run), row, t);
    longer := Take(run, Observe(o));
  }

  /** The endpoint changes, or catches up with the chain. */
  lemma Move(run: seq<World>, row: Row, t: Setting, to: nat) returns (longer: seq<World>)
    requires Ends(run, row, t) && 1 <= to <= |t.chain|
    ensures Ends(longer, row, t.(head := to)) && Silent(Last(run), Last(longer))
  {
    hide IsRun, KeysUnique;
    SceneIsInOrder(Last(run), row, t);
    longer := Take(run, MoveEndpoint(Whole(to)));
  }

  lemma PatchStillFits(row: Row, request: TransitionRequest, t: Setting)
    requires Fits(row, t)
    ensures Fits(Target(row, request), t) && Target(row, request).id == row.id
  {
    hide Patched, KeysUnique;
    PatchKeepsIdentity(row, request.patch);
  }

  lemma NoIndexInTheWay(w: World, row: Row, t: Setting, request: TransitionRequest)
    requires Scene(w, row, t) && row.status in request.from && CanTransition(row.status, request.to)
    requires Target(row, request).transactionHash.None? || t.others == map[]
    ensures Transitioned(w.db, row.id, request).1.Updated?
    ensures Transitioned(w.db, row.id, request).0.rows == t.others[row.id := Target(row, request)]
  {
    hide Patched, KeysUnique;
    PatchKeepsIdentity(row, request.patch);
  }

  /** A status changes: no unique index is in the way. */
  lemma Advance(run: seq<World>, row: Row, t: Setting, request: TransitionRequest, why: Why) returns (longer: seq<World>)
    requires Ends(run, row, t) && Justified(Last(run).log, row.id, request, why)
    requires Consumes(Change(row.id, request, why)) !! Last(run).recorded
    requires row.status in request.from && CanTransition(row.status, request.to)
    requires Target(row, request).transactionHash.None? || t.others == map[]
    ensures Ends(longer, Target(row, request), t)
    ensures Last(run).log <= Last(longer).log && Last(longer).sent == Last(run).sent
    ensures Last(longer).recorded == Last(run).recorded + Consumes(Change(row.id, request, why))
  {
    hide IsRun, Justified, Target, Fits, KeysUnique, Transitioned;
    SceneIsInOrder(Last(run), row, t);
    PatchStillFits(row, request, t);
    NoIndexInTheWay(Last(run), row, t, request);
    longer := Take(run, Change(row.id, request, why));
  }

  /** A baseline is written over whatever is stored while the intent is SIGNED. */
  lemma WriteBaseline(run: seq<World>, row: Row, seen: Row, t: Setting, ledger: nat) returns (longer: seq<World>)
    requires Ends(run, row, t) && row.status == Signed && seen.id == row.id
    requires UpdateJustified(Last(run).log, row.id, {Signed}, BaselinePatch(ledger), ByBaseline(seen, ledger))
    ensures |longer| == |run| + 1 && run <= longer
    ensures Ends(longer, row.(submissionValidatedLedger := Some(ledger)), t) && Silent(Last(run), Last(longer))
    ensures BaselineWritten(row.id) in Last(longer).log
  {
    hide IsRun, UpdateJustified, KeysUnique;
    SceneIsInOrder(Last(run), row, t);
    var updated := row.(submissionValidatedLedger := Some(ledger));
    longer := Take(run, Update(row.id, {Signed}, BaselinePatch(ledger), ByBaseline(seen, ledger)));
    assert t.others[row.id := row][row.id := updated] == t.others[row.id := updated];
  }

  // ---- to AWAITING_SIGNATURE ---------------------------------------------------------------

  /** The endpoint stands at the ledger of the preparation, where the account has the script's Sequence. */
  predicate Stage(s: Script, t: Setting) {
    && t.head == s.ledger && 1 <= s.ledger <= |t.chain|
    && AccountAt(t.chain, s.ledger, s.payload.account) == Some(s.sequence)
  }

  /** What has been read by the time the intent is prepared. */
  predicate HasRead(log: set<Observation>, s: Script) {
    AccountSeen(s.payload.account, Some(Read(s, s.ledger))) in log && LedgerSeen(s.ledger) in log
  }

  lemma Start(s: Script, t: Setting) returns (run: seq<World>)
    requires t.others == map[] && 1 <= t.head <= |t.chain| && NothingHappens(t.chain)
    ensures Ends(run, NewIntent(s), t) && Last(run).sent == [] && Last(run).recorded == {}
  {
    hide NewRow, ChainOk;
    var start := World(Db(map[], []), t.chain, Whole(t.head), {}, [], {}, t.malformed);
    run := [start];
    assert Init(start);
    assert IsRun(run);
    run := Begin(run, s, t);
  }

  /** The intent is created beside the other rows. */
  lemma Begin(run: seq<World>, s: Script, t: Setting) returns (longer: seq<World>)
    requires IsRun(run) && |run| > 0 && 1 <= t.head <= |t.chain| && Fits(NewIntent(s), t)
    requires var w := Last(run);
      w.db.rows == t.others && w.chain == t.chain && w.endpoint == Whole(t.head) && w.malformed == t.malformed
    ensures Ends(longer, NewIntent(s), t) && Silent(Last(run), Last(longer))
  {
    hide IsRun, KeysUnique;
    longer := Take(run, Create(NewIntent(s)));
    assert !HasKey(t.others, s.key);
  }

  lemma ReadForPreparing(run: seq<World>, s: Script, t: Setting) returns (longer: seq<World>)
    requires Ends(run, NewIntent(s), t) && Stage(s, t)
    ensures Ends(longer, NewIntent(s), t) && Silent(Last(run), Last(longer)) && HasRead(Last(longer).log, s)
  {
    hide IsRun, Fits, NewRow;
    longer := Look(run, NewIntent(s), t, LedgerSeen(s.ledger));
    longer := Look(longer, NewIntent(s), t, AccountSeen(s.payload.account, Some(Read(s, s.ledger))));
  }

  lemma ReachPrepared(run: seq<World>, s: Script, t: Setting) returns (longer: seq<World>)
    requires Ends(run, NewIntent(s), t) && Stage(s, t) && Plausible(s)
    ensures Ends(longer, PreparedRow(s), t) && Silent(Last(run), Last(longer)) && HasRead(Last(longer).log, s)
  {
    hide IsRun, Fits, BuildTransaction, EncodeTransaction, ValidTransaction, SimulationMatchesPrepared, IsSignedForm, IsAuthorized;
    longer := ReadForPreparing(run, s, t);
    var request := PreparationRequest(NewIntent(s), Read(s, s.ledger), s.ledger, s.fee).value;
    longer := Advance(longer, NewIntent(s), t, request, ByPreparation(NewIntent(s), Read(s, s.ledger), s.ledger, s.fee));
    assert Target(NewIntent(s), request) == PreparedRow(s);
  }

  lemma ReachSimulated(run: seq<World>, s: Script, t: Setting) returns (longer: seq<World>)
    requires Ends(run, NewIntent(s), t) && Stage(s, t) && Plausible(s)
    ensures Ends(longer, SimulatedRow(s), t) && Silent(Last(run), Last(longer)) && HasRead(Last(longer).log, s)
  {
    hide IsRun, Fits, BuildTransaction, EncodeTransaction, ValidTransaction, SimulationMatchesPrepared, IsSignedForm, IsAuthorized;
    longer := ReachPrepared(run, s, t);
    CanonicalExists(Built(s));
    longer := Look(longer, PreparedRow(s), t, SimulationAnswered(ToCanonicalForm(Built(s)).value, s.raw));
    longer := Advance(longer, PreparedRow(s), t, SimulationRequest(PreparedRow(s), s.raw), BySimulation(PreparedRow(s), s.raw));
  }

  lemma CanonicalExists(f: Fields)
    requires EncodeTransaction(f).Some?
    ensures ToCanonicalForm(f).Some?
  {
  }

  lemma ReachAwaiting(run: seq<World>, s: Script, t: Setting) returns (longer: seq<World>)
    requires Ends(run, NewIntent(s), t) && Stage(s, t) && Plausible(s)
    ensures Ends(longer, AwaitingRow(s), t) && Silent(Last(run), Last(longer)) && HasRead(Last(longer).log, s)
  {
    hide IsRun, Fits, BuildTransaction, EncodeTransaction, ValidTransaction, SimulationMatchesPrepared, IsSignedForm, IsAuthorized;
    longer := ReachSimulated(run, s, t);
    longer := Advance(longer, SimulatedRow(s), t, CompletionRequest(SUCCESS), ByCompletion(SimulatedRow(s)));
    assert Target(SimulatedRow(s), CompletionRequest(SUCCESS)) == AwaitingRow(s);
  }

  /** The signature is checked against the ledger of the preparation. */
  lemma SigningIsJustified(log: set<Observation>, s: Script)
    requires Plausible(s) && HasRead(log, s) && RowSeen(AwaitingRow(s)) in log
    ensures var request := SigningRequest(AwaitingRow(s), Read(s, s.ledger), s.ledger, s.signed);
      && Justified(log, s.id, request, BySigning(AwaitingRow(s), Read(s, s.ledger), s.ledger, s.signed))
      && request == TransitionRequest({AwaitingSignature}, Signed, SignatureAccepted,
                      SignaturePatch(s.signed.txBlob, s.signed.transactionHash, s.signed.signingPubKey))
  {
    hide BuildTransaction, EncodeTransaction, ValidTransaction, SimulationMatchesPrepared, IsSignedForm, IsAuthorized, AwaitingRow;
  }

  lemma ReachSigned(s: Script, t: Setting) returns (run: seq<World>)
    requires Plausible(s) && Stage(s, t) && t.others == map[] && NothingHappens(t.chain)
    ensures Ends(run, SignedRow(s), t) && HasRead(Last(run).log, s) && Last(run).sent == [] && Last(run).recorded == {}
  {
    hide IsRun, Fits, NothingHappens, Plausible, Justified, SigningRequest, AwaitingRow;
    run := Start(s, t);
    run := ReachAwaiting(run, s, t);
    SigningIsJustified(Last(run).log, s);
    var request := SigningRequest(AwaitingRow(s), Read(s, s.ledger), s.ledger, s.signed);
    run := Advance(run, AwaitingRow(s), t, request, BySigning(AwaitingRow(s), Read(s, s.ledger), s.ledger, s.signed));
  }

  // ---- from SIGNED on ----------------------------------------------------------------------

  lemma ReachBaseline(s: Script, t: Setting) returns (run: seq<World>)
    requires Plausible(s) && Stage(s, t) && t.others == map[] && NothingHappens(t.chain)
    ensures Ends(run, BaselineRow(s), t) && HasRead(Last(run).log, s) && RowSeen(SignedRow(s)) in Last(run).log
    ensures BaselineWritten(s.id) in Last(run).log && Last(run).sent == [] && Last(run).recorded == {}
  {
    hide IsRun, Fits, NothingHappens, Plausible, SignedRow;
    run := ReachSigned(s, t);
    run := WriteBaseline(run, SignedRow(s), SignedRow(s), t, s.ledger);
  }

  lemma NothingIsAnswered(run: seq<World>)
    requires IsRun(run) && |run| > 0 && Last(run).sent == []
    ensures !IsAnswered(Last(run).log, 0)
  {
    hide IsRun, Inv, IsAnswered;
    LastHasInv(run);
    NextNumberIsFresh(Last(run));
  }

  lemma ReachSent(s: Script, t: Setting) returns (run: seq<World>)
    requires Plausible(s) && Stage(s, t) && t.others == map[] && NothingHappens(t.chain)
    ensures Ends(run, BaselineRow(s), t) && BaselineWritten(s.id) in Last(run).log && !IsAnswered(Last(run).log, 0)
    ensures HasRead(Last(run).log, s)
    ensures Last(run).sent == [(s.id, s.signed.txBlob)] && Last(run).recorded == {}
  {
    hide IsRun, Fits, NothingHappens, Plausible, IsAnswered, BaselineRow, KeysUnique;
    run := ReachBaseline(s, t);
    NothingIsAnswered(run);
    SceneIsInOrder(Last(run), BaselineRow(s), t);
    assert SendJustified(Last(run).log, BaselineRow(s), s.ledger);
    run := Take(run, Send(BaselineRow(s), s.ledger));
  }

  lemma FirstAnswerIsHonest(w: World, id: Id, blob: string, engineResult: string)
    requires EndpointOk(w.chain, w.endpoint) && w.sent == [(id, blob)] && !IsAnswered(w.log, 0)
    requires IsMalformedResult(engineResult) ==> blob in w.malformed
    ensures Honest(w, SubmitAnswered(0, id, blob, engineResult))
  {
    hide IsAnswered, IsMalformedResult;
  }

  /** The one RPC is answered and the answer is recorded. */
  lemma ReachAnswered(s: Script, t: Setting, engineResult: string) returns (run: seq<World>)
    requires Plausible(s) && Stage(s, t) && t.others == map[] && NothingHappens(t.chain)
    requires IsMalformedResult(engineResult) ==> s.signed.txBlob in t.malformed
    ensures Ends(run, Target(BaselineRow(s), SubmitRequest(engineResult)), t)
    ensures Last(run).sent == [(s.id, s.signed.txBlob)] && Last(run).recorded == {0}
  {
    hide IsRun, Fits, NothingHappens, Plausible, BaselineRow, IsAnswered, Honest, IsMalformedResult, Target, KeysUnique;
    run := ReachSent(s, t);
    SceneIsInOrder(Last(run), BaselineRow(s), t);
    FirstAnswerIsHonest(Last(run), s.id, s.signed.txBlob, engineResult);
    run := Look(run, BaselineRow(s), t, SubmitAnswered(0, s.id, s.signed.txBlob, engineResult));
    run := Advance(run, BaselineRow(s), t, SubmitRequest(engineResult), BySubmission(BaselineRow(s), engineResult, 0));
  }

  lemma QuietStage(s: Script, n: nat)
    requires 1 <= s.ledger <= n
    ensures Stage(s, Alone(Quiet(s, n), s.ledger)) && NothingHappens(Quiet(s, n)) && |Quiet(s, n)| == n
    ensures forall i | 0 <= i < n :: Quiet(s, n)[i] == QuietVersion(s)
  {
    hide NothingHappens, Quiet;
    QuietIsOk(s, n);
  }

  /** SUBMITTED is reached, with a baseline and one recorded answer. */
  lemma ReachSubmitted(s: Script) returns (run: seq<World>)
    requires Plausible(s)
    ensures IsRun(run) && |run| > 0 && s.id in Last(run).db.rows
    ensures var (w, r) := (Last(run), Last(run).db.rows[s.id]);
      && r.status == Submitted && r.submissionValidatedLedger == Some(s.ledger) && r.submissionAttemptCount == 1
      && w.sent == [(s.id, s.signed.txBlob)] && w.recorded == {0}
  {
    hide IsRun, Fits, Quiet, NothingHappens, BaselineRow, ValidTransaction, EncodeTransaction, BuildTransaction, IsSignedForm;
    QuietStage(s, s.ledger);
    assert !IsMalformedResult(SUCCESS) by {
      assert "tem"[2] == 'm' && SUCCESS[2] == 's';
    }
    run := ReachAnswered(s, Alone(Quiet(s, s.ledger), s.ledger), SUCCESS);
  }

  /** Two racing submits: the second baseline replaces the first. */
  lemma ReachOverwrittenBaseline(s: Script) returns (run: seq<World>)
    requires Plausible(s)
    ensures IsRun(run) && |run| > 1 && s.id in run[|run| - 2].db.rows && s.id in Last(run).db.rows
    ensures run[|run| - 2].db.rows[s.id].submissionValidatedLedger == Some(s.ledger)
    ensures Last(run).db.rows[s.id].submissionValidatedLedger == Some(s.ledger + 1)
  {
    hide IsRun, Fits, Quiet, NothingHappens, SignedRow, ValidTransaction, EncodeTransaction, BuildTransaction, IsSignedForm;
    var t := Alone(Quiet(s, s.ledger + 1), s.ledger);
    QuietStage(s, s.ledger + 1);
    var first := ReachBaseline(s, t);
    first := Move(first, BaselineRow(s), t, s.ledger + 1);
    first := Look(first, BaselineRow(s), t.(head := s.ledger + 1), LedgerSeen(s.ledger + 1));
    run := WriteBaseline(first, BaselineRow(s), SignedRow(s), t.(head := s.ledger + 1), s.ledger + 1);
    assert run[|run| - 2] == Last(first);
  }

  // ---- the ends ----------------------------------------------------------------------------

  lemma SignedHeaderOf(s: Script)
    requires Plausible(s)
    ensures s.signed.txBlob == Upper(s.signed.txBlob) && Strip(s.signed.txBlob) == Some(s.prepared)
    ensures SignedHeader(s.signed.txBlob) == Some(Header(s.payload.account, s.sequence, Window(s)))
    ensures Upper(s.signed.transactionHash) == s.signed.transactionHash
    ensures s.signed.transactionHash == TransactionHash(s.signed.txBlob)
  {
    hide BuildTransaction, EncodeTransaction, Strip, HeaderOf, CarriesSignature, Upper;
    BuiltHeader(s.payload, Params(s.fee, s.sequence, Window(s), configuredNetworkId));
    HashIsUpper(s.signed.txBlob);
  }

  function TakingVersion(s: Script): Version {
    Taking(QuietVersion(s), s.signed.txBlob, s.payload.account, s.sequence)
  }

  lemma Close(run: seq<World>, row: Row, t: Setting, version: Version) returns (longer: seq<World>)
    requires Ends(run, row, t)
    requires Follows(t.chain[|t.chain| - 1], version, |t.chain| + 1)
    requires forall b | b in version.txs :: MayInclude(Last(run), b)
    ensures Ends(longer, row, t.(chain := t.chain + [version])) && Silent(Last(run), Last(longer))
  {
    hide IsRun, Follows, MayInclude, KeysUnique;
    SceneIsInOrder(Last(run), row, t);
    longer := Take(run, CloseLedger(version));
  }

  lemma PreparedMayEnter(w: World, row: Row, t: Setting, b: string)
    requires Scene(w, row, t) && row.preparedTxBlob.Some? && Strip(b) == row.preparedTxBlob && b !in t.malformed
    ensures MayInclude(w, b)
  {
    hide Strip, Fits;
    assert row.id in w.db.rows;
  }

  /** The next ledger takes the signed blob. */
  lemma ReachIncluded(s: Script) returns (run: seq<World>)
    requires Plausible(s)
    ensures Ends(run, SignedRow(s), Alone(Quiet(s, s.ledger) + [TakingVersion(s)], s.ledger)) && Last(run).recorded == {}
  {
    hide IsRun, Fits, Quiet, NothingHappens, Strip, SignedHeader, Upper, Follows, MayInclude, SignedRow, ValidTransaction,
         EncodeTransaction, BuildTransaction, IsSignedForm;
    QuietStage(s, s.ledger);
    var t := Alone(Quiet(s, s.ledger), s.ledger);
    run := ReachSigned(s, t);
    SignedHeaderOf(s);
    TakingFollows(QuietVersion(s), s.ledger + 1, s.signed.txBlob);
    PreparedMayEnter(Last(run), SignedRow(s), t, s.signed.txBlob);
    run := Close(run, SignedRow(s), t, TakingVersion(s));
  }

  function Hit(s: Script): TxSearch {
    Found(TxLookup(Some(s.signed.transactionHash), true, Some(s.ledger + 1), Some(SUCCESS)))
  }

  function HitRequest(s: Script): TransitionRequest {
    TransitionRequest(SIGNED_ACTIVE, Validated, TransactionValidated, FinalPatch(SUCCESS, s.ledger + 1))
  }

  lemma HitJustifies(log: set<Observation>, s: Script)
    requires Plausible(s) && RowSeen(SignedRow(s)) in log && LedgerSeen(s.ledger + 1) in log
    requires SearchOf(SignedRow(s), Hit(s)) in log
    ensures Justified(log, s.id, HitRequest(s), BySearch(SignedRow(s), s.ledger + 1, Hit(s)))
  {
    hide Plausible, SignedRow, Upper;
    SignedHeaderOf(s);
    assert "tes" <= SUCCESS;
  }

  /** VALIDATED is reached. */
  lemma ReachValidated(s: Script) returns (run: seq<World>)
    requires Plausible(s)
    ensures IsRun(run) && |run| > 0 && s.id in Last(run).db.rows
    ensures var r := Last(run).db.rows[s.id];
      r.status == Validated && r.finalLedgerIndex == Some(s.ledger + 1) && r.finalResult == Some(SUCCESS)
  {
    hide IsRun, Fits, Honest, Justified, SignedRow, Quiet, ValidTransaction, EncodeTransaction, BuildTransaction, IsSignedForm;
    QuietStage(s, s.ledger);
    var row, t := SignedRow(s), Alone(Quiet(s, s.ledger) + [TakingVersion(s)], s.ledger);
    run := ReachIncluded(s);
    run := Move(run, row, t, s.ledger + 1);
    t := t.(head := s.ledger + 1);
    HitIsHonest(s, Last(run));
    run := Look(run, row, t, SearchOf(row, Hit(s)));
    HeadIsHonest(Last(run));
    run := Look(run, row, t, LedgerSeen(s.ledger + 1));
    HitJustifies(Last(run).log, s);
    run := Advance(run, row, t, HitRequest(s), BySearch(row, s.ledger + 1, Hit(s)));
  }

  lemma HeadIsHonest(w: World)
    requires EndpointOk(w.chain, w.endpoint)
    ensures Honest(w, LedgerSeen(w.endpoint.head))
  {
  }

  lemma HitIsHonest(s: Script, w: World)
    requires Plausible(s) && Scene(w, SignedRow(s), Alone(Quiet(s, s.ledger) + [TakingVersion(s)], s.ledger + 1))
    ensures EndpointOk(w.chain, w.endpoint) && Honest(w, SearchOf(SignedRow(s), Hit(s)))
  {
    hide Fits, SignedRow, Quiet, Strip, Upper, TransactionHash, ValidTransaction, EncodeTransaction, BuildTransaction, IsSignedForm;
    QuietStage(s, s.ledger);
    SignedHeaderOf(s);
    var b := s.signed.txBlob;
    assert w.chain[s.ledger] == TakingVersion(s);
    assert b in w.chain[s.ledger].txs && TransactionHash(b) == s.signed.transactionHash && w.chain[s.ledger].txs[b] == SUCCESS;
  }

  /** A complete search of a ledger without transactions finds nothing. */
  lemma MissIsHonest(w: World, row: Row, t: Setting)
    requires Scene(w, row, t) && HasPreparation(row) && HasSignature(row) && NothingHappens(t.chain)
    requires t.head > row.lastLedgerSequence.value
    ensures EndpointOk(w.chain, w.endpoint) && Honest(w, LedgerSeen(t.head)) && Honest(w, SearchOf(row, NotFound(true)))
  {
    hide Fits, ChainOk;
    assert forall version | version in w.chain :: version.txs == map[];
  }

  /** The window passes without the transaction, and a search says so. */
  lemma ReachProvenAbsent(s: Script, t: Setting) returns (run: seq<World>)
    requires Plausible(s) && Stage(s, t) && t.others == map[] && NothingHappens(t.chain) && |t.chain| > Window(s)
    ensures Ends(run, SignedRow(s), t.(head := Window(s) + 1)) && Last(run).recorded == {}
    ensures LedgerSeen(Window(s) + 1) in Last(run).log && SearchOf(SignedRow(s), NotFound(true)) in Last(run).log
  {
    hide IsRun, Fits, NothingHappens, Plausible, Honest, SignedRow;
    var row, late := SignedRow(s), t.(head := Window(s) + 1);
    run := ReachSigned(s, t);
    run := Move(run, row, t, Window(s) + 1);
    MissIsHonest(Last(run), row, late);
    run := Look(run, row, late, LedgerSeen(Window(s) + 1));
    MissIsHonest(Last(run), row, late);
    run := Look(run, row, late, SearchOf(row, NotFound(true)));
  }

  lemma AbsenceJustifies(log: set<Observation>, s: Script, account: Option<AccountInfo>)
    requires RowSeen(SignedRow(s)) in log && SearchOf(SignedRow(s), NotFound(true)) in log
    requires LedgerSeen(Window(s) + 1) in log && AccountSeen(s.payload.account, account) in log
    requires account == Some(Read(s, Window(s) + 1)) || account.None?
    ensures Justified(log, s.id,
                      if account.None? then FailureRequest(SequenceConflict)
                      else TransitionRequest(SIGNED_ACTIVE, Expired, LastLedgerSequenceExpired, NoPatch),
                      ByAbsence(SignedRow(s), Window(s) + 1, account))
  {
    hide SignedRow;
  }

  /** EXPIRED is reached: the ledger left the window behind without the transaction. */
  lemma ReachExpired(s: Script) returns (run: seq<World>)
    requires Plausible(s)
    ensures IsRun(run) && |run| > 0 && s.id in Last(run).db.rows
    ensures HasSignature(Last(run).db.rows[s.id]) && Last(run).db.rows[s.id].status == Expired
  {
    hide IsRun, Fits, Quiet, NothingHappens, Justified, SignedRow, ValidTransaction, EncodeTransaction, BuildTransaction,
         IsSignedForm;
    var n := Window(s) + 1;
    QuietStage(s, n);
    var row, t := SignedRow(s), Alone(Quiet(s, n), n);
    run := ReachProvenAbsent(s, Alone(Quiet(s, n), s.ledger));
    run := Look(run, row, t, AccountSeen(s.payload.account, Some(Read(s, n))));
    AbsenceJustifies(Last(run).log, s, Some(Read(s, n)));
    run := Advance(run, row, t, TransitionRequest(SIGNED_ACTIVE, Expired, LastLedgerSequenceExpired, NoPatch),
                   ByAbsence(row, n, Some(Read(s, n))));
  }

  // ---- endpoints that fall behind ----------------------------------------------------------

  lemma LateStage(first: Version, s: Script, n: nat)
    requires 2 <= s.ledger <= n && MayComeFirst(first, s)
    ensures Stage(s, Alone(ChainFrom(first, s, n), s.ledger)) && NothingHappens(ChainFrom(first, s, n))
    ensures |ChainFrom(first, s, n)| == n && ChainFrom(first, s, n)[0] == first
    ensures forall i | 1 <= i < n :: ChainFrom(first, s, n)[i] == QuietVersion(s)
  {
    hide NothingHappens, ChainFrom;
    ChainFromIsOk(first, s, n);
  }

  /** The account one Sequence earlier. */
  function EarlierVersion(s: Script): Version
    requires s.sequence >= 1
  {
    Version(map[], map[s.payload.account := s.sequence - 1], {s.payload.account})
  }

  function EarlierRead(s: Script): AccountInfo
    requires s.sequence >= 1
  {
    Read(s, 1).(sequence := s.sequence - 1)
  }

  lemma EarlierReadJustifies(log: set<Observation>, s: Script)
    requires Plausible(s) && s.sequence >= 1 && RowSeen(AwaitingRow(s)) in log
    requires AccountSeen(s.payload.account, Some(EarlierRead(s))) in log
    ensures var request := SigningRequest(AwaitingRow(s), EarlierRead(s), 1, s.signed);
      && request == TransitionRequest({AwaitingSignature}, Failed, SequenceRegression, FailurePatch(SequenceRegression))
      && Justified(log, s.id, request, BySigning(AwaitingRow(s), EarlierRead(s), 1, s.signed))
  {
    hide BuildTransaction, EncodeTransaction, ValidTransaction, SimulationMatchesPrepared, IsSignedForm, AwaitingRow;
  }

  /**
   * FAILED with SEQUENCE_REGRESSION is reached at signing: the endpoint of the signing read is behind
   * the one the intent was prepared from, and the Sequence rose in between.
   */
  lemma ReachSigningRegression(s: Script) returns (run: seq<World>)
    requires Plausible(s) && s.ledger >= 2 && s.sequence >= 1
    ensures IsRun(run) && |run| > 0 && s.id in Last(run).db.rows
    ensures var r := Last(run).db.rows[s.id];
      r.status == Failed && r.failureCode == Some(SequenceRegression) && !HasSignature(r)
  {
    hide IsRun, Fits, NothingHappens, Plausible, AwaitingRow, Justified, SigningRequest, ChainFrom;
    var row, chain := AwaitingRow(s), ChainFrom(EarlierVersion(s), s, s.ledger);
    LateStage(EarlierVersion(s), s, s.ledger);
    run := Start(s, Alone(chain, s.ledger));
    run := ReachAwaiting(run, s, Alone(chain, s.ledger));
    run := Move(run, row, Alone(chain, s.ledger), 1);
    run := Look(run, row, Alone(chain, 1), AccountSeen(s.payload.account, Some(EarlierRead(s))));
    EarlierReadJustifies(Last(run).log, s);
    run := Advance(run, row, Alone(chain, 1), SigningRequest(row, EarlierRead(s), 1, s.signed),
                   BySigning(row, EarlierRead(s), 1, s.signed));
  }

  /** Before the account was funded. */
  const EMPTY_VERSION := Version(map[], map[], {})

  lemma AbsentAccountIsHonest(w: World, row: Row, t: Setting, account: string)
    requires Scene(w, row, t) && t.head == 1 && t.chain[0] == EMPTY_VERSION
    ensures EndpointOk(w.chain, w.endpoint) && Honest(w, AccountSeen(account, None))
  {
    hide Fits;
  }

  /** The newest ledger still shows the prepared Sequence. */
  lemma StillUnspent(s: Script, chain: Chain)
    requires |chain| == Window(s) + 1 && forall i | 1 <= i < |chain| :: chain[i] == QuietVersion(s)
    ensures AccountAt(chain, |chain|, s.payload.account) == Some(s.sequence)
    ensures !WasSpent(chain, s.payload.account, s.sequence, Window(s))
  {
  }

  /**
   * A signed intent fails with SEQUENCE_CONFLICT although its Sequence was never spent: after the
   * absence was proven, the endpoint falls back to a ledger in which the account does not exist yet.
   */
  lemma ReachConflictFromLaggingRead(s: Script) returns (run: seq<World>)
    requires Plausible(s) && s.ledger >= 2
    ensures IsRun(run) && |run| > 0 && s.id in Last(run).db.rows && |Last(run).chain| > 0
    ensures var (chain, r) := (Last(run).chain, Last(run).db.rows[s.id]);
      && r.status == Failed && r.failureCode == Some(SequenceConflict) && IsPrepared(r, s) && HasSignature(r)
      && AccountAt(chain, |chain|, s.payload.account) == Some(s.sequence)
      && !WasSpent(chain, s.payload.account, s.sequence, Window(s))
  {
    hide IsRun, Fits, NothingHappens, Plausible, SignedRow, Justified, Honest, ChainFrom, WasSpent;
    var n := Window(s) + 1;
    var row, chain := SignedRow(s), ChainFrom(EMPTY_VERSION, s, n);
    LateStage(EMPTY_VERSION, s, n);
    StillUnspent(s, chain);
    run := ReachProvenAbsent(s, Alone(chain, s.ledger));
    run := Move(run, row, Alone(chain, n), 1);
    AbsentAccountIsHonest(Last(run), row, Alone(chain, 1), s.payload.account);
    run := Look(run, row, Alone(chain, 1), AccountSeen(s.payload.account, None));
    AbsenceJustifies(Last(run).log, s, None);
    run := Advance(run, row, Alone(chain, 1), FailureRequest(SequenceConflict), ByAbsence(row, n, None));
  }

  // ---- the same bytes twice ----------------------------------------------------------------

  /** The blob is malformed: its first answer rejects the intent and frees the slot. */
  lemma ReachRejected(s: Script) returns (run: seq<World>)
    requires Plausible(s)
    ensures Ends(run, RejectedRow(s), Setting(map[], Quiet(s, s.ledger), s.ledger, {s.signed.txBlob}))
  {
    hide IsRun, Fits, Quiet, NothingHappens, BaselineRow, ValidTransaction, EncodeTransaction, BuildTransaction, IsSignedForm;
    QuietStage(s, s.ledger);
    assert IsMalformedResult(MALFORMED) by {
      assert MALFORMED[..3] == "tem";
    }
    run := ReachAnswered(s, Setting(map[], Quiet(s, s.ledger), s.ledger, {s.signed.txBlob}), MALFORMED);
  }

  /** A second intent with the same payload, prepared with the same parameters. */
  function Twin(s: Script, id: Id, key: string): Script {
    s.(id := id, key := key)
  }

  lemma TwinIsPlausible(s: Script, id: Id, key: string)
    requires Plausible(s)
    ensures Plausible(Twin(s, id, key)) && Quiet(Twin(s, id, key), s.ledger) == Quiet(s, s.ledger)
  {
    hide ValidTransaction, EncodeTransaction, BuildTransaction, IsSignedForm, SimulationMatchesPrepared, IsAuthorized;
  }

  lemma SameBytesClash(w: World, s: Script, twin: Script, t: Setting, request: TransitionRequest)
    requires Scene(w, AwaitingRow(twin), t) && s.id in t.others && t.others[s.id] == RejectedRow(s)
    requires request == TransitionRequest({AwaitingSignature}, Signed, SignatureAccepted,
                          SignaturePatch(s.signed.txBlob, s.signed.transactionHash, s.signed.signingPubKey))
    ensures Transitioned(w.db, twin.id, request).1.HashIsTaken?
  {
    hide AwaitingRow, RejectedRow, KeysUnique, Patched;
    var r := Target(AwaitingRow(twin), request);
    PatchKeepsIdentity(AwaitingRow(twin), request.patch);
    PatchedHash(AwaitingRow(twin), request.patch);
    assert w.db.rows[s.id].transactionHash == r.transactionHash && s.id != r.id;
  }

  lemma PatchedHash(r: Row, patch: Patch)
    requires patch.SignaturePatch?
    ensures Patched(r, patch).transactionHash == Some(patch.transactionHash)
  {
  }

  /**
   * Signing is refused by the hash index: after a tem answer the payload is prepared again, at the
   * same ledger, Sequence and fee, and the same signed bytes arrive for the second intent.
   */
  lemma ReachHashClash(s: Script, id: Id, key: string) returns (run: seq<World>, request: TransitionRequest, why: Why)
    requires Plausible(s) && id != s.id && key != s.key
    ensures IsRun(run) && |run| > 0 && id in Last(run).db.rows && s.id in Last(run).db.rows
    ensures var w := Last(run);
      && w.db.rows[s.id].status == Rejected && w.db.rows[id].status == AwaitingSignature
      && Justified(w.log, id, request, why) && request.to == Signed && request.patch.SignaturePatch?
      && request.patch.txBlob == s.signed.txBlob
      && Transitioned(w.db, id, request).1.HashIsTaken?
  {
    hide IsRun, Quiet, NothingHappens, Plausible, Justified, SigningRequest, RejectedRow, AwaitingRow, Transitioned;
    LedgerIsReal(s);
    var twin := Twin(s, id, key);
    TwinIsPlausible(s, id, key);
    var rejected := RejectedRow(s);
    var t := Setting(map[s.id := rejected], Quiet(s, s.ledger), s.ledger, {s.signed.txBlob});
    QuietStage(s, s.ledger);
    run := ReachRejected(s);
    run := Begin(run, twin, t);
    run := ReachAwaiting(run, twin, t);
    SigningIsJustified(Last(run).log, twin);
    why := BySigning(AwaitingRow(twin), Read(twin, s.ledger), s.ledger, s.signed);
    request := SigningRequest(AwaitingRow(twin), Read(twin, s.ledger), s.ledger, s.signed);
    SameBytesClash(Last(run), s, twin, t, request);
  }

  lemma LedgerIsReal(s: Script)
    requires Plausible(s)
    ensures s.ledger >= 1
  {
  }
}
