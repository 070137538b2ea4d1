/** The intent state machine: statuses, transition table and reason codes. */
module IntentState {

  datatype Status =
    | Created
    | Prepared
    | Simulated
    | AwaitingSignature
    | Signed
    | Submitted
    | Validated
    | Rejected
    | Expired
    | Failed

  datatype Reason =
    | IntentCreated
    | TransactionPrepared
    | SimulationCompleted
    | SimulationPassed
    | SimulationRefused
    | SimulationArtifactMismatch
    | SignatureAccepted
    | SignatureWindowExpired
    | TransactionSubmitted
    | MalformedTransaction
    | TransactionValidated
    | LastLedgerSequenceExpired
    | SequenceConflict
    | SequenceRegression
    | FinalityIntegrityError
    | UnexpectedValidatedResult

  const TERMINAL: set<Status> := {Validated, Rejected, Expired, Failed}
  const SEQUENCE_ACTIVE: set<Status> := {Prepared, Simulated, AwaitingSignature, Signed, Submitted}
  const UNSIGNED_ACTIVE: set<Status> := {Prepared, Simulated, AwaitingSignature}
  const SIGNED_ACTIVE: set<Status> := {Signed, Submitted}

  function Targets(from: Status): set<Status> {
    match from
    case Created => {Prepared}
    case Prepared => {Simulated, Expired, Failed}
    case Simulated => {AwaitingSignature, Rejected, Expired, Failed}
    case AwaitingSignature => {Signed, Expired, Failed}
    case Signed => {Submitted, Validated, Rejected, Expired, Failed}
    case Submitted => {Validated, Expired, Failed}
    case Validated => {}
    case Rejected => {}
    case Expired => {}
    case Failed => {}
  }

  predicate CanTransition(from: Status, to: Status) {
    to in Targets(from)
  }

  /** The table, pair by pair: nothing else is legal, and the four final statuses are left by nothing. */
  lemma TableExactly(from: Status, to: Status)
    ensures CanTransition(from, to) <==>
      || (from == Created && to == Prepared)
      || (from == Prepared && (to == Simulated || to == Expired || to == Failed))
      || (from == Simulated && (to == AwaitingSignature || to == Rejected || to == Expired || to == Failed))
      || (from == AwaitingSignature && (to == Signed || to == Expired || to == Failed))
      || (from == Signed && (to == Submitted || to == Validated || to == Rejected || to == Expired || to == Failed))
      || (from == Submitted && (to == Validated || to == Expired || to == Failed))
  {
  }

  /** Progress measure: every legal transition raises it, and terminal states hold the maximum. */
  function Rank(s: Status): nat {
    match s
    case Created => 0
    case Prepared => 1
    case Simulated => 2
    case AwaitingSignature => 3
    case Signed => 4
    case Submitted => 5
    case _ => 6
  }

  /** `s'` is `s` or lies strictly further along the lifecycle. */
  predicate Later(s: Status, s': Status) {
    s == s' || Rank(s) < Rank(s')
  }

  lemma TransitionRaisesRank(from: Status, to: Status)
    requires CanTransition(from, to)
    ensures Rank(from) < Rank(to)
    ensures from !in TERMINAL
    ensures to in SEQUENCE_ACTIVE <==> Rank(to) < 6
    ensures from in SEQUENCE_ACTIVE <==> from != Created
  {
  }

  /** A legal path through the table, as the statuses it visits. */
  ghost predicate LegalPath(path: seq<Status>) {
    && |path| > 0
    && path[0] == Created
    && forall k :: 1 <= k < |path| ==> CanTransition(path[k - 1], path[k])
  }

  lemma {:induction false} RankGrowsAlongPath(path: seq<Status>, k: nat)
    requires LegalPath(path) && k < |path|
    ensures k <= Rank(path[k])
  {
    if k > 0 {
      RankGrowsAlongPath(path, k - 1);
      TransitionRaisesRank(path[k - 1], path[k]);
    }
  }

  /** No intent ever visits more than seven statuses, and a terminal status ends its path. */
  lemma PathsAreShort(path: seq<Status>)
    requires LegalPath(path)
    ensures |path| <= 7
    ensures forall k :: 0 <= k < |path| && path[k] in TERMINAL ==> k == |path| - 1
  {
    RankGrowsAlongPath(path, |path| - 1);
    forall k | 0 <= k < |path| && path[k] in TERMINAL ensures k == |path| - 1 {
      if k + 1 < |path| {
        TransitionRaisesRank(path[k], path[k + 1]);
      }
    }
  }
}
