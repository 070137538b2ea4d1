/** What submissionAttemptCount counts, over whole runs with any number of racing submits. */
module Attempts {
  import opened Wrappers
  import opened IntentState
  import opened Transactions
  import opened Intents
  import opened Ledger
  import opened SignedBlobs
  import opened Decisions
  import opened Protocol
  import opened Invariant
  import opened Theorems

  /** A run together with the action of each of its steps. */
  ghost predicate IsTrace(run: seq<World>, actions: seq<Action>) {
    && |run| == |actions| + 1 && Init(run[0])
    && forall k | 0 <= k < |actions| :: StepBy(run[k], actions[k], run[k + 1])
  }

  ghost predicate StepBy(w: World, a: Action, w': World) {
    && EndpointOk(w.chain, w.endpoint) && KeysUnique(w.db.rows)
    && Enabled(w, a) && w' == Apply(w, a)
  }

  /** The step commits a submit result for intent `id`. */
  predicate Records(w: World, a: Action, id: Id) {
    match a
    case Change(i, request, _) =>
      i == id && request.patch.RecordedPatch? && Transitioned(w.db, i, request).1.Updated?
    case Update(i, statuses, patch, _) =>
      i == id && patch.RecordedPatch? && UpdatedInStatus(w.db, i, statuses, patch).1.Some?
    case _ => false
  }

  ghost function Recordings(run: seq<World>, actions: seq<Action>, n: nat, id: Id): set<nat>
    requires n <= |actions| && n <= |run|
  {
    set k: nat | k < n && Records(run[k], actions[k], id)
  }

  function CountOf(w: World, id: Id): nat {
    if id in w.db.rows then w.db.rows[id].submissionAttemptCount else 0
  }

  lemma PatchCounts(r: Row, patch: Patch)
    ensures Patched(r, patch).submissionAttemptCount
         == r.submissionAttemptCount + (if patch.RecordedPatch? then 1 else 0)
  {
  }

  /** One step adds one exactly when it records. */
  lemma StepCounts(w: World, a: Action, w': World, id: Id)
    requires Inv(w) && StepBy(w, a, w')
    ensures CountOf(w', id) == CountOf(w, id) + (if Records(w, a, id) then 1 else 0)
  {
    hide Inv, Justified, UpdateJustified, SendJustified, Honest, Follows, MayInclude, Patched, SlotTaken, HashTaken, CanTransition, KeysUnique;
    match a
    case Change(i, request, _) =>
      if i in w.db.rows {
        KeyOf(w, i);
        PatchCounts(w.db.rows[i], request.patch);
      }
    case Update(i, statuses, patch, _) =>
      if i in w.db.rows {
        PatchCounts(w.db.rows[i], patch);
      }
    case Create(row) =>
    case _ =>
  }

  lemma OneMoreRecording(run: seq<World>, actions: seq<Action>, n: nat, id: Id)
    requires n < |actions| && n < |run|
    ensures |Recordings(run, actions, n + 1, id)|
         == |Recordings(run, actions, n, id)| + (if Records(run[n], actions[n], id) then 1 else 0)
  {
    hide Records;
    var before, after := Recordings(run, actions, n, id), Recordings(run, actions, n + 1, id);
    if Records(run[n], actions[n], id) {
      assert after == before + {n};
    } else {
      assert after == before;
    }
  }

  lemma {:induction false} TraceIsRun(run: seq<World>, actions: seq<Action>)
    requires IsTrace(run, actions)
    ensures IsRun(run)
  {
    hide Enabled, Apply, Init;
    forall k | 0 <= k < |run| - 1 ensures Next(run[k], run[k + 1]) {
      assert StepBy(run[k], actions[k], run[k + 1]);
    }
  }

  /** The stored count is the number of record writes that were committed. */
  lemma {:induction false} CountIsCommittedWrites(run: seq<World>, actions: seq<Action>, n: nat, id: Id)
    requires IsTrace(run, actions) && n < |run|
    ensures CountOf(run[n], id) == |Recordings(run, actions, n, id)|
  {
    hide Inv, Init, StepBy, Records, Grows, IsRun;
    if n == 0 {
      StartsEmpty(run[0], id);
    } else {
      CountIsCommittedWrites(run, actions, n - 1, id);
      TraceIsRun(run, actions);
      RunHasInv(run, n - 1, n - 1);
      assert StepBy(run[n - 1], actions[n - 1], run[n]);
      StepCounts(run[n - 1], actions[n - 1], run[n], id);
      OneMoreRecording(run, actions, n - 1, id);
    }
  }

  lemma StartsEmpty(w: World, id: Id)
    requires Init(w)
    ensures CountOf(w, id) == 0
  {
  }

  // ---- against the answered RPCs -----------------------------------------------------------

  /** The numbers of the submit RPCs for intent `id` that were answered. */
  ghost function AnsweredRpcs(log: set<Observation>, id: Id): set<nat> {
    set o | o in log && o.SubmitAnswered? && o.id == id :: o.rpc
  }

  ghost function RecordedFor(w: World, id: Id): set<nat> {
    AnsweredRpcs(w.log, id) * w.recorded
  }

  /** A record write spends the answer of an RPC of its own that was not recorded before. */
  lemma RecordingSpendsAnAnswer(w: World, a: Action, id: Id) returns (rpc: nat)
    requires EndpointOk(w.chain, w.endpoint) && Enabled(w, a) && Records(w, a, id)
    ensures Consumes(a) == {rpc} && rpc !in w.recorded && rpc in AnsweredRpcs(w.log, id)
  {
    hide IsSignedForm, SearchOf, ToCanonicalForm, SimulationMatchesPrepared, BuildTransaction, EncodeTransaction,
         ValidTransaction, HasPreparation;
    match a
    case Change(_, _, why) =>
      rpc := why.rpc;
      assert SubmitAnswered(rpc, id, why.row.signedTxBlob.value, why.engineResult) in w.log;
    case Update(_, _, _, why) =>
      rpc := why.rpc;
      assert SubmitAnswered(rpc, id, why.row.signedTxBlob.value, why.engineResult) in w.log;
  }

  lemma HistoryGrows(w: World, a: Action, w': World)
    requires StepBy(w, a, w')
    ensures w.log <= w'.log && w.recorded + Consumes(a) <= w'.recorded
  {
    hide Justified, UpdateJustified, SendJustified, Honest, Follows, MayInclude, Transitioned, UpdatedInStatus, KeysUnique;
  }

  lemma StepBounds(w: World, a: Action, w': World, id: Id)
    requires Inv(w) && StepBy(w, a, w') && CountOf(w, id) <= |RecordedFor(w, id)|
    ensures CountOf(w', id) <= |RecordedFor(w', id)|
  {
    hide Inv, Enabled, Apply, Records, CountOf, Consumes, KeysUnique;
    StepCounts(w, a, w', id);
    HistoryGrows(w, a, w');
    var before, after := RecordedFor(w, id), RecordedFor(w', id);
    if Records(w, a, id) {
      var rpc := RecordingSpendsAnAnswer(w, a, id);
      assert before + {rpc} <= after;
      SubsetIsSmaller(before + {rpc}, after);
    } else {
      SubsetIsSmaller(before, after);
    }
  }

  lemma {:induction false} CountIsBounded(run: seq<World>, i: nat, id: Id)
    requires IsRun(run) && i < |run|
    ensures CountOf(run[i], id) <= |RecordedFor(run[i], id)|
  {
    hide Inv, Init, StepBy, CountOf, Grows, Enabled, Apply;
    if i == 0 {
      StartsEmpty(run[0], id);
    } else {
      CountIsBounded(run, i - 1, id);
      RunHasInv(run, i - 1, i - 1);
      var a := TheStep(run[i - 1], run[i]);
      StepBounds(run[i - 1], a, run[i], id);
    }
  }

  lemma TheStep(w: World, w': World) returns (a: Action)
    requires Next(w, w')
    ensures StepBy(w, a, w')
  {
    a :| Enabled(w, a) && w' == Apply(w, a);
  }

  /**
   * The count never exceeds the number of submit RPCs that were answered for the intent, each of
   * which was sent with the intent's own durable blob.
   */
  lemma CountNeverExceedsAnswers(run: seq<World>, i: nat, id: Id)
    requires IsRun(run) && i < |run|
    ensures CountOf(run[i], id) <= |AnsweredRpcs(run[i].log, id)|
    ensures forall rpc | rpc in AnsweredRpcs(run[i].log, id) ::
      && rpc < |run[i].sent| && run[i].sent[rpc].0 == id
      && id in run[i].db.rows && run[i].db.rows[id].signedTxBlob == Some(run[i].sent[rpc].1)
  {
    hide Inv, IsRun, CountOf;
    CountIsBounded(run, i, id);
    SubsetIsSmaller(RecordedFor(run[i], id), AnsweredRpcs(run[i].log, id));
    RunHasInv(run, i, i);
    forall rpc | rpc in AnsweredRpcs(run[i].log, id)
      ensures rpc < |run[i].sent| && run[i].sent[rpc].0 == id
      ensures id in run[i].db.rows && run[i].db.rows[id].signedTxBlob == Some(run[i].sent[rpc].1)
    {
      var o :| o in run[i].log && o.SubmitAnswered? && o.id == id && o.rpc == rpc;
      LogFact(run[i], o);
      assert run[i].sent[rpc] in run[i].sent;
      SentFact(run[i], id, run[i].sent[rpc].1);
    }
  }

  /** An RPC has at most one answer. */
  lemma {:induction false} OneAnswerPerRpc(run: seq<World>, i: nat, a: Observation, b: Observation)
    requires IsRun(run) && i < |run| && a in run[i].log && b in run[i].log
    requires a.SubmitAnswered? && b.SubmitAnswered? && a.rpc == b.rpc
    ensures a == b
  {
    hide Inv, Init, StepBy, Grows, Enabled, Apply;
    if i == 0 {
      NothingSeen(run[0]);
    } else {
      if a in run[i - 1].log && b in run[i - 1].log {
        OneAnswerPerRpc(run, i - 1, a, b);
      } else {
        var step := TheStep(run[i - 1], run[i]);
        NewAnswerIsFirst(run[i - 1], step, run[i], a, b);
      }
    }
  }

  lemma NothingSeen(w: World)
    requires Init(w)
    ensures w.log == {}
  {
  }

  lemma NewAnswerIsFirst(w: World, action: Action, w': World, a: Observation, b: Observation)
    requires StepBy(w, action, w') && a in w'.log && b in w'.log && !(a in w.log && b in w.log)
    requires a.SubmitAnswered? && b.SubmitAnswered? && a.rpc == b.rpc
    ensures a == b
  {
    hide Justified, UpdateJustified, SendJustified, Follows, MayInclude, Transitioned, UpdatedInStatus, KeysUnique, HonestSearch, HonestAccount;
  }
}
