/**
 * `runCycle`: at most one reconciliation cycle at a time, and a call made while one runs schedules
 * one more. Each entry of the async loop is numbered; that number stands for its promise.
 */
module CycleRunners {
  import opened Wrappers
  import opened Protocol
  import opened Finality

  datatype Event =
    | Called(promise: nat)
    | Started(promise: nat)
    | Finished(promise: nat)
    | Settled(promise: nat)

  datatype Runner = Runner(pending: bool, running: Option<nat>, loops: nat, events: seq<Event>)

  const IDLE := Runner(false, None, 0, [])

  // ---- the segments ------------------------------------------------------------------------

  /** A turn of `while (this.pending)`: another cycle starts, or the loop exits and its promise settles. */
  function Turn(r: Runner): Runner
    requires r.running.Some?
  {
    if r.pending then r.(pending := false, events := r.events + [Started(r.running.value)])
    else r.(running := None, events := r.events + [Settled(r.running.value)])
  }

  function RunCycle(r: Runner): Runner {
    if r.running.Some? then r.(pending := true, events := r.events + [Called(r.running.value)])
    else Turn(Runner(true, Some(r.loops), r.loops + 1, r.events + [Called(r.loops)]))
  }

  /** `cycle` catches every error, so it always comes back here if it ends at all. */
  function CycleEnds(r: Runner): Runner
    requires r.running.Some?
  {
    Turn(r.(events := r.events + [Finished(r.running.value)]))
  }

  // ---- what the event history says ---------------------------------------------------------

  predicate StartedAfter(events: seq<Event>, i: nat, promise: nat) {
    exists j | i < j < |events| :: events[j] == Started(promise)
  }

  /** A whole cycle lies strictly between positions `i` and `k`. */
  predicate CycleBetween(events: seq<Event>, i: nat, k: nat, promise: nat)
    requires k <= |events|
  {
    exists j, m | i < j < m < k :: events[j] == Started(promise) && events[m] == Finished(promise)
  }

  predicate SettledLater(events: seq<Event>, i: nat, promise: nat) {
    exists k | i < k < |events| :: events[k] == Settled(promise)
  }

  function Count(events: seq<Event>, kind: Event -> bool): (n: nat) {
    if events == [] then 0
    else Count(events[..|events| - 1], kind) + (if kind(events[|events| - 1]) then 1 else 0)
  }

  const IS_CALL := (e: Event) => e.Called?
  const IS_START := (e: Event) => e.Started?
  const IS_END := (e: Event) => e.Finished?

  function Calls(events: seq<Event>): nat {
    Count(events, IS_CALL)
  }

  function Starts(events: seq<Event>): nat {
    Count(events, IS_START)
  }

  function Ends(events: seq<Event>): nat {
    Count(events, IS_END)
  }

  lemma CountAppend(events: seq<Event>, e: Event, kind: Event -> bool)
    ensures Count(events + [e], kind) == Count(events, kind) + (if kind(e) then 1 else 0)
  {
    assert (events + [e])[..|events|] == events;
  }

  lemma CountsAppend(events: seq<Event>, e: Event)
    ensures Calls(events + [e]) == Calls(events) + (if e.Called? then 1 else 0)
    ensures Starts(events + [e]) == Starts(events) + (if e.Started? then 1 else 0)
    ensures Ends(events + [e]) == Ends(events) + (if e.Finished? then 1 else 0)
  {
    CountAppend(events, e, IS_CALL);
    CountAppend(events, e, IS_START);
    CountAppend(events, e, IS_END);
  }

  /** Every call so far was served before its promise settled, or its promise is still running. */
  predicate CallServed(r: Runner, i: nat)
    requires i < |r.events| && r.events[i].Called?
  {
    var promise := r.events[i].promise;
    && promise < r.loops
    && (r.running == Some(promise) ==> r.pending || StartedAfter(r.events, i, promise))
    && (r.running != Some(promise) ==> SettledLater(r.events, i, promise))
    && (forall k | 0 <= k < |r.events| :: r.events[k] == Settled(promise) ==> CycleBetween(r.events, i, k, promise))
  }

  predicate HistoryOk(r: Runner) {
    && (forall i | 0 <= i < |r.events| :: r.events[i].Called? ==> CallServed(r, i))
    && (forall k | 0 <= k < |r.events| :: r.events[k].Settled? ==>
          r.events[k].promise < r.loops && r.running != Some(r.events[k].promise))
  }

  predicate RunnerOk(r: Runner) {
    && (r.running.None? ==> !r.pending)
    && (r.running.Some? ==> r.running.value == r.loops - 1)
    && HistoryOk(r)
    && Starts(r.events) + (if r.pending then 1 else 0) <= Calls(r.events)
    && Starts(r.events) == Ends(r.events) + (if r.running.Some? then 1 else 0)
  }

  /** At the head of the loop, right after a call or the end of a cycle. */
  predicate AtLoopHead(r: Runner) {
    && r.running.Some? && r.running.value == r.loops - 1
    && HistoryOk(r)
    && (!r.pending ==> forall i | 0 <= i < |r.events| ::
          r.events[i] == Called(r.running.value) ==> CycleBetween(r.events, i, |r.events|, r.running.value))
    && Starts(r.events) + (if r.pending then 1 else 0) <= Calls(r.events)
    && Starts(r.events) == Ends(r.events)
  }

  lemma BetweenPersists(events: seq<Event>, e: Event, i: nat, k: nat, promise: nat)
    requires k <= |events| && CycleBetween(events, i, k, promise)
    ensures CycleBetween(events + [e], i, k, promise)
  {
    var j, m :| i < j < m < k && events[j] == Started(promise) && events[m] == Finished(promise);
    assert (events + [e])[j] == Started(promise) && (events + [e])[m] == Finished(promise);
  }

  /** One more event leaves what earlier calls were promised intact. */
  lemma ServedPersists(r: Runner, r': Runner, e: Event, i: nat)
    requires HistoryOk(r) && i < |r.events| && r.events[i].Called?
    requires r'.events == r.events + [e] && r.loops <= r'.loops
    requires var promise := r.events[i].promise;
      && (r'.running == Some(promise) ==> r.running == Some(promise))
      && (r'.running == Some(promise) && !r'.pending ==> !r.pending || e == Started(promise))
      && (r'.running != Some(promise) && r.running == Some(promise) ==> e == Settled(promise))
      && (e == Settled(promise) ==> CycleBetween(r.events, i, |r.events|, promise))
    ensures CallServed(r', i)
  {
    var promise := r.events[i].promise;
    assert CallServed(r, i);
    assert r'.events[|r.events|] == e;
    if StartedAfter(r.events, i, promise) {
      var j :| i < j < |r.events| && r.events[j] == Started(promise);
      assert r'.events[j] == Started(promise);
    }
    if SettledLater(r.events, i, promise) {
      var k :| i < k < |r.events| && r.events[k] == Settled(promise);
      assert r'.events[k] == Settled(promise);
    }
    forall k | 0 <= k < |r'.events| && r'.events[k] == Settled(promise)
      ensures CycleBetween(r'.events, i, k, promise)
    {
      BetweenPersists(r.events, e, i, k, promise);
    }
  }

  lemma TurnKeepsOk(r: Runner)
    requires AtLoopHead(r)
    ensures RunnerOk(Turn(r))
  {
    hide CallServed, CycleBetween;
    var r' := Turn(r);
    var e := r'.events[|r.events|];
    CountsAppend(r.events, e);
    forall i | 0 <= i < |r'.events| && r'.events[i].Called? ensures CallServed(r', i) {
      PromiseIsKnown(r, i);
      ServedPersists(r, r', e, i);
    }
  }

  lemma PromiseIsKnown(r: Runner, i: nat)
    requires HistoryOk(r) && i < |r.events| && r.events[i].Called?
    ensures r.events[i].promise < r.loops
  {
    assert CallServed(r, i);
  }

  lemma CallKeepsOk(r: Runner)
    requires RunnerOk(r)
    ensures RunnerOk(RunCycle(r))
    ensures r.running.None? ==> AtLoopHead(Runner(true, Some(r.loops), r.loops + 1, r.events + [Called(r.loops)]))
  {
    hide CallServed, CycleBetween;
    var r1 := if r.running.Some? then RunCycle(r)
              else Runner(true, Some(r.loops), r.loops + 1, r.events + [Called(r.loops)]);
    var e := r1.events[|r.events|];
    CountsAppend(r.events, e);
    forall i | 0 <= i < |r1.events| && r1.events[i].Called? ensures CallServed(r1, i) {
      if i < |r.events| {
        PromiseIsKnown(r, i);
        ServedPersists(r, r1, e, i);
      } else {
        NewCallIsServed(r, r1);
      }
    }
    if r.running.None? {
      TurnKeepsOk(r1);
    }
  }

  /** A call just made is still to be served: its promise has not settled and a cycle is pending. */
  lemma NewCallIsServed(r: Runner, r': Runner)
    requires RunnerOk(r) && r'.pending && r'.running.Some? && r'.running.value < r'.loops
    requires r'.running == r.running || (r.running.None? && r'.running == Some(r.loops))
    requires r'.events == r.events + [Called(r'.running.value)]
    ensures CallServed(r', |r.events|)
  {
    hide CallServed;
    forall k | 0 <= k < |r'.events| ensures r'.events[k] != Settled(r'.running.value) {
      assert k < |r.events| ==> r'.events[k] == r.events[k];
    }
    assert CallServed(r', |r.events|) by {
      OpenCall(r', |r.events|);
    }
  }

  lemma OpenCall(r: Runner, i: nat)
    requires i < |r.events| && r.events[i].Called?
    requires r.pending && r.running == Some(r.events[i].promise) && r.events[i].promise < r.loops
    requires forall k | 0 <= k < |r.events| :: r.events[k] != Settled(r.events[i].promise)
    ensures CallServed(r, i)
  {
  }

  lemma EndKeepsOk(r: Runner)
    requires RunnerOk(r) && r.running.Some?
    ensures RunnerOk(CycleEnds(r))
    ensures AtLoopHead(r.(events := r.events + [Finished(r.running.value)]))
  {
    hide CallServed, CycleBetween;
    var promise := r.running.value;
    var r1 := r.(events := r.events + [Finished(promise)]);
    CountsAppend(r.events, Finished(promise));
    forall i | 0 <= i < |r1.events| && r1.events[i].Called? ensures CallServed(r1, i) {
      ServedPersists(r, r1, Finished(promise), i);
    }
    if !r.pending {
      forall i | 0 <= i < |r1.events| && r1.events[i] == Called(promise)
        ensures CycleBetween(r1.events, i, |r1.events|, promise)
      {
        JustFinished(r, i);
      }
    }
    TurnKeepsOk(r1);
  }

  lemma JustFinished(r: Runner, i: nat)
    requires RunnerOk(r) && r.running.Some? && !r.pending && i < |r.events| && r.events[i] == Called(r.running.value)
    ensures var events := r.events + [Finished(r.running.value)];
      CycleBetween(events, i, |events|, r.running.value)
  {
    var promise := r.running.value;
    var events := r.events + [Finished(promise)];
    assert CallServed(r, i);
    var j :| i < j < |r.events| && r.events[j] == Started(promise);
    assert events[j] == Started(promise) && events[|r.events|] == Finished(promise);
  }

  // ---- whole runs --------------------------------------------------------------------------

  predicate Next(r: Runner, r': Runner) {
    r' == RunCycle(r) || (r.running.Some? && r' == CycleEnds(r))
  }

  /** Calls at any time, from anyone, and cycles that take as long as they like. */
  predicate IsRun(run: seq<Runner>) {
    && |run| > 0 && run[0] == IDLE
    && forall i | 0 <= i < |run| - 1 :: Next(run[i], run[i + 1])
  }

  lemma {:induction false} RunIsOk(run: seq<Runner>, i: nat)
    requires IsRun(run) && i < |run|
    ensures RunnerOk(run[i])
  {
    hide RunnerOk, RunCycle, CycleEnds;
    if i == 0 {
      assert RunnerOk(IDLE) by {
        IdleIsOk();
      }
    } else {
      RunIsOk(run, i - 1);
      assert Next(run[i - 1], run[i]);
      if run[i] == RunCycle(run[i - 1]) {
        CallKeepsOk(run[i - 1]);
      } else {
        EndKeepsOk(run[i - 1]);
      }
    }
  }

  lemma IdleIsOk()
    ensures RunnerOk(IDLE)
  {
  }

  /** At most one cycle runs at a time, and exactly while the service is running. */
  lemma OneCycleAtATime(run: seq<Runner>, i: nat)
    requires IsRun(run) && i < |run|
    ensures Starts(run[i].events) - Ends(run[i].events) == if run[i].running.Some? then 1 else 0
  {
    hide IsRun;
    RunIsOk(run, i);
  }

  /** A promise settles only after a whole cycle that started after the call it was returned to. */
  lemma EveryCallIsServed(run: seq<Runner>, i: nat, call: nat)
    requires IsRun(run) && i < |run| && call < |run[i].events| && run[i].events[call].Called?
    ensures var (r, promise) := (run[i], run[i].events[call].promise);
      && (r.running == Some(promise) || SettledLater(r.events, call, promise))
      && (forall k | 0 <= k < |r.events| :: r.events[k] == Settled(promise) ==> CycleBetween(r.events, call, k, promise))
  {
    hide IsRun, CycleBetween, SettledLater;
    RunIsOk(run, i);
    assert CallServed(run[i], call);
  }

  /** Calls made while a cycle runs share the next one: cycles never outnumber calls, from any moment on. */
  lemma {:induction false} CyclesNeverOutnumberCalls(run: seq<Runner>, i: nat, j: nat)
    requires IsRun(run) && i <= j < |run|
    ensures Starts(run[j].events) - Starts(run[i].events) + (if run[j].pending then 1 else 0)
            <= Calls(run[j].events) - Calls(run[i].events) + (if run[i].pending then 1 else 0)
  {
    if i < j {
      CyclesNeverOutnumberCalls(run, i, j - 1);
      assert Next(run[j - 1], run[j]);
      StepCounts(run[j - 1], run[j]);
    }
  }

  lemma StepCounts(r: Runner, r': Runner)
    requires Next(r, r')
    ensures Starts(r'.events) + (if r'.pending then 1 else 0) - Calls(r'.events)
            <= Starts(r.events) + (if r.pending then 1 else 0) - Calls(r.events)
  {
    var e := r'.events[|r.events|];
    CountsAppend(r.events, e);
    if |r'.events| > |r.events| + 1 {
      var last := r'.events[|r.events| + 1];
      CountsAppend(r.events + [e], last);
      assert r'.events == r.events + [e] + [last];
    } else {
      assert r'.events == r.events + [e];
    }
  }

  // ---- the passes of the service -----------------------------------------------------------

  /** How the service stands after some passes; `lost` says that a request brought no answer meanwhile. */
  datatype Standing = Standing(recovered: bool, health: Health, lost: bool)

  /**
   * The passes from number `first` on began at moments not before state `from`. Each completed one
   * has its verdicts and made the service recovered; one that did not complete was left without an
   * answer; and the health is what the last one found, if that completed.
   */
  ghost predicate PassesFit(run: seq<World>, log: set<Observation>, passes: seq<Pass>, first: nat, from: nat, standing: Standing) {
    && first <= |passes|
    && (forall k | first <= k < |passes| :: PassFits(run, log, from, passes[k]))
    && (forall k | first <= k < |passes| :: if passes[k].completed then standing.recovered else standing.lost)
    && (|passes| > first && passes[|passes| - 1].completed ==> standing.health == HealthAfter(passes[|passes| - 1]))
  }

  lemma NoPassYet(run: seq<World>, log: set<Observation>, passes: seq<Pass>, from: nat, standing: Standing)
    ensures PassesFit(run, log, passes, |passes|, from, standing)
  {
  }

  /** After at least one pass the service has recovered, or some request brought no answer. */
  lemma SomePassTells(run: seq<World>, log: set<Observation>, passes: seq<Pass>, first: nat, from: nat, standing: Standing)
    requires PassesFit(run, log, passes, first, from, standing) && |passes| > first
    ensures standing.recovered || standing.lost
  {
  }

  lemma OneMorePass(run: seq<World>, log: set<Observation>, passes: seq<Pass>, first: nat, from: nat, standing: Standing,
      run': seq<World>, log': set<Observation>, pass: Pass, here: nat, standing': Standing)
    requires PassesFit(run, log, passes, first, from, standing) && run <= run' && log <= log'
    requires from <= here && PassFits(run', log', here, pass)
    requires (standing.recovered ==> standing'.recovered) && (standing.lost ==> standing'.lost)
    requires if pass.completed then standing'.recovered && standing'.health == HealthAfter(pass) else standing'.lost
    ensures PassesFit(run', log', passes + [pass], first, from, standing')
  {
    hide PassFits;
    PassStays(run', run', log', log', here, from, pass);
    forall k | first <= k < |passes| ensures PassFits(run', log', from, passes[k]) {
      PassStays(run, run', log, log', from, from, passes[k]);
    }
  }

  // ---- the loop as the service runs it -----------------------------------------------------

  /** The fields of FinalityService behind `runCycle`, and the history of what happened. */
  class CycleRunner {
    const finality: FinalityService
    var pending: bool
    var running: Option<nat>
    var loops: nat
    var events: seq<Event>
    ghost var marks: seq<nat>  // how many passes the finality service had begun when each event happened

    ghost predicate Marked()
      reads this
    {
      |marks| == |events|
    }

    function State(): Runner
      reads this
    {
      Runner(pending, running, loops, events)
    }

    constructor (finality: FinalityService)
      ensures this.finality == finality && State() == IDLE && Marked()
    {
      this.finality := finality;
      pending, running, loops, events, marks := false, None, 0, [], [];
    }

    /** A call that finds a cycle running. */
    method Join()
      requires running.Some? && Marked()
      modifies this
      ensures State() == RunCycle(old(State()))
      ensures pending && running == old(running) && events == old(events) + [Called(running.value)]
      ensures marks == old(marks) + [|finality.passes|] && Marked()
    {
      pending := true;
      events := events + [Called(running.value)];
      marks := marks + [|finality.passes|];
    }

    /** The calls that arrive while one cycle awaits. */
    method Arrive(arrivals: nat)
      requires RunnerOk(State()) && running.Some? && Marked()
      modifies this
      ensures RunnerOk(State()) && running == old(running) && Marked()
      ensures pending == (old(pending) || arrivals > 0)
      ensures old(events) <= events && Starts(events) == Starts(old(events)) && old(marks) <= marks
    {
      hide RunnerOk;
      for n := 0 to arrivals
        invariant RunnerOk(State()) && running == old(running) && Marked() && old(marks) <= marks
        invariant pending == (old(pending) || n > 0)
        invariant old(events) <= events && Starts(events) == Starts(old(events))
      {
        CallKeepsOk(State());
        CountsAppend(events, Called(running.value));
        Join();
      }
    }

    /**
     * One turn of the loop: a cycle of the finality service, and the calls that arrive meanwhile. Its
     * one pass lies between the start and the end that are recorded for it.
     */
    method RunOne(promise: nat, arrivals: seq<nat>) returns (rest: seq<nat>, ghost pass: Pass)
      requires AtLoopHead(State()) && pending && running == Some(promise) && Marked() && finality.backend.Valid()
      modifies this, finality`health, finality`recovered, finality`passes, finality.backend, finality.backend.intents
      ensures AtLoopHead(State()) && running == old(running) && Marked()
      ensures old(events) + [Started(promise)] <= events && Starts(events) == Starts(old(events)) + 1
      ensures |events| >= |old(events)| + 2 && events[|events| - 1] == Finished(promise)
      ensures old(marks) <= marks && marks[|old(events)|] == |old(finality.passes)|
      ensures marks[|events| - 1] == |old(finality.passes)| + 1
      ensures finality.passes == old(finality.passes) + [pass]
      ensures PassFits(finality.backend.run, finality.backend.log, old(|finality.backend.run|) - 1, pass)
      ensures !pass.completed ==>
        && finality.backend.failed > old(finality.backend.failed)
        && finality.health == old(finality.health) && finality.recovered == old(finality.recovered)
      ensures pass.completed ==> finality.recovered && finality.health == HealthAfter(pass)
      ensures if arrivals == [] then rest == [] && !pending else rest == arrivals[1..]
      ensures finality.backend.Advanced() && finality.backend.submitted == old(finality.backend.submitted)
      ensures finality.backend.asked <= old(finality.backend.asked) + 1
    {
      hide HistoryOk, RunnerOk, AtLoopHead, RunCycle, CycleEnds, Count, PassFits, Protocol.IsRun;
      TurnKeepsOk(State());
      CountsAppend(events, Started(promise));
      pending := false;
      events := events + [Started(promise)];
      marks := marks + [|finality.passes|];
      pass := finality.Cycle();
      rest := arrivals;
      if rest != [] {
        Arrive(rest[0]);
        rest := rest[1..];
      }
      EndKeepsOk(State());
      CountsAppend(events, Finished(promise));
      events := events + [Finished(promise)];
      marks := marks + [|finality.passes|];
    }

    /**
     * A call that finds nothing running, to the moment its promise settles. Every cycle it starts is
     * one pass of the finality service, taken after the call, and there is at least one; a pass that
     * completes makes the service recovered, and one that does not was left without an answer.
     */
    method RunLoop(arrivals: seq<nat>) returns (promise: nat)
      requires RunnerOk(State()) && running.None? && Marked() && finality.backend.Valid()
      modifies this, finality`health, finality`recovered, finality`passes, finality.backend, finality.backend.intents
      ensures RunnerOk(State()) && running.None? && !pending && Marked()
      ensures |finality.passes| - |old(finality.passes)| == Starts(events) - Starts(old(events)) >= 1
      ensures old(finality.passes) <= finality.passes
      ensures PassesFit(finality.backend.run, finality.backend.log, finality.passes, old(|finality.passes|),
                        old(|finality.backend.run|) - 1,
                        Standing(finality.recovered, finality.health, finality.backend.failed > old(finality.backend.failed)))
      ensures finality.recovered || finality.backend.failed > old(finality.backend.failed)
      ensures old(events) + [Called(promise)] <= events && events[|events| - 1] == Settled(promise)
      ensures finality.backend.Advanced() && finality.backend.submitted == old(finality.backend.submitted)
      ensures finality.backend.asked - old(finality.backend.asked) <= Starts(events) - Starts(old(events))
    {
      hide HistoryOk, RunnerOk, AtLoopHead, RunCycle, CycleEnds, Count, PassFits, PassesFit, Protocol.IsRun;
      promise := loops;
      CallKeepsOk(State());
      CountsAppend(events, Called(loops));
      pending := true;
      events := events + [Called(loops)];
      marks := marks + [|finality.passes|];
      running, loops := Some(loops), loops + 1;
      ghost var from: nat, lost := |finality.backend.run| - 1, finality.backend.failed;
      Drain(promise, arrivals);
      SomePassTells(finality.backend.run, finality.backend.log, finality.passes, old(|finality.passes|), from,
                    Standing(finality.recovered, finality.health, finality.backend.failed > lost));
      TurnKeepsOk(State());
      CountsAppend(events, Settled(promise));
      running := None;
      events := events + [Settled(promise)];
      marks := marks + [|finality.passes|];
    }

    /** `while (this.pending)`: cycles until no call is left waiting for one. */
    method Drain(promise: nat, arrivals: seq<nat>)
      requires AtLoopHead(State()) && pending && running == Some(promise) && Marked() && finality.backend.Valid()
      modifies this, finality`health, finality`recovered, finality`passes, finality.backend, finality.backend.intents
      ensures AtLoopHead(State()) && !pending && running == Some(promise) && Marked()
      ensures old(events) <= events
      ensures |finality.passes| - |old(finality.passes)| == Starts(events) - Starts(old(events)) >= 1
      ensures old(finality.passes) <= finality.passes
      ensures PassesFit(finality.backend.run, finality.backend.log, finality.passes, old(|finality.passes|),
                        old(|finality.backend.run|) - 1,
                        Standing(finality.recovered, finality.health, finality.backend.failed > old(finality.backend.failed)))
      ensures finality.backend.Advanced() && finality.backend.submitted == old(finality.backend.submitted)
      ensures finality.backend.asked - old(finality.backend.asked) <= Starts(events) - Starts(old(events))
    {
      hide HistoryOk, AtLoopHead, Count, PassFits, PassesFit, Protocol.IsRun;
      ghost var first, from: nat, lost := |finality.passes|, |finality.backend.run| - 1, finality.backend.failed;
      NoPassYet(finality.backend.run, finality.backend.log, finality.passes, from,
                Standing(finality.recovered, finality.health, false));
      var rest := arrivals;
      while pending
        invariant AtLoopHead(State()) && running == Some(promise) && Marked()
        invariant old(events) <= events
        invariant |finality.passes| - first == Starts(events) - Starts(old(events)) >= 0
        invariant pending || Starts(events) > Starts(old(events))
        invariant old(finality.passes) <= finality.passes
        invariant PassesFit(finality.backend.run, finality.backend.log, finality.passes, first, from,
                            Standing(finality.recovered, finality.health, finality.backend.failed > lost))
        invariant finality.backend.Advanced() && finality.backend.submitted == old(finality.backend.submitted)
        invariant finality.backend.asked - old(finality.backend.asked) <= Starts(events) - Starts(old(events))
        decreases |rest|, pending
      {
        ghost var run, log, passes := finality.backend.run, finality.backend.log, finality.passes;
        ghost var before := Standing(finality.recovered, finality.health, finality.backend.failed > lost);
        ghost var pass;
        rest, pass := RunOne(promise, rest);
        OneMorePass(run, log, passes, first, from, before, finality.backend.run, finality.backend.log, pass, |run| - 1,
                    Standing(finality.recovered, finality.health, finality.backend.failed > lost));
      }
    }
  }
}
