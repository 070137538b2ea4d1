/** ConnectionManagerService: the fields, the code between its awaits, and `request` as one call runs it. */
module ConnectionManager {
  import opened Wrappers
  import C = Connections

  class ConnectionManagerService {
    var active: Option<C.ActiveEndpoint>
    var preferred: C.EndpointName
    var switching: Option<C.Phase>
    var reconnectAttempt: nat
    var reconnectTimer: bool
    var destroyed: bool
    // what it did so far with clients, tracked works and timers
    var created: nat
    var live: set<C.ClientId>
    var order: seq<C.EndpointName>
    var tried: seq<C.EndpointName>
    var settled: seq<C.Finished>
    var armed: seq<nat>
    var abandoned: seq<C.ClientId>

    function State(): C.Manager
      reads this
    {
      C.Manager(active, preferred, switching, reconnectAttempt, reconnectTimer, destroyed,
                created, live, order, tried, settled, armed, abandoned)
    }

    constructor ()
      ensures State() == C.INITIAL
    {
      active, preferred, switching := None, C.Primary, None;
      reconnectAttempt, reconnectTimer, destroyed := 0, false, false;
      created, live, order, tried, settled, armed, abandoned := 0, {}, [], [], [], [], [];
    }

    /** The tracked promise settles and `switching` is cleared. */
    method Settle(outcome: Option<C.ActiveEndpoint>)
      modifies this
      ensures State() == C.Settle(old(State()), outcome)
    {
      switching := None;
      settled := settled + [C.Finished(order, tried, outcome)];
    }

    method ScheduleReconnect()
      modifies this
      ensures State() == C.ScheduleReconnect(old(State()))
      ensures old(C.ManagerOk(State())) ==> C.Good(old(State()), State()) && (destroyed || reconnectTimer)
      ensures C.ArmsTimer(old(State()), State()) && active == old(active) && switching == old(switching)
    {
      hide C.ManagerOk, C.Good, C.PledgeOk, C.Avoids, C.Known, C.Gone, C.LeavesFor, C.ConnectsIfIdle, C.Tries, C.Fails,
           C.ArmsTimer;
      C.ScheduleArms(State());
      if C.ManagerOk(State()) {
        C.ScheduleIsGood(State());
      }
      if destroyed || reconnectTimer {
        return;
      }
      armed := armed + [C.ReconnectDelayMs(reconnectAttempt)];
      reconnectAttempt := reconnectAttempt + 1;
      reconnectTimer := true;
    }

    /** Up to the await of the old client's disconnect. */
    method Release()
      modifies this
      ensures State() == C.Release(old(State()))
      ensures old(C.ManagerOk(State())) ==> C.Good(old(State()), State()) && active.None?
      ensures old(C.ManagerOk(State()) && active.Some?) ==>
        C.Gone(State(), old(active.value.client)) && old(active.value.client) !in live
    {
      hide C.ManagerOk, C.Good, C.PledgeOk, C.Avoids, C.Known, C.Gone, C.LeavesFor, C.ConnectsIfIdle, C.Tries, C.Fails,
           C.ArmsTimer;
      if C.ManagerOk(State()) {
        C.ReleaseIsGood(State());
      }
      var current := active;
      active := None;
      if current.Some? {
        live := live - {current.value.client};
      }
    }

    /** From the head of the loop to the next await, or to the failure of the work. */
    method ConnectInOrder(names: seq<C.EndpointName>)
      modifies this
      ensures State() == C.ConnectInOrder(old(State()), names)
      ensures old(C.ManagerOk(State()) && active.None? && !C.IsBootstrapping(State())) && old(tried) + names == old(order) ==>
        C.Good(old(State()), State()) && (active.Some? || switching.Some? || reconnectTimer || destroyed)
    {
      hide C.ManagerOk, C.Good, C.PledgeOk, C.Avoids, C.Known, C.Gone, C.LeavesFor, C.ConnectsIfIdle, C.Tries, C.Fails,
           C.ArmsTimer;
      if C.ManagerOk(State()) && active.None? && !C.IsBootstrapping(State()) && tried + names == order {
        C.ConnectInOrderIsGood(State(), names);
      }
      if names == [] || destroyed {
        ScheduleReconnect();
        Settle(None);
        return;
      }
      var client := created;
      created := created + 1;
      live := live + {client};
      tried := tried + [names[0]];
      switching := Some(C.Bootstrapping(names[0], client, names[1..]));
    }

    method Connection() returns (pledge: C.Pledge)
      modifies this
      ensures (State(), pledge) == C.Connection(old(State()))
      ensures old(C.ManagerOk(State())) ==>
        && C.Good(old(State()), State()) && C.PledgeOk(State(), pledge) && (active.Some? || switching.Some? || reconnectTimer || destroyed)
        && (forall c | C.Gone(old(State()), c) :: C.Avoids(State(), pledge, c))
      ensures C.ConnectsIfIdle(old(State()), State())
      ensures pledge == if old(active.Some?) then C.Ready(old(active.value)) else C.Tracked(|old(settled)|)
    {
      hide C.ManagerOk, C.Good, C.PledgeOk, C.Avoids, C.Known, C.Gone, C.LeavesFor, C.ConnectsIfIdle, C.Tries, C.Fails,
           C.ArmsTimer;
      C.ConnectionConnects(State());
      if C.ManagerOk(State()) {
        C.ConnectionIsGood(State());
      }
      if active.Some? {
        return C.Ready(active.value);
      }
      pledge := C.Tracked(|settled|);
      if switching.None? {
        order, tried := [preferred, C.Other(preferred)], [];
        ConnectInOrder([preferred, C.Other(preferred)]);
      }
    }

    method Failover(failed: C.ClientId) returns (pledge: C.Pledge)
      modifies this
      ensures (State(), pledge) == C.Failover(old(State()), failed)
      ensures old(C.ManagerOk(State()) && C.Known(State(), failed)) ==>
        && C.Good(old(State()), State()) && C.PledgeOk(State(), pledge) && (active.Some? || switching.Some? || reconnectTimer || destroyed)
        && C.Gone(State(), failed) && C.Avoids(State(), pledge, failed)
      ensures old(C.ManagerOk(State())) ==>
        if old(active.Some? && active.value.client == failed) then C.LeavesFor(old(State()), State(), old(active.value))
        else C.ConnectsIfIdle(old(State()), State())
    {
      hide C.ManagerOk, C.Good, C.PledgeOk, C.Avoids, C.Known, C.Gone, C.LeavesFor, C.ConnectsIfIdle, C.Tries, C.Fails,
           C.ArmsTimer;
      if C.ManagerOk(State()) {
        C.FailoverLeaves(State(), failed);
      }
      if C.ManagerOk(State()) && C.Known(State(), failed) {
        C.FailoverIsGood(State(), failed);
      }
      pledge := C.Tracked(|settled|);
      if switching.Some? {
        return;
      }
      if active.None? || active.value.client != failed {
        pledge := Connection();
        return;
      }
      var alternate := C.Other(active.value.name);
      Release();
      order, tried := [alternate], [];
      abandoned := abandoned + [failed];
      switching := Some(C.ClosingOld(alternate, failed));
    }

    method SwitchEndpoint()
      modifies this
      ensures State() == C.SwitchEndpoint(old(State()))
      ensures old(C.ManagerOk(State())) ==> C.Good(old(State()), State()) && (active.Some? || switching.Some? || reconnectTimer || destroyed)
      ensures old(C.ManagerOk(State())) ==>
        if old(active.Some?) then C.LeavesFor(old(State()), State(), old(active.value))
        else C.ConnectsIfIdle(old(State()), State())
    {
      hide C.ManagerOk, C.Good, C.PledgeOk, C.Avoids, C.Known, C.Gone, C.LeavesFor, C.ConnectsIfIdle, C.Tries, C.Fails,
           C.ArmsTimer;
      if C.ManagerOk(State()) {
        C.SwitchLeaves(State());
      }
      if C.ManagerOk(State()) {
        C.SwitchIsGood(State());
      }
      var current := active;
      if current.None? {
        var _ := Connection();
      } else {
        var _ := Failover(current.value.client);
      }
    }

    /** The tracked work resumes: `connect` and the checks have passed or failed. */
    method BootstrapEnded(ok: bool)
      requires C.IsBootstrapping(State())
      modifies this
      ensures State() == if ok then C.BootstrapSucceeded(old(State())) else C.BootstrapFailed(old(State()))
      ensures old(C.ManagerOk(State())) ==> C.Good(old(State()), State())
      ensures old(C.ManagerOk(State())) ==> var phase := old(switching.value);
        if ok then
          && active == Some(C.ActiveEndpoint(phase.name, phase.client)) && preferred == phase.name && switching.None?
          && reconnectAttempt == 0 && armed == [] && live == {phase.client}
          && settled == old(settled) + [C.Finished(order, tried, active)]
        else
          && active.None? && preferred == old(preferred) && switching == Some(C.ClosingFailed(phase.rest, phase.client))
          && reconnectAttempt == old(reconnectAttempt) && armed == old(armed) && live == {} && settled == old(settled)
    {
      hide C.ManagerOk, C.Good, C.PledgeOk, C.Avoids, C.Known, C.Gone, C.LeavesFor, C.ConnectsIfIdle, C.Tries, C.Fails,
           C.ArmsTimer;
      if C.ManagerOk(State()) {
        C.SuccessInstalls(State());
        C.FailureCloses(State());
      }
      if C.ManagerOk(State()) {
        C.BootstrapIsGood(State());
      }
      var phase := switching.value;
      if ok {
        active := Some(C.ActiveEndpoint(phase.name, phase.client));
        preferred := phase.name;
        reconnectAttempt, armed := 0, [];
        Settle(active);
      } else {
        live := live - {phase.client};
        switching := Some(C.ClosingFailed(phase.rest, phase.client));
      }
    }

    /** The tracked work resumes after the disconnect it awaited. */
    method DisconnectEnded()
      requires switching.Some? && !C.IsBootstrapping(State())
      modifies this
      ensures State() == C.DisconnectFinished(old(State()))
      ensures old(C.ManagerOk(State())) ==> C.Good(old(State()), State()) && (switching.Some? || reconnectTimer || destroyed)
      ensures old(C.ManagerOk(State())) ==>
        match old(switching.value)
        case ClosingOld(alternate, _) =>
          && preferred == alternate
          && (if destroyed then C.Fails(old(State()).(preferred := alternate), State(), order, old(tried))
              else C.Tries(old(State()), State(), alternate, []) && tried == old(tried) + [alternate])
        case ClosingFailed(rest, _) =>
          && preferred == old(preferred)
          && (if destroyed || rest == [] then C.Fails(old(State()), State(), order, old(tried))
              else C.Tries(old(State()), State(), rest[0], rest[1..]) && tried == old(tried) + [rest[0]])
        case Bootstrapping(_, _, _) => false
    {
      hide C.ManagerOk, C.Good, C.PledgeOk, C.Avoids, C.Known, C.Gone, C.LeavesFor, C.ConnectsIfIdle, C.Tries, C.Fails,
           C.ArmsTimer;
      if C.ManagerOk(State()) {
        C.DisconnectGoesOn(State());
        C.DisconnectKeepsDestroyed(State());
      }
      if C.ManagerOk(State()) {
        C.DisconnectIsGood(State());
      }
      match switching.value
      case ClosingOld(alternate, _) =>
        preferred := alternate;
        ConnectInOrder([alternate]);
      case ClosingFailed(rest, _) =>
        ConnectInOrder(rest);
    }

    method TimerFired()
      modifies this
      ensures State() == C.TimerFired(old(State()))
      ensures old(C.ManagerOk(State())) ==> C.Good(old(State()), State()) && (active.Some? || switching.Some? || reconnectTimer || destroyed)
      ensures C.ConnectsIfIdle(old(State()).(reconnectTimer := false), State()) && !reconnectTimer
    {
      hide C.ManagerOk, C.Good, C.PledgeOk, C.Avoids, C.Known, C.Gone, C.LeavesFor, C.ConnectsIfIdle, C.Tries, C.Fails,
           C.ArmsTimer;
      C.TimerConnects(State());
      if C.ManagerOk(State()) {
        C.TimerIsGood(State());
      }
      reconnectTimer := false;
      var _ := Connection();
    }

    method HandleUnexpectedDisconnect(client: C.ClientId)
      modifies this
      ensures State() == C.UnexpectedDisconnect(old(State()), client)
      ensures old(C.ManagerOk(State())) ==> C.Good(old(State()), State()) && (State() == old(State()) || active.Some? || switching.Some? || reconnectTimer || destroyed)
      ensures old(C.ManagerOk(State())) ==>
        if old(active.Some? && active.value.client == client) then C.LeavesFor(old(State()), State(), old(active.value))
        else State() == old(State())
    {
      hide C.ManagerOk, C.Good, C.PledgeOk, C.Avoids, C.Known, C.Gone, C.LeavesFor, C.ConnectsIfIdle, C.Tries, C.Fails,
           C.ArmsTimer;
      if C.ManagerOk(State()) {
        C.LossLeaves(State(), client);
      }
      if C.ManagerOk(State()) {
        C.LossIsGood(State(), client);
      }
      if active.None? || active.value.client != client {
        return;
      }
      var _ := Failover(client);
    }

    method BeginShutdown()
      modifies this
      ensures State() == C.ShutdownBegins(old(State()))
      ensures old(C.ManagerOk(State())) ==> C.Good(old(State()), State())
    {
      hide C.ManagerOk, C.Good;
      if C.ManagerOk(State()) {
        C.ShutdownIsGood(State());
      }
      destroyed := true;
      reconnectTimer := false;
    }
  }

  /** How one `request` call ended, if it ended. */
  datatype Reply = Response | XrplUnavailable | Rethrown | Suspended

  /** The service and everyone who uses it; `run` records every segment anyone has executed. */
  class Deployment {
    const manager: ConnectionManagerService
    var calls: map<nat, C.Call>
    var shutdown: C.Shutdown
    ghost var run: seq<C.System>

    function Now(): C.System
      reads this, manager
    {
      C.System(manager.State(), calls, shutdown)
    }

    ghost predicate Valid()
      reads this, manager
    {
      C.IsRun(run) && run[|run| - 1] == Now()
    }

    constructor ()
      ensures Valid() && fresh(manager)
    {
      manager := new ConnectionManagerService();
      calls, shutdown := map[], C.NotCalled;
      new;
      run := [Now()];
    }

    ghost method Record(before: C.System, a: C.Action)
      requires C.IsRun(run) && run[|run| - 1] == before
      requires C.Enabled(before, a) && Now() == C.Apply(before, a)
      modifies this`run
      ensures Valid() && run == old(run) + [Now()]
    {
      hide C.Apply, C.Enabled;
      C.RunExtends(run, a, Now());
      run := run + [Now()];
    }

    method Progress(id: nat, progress: C.Progress)
      requires id in calls
      modifies this`calls
      ensures calls == old(calls)[id := old(calls)[id].(progress := progress)]
    {
      calls := calls[id := calls[id].(progress := progress)];
    }

    method SendTo(id: nat, client: C.ClientId, progress: C.Progress)
      requires id in calls
      modifies this`calls
      ensures calls == C.Sending(old(Now()), id, client, progress).calls
    {
      var call := calls[id];
      calls := calls[id := call.(sent := call.sent + [C.Sent(client, call.payload)], progress := progress)];
    }

    /** One segment of anyone, run by the service's own code. */
    method Execute(a: C.Action)
      requires Valid() && C.Enabled(Now(), a)
      modifies this, manager
      ensures Valid() && Now() == C.Apply(old(Now()), a) && run == old(run) + [Now()]
    {
      hide C.IsRun;
      ghost var before := Now();
      match a {
        case EnsureConnected => var _ := manager.Connection();
        case Switch => manager.SwitchEndpoint();
        case ConnectionLost(client) => manager.HandleUnexpectedDisconnect(client);
        case TimerFires => manager.TimerFired();
        case BootstrapEnds(ok) => manager.BootstrapEnded(ok);
        case DisconnectEnds => manager.DisconnectEnded();
        case StartRequest(id, payload) =>
          var pledge := manager.Connection();
          calls := calls[id := C.Call(payload, [], C.AwaitFirst(pledge))];
        case FirstResumes(id) =>
          match C.Outcome(manager.State(), calls[id].progress.pledge) {
            case None => Progress(id, C.Unavailable);
            case Some(endpoint) => SendTo(id, endpoint.client, C.SendingFirst(endpoint.client));
          }
        case FirstEnds(id, end) =>
          if end == C.Delivered {
            Progress(id, C.Answered);
          } else if end == C.OtherError {
            Progress(id, C.Threw);
          } else {
            var first := calls[id].progress.first;
            var pledge := manager.Failover(first);
            Progress(id, C.AwaitSecond(first, pledge));
          }
        case SecondResumes(id) =>
          match C.Outcome(manager.State(), calls[id].progress.next) {
            case None => Progress(id, C.Unavailable);
            case Some(endpoint) => SendTo(id, endpoint.client, C.SendingSecond(calls[id].progress.failed, endpoint.client));
          }
        case SecondEnds(id, end) =>
          if end == C.Delivered {
            Progress(id, C.Answered);
          } else if end == C.OtherError {
            Progress(id, C.Threw);
          } else if C.DropsConnection(manager.State(), calls[id].progress.second) {
            var second := calls[id].progress.second;
            manager.Release();
            Progress(id, C.Releasing(second));
          } else {
            Progress(id, C.Unavailable);
          }
        case ReleaseEnds(id) =>
          manager.ScheduleReconnect();
          Progress(id, C.Unavailable);
        case ShutdownCalled =>
          shutdown := C.AwaitingSwitch(if manager.switching.Some? then Some(|manager.settled|) else None);
          manager.BeginShutdown();
        case ShutdownResumes =>
          shutdown := C.ClosingLast(if manager.active.Some? then Some(manager.active.value.client) else None);
          manager.Release();
        case ShutdownReturns => shutdown := C.Returned;
      }
      Record(before, a);
    }

    /** Anyone else's segments, while call `me` is suspended. */
    method Yield(me: nat)
      requires Valid() && me in calls
      modifies this, manager
      ensures Valid() && old(run) <= run
      ensures me in calls && calls[me] == old(calls[me])
    {
      hide C.IsRun, C.Apply, C.Enabled;
      var n := Pick<nat>();
      while n > 0
        invariant Valid() && old(run) <= run
        invariant me in calls && calls[me] == old(calls[me])
      {
        var a := Pick<C.Action>();
        if C.Enabled(Now(), a) && C.CallOf(a) != Some(me) {
          C.OnlyTheOwnerMoves(Now(), a);
          Execute(a);
        }
        n := n - 1;
      }
    }

    /** Waits on the pledge; a work that never settles leaves the call suspended. */
    method Await(me: nat, pledge: C.Pledge) returns (resumed: bool)
      requires Valid() && me in calls
      modifies this, manager
      ensures Valid() && old(run) <= run
      ensures me in calls && calls[me] == old(calls[me])
      ensures resumed <==> C.IsSettled(manager.State(), pledge)
    {
      Yield(me);
      resumed := C.IsSettled(manager.State(), pledge);
    }

    /** One segment of call `id` itself. */
    method Segment(id: nat, a: C.Action)
      requires Valid() && C.Enabled(Now(), a) && C.CallOf(a) == Some(id)
      modifies this, manager
      ensures Valid() && old(run) <= run
      ensures id in calls && C.AtMostTwo(calls[id]) && LeadsTo(a, calls[id].progress)
      ensures calls[id].payload == if a.StartRequest? then a.payload else old(calls)[id].payload
      ensures calls[id].progress.Answered? ==> |calls[id].sent| >= 1
    {
      hide C.IsRun, C.Apply, C.Enabled, C.ManagerOk, C.WillReconnect, C.ShutdownOk;
      OwnSegment(Now(), a, id);
      Execute(a);
      C.RunIsOk(run, LastOf(run));
    }

    /**
     * Sends a request on the active endpoint. A transport failure causes one failover and one
     * retry of the identical request.
     */
    method Request(id: nat, payload: string) returns (reply: Reply)
      requires Valid() && id !in calls
      modifies this, manager
      ensures Valid() && old(run) <= run
      ensures id in calls && calls[id].payload == payload && C.AtMostTwo(calls[id])
      ensures reply.Response? ==> calls[id].progress.Answered? && |calls[id].sent| >= 1
      ensures reply.XrplUnavailable? ==> calls[id].progress.Unavailable?
      ensures reply.Rethrown? ==> calls[id].progress.Threw?
      ensures reply.Suspended? ==> C.IsWaiting(manager.State(), calls[id].progress)
    {
      hide C.IsRun, C.Apply, C.AtMostTwo, C.Outcome;
      Segment(id, C.StartRequest(id, payload));
      reply := Send(id);
    }

    /** On whatever the pledge brings; a transport failure leads to the retry. */
    method Send(id: nat) returns (reply: Reply)
      requires Valid() && id in calls && calls[id].progress.AwaitFirst? && C.AtMostTwo(calls[id])
      modifies this, manager
      ensures Valid() && old(run) <= run
      ensures id in calls && calls[id].payload == old(calls)[id].payload && C.AtMostTwo(calls[id])
      ensures reply.Response? ==> calls[id].progress.Answered? && |calls[id].sent| >= 1
      ensures reply.XrplUnavailable? ==> calls[id].progress.Unavailable?
      ensures reply.Rethrown? ==> calls[id].progress.Threw?
      ensures reply.Suspended? ==> C.IsWaiting(manager.State(), calls[id].progress)
    {
      hide C.IsRun, C.Apply, C.AtMostTwo, C.Outcome;
      var connected := Await(id, calls[id].progress.pledge);
      if !connected {
        return Suspended;
      }
      Segment(id, C.FirstResumes(id));
      if calls[id].progress.Unavailable? {
        return Reply.XrplUnavailable;
      }
      Yield(id);
      var end := Pick<C.SendEnd>();
      Segment(id, C.FirstEnds(id, end));
      if end != C.TransportFailure {
        return if end == C.Delivered then Response else Rethrown;
      }
      reply := Retry(id);
    }

    /** The second half of `request`: on whatever the failover brings, then no further. */
    method Retry(id: nat) returns (reply: Reply)
      requires Valid() && id in calls && calls[id].progress.AwaitSecond? && C.AtMostTwo(calls[id])
      modifies this, manager
      ensures Valid() && old(run) <= run
      ensures id in calls && calls[id].payload == old(calls)[id].payload && C.AtMostTwo(calls[id])
      ensures reply.Response? ==> calls[id].progress.Answered? && |calls[id].sent| >= 1
      ensures reply.XrplUnavailable? ==> calls[id].progress.Unavailable?
      ensures reply.Rethrown? ==> calls[id].progress.Threw?
      ensures reply.Suspended? ==> C.IsWaiting(manager.State(), calls[id].progress)
    {
      hide C.IsRun, C.Apply, C.AtMostTwo, C.Outcome;
      var switched := Await(id, calls[id].progress.next);
      if !switched {
        return Suspended;
      }
      Segment(id, C.SecondResumes(id));
      if calls[id].progress.Unavailable? {
        return Reply.XrplUnavailable;
      }
      Yield(id);
      var end := Pick<C.SendEnd>();
      Segment(id, C.SecondEnds(id, end));
      if end != C.TransportFailure {
        return if end == C.Delivered then Response else Rethrown;
      }
      GiveUp(id);
      reply := Reply.XrplUnavailable;
    }

    /** Both sends failed: if the connection was dropped, its release is awaited first. */
    method GiveUp(id: nat)
      requires Valid() && id in calls && C.AtMostTwo(calls[id])
      requires calls[id].progress.Releasing? || calls[id].progress.Unavailable?
      modifies this, manager
      ensures Valid() && old(run) <= run
      ensures id in calls && calls[id].payload == old(calls)[id].payload && C.AtMostTwo(calls[id])
      ensures calls[id].progress.Unavailable?
    {
      hide C.IsRun, C.Apply, C.AtMostTwo;
      if calls[id].progress.Releasing? {
        Yield(id);
        Segment(id, C.ReleaseEnds(id));
      }
    }
  }

  ghost function LastOf(run: seq<C.System>): nat
    requires C.IsRun(run)
  {
    |run| - 1
  }

  /** Where a call can stand after its own segment. */
  predicate LeadsTo(a: C.Action, p: C.Progress) {
    match a
    case StartRequest(_, _) => p.AwaitFirst?
    case FirstResumes(_) => p.SendingFirst? || p.Unavailable?
    case FirstEnds(_, end) =>
      if end == C.Delivered then p.Answered? else if end == C.OtherError then p.Threw? else p.AwaitSecond?
    case SecondResumes(_) => p.SendingSecond? || p.Unavailable?
    case SecondEnds(_, end) =>
      if end == C.Delivered then p.Answered? else if end == C.OtherError then p.Threw? else p.Releasing? || p.Unavailable?
    case ReleaseEnds(_) => p.Unavailable?
    case _ => false
  }

  lemma OwnSegment(s: C.System, a: C.Action, id: nat)
    requires C.Enabled(s, a) && C.CallOf(a) == Some(id)
    ensures var s' := C.Apply(s, a);
      && id in s'.calls && LeadsTo(a, s'.calls[id].progress)
      && s'.calls[id].payload == if a.StartRequest? then a.payload else s.calls[id].payload
  {
    hide C.Connection, C.Failover, C.SwitchEndpoint;
  }
}
